# micronaut-utils: the test-lifecycle validator and the publish convention

This project models two pieces of pkware's micronaut-utils and proves what they promise.

- **`TestInstanceLifecycleValidator`** is a JUnit 5 `BeforeAllCallback`. It requires `@TestInstance(TestInstance.Lifecycle.PER_CLASS)` on a test class when two things hold. First, the class is annotated with `@MicronautTest`, either directly or through one level of meta-annotation. Second, the class implements `TestPropertyProvider` or lists `org.mockito.junit.jupiter.MockitoExtension` in an `@ExtendWith`. When both hold and the per-class lifecycle is missing, it throws `IllegalStateException`. The message names the class, gives a reason phrase chosen by a three-way `when`, and shows the annotation to add.
- **The publish convention's value logic**:
  - `isReleaseBuild`: a version is a release unless it contains "SNAPSHOT";
  - the choice between the release and the snapshot repository URL;
  - the project-property getters and their defaults: repository URLs, Nexus credentials, signing keys, POM packaging, POM name and POM description.

Files:

- `kotlin_stdlib.dfy` (module `KotlinStdlib`) models the Kotlin library calls the source uses: `any`, `flatMap`, `CharSequence.contains` and joining lines with `"\n"`. Each is defined the way the library computes it, by recursion from the front. Each is specified by what it means: a witness index, membership, or an occurrence position.
- `lifecycle_validator.dfy` (module `LifecycleValidator`) models the reflected class and the validator:
  - a `TestClass` value holds the simple name, the ordered runtime annotations, a map from each annotation type to the annotation types on it, and the `TestPropertyProvider` assignability flag;
  - annotations are `ExtendWith(values)`, `TestInstance(lifecycle)`, or `Marker(typeName)` for any other annotation;
  - `BeforeAll` returns `Returned` or `IllegalState(simpleName, reason)`;
  - an `IllegalState` outcome stands for the thrown exception, and its `Message()` is the exception's text.
- `lifecycle_validator_examples.dfy` (module `LifecycleValidatorExamples`) writes the unit tests' classes as values and proves each test's expected outcome.
- `publish_convention.dfy` (module `PublishConvention`) models a Gradle project as its name, its version string and its property map.

The validator is a pure function. Its only observable effect is the exception, so the model returns an outcome value and has no state.

The message is modelled as the text `trimIndent()` produces: the template's lines, with the common indentation removed and the leading and trailing blank lines dropped, joined with `"\n"`.

## Model

| member | source | states |
|---|---|---|
| KotlinStdlib.Any | junit-jupiter/src/main/kotlin/com/pkware/micronaut/junit/TestInstanceLifecycleValidator.kt:104-106 | `any` is true iff some element, at some index, satisfies the predicate |
| KotlinStdlib.FlatMap | junit-jupiter/src/main/kotlin/com/pkware/micronaut/junit/TestInstanceLifecycleValidator.kt:49-51 | an element is in the flattened list iff it is in the image of some element |
| KotlinStdlib.Contains | buildSrc/src/main/kotlin/com/pkware/gradle/PublishConventionPlugin.kt:98-99 | `contains` is true iff the substring occurs at some position |
| KotlinStdlib.ContainsTransitive | junit-jupiter/src/test/kotlin/com/pkware/micronaut/junit/TestInstanceLifecycleValidatorTest.kt:126-127 | a substring of a substring of the message is in the message (used to turn "the message contains the reason" into "the message contains each fact the reason names") |
| KotlinStdlib.ContainsLine | junit-jupiter/src/main/kotlin/com/pkware/micronaut/junit/TestInstanceLifecycleValidator.kt:69-85 | text inside one line of the multi-line message is inside the whole message |
| LifecycleValidator.HasAnnotationRecursively | junit-jupiter/src/main/kotlin/com/pkware/micronaut/junit/TestInstanceLifecycleValidator.kt:97-107 | true iff the target is on the class or on the type of one of its annotations, exactly one level deep |
| LifecycleValidator.OneLevelOnly | junit-jupiter/src/main/kotlin/com/pkware/micronaut/junit/TestInstanceLifecycleValidator.kt:103-106 | `@MicronautTest` two meta-levels down is not found |
| LifecycleValidator.UsesMockitoExtension | junit-jupiter/src/main/kotlin/com/pkware/micronaut/junit/TestInstanceLifecycleValidator.kt:49-52 | the filter/flatMap/any pipeline is true iff some value of some `@ExtendWith` on the class is the exact name `org.mockito.junit.jupiter.MockitoExtension`; the match is by name |
| LifecycleValidator.LifecycleOf | junit-jupiter/src/main/kotlin/com/pkware/micronaut/junit/TestInstanceLifecycleValidator.kt:56-57 | `None` iff the class has no `@TestInstance`; otherwise the value of the first `@TestInstance` |
| LifecycleValidator.LifecycleOfFirst | junit-jupiter/src/main/kotlin/com/pkware/micronaut/junit/TestInstanceLifecycleValidator.kt:56-57 | the lookup returns the lifecycle of the first `@TestInstance` |
| LifecycleValidator.DeclaresPerClassIsLookup | junit-jupiter/src/main/kotlin/com/pkware/micronaut/junit/TestInstanceLifecycleValidator.kt:56-59 | "declares PER_CLASS" holds iff the looked-up lifecycle is `PER_CLASS` |
| LifecycleValidator.BeforeAll | junit-jupiter/src/main/kotlin/com/pkware/micronaut/junit/TestInstanceLifecycleValidator.kt:38-89 | throws iff the class has `@MicronautTest` (directly or one level down), and implements the provider or uses Mockito, and the `@TestInstance` lookup does not give `PER_CLASS` (a missing annotation gives none); otherwise returns; the exception's message is filled with the class's simple name and the reason the `when` chooses |
| LifecycleValidator.RejectedIff | junit-jupiter/src/main/kotlin/com/pkware/micronaut/junit/TestInstanceLifecycleValidator.kt:55-59 | rejected iff `@MicronautTest` is present (directly or one level down), and the provider or Mockito fact holds, and the class does not declare `PER_CLASS` in its first `@TestInstance` |
| LifecycleValidator.NoMicronautTestNeverThrows | junit-jupiter/src/main/kotlin/com/pkware/micronaut/junit/TestInstanceLifecycleValidator.kt:55 | without `@MicronautTest` nothing is thrown, whatever the provider, Mockito and lifecycle facts are |
| LifecycleValidator.PerClassNeverThrows | junit-jupiter/src/main/kotlin/com/pkware/micronaut/junit/TestInstanceLifecycleValidator.kt:59 | a class that declares `PER_CLASS` is never rejected |
| LifecycleValidator.MissingOrPerMethodRejected | junit-jupiter/src/main/kotlin/com/pkware/micronaut/junit/TestInstanceLifecycleValidator.kt:56-59 | when the guard holds, both a missing `@TestInstance` and an explicit `PER_METHOD` are rejected |
| LifecycleValidator.ReasonMentions | junit-jupiter/src/main/kotlin/com/pkware/micronaut/junit/TestInstanceLifecycleValidator.kt:60-67 | the reason names `TestPropertyProvider` iff the provider flag holds; it names `@ExtendWith(MockitoExtension::class)` iff the Mockito flag holds or the provider flag does not (the `else` branch) |
| LifecycleValidator.MessageMentions | junit-jupiter/src/main/kotlin/com/pkware/micronaut/junit/TestInstanceLifecycleValidator.kt:69-77 | the message contains the simple name, the reason and `@TestInstance(TestInstance.Lifecycle.PER_CLASS)` |
| LifecycleValidator.RejectionMessage | junit-jupiter/src/main/kotlin/com/pkware/micronaut/junit/TestInstanceLifecycleValidator.kt:60-77 | a rejection's message contains the class name and the annotation to add; it names the provider when the class implements it and Mockito's extension when the class uses it |
| LifecycleValidatorExamples.ProviderWithPerClassAccepted | junit-jupiter/src/test/kotlin/com/pkware/micronaut/junit/TestInstanceLifecycleValidatorTest.kt:28-41 | a meta-annotated `@MicronautTest` provider with `PER_CLASS` is accepted, and the meta-annotation is detected |
| LifecycleValidatorExamples.MockitoWithPerClassAccepted | junit-jupiter/src/test/kotlin/com/pkware/micronaut/junit/TestInstanceLifecycleValidatorTest.kt:43-55 | a Mockito user with `PER_CLASS` is accepted |
| LifecycleValidatorExamples.ProviderWithoutTestInstanceRejected | junit-jupiter/src/test/kotlin/com/pkware/micronaut/junit/TestInstanceLifecycleValidatorTest.kt:72-90 | a provider without `@TestInstance` is rejected with a message naming the class, the annotation and the provider |
| LifecycleValidatorExamples.MockitoWithoutTestInstanceRejected | junit-jupiter/src/test/kotlin/com/pkware/micronaut/junit/TestInstanceLifecycleValidatorTest.kt:92-108 | a Mockito user without `@TestInstance` is rejected with a message naming the class and Mockito's extension |
| LifecycleValidatorExamples.BothWithoutTestInstanceRejected | junit-jupiter/src/test/kotlin/com/pkware/micronaut/junit/TestInstanceLifecycleValidatorTest.kt:110-128 | a class that is both is rejected, and the message mentions both |
| LifecycleValidatorExamples.NeitherAccepted | junit-jupiter/src/test/kotlin/com/pkware/micronaut/junit/TestInstanceLifecycleValidatorTest.kt:130-179 | a `@MicronautTest` class with neither fact is accepted, with no `@TestInstance` and with `PER_METHOD` |
| LifecycleValidatorExamples.NoMicronautTestAccepted | junit-jupiter/src/test/kotlin/com/pkware/micronaut/junit/TestInstanceLifecycleValidatorTest.kt:142-166 | without `@MicronautTest`, a provider and a Mockito user are both accepted |
| PublishConvention.IsReleaseBuild | buildSrc/src/main/kotlin/com/pkware/gradle/PublishConventionPlugin.kt:98-99 | a version is a release build iff "SNAPSHOT" occurs at no position |
| PublishConvention.SnapshotSuffixIsSnapshot | buildSrc/src/main/kotlin/com/pkware/gradle/PublishConventionPlugin.kt:98-99 | every version ending in "-SNAPSHOT" is a snapshot build |
| PublishConvention.ReleaseBuildParts | buildSrc/src/main/kotlin/com/pkware/gradle/PublishConventionPlugin.kt:98-99 | if a concatenation is a release build, so is each of its parts |
| PublishConvention.ReleaseBuildExamples | buildSrc/src/main/kotlin/com/pkware/gradle/PublishConventionPlugin.kt:98-99 | "1.0.0" and the lower-case "1.0.0-snapshot" are releases; "1.0.0-SNAPSHOT" is not (the match is case-sensitive) |
| PublishConvention.RepositoryUrl | buildSrc/src/main/kotlin/com/pkware/gradle/PublishConventionPlugin.kt:65 | a version with no "SNAPSHOT" publishes to the release repository URL; a version with one publishes to the snapshot repository URL |
| PublishConvention.DefaultRepositories | buildSrc/src/main/kotlin/com/pkware/gradle/PublishConventionPlugin.kt:101-111 | each URL getter gives its built-in URL when its own key is absent, whatever the other key holds; so a release with no `RELEASE_REPOSITORY_URL` goes to the Sonatype staging URL and a snapshot with no `SNAPSHOT_REPOSITORY_URL` to the maven-snapshots URL |
| PublishConvention.RepositoryOverrides | buildSrc/src/main/kotlin/com/pkware/gradle/PublishConventionPlugin.kt:101-111 | a set `RELEASE_REPOSITORY_URL` replaces the release URL and a set `SNAPSHOT_REPOSITORY_URL` the snapshot URL, each on its own, and the chosen repository follows; a stored null reads as "null" |
| PublishConvention.CredentialsDefaultToEmpty | buildSrc/src/main/kotlin/com/pkware/gradle/PublishConventionPlugin.kt:113-126 | `NEXUS_USERNAME`, `NEXUS_PASSWORD`, `SIGNING_KEY_ID`, `SIGNING_KEY` and `SIGNING_PASSWORD` default to the empty string |
| PublishConvention.CredentialsReadTheirKeys | buildSrc/src/main/kotlin/com/pkware/gradle/PublishConventionPlugin.kt:113-126 | each credential and signing getter returns the text set under its own key, and "null" for a stored null |
| PublishConvention.PomDefaults | buildSrc/src/main/kotlin/com/pkware/gradle/PublishConventionPlugin.kt:128-135 | packaging defaults to "jar" and the name to the project name; the description always equals the name |
| PublishConvention.PomReadsItsKeys | buildSrc/src/main/kotlin/com/pkware/gradle/PublishConventionPlugin.kt:128-132 | `pomPackaging` and `pomName` return the text set under their own keys, and "null" for a stored null |
| PublishConvention.PomDescriptionIgnoresDescriptionKey | buildSrc/src/main/kotlin/com/pkware/gradle/PublishConventionPlugin.kt:134-135 | as written, a configured `POM_DESCRIPTION` is not read, and the POM name is used instead |
| PublishConvention.IntendedPomDescription | buildSrc/src/main/kotlin/com/pkware/gradle/PublishConventionPlugin.kt:134-135 | the corrected getter returns `POM_DESCRIPTION` when it is set, and the project name otherwise |
| PublishConvention.IntendedPomDescriptionIgnoresName | buildSrc/src/main/kotlin/com/pkware/gradle/PublishConventionPlugin.kt:134-135 | the corrected description does not depend on `POM_NAME` |

## Left out

- Java reflection itself is not modelled. `requiredTestClass`, `getAnnotations`, `isAssignableFrom` and `getSimpleName` are taken as already evaluated into the `TestClass` value. So is `isAnnotationPresent` on each annotation's type, as the `metaAnnotations` map. `isAnnotationPresent` and `getAnnotation` on the test class itself are modelled from its annotation list, by `IsAnnotationPresent` and `LifecycleOf`.
- The repository URL is modelled as the string handed to Gradle's `uri(...)`. How `uri` resolves it is not modelled: a string that is not an absolute URI becomes a file path relative to the project directory.
- `@Inherited` annotations from superclasses are not modelled separately. The modelled `annotations` list is whatever `getAnnotations()` returns.
- The container annotation of repeated annotations is not modelled. When a class repeats `@ExtendWith`, Java reflection wraps the copies in an `@Extensions` container. `filterIsInstance<ExtendWith>()` then sees none of them. The model only has direct `ExtendWith` annotations.
- A `Marker` annotation is assumed never to carry the type name of `ExtendWith` or `TestInstance`. A real class cannot have such an annotation.
- The exact whitespace of the message depends on `trimIndent()`. The model assumes the template's blank lines reduce to empty lines.
- None of the `apply()` bodies are modelled: `PublishConventionPlugin.apply`, `PublishCatalogConventionPlugin`, `JavaConventionsPlugin` and `KotlinConventionsPlugin`. They are configuration calls into Gradle, Maven publishing, signing, Spotless and Detekt, whose code is not part of this model. The literal POM and SCM fields set inside `apply()` are left out with them.
- The `System.getenv()` check for `CI`, which decides whether artifacts are signed, is environment I/O and is left out.
- The project version is taken as its `toString()`. Gradle's handling of non-string versions is not modelled.
- The `settings.gradle.kts` and `build.gradle.kts` scripts are build wiring and are not modelled.
- `Assisted.java` declares an annotation and has no logic.
- `AssistedInterceptor.java` hands the call to Micronaut's `BeanContext.createBean`, which is not part of this model.
- The assisted-inject tests and their fixtures exercise the DI container, not this repository's logic.

## Findings

| source | as written | input that shows it | evidently intended | confidence | as-written member | corrected member |
|---|---|---|---|---|---|---|
| buildSrc/src/main/kotlin/com/pkware/gradle/PublishConventionPlugin.kt:134-135 | `pomDescription` reads the `POM_NAME` key, the same key as `pomName` | properties `POM_NAME=Utils`, `POM_DESCRIPTION=A utility library`: the POM description becomes "Utils" | read a `POM_DESCRIPTION` key, falling back to the project name | medium, not executed | PublishConvention.PomDescriptionIgnoresDescriptionKey | PublishConvention.IntendedPomDescription |
