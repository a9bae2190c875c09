/** The test classes of the validator's unit tests, written as values, and
    what `beforeAll` does with each. Every class there is a local Kotlin class,
    so besides the annotations written on it, it carries `@kotlin.Metadata`;
    `@TestMicronautTest` is the suite's own annotation type, itself annotated
    with `@MicronautTest`. */
module LifecycleValidatorExamples {
  import opened KotlinStdlib
  import opened LifecycleValidator

  const TEST_MICRONAUT_TEST := "com.pkware.micronaut.junit.TestInstanceLifecycleValidatorTest$TestMicronautTest"
  const KOTLIN_METADATA := "kotlin.Metadata"

  /** The annotations on the suite's annotation types. */
  const META: map<string, set<string>> := map[
    TEST_MICRONAUT_TEST := {MICRONAUT_TEST, "java.lang.annotation.Target", "java.lang.annotation.Retention", KOTLIN_METADATA}]

  function Local(name: string, annotations: seq<Annotation>, provider: bool): TestClass {
    TestClass(name, annotations + [Marker(KOTLIN_METADATA)], META, provider)
  }

  /** `@TestMicronautTest @TestInstance(PER_CLASS) class ValidTest : TestPropertyProvider`
      is accepted; the meta-annotation is what carries `@MicronautTest`. */
  lemma ProviderWithPerClassAccepted()
    ensures HasAnnotationRecursively(Local("ValidTest", [Marker(TEST_MICRONAUT_TEST), TestInstance(PerClass)], true), MICRONAUT_TEST)
    ensures BeforeAll(Local("ValidTest", [Marker(TEST_MICRONAUT_TEST), TestInstance(PerClass)], true)) == Returned
  {
    var c := Local("ValidTest", [Marker(TEST_MICRONAUT_TEST), TestInstance(PerClass)], true);
    assert MICRONAUT_TEST in MetaAnnotationsOf(c, c.annotations[0]);
    assert DeclaresPerClass(c) by { assert c.annotations[1] == TestInstance(PerClass); }
    PerClassNeverThrows(c);
  }

  /** `@TestMicronautTest @TestInstance(PER_CLASS) @ExtendWith(MockitoExtension::class)`
      is accepted. */
  lemma MockitoWithPerClassAccepted()
    ensures BeforeAll(Local("ValidTest", [Marker(TEST_MICRONAUT_TEST), TestInstance(PerClass), ExtendWith([MOCKITO_EXTENSION])], false)) == Returned
  {
    var c := Local("ValidTest", [Marker(TEST_MICRONAUT_TEST), TestInstance(PerClass), ExtendWith([MOCKITO_EXTENSION])], false);
    assert DeclaresPerClass(c) by { assert c.annotations[1] == TestInstance(PerClass); }
    PerClassNeverThrows(c);
  }

  /** `@TestMicronautTest class InvalidTest : TestPropertyProvider` is rejected,
      and the message names the class, the annotation and the provider. */
  lemma ProviderWithoutTestInstanceRejected()
    ensures BeforeAll(Local("InvalidTest", [Marker(TEST_MICRONAUT_TEST)], true)).IllegalState?
    ensures Contains(BeforeAll(Local("InvalidTest", [Marker(TEST_MICRONAUT_TEST)], true)).Message(), "InvalidTest")
    ensures Contains(BeforeAll(Local("InvalidTest", [Marker(TEST_MICRONAUT_TEST)], true)).Message(), PER_CLASS_ANNOTATION)
    ensures Contains(BeforeAll(Local("InvalidTest", [Marker(TEST_MICRONAUT_TEST)], true)).Message(), REASON_PROVIDER)
  {
    var c := Local("InvalidTest", [Marker(TEST_MICRONAUT_TEST)], true);
    assert MICRONAUT_TEST in MetaAnnotationsOf(c, c.annotations[0]);
    assert LifecycleOf(c.annotations) == None;
    MissingOrPerMethodRejected(c);
    RejectionMessage(c);
  }

  /** `@TestMicronautTest @ExtendWith(MockitoExtension::class) class InvalidTest`
      is rejected, and the message names the class and Mockito's extension. */
  lemma MockitoWithoutTestInstanceRejected()
    ensures BeforeAll(Local("InvalidTest", [Marker(TEST_MICRONAUT_TEST), ExtendWith([MOCKITO_EXTENSION])], false)).IllegalState?
    ensures Contains(BeforeAll(Local("InvalidTest", [Marker(TEST_MICRONAUT_TEST), ExtendWith([MOCKITO_EXTENSION])], false)).Message(), "InvalidTest")
    ensures Contains(BeforeAll(Local("InvalidTest", [Marker(TEST_MICRONAUT_TEST), ExtendWith([MOCKITO_EXTENSION])], false)).Message(), MOCKITO_PHRASE)
  {
    var c := Local("InvalidTest", [Marker(TEST_MICRONAUT_TEST), ExtendWith([MOCKITO_EXTENSION])], false);
    assert MICRONAUT_TEST in MetaAnnotationsOf(c, c.annotations[0]);
    assert MockitoExtensionListed(c) by { assert c.annotations[1].values[0] == MOCKITO_EXTENSION; }
    assert LifecycleOf(c.annotations) == None;
    MissingOrPerMethodRejected(c);
    RejectionMessage(c);
  }

  /** A class that is both is rejected with a message that mentions both. */
  lemma BothWithoutTestInstanceRejected()
    ensures BeforeAll(Local("InvalidTest", [Marker(TEST_MICRONAUT_TEST), ExtendWith([MOCKITO_EXTENSION])], true)).IllegalState?
    ensures Contains(BeforeAll(Local("InvalidTest", [Marker(TEST_MICRONAUT_TEST), ExtendWith([MOCKITO_EXTENSION])], true)).Message(), REASON_PROVIDER)
    ensures Contains(BeforeAll(Local("InvalidTest", [Marker(TEST_MICRONAUT_TEST), ExtendWith([MOCKITO_EXTENSION])], true)).Message(), MOCKITO_PHRASE)
  {
    var c := Local("InvalidTest", [Marker(TEST_MICRONAUT_TEST), ExtendWith([MOCKITO_EXTENSION])], true);
    assert MICRONAUT_TEST in MetaAnnotationsOf(c, c.annotations[0]);
    assert MockitoExtensionListed(c) by { assert c.annotations[1].values[0] == MOCKITO_EXTENSION; }
    assert LifecycleOf(c.annotations) == None;
    MissingOrPerMethodRejected(c);
    RejectionMessage(c);
  }

  /** `@TestMicronautTest class ValidTest`, with neither provider nor Mockito,
      is accepted, and so is the same with `@TestInstance(PER_METHOD)`. */
  lemma NeitherAccepted()
    ensures BeforeAll(Local("ValidTest", [Marker(TEST_MICRONAUT_TEST)], false)) == Returned
    ensures BeforeAll(Local("ValidTest", [Marker(TEST_MICRONAUT_TEST), TestInstance(PerMethod)], false)) == Returned
  {
    var c := Local("ValidTest", [Marker(TEST_MICRONAUT_TEST)], false);
    var d := Local("ValidTest", [Marker(TEST_MICRONAUT_TEST), TestInstance(PerMethod)], false);
    assert !MockitoExtensionListed(c) by {
      forall i | 0 <= i < |c.annotations| ensures !c.annotations[i].ExtendWith? { }
    }
    assert !MockitoExtensionListed(d) by {
      forall i | 0 <= i < |d.annotations| ensures !d.annotations[i].ExtendWith? { }
    }
  }

  /** Without `@MicronautTest` nothing is rejected: a PER_CLASS provider, and
      a Mockito user with no `@TestInstance` at all. */
  lemma NoMicronautTestAccepted()
    ensures BeforeAll(Local("ValidTest", [TestInstance(PerClass)], true)) == Returned
    ensures BeforeAll(Local("ValidTest", [ExtendWith([MOCKITO_EXTENSION])], false)) == Returned
  {
    var c := Local("ValidTest", [TestInstance(PerClass)], true);
    var d := Local("ValidTest", [ExtendWith([MOCKITO_EXTENSION])], false);
    assert !OnClassOrItsAnnotations(c, MICRONAUT_TEST) by {
      forall i | 0 <= i < |c.annotations|
        ensures TypeName(c.annotations[i]) != MICRONAUT_TEST && MICRONAUT_TEST !in MetaAnnotationsOf(c, c.annotations[i])
      {
        assert i == 0 || i == 1;
      }
    }
    assert !OnClassOrItsAnnotations(d, MICRONAUT_TEST) by {
      forall i | 0 <= i < |d.annotations|
        ensures TypeName(d.annotations[i]) != MICRONAUT_TEST && MICRONAUT_TEST !in MetaAnnotationsOf(d, d.annotations[i])
      {
        assert i == 0 || i == 1;
      }
    }
    NoMicronautTestNeverThrows(c);
    NoMicronautTestNeverThrows(d);
  }
}
