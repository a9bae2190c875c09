/** The JUnit 5 `BeforeAllCallback` that insists on
    `@TestInstance(TestInstance.Lifecycle.PER_CLASS)` for a `@MicronautTest`
    class that implements `TestPropertyProvider` or extends itself with
    Mockito's extension. The reflected test class is modelled as a value; the
    callback is a function from it to the outcome "returns normally" or
    "throws IllegalStateException". */
module LifecycleValidator {
  import opened KotlinStdlib

  const MICRONAUT_TEST := "io.micronaut.test.extensions.junit5.annotation.MicronautTest"
  const EXTEND_WITH := "org.junit.jupiter.api.extension.ExtendWith"
  const TEST_INSTANCE := "org.junit.jupiter.api.TestInstance"
  const MOCKITO_EXTENSION := "org.mockito.junit.jupiter.MockitoExtension"

  /** Spelling of the annotation the message asks for. */
  const PER_CLASS_ANNOTATION := "@TestInstance(TestInstance.Lifecycle.PER_CLASS)"

  /** The three reason phrases of the `when`, built from the two facts they
      report. */
  const MOCKITO_PHRASE := "@ExtendWith(MockitoExtension::class)"
  const REASON_PROVIDER := "implements TestPropertyProvider"
  const REASON_MOCKITO := "uses " + MOCKITO_PHRASE
  const REASON_BOTH := REASON_PROVIDER + " and uses " + MOCKITO_PHRASE

  /** `TestInstance.Lifecycle`. */
  datatype Lifecycle = PerMethod | PerClass

  /** One runtime annotation of a class. `@ExtendWith` and `@TestInstance` are
      the two whose attributes the validator reads; every other annotation is
      known only by the fully-qualified name of its type (a `Marker` is never
      named after one of those two types). */
  datatype Annotation =
    | ExtendWith(values: seq<string>)   // names of the extension classes listed in `value`
    | TestInstance(lifecycle: Lifecycle)
    | Marker(typeName: string)

  /** `annotation.annotationClass.java.name`. */
  function TypeName(a: Annotation): string {
    match a
    case ExtendWith(_) => EXTEND_WITH
    case TestInstance(_) => TEST_INSTANCE
    case Marker(n) => n
  }

  /** What reflection shows of a test class: its simple name, the annotations
      `getAnnotations()` returns, in order, whether `TestPropertyProvider` is
      assignable from it, and, for each annotation type, the type names of the
      annotations on that annotation type (a type that is not a key carries
      none). */
  datatype TestClass = TestClass(
    simpleName: string,
    annotations: seq<Annotation>,
    metaAnnotations: map<string, set<string>>,
    implementsTestPropertyProvider: bool)

  /** The annotation types present on the type of annotation `a`. */
  function MetaAnnotationsOf(c: TestClass, a: Annotation): set<string> {
    if TypeName(a) in c.metaAnnotations then c.metaAnnotations[TypeName(a)] else {}
  }

  /** `clazz.isAnnotationPresent(target)`. */
  function IsAnnotationPresent(c: TestClass, target: string): bool {
    exists a :: a in c.annotations && TypeName(a) == target
  }

  /** Reference reading of "annotated with `target`" as the validator means
      it: some annotation of the class has type `target`, or has a type that
      is itself annotated with `target`. */
  ghost predicate OnClassOrItsAnnotations(c: TestClass, target: string) {
    || (exists i :: 0 <= i < |c.annotations| && TypeName(c.annotations[i]) == target)
    || (exists i :: 0 <= i < |c.annotations| && target in MetaAnnotationsOf(c, c.annotations[i]))
  }

  /** True when `target` is on the class itself or on the type of one of its
      annotations. One level of meta-annotation only: an annotation on an
      annotation on an annotation is not seen. */
  function HasAnnotationRecursively(c: TestClass, target: string): (r: bool)
    ensures r <==> OnClassOrItsAnnotations(c, target)
  {
    if IsAnnotationPresent(c, target) then true
    else Any(c.annotations, (a: Annotation) => target in MetaAnnotationsOf(c, a))
  }

  /** `filterIsInstance<ExtendWith>()` followed by `it.value.toList()`, for one
      annotation: the listed extension class names of an `@ExtendWith`, and
      nothing for any other annotation. */
  function ExtendWithValues(a: Annotation): seq<string> {
    if a.ExtendWith? then a.values else []
  }

  /** Reference reading of "uses Mockito's extension": some value of some
      `@ExtendWith` of the class has that exact class name. */
  ghost predicate MockitoExtensionListed(c: TestClass) {
    exists i, j :: 0 <= i < |c.annotations| && c.annotations[i].ExtendWith? &&
                   0 <= j < |c.annotations[i].values| && c.annotations[i].values[j] == MOCKITO_EXTENSION
  }

  /** Some `@ExtendWith` annotation of the class lists a class whose name is
      exactly `org.mockito.junit.jupiter.MockitoExtension`; the class itself is
      never loaded. */
  function UsesMockitoExtension(c: TestClass): (r: bool)
    ensures r <==> MockitoExtensionListed(c)
  {
    var names := FlatMap(c.annotations, ExtendWithValues);
    var r := Any(names, (n: string) => n == MOCKITO_EXTENSION);
    assert r <==> MOCKITO_EXTENSION in names;
    if r then
      var i :| 0 <= i < |c.annotations| && MOCKITO_EXTENSION in ExtendWithValues(c.annotations[i]);
      var j :| 0 <= j < |c.annotations[i].values| && c.annotations[i].values[j] == MOCKITO_EXTENSION;
      r
    else
      r
  }

  /** Annotation `i` is the first `@TestInstance` among `annotations`. */
  predicate FirstTestInstance(annotations: seq<Annotation>, i: int) {
    0 <= i < |annotations| && annotations[i].TestInstance? &&
    forall k :: 0 <= k < i ==> !annotations[k].TestInstance?
  }

  /** `getAnnotation(TestInstance::class.java)?.value`: the lifecycle of the
      first `@TestInstance` annotation, or `None` when there is none. */
  function LifecycleOf(annotations: seq<Annotation>): (r: Option<Lifecycle>)
    ensures r == None <==> forall i :: 0 <= i < |annotations| ==> !annotations[i].TestInstance?
    ensures r.Some? ==> exists i :: FirstTestInstance(annotations, i) && annotations[i].lifecycle == r.value
  {
    if |annotations| == 0 then None
    else if annotations[0].TestInstance? then Some(annotations[0].lifecycle)
    else
      var r := LifecycleOf(annotations[1..]);
      assert forall i :: 0 < i < |annotations| ==> annotations[i] == annotations[1..][i - 1];
      if r.Some? then
        var j :| FirstTestInstance(annotations[1..], j) && annotations[1..][j].lifecycle == r.value;
        assert forall k :: 0 <= k < j + 1 ==> !annotations[k].TestInstance? by {
          forall k | 0 <= k < j + 1 ensures !annotations[k].TestInstance? {
            if k > 0 { assert annotations[k] == annotations[1..][k - 1]; }
          }
        }
        assert annotations[j + 1] == annotations[1..][j];
        assert FirstTestInstance(annotations, j + 1);
        r
      else
        r
  }

  /** The reason phrase, by the `when` whose first true branch wins. */
  function Reason(implementsProvider: bool, usesMockito: bool): string {
    if implementsProvider && usesMockito then REASON_BOTH
    else if implementsProvider then REASON_PROVIDER
    else REASON_MOCKITO
  }

  /** The lines of the exception message after `trimIndent()`: two lines that
      name the class and the reason, the annotation to add, a class skeleton
      that names the class again, and a fixed explanation. */
  function MessageLines(simpleName: string, reason: string): seq<string> {
    ["Test class " + simpleName + " is annotated with @MicronautTest and " + reason + ","]
    + MESSAGE_ADVICE
    + ["class " + simpleName + " {"]
    + MESSAGE_EXPLANATION
  }

  const MESSAGE_ADVICE: seq<string> := [
    "but is missing " + PER_CLASS_ANNOTATION + ".",
    "",
    "Add this annotation to the test class:",
    "",
    PER_CLASS_ANNOTATION ]

  const MESSAGE_EXPLANATION: seq<string> := [
    "  // ...",
    "}",
    "",
    "Why is this required?",
    "- TestPropertyProvider.getProperties() is called during test context initialization",
    "- @BeforeAll/@AfterAll methods need to run at the class level, not per test",
    "- PER_CLASS lifecycle ensures proper setup/teardown sequencing" ]

  /** The text of the `IllegalStateException` for a class and a reason. */
  function MessageText(simpleName: string, reason: string): string {
    JoinLines(MessageLines(simpleName, reason))
  }

  /** The outcome of `beforeAll`: it either returns or throws an
      `IllegalStateException`, which is known by the two values its message
      template is filled with. */
  datatype Outcome = Returned | IllegalState(simpleName: string, reason: string) {
    /** The exception's message. */
    function Message(): string
      requires IllegalState?
    {
      MessageText(simpleName, reason)
    }
  }

  /** The class needs the per-class lifecycle. */
  ghost predicate RequiresPerClass(c: TestClass) {
    OnClassOrItsAnnotations(c, MICRONAUT_TEST) && (c.implementsTestPropertyProvider || MockitoExtensionListed(c))
  }

  /** The class's first `@TestInstance` says `PER_CLASS`. */
  ghost predicate DeclaresPerClass(c: TestClass) {
    exists i :: FirstTestInstance(c.annotations, i) && c.annotations[i].lifecycle == PerClass
  }

  /** `TestInstanceLifecycleValidator.beforeAll`. It throws exactly when the
      class needs the per-class lifecycle and does not declare it (a missing
      `@TestInstance` counts as not declaring it), and the message is built
      from the class's simple name and the reason phrase. */
  function BeforeAll(c: TestClass): (r: Outcome)
    ensures r.IllegalState? <==> RequiresPerClass(c) && LifecycleOf(c.annotations) != Some(PerClass)
    ensures r.IllegalState? ==>
      r.simpleName == c.simpleName && r.reason == Reason(c.implementsTestPropertyProvider, UsesMockitoExtension(c))
  {
    var hasMicronautTest := HasAnnotationRecursively(c, MICRONAUT_TEST);
    var implementsTestPropertyProvider := c.implementsTestPropertyProvider;
    var usesMockitoExtension := UsesMockitoExtension(c);
    if hasMicronautTest && (implementsTestPropertyProvider || usesMockitoExtension) then
      var lifecycle := LifecycleOf(c.annotations);
      if lifecycle != Some(PerClass) then
        IllegalState(c.simpleName, Reason(implementsTestPropertyProvider, usesMockitoExtension))
      else
        Returned
    else
      Returned
  }

  // ---------------------------------------------------------------------
  // Properties of the validator

  /** `getAnnotation` finds the first `@TestInstance`. */
  lemma {:induction false} LifecycleOfFirst(annotations: seq<Annotation>, i: int)
    requires FirstTestInstance(annotations, i)
    ensures LifecycleOf(annotations) == Some(annotations[i].lifecycle)
  {
    if i > 0 {
      assert annotations[1..][i - 1] == annotations[i];
      assert forall k :: 0 <= k < i - 1 ==> annotations[1..][k] == annotations[k + 1];
      LifecycleOfFirst(annotations[1..], i - 1);
    }
  }

  /** DeclaresPerClass is exactly "the looked-up lifecycle is PER_CLASS". */
  lemma DeclaresPerClassIsLookup(c: TestClass)
    ensures DeclaresPerClass(c) <==> LifecycleOf(c.annotations) == Some(PerClass)
  {
    var ann := c.annotations;
    if DeclaresPerClass(c) {
      var i :| FirstTestInstance(ann, i) && ann[i].lifecycle == PerClass;
      LifecycleOfFirst(ann, i);
    }
  }

  /** The accept/reject rule stated wholly by the reference predicates:
      rejected iff the class needs the per-class lifecycle and its first
      `@TestInstance`, if any, does not say `PER_CLASS`. */
  lemma {:induction false} RejectedIff(c: TestClass)
    ensures BeforeAll(c).IllegalState? <==> RequiresPerClass(c) && !DeclaresPerClass(c)
  {
    DeclaresPerClassIsLookup(c);
  }

  /** Without `@MicronautTest`, directly or one level down, nothing is thrown,
      whatever the other facts are. */
  lemma NoMicronautTestNeverThrows(c: TestClass)
    requires !OnClassOrItsAnnotations(c, MICRONAUT_TEST)
    ensures BeforeAll(c) == Returned
  {
  }

  /** A class that declares `PER_CLASS` is never rejected. */
  lemma PerClassNeverThrows(c: TestClass)
    requires DeclaresPerClass(c)
    ensures BeforeAll(c) == Returned
  {
    DeclaresPerClassIsLookup(c);
  }

  /** When the guard holds, a missing `@TestInstance` and an explicit
      `PER_METHOD` are both rejected. */
  lemma MissingOrPerMethodRejected(c: TestClass)
    requires RequiresPerClass(c)
    requires LifecycleOf(c.annotations) in {None, Some(PerMethod)}
    ensures BeforeAll(c).IllegalState?
  {
    DeclaresPerClassIsLookup(c);
  }

  /** Which facts the reason phrase reports: it names `TestPropertyProvider`
      exactly when the class implements it, and Mockito's extension exactly
      when the class uses it or (the `else` branch) does not implement the
      provider. */
  lemma {:induction false} ReasonMentions(implementsProvider: bool, usesMockito: bool)
    ensures Contains(Reason(implementsProvider, usesMockito), REASON_PROVIDER) <==> implementsProvider
    ensures Contains(Reason(implementsProvider, usesMockito), MOCKITO_PHRASE) <==>
              usesMockito || !implementsProvider
  {
    ContainsSelf(REASON_PROVIDER);
    ContainsSelf(MOCKITO_PHRASE);
    ContainsAppendRight(REASON_PROVIDER, " and uses ", REASON_PROVIDER);
    ContainsAppendRight(REASON_PROVIDER + " and uses ", MOCKITO_PHRASE, REASON_PROVIDER);
    ContainsAppendLeft(REASON_PROVIDER + " and uses ", MOCKITO_PHRASE, MOCKITO_PHRASE);
    ContainsAppendLeft("uses ", MOCKITO_PHRASE, MOCKITO_PHRASE);
    // The provider reason is too short to hold the Mockito phrase, and no window of
    // the Mockito reason starts with the provider phrase's first letter.
    assert !Contains(REASON_PROVIDER, MOCKITO_PHRASE);
    assert !Contains(REASON_MOCKITO, REASON_PROVIDER) by {
      forall i | 0 <= i ensures !OccursAt(REASON_MOCKITO, REASON_PROVIDER, i) {
        if i + |REASON_PROVIDER| <= |REASON_MOCKITO| {
          MockitoReasonWindowStart(i);
          assert REASON_MOCKITO[i..i + |REASON_PROVIDER|][0] == REASON_MOCKITO[i];
        }
      }
    }
  }

  /** None of the first eleven letters of the Mockito reason is an 'i'. */
  lemma MockitoReasonWindowStart(i: int)
    requires 0 <= i && i + |REASON_PROVIDER| <= |REASON_MOCKITO|
    ensures REASON_MOCKITO[i] != REASON_PROVIDER[0]
  {
    assert REASON_PROVIDER[0] == 'i';
    assert i == 0 || i == 1 || i == 2 || i == 3 || i == 4 || i == 5 || i == 6 || i == 7 || i == 8 || i == 9 || i == 10;
  }

  /** The message names the class, gives the reason, and shows the annotation
      to add. */
  lemma MessageMentions(simpleName: string, reason: string)
    ensures Contains(MessageText(simpleName, reason), simpleName)
    ensures Contains(MessageText(simpleName, reason), reason)
    ensures Contains(MessageText(simpleName, reason), PER_CLASS_ANNOTATION)
  {
    var lines := MessageLines(simpleName, reason);
    var head := "Test class ";
    var middle := " is annotated with @MicronautTest and ";
    ContainsSelf(simpleName);
    ContainsSelf(reason);
    ContainsSelf(PER_CLASS_ANNOTATION);
    ContainsInside(head, simpleName, middle + reason + ",", simpleName);
    assert lines[0] == head + simpleName + (middle + reason + ",");
    ContainsInside(head + simpleName + middle, reason, ",", reason);
    ContainsLine(lines, 0, simpleName);
    ContainsLine(lines, 0, reason);
    ContainsLine(lines, 5, PER_CLASS_ANNOTATION);
  }

  /** What a rejection's message says: the class's simple name, the
      annotation to add, `TestPropertyProvider` when the class implements it,
      and Mockito's extension when the class uses it. */
  lemma {:induction false} RejectionMessage(c: TestClass)
    requires RequiresPerClass(c) && !DeclaresPerClass(c)
    ensures Contains(BeforeAll(c).Message(), c.simpleName)
    ensures Contains(BeforeAll(c).Message(), PER_CLASS_ANNOTATION)
    ensures c.implementsTestPropertyProvider ==> Contains(BeforeAll(c).Message(), REASON_PROVIDER)
    ensures MockitoExtensionListed(c) ==> Contains(BeforeAll(c).Message(), MOCKITO_PHRASE)
  {
    DeclaresPerClassIsLookup(c);
    var p := c.implementsTestPropertyProvider;
    var m := UsesMockitoExtension(c);
    var reason := Reason(p, m);
    MessageMentions(c.simpleName, reason);
    ReasonMentions(p, m);
    if p {
      ContainsTransitive(MessageText(c.simpleName, reason), reason, REASON_PROVIDER);
    }
    if m {
      ContainsTransitive(MessageText(c.simpleName, reason), reason, MOCKITO_PHRASE);
    }
  }

  /** The meta-annotation search stops after one level: `@MicronautTest` on the
      type of an annotation on the type of the class's only annotation is not
      found. */
  lemma OneLevelOnly(outer: string, inner: string)
    requires outer != MICRONAUT_TEST && inner != MICRONAUT_TEST && outer != inner
    ensures !HasAnnotationRecursively(
      TestClass("Deep", [Marker(outer)], map[outer := {inner}, inner := {MICRONAUT_TEST}], true),
      MICRONAUT_TEST)
  {
  }
}
