/** The value logic of the publish convention plugin: which builds are
    releases, which Maven repository a build publishes to, and the project
    properties (with their defaults) that fill in credentials, signing keys
    and the POM. A Gradle project is modelled by its name, its version
    string and its property map. */
module PublishConvention {
  import opened KotlinStdlib

  const SNAPSHOT_MARKER := "SNAPSHOT"
  const DEFAULT_RELEASE_REPOSITORY_URL := "https://ossrh-staging-api.central.sonatype.com/service/local/staging/deploy/maven2"
  const DEFAULT_SNAPSHOT_REPOSITORY_URL := "https://central.sonatype.com/repository/maven-snapshots/"
  const DEFAULT_POM_PACKAGING := "jar"

  /** A value of `Project.properties`; any non-null value is known by its
      `toString()`. */
  datatype PropertyValue = Text(text: string) | Null

  /** Kotlin's `Any?.toString()`, which gives "null" for null. */
  function ToText(v: PropertyValue): string {
    match v
    case Text(s) => s
    case Null => "null"
  }

  datatype Project = Project(name: string, version: string, properties: map<string, PropertyValue>)

  /** `properties.getOrDefault(key, default).toString()`: the stored value
      when the key is present (even when it is null), the default otherwise. */
  function PropertyOrDefault(p: Project, key: string, default: string): string {
    if key in p.properties then ToText(p.properties[key]) else default
  }

  /** `String.isReleaseBuild`: a version is a release unless "SNAPSHOT"
      occurs anywhere in it. */
  function IsReleaseBuild(version: string): (r: bool)
    ensures r <==> forall i :: !OccursAt(version, SNAPSHOT_MARKER, i)
  {
    !Contains(version, SNAPSHOT_MARKER)
  }

  function ReleaseRepositoryUrl(p: Project): string {
    PropertyOrDefault(p, "RELEASE_REPOSITORY_URL", DEFAULT_RELEASE_REPOSITORY_URL)
  }

  function SnapshotRepositoryUrl(p: Project): string {
    PropertyOrDefault(p, "SNAPSHOT_REPOSITORY_URL", DEFAULT_SNAPSHOT_REPOSITORY_URL)
  }

  function RepositoryUsername(p: Project): string {
    PropertyOrDefault(p, "NEXUS_USERNAME", "")
  }

  function RepositoryPassword(p: Project): string {
    PropertyOrDefault(p, "NEXUS_PASSWORD", "")
  }

  function SigningKeyId(p: Project): string {
    PropertyOrDefault(p, "SIGNING_KEY_ID", "")
  }

  function SigningKey(p: Project): string {
    PropertyOrDefault(p, "SIGNING_KEY", "")
  }

  function SigningPassword(p: Project): string {
    PropertyOrDefault(p, "SIGNING_PASSWORD", "")
  }

  function PomPackaging(p: Project): string {
    PropertyOrDefault(p, "POM_PACKAGING", DEFAULT_POM_PACKAGING)
  }

  function PomName(p: Project): string {
    PropertyOrDefault(p, "POM_NAME", p.name)
  }

  /** Reads the "POM_NAME" key, like PomName. */
  function PomDescription(p: Project): string {
    PropertyOrDefault(p, "POM_NAME", p.name)
  }

  /** The URL string that is handed to `uri(...)` for the "MavenCentral"
      repository: the release repository for a version without "SNAPSHOT",
      the snapshot repository for one with it. */
  function RepositoryUrl(p: Project): (r: string)
    ensures (forall i :: !OccursAt(p.version, SNAPSHOT_MARKER, i)) ==> r == ReleaseRepositoryUrl(p)
    ensures (exists i :: OccursAt(p.version, SNAPSHOT_MARKER, i)) ==> r == SnapshotRepositoryUrl(p)
  {
    if IsReleaseBuild(p.version) then ReleaseRepositoryUrl(p) else SnapshotRepositoryUrl(p)
  }

  // ---------------------------------------------------------------------
  // Properties of the publish convention

  /** A "-SNAPSHOT" suffix always makes a snapshot build. */
  lemma {:induction false} SnapshotSuffixIsSnapshot(base: string)
    ensures !IsReleaseBuild(base + "-" + SNAPSHOT_MARKER)
  {
    ContainsSelf(SNAPSHOT_MARKER);
    ContainsAppendLeft(base + "-", SNAPSHOT_MARKER, SNAPSHOT_MARKER);
  }

  /** Release builds are closed under taking pieces: if a concatenation is a
      release, so is each part (a "SNAPSHOT" in a part is one in the whole). */
  lemma {:induction false} ReleaseBuildParts(a: string, b: string)
    requires IsReleaseBuild(a + b)
    ensures IsReleaseBuild(a) && IsReleaseBuild(b)
  {
    if Contains(a, SNAPSHOT_MARKER) {
      ContainsAppendRight(a, b, SNAPSHOT_MARKER);
    }
    if Contains(b, SNAPSHOT_MARKER) {
      ContainsAppendLeft(a, b, SNAPSHOT_MARKER);
    }
  }

  /** A plain version is a release; the match is case-sensitive, so a
      lower-case "snapshot" does not make a snapshot build either. */
  lemma ReleaseBuildExamples()
    ensures IsReleaseBuild("1.0.0")
    ensures IsReleaseBuild("1.0.0-snapshot")
    ensures !IsReleaseBuild("1.0.0-SNAPSHOT")
  {
    var v := "1.0.0-snapshot";
    forall i | 0 <= i ensures !OccursAt(v, SNAPSHOT_MARKER, i) {
      if i + |SNAPSHOT_MARKER| <= |v| {
        assert v[i..i + |SNAPSHOT_MARKER|][0] == v[i];
      }
    }
    SnapshotSuffixIsSnapshot("1.0.0");
    assert "1.0.0" + "-" + SNAPSHOT_MARKER == "1.0.0-SNAPSHOT";
  }

  /** `key` is set to the text `t` in the project's properties. */
  predicate SetTo(p: Project, key: string, t: string) {
    key in p.properties && p.properties[key] == Text(t)
  }

  /** `key` is present in the project's properties with a null value. */
  predicate SetToNull(p: Project, key: string) {
    key in p.properties && p.properties[key] == Null
  }

  /** Each repository URL getter reads its own key alone: the built-in URL
      when that key is absent, whatever the other key holds. */
  lemma DefaultRepositories(p: Project)
    ensures "RELEASE_REPOSITORY_URL" !in p.properties ==> ReleaseRepositoryUrl(p) == DEFAULT_RELEASE_REPOSITORY_URL
    ensures "SNAPSHOT_REPOSITORY_URL" !in p.properties ==> SnapshotRepositoryUrl(p) == DEFAULT_SNAPSHOT_REPOSITORY_URL
    ensures IsReleaseBuild(p.version) && "RELEASE_REPOSITORY_URL" !in p.properties ==>
              RepositoryUrl(p) == DEFAULT_RELEASE_REPOSITORY_URL
    ensures !IsReleaseBuild(p.version) && "SNAPSHOT_REPOSITORY_URL" !in p.properties ==>
              RepositoryUrl(p) == DEFAULT_SNAPSHOT_REPOSITORY_URL
  {
  }

  /** A set repository property wins over the built-in URL, each key on its
      own, and a stored null is read as the text "null". */
  lemma RepositoryOverrides(p: Project, t: string)
    ensures SetTo(p, "RELEASE_REPOSITORY_URL", t) ==> ReleaseRepositoryUrl(p) == t
    ensures SetTo(p, "SNAPSHOT_REPOSITORY_URL", t) ==> SnapshotRepositoryUrl(p) == t
    ensures IsReleaseBuild(p.version) && SetTo(p, "RELEASE_REPOSITORY_URL", t) ==> RepositoryUrl(p) == t
    ensures !IsReleaseBuild(p.version) && SetTo(p, "SNAPSHOT_REPOSITORY_URL", t) ==> RepositoryUrl(p) == t
    ensures SetToNull(p, "RELEASE_REPOSITORY_URL") ==> ReleaseRepositoryUrl(p) == "null"
    ensures SetToNull(p, "SNAPSHOT_REPOSITORY_URL") ==> SnapshotRepositoryUrl(p) == "null"
  {
  }

  /** Credentials and signing keys are empty when not configured. */
  lemma CredentialsDefaultToEmpty(p: Project)
    ensures "NEXUS_USERNAME" !in p.properties ==> RepositoryUsername(p) == ""
    ensures "NEXUS_PASSWORD" !in p.properties ==> RepositoryPassword(p) == ""
    ensures "SIGNING_KEY_ID" !in p.properties ==> SigningKeyId(p) == ""
    ensures "SIGNING_KEY" !in p.properties ==> SigningKey(p) == ""
    ensures "SIGNING_PASSWORD" !in p.properties ==> SigningPassword(p) == ""
  {
  }

  /** Credentials and signing keys are read from their own keys, a stored
      null as the text "null". */
  lemma CredentialsReadTheirKeys(p: Project, t: string)
    ensures SetTo(p, "NEXUS_USERNAME", t) ==> RepositoryUsername(p) == t
    ensures SetTo(p, "NEXUS_PASSWORD", t) ==> RepositoryPassword(p) == t
    ensures SetTo(p, "SIGNING_KEY_ID", t) ==> SigningKeyId(p) == t
    ensures SetTo(p, "SIGNING_KEY", t) ==> SigningKey(p) == t
    ensures SetTo(p, "SIGNING_PASSWORD", t) ==> SigningPassword(p) == t
    ensures SetToNull(p, "NEXUS_USERNAME") ==> RepositoryUsername(p) == "null"
    ensures SetToNull(p, "NEXUS_PASSWORD") ==> RepositoryPassword(p) == "null"
    ensures SetToNull(p, "SIGNING_KEY_ID") ==> SigningKeyId(p) == "null"
    ensures SetToNull(p, "SIGNING_KEY") ==> SigningKey(p) == "null"
    ensures SetToNull(p, "SIGNING_PASSWORD") ==> SigningPassword(p) == "null"
  {
  }

  /** POM defaults: packaging "jar", name the project's name; the description
      is read from "POM_NAME" and so always equals the name. */
  lemma PomDefaults(p: Project)
    ensures "POM_PACKAGING" !in p.properties ==> PomPackaging(p) == DEFAULT_POM_PACKAGING
    ensures "POM_NAME" !in p.properties ==> PomName(p) == p.name
    ensures PomDescription(p) == PomName(p)
  {
  }

  /** The POM packaging and name are read from their own keys, a stored null
      as the text "null". */
  lemma PomReadsItsKeys(p: Project, t: string)
    ensures SetTo(p, "POM_PACKAGING", t) ==> PomPackaging(p) == t
    ensures SetTo(p, "POM_NAME", t) ==> PomName(p) == t
    ensures SetToNull(p, "POM_PACKAGING") ==> PomPackaging(p) == "null"
    ensures SetToNull(p, "POM_NAME") ==> PomName(p) == "null"
  {
  }

  /** As written, a configured "POM_DESCRIPTION" is never read: the
      description of this project is its POM name, not "A utility library". */
  lemma PomDescriptionIgnoresDescriptionKey()
    ensures PomDescription(Project("utils", "1.0.0", map["POM_NAME" := Text("Utils"), "POM_DESCRIPTION" := Text("A utility library")]))
         == "Utils"
  {
  }

  /** The evidently intended getter: the description comes from its own key
      and falls back to the project name. */
  function IntendedPomDescription(p: Project): (r: string)
    ensures "POM_DESCRIPTION" in p.properties && p.properties["POM_DESCRIPTION"].Text? ==>
              r == p.properties["POM_DESCRIPTION"].text
    ensures "POM_DESCRIPTION" !in p.properties ==> r == p.name
  {
    PropertyOrDefault(p, "POM_DESCRIPTION", p.name)
  }

  /** The intended description is independent of the POM name. */
  lemma IntendedPomDescriptionIgnoresName(p: Project, name: string)
    ensures IntendedPomDescription(p) == IntendedPomDescription(p.(properties := p.properties["POM_NAME" := Text(name)]))
  {
  }
}
