/**
  Selection of the Equinox launcher among the project's resolved artifacts:
  the stream `filter` / `findFirst` / `map` at the top of `execute()`.
 */
module LauncherSelection {
  import opened Wrappers

  /** A resolved build artifact: its Maven artifactId and the location of its file. */
  datatype Artifact = Artifact(artifactId: string, location: string)

  /** The artifactId the launcher jar is recognised by. */
  const LauncherArtifactId: string := "org.eclipse.equinox.launcher"

  predicate IsLauncher(a: Artifact) {
    a.artifactId == LauncherArtifactId
  }

  /** Index i holds a launcher artifact and no earlier index does. */
  predicate IsFirstLauncher(artifacts: seq<Artifact>, i: int) {
    && 0 <= i < |artifacts|
    && IsLauncher(artifacts[i])
    && forall j :: 0 <= j < i ==> !IsLauncher(artifacts[j])
  }

  /** `filter(launcher).findFirst()`: the position of the first launcher artifact, if any. */
  function FirstLauncherIndex(artifacts: seq<Artifact>): (r: Option<nat>)
    ensures r.Some? ==> IsFirstLauncher(artifacts, r.value)
    ensures r.None? ==> forall j :: 0 <= j < |artifacts| ==> !IsLauncher(artifacts[j])
  {
    if |artifacts| == 0 then None
    else if IsLauncher(artifacts[0]) then Some(0)
    else
      match FirstLauncherIndex(artifacts[1..])
      case None => None
      case Some(i) => Some(i + 1)
  }

  /**
    The `Optional<URL>` of the launcher jar: the location of the first launcher
    artifact in iteration order, or nothing when the project has none.
   */
  function LauncherUrl(artifacts: seq<Artifact>): (r: Option<string>)
    ensures r.None? <==> forall j :: 0 <= j < |artifacts| ==> !IsLauncher(artifacts[j])
    ensures r.Some? ==> exists i :: IsFirstLauncher(artifacts, i) && r.value == artifacts[i].location
  {
    match FirstLauncherIndex(artifacts)
    case None => None
    case Some(i) => Some(artifacts[i].location)
  }

  /** Every launcher artifact in the sequence is the same artifact. */
  predicate SingleLauncher(artifacts: seq<Artifact>) {
    forall i, j ::
      0 <= i < |artifacts| && 0 <= j < |artifacts| && IsLauncher(artifacts[i]) && IsLauncher(artifacts[j])
      ==> artifacts[i] == artifacts[j]
  }

  /** With exactly one launcher artifact, that artifact is the one selected. */
  lemma UniqueLauncherSelected(artifacts: seq<Artifact>, i: nat)
    requires i < |artifacts| && IsLauncher(artifacts[i])
    requires forall j :: 0 <= j < |artifacts| && j != i ==> !IsLauncher(artifacts[j])
    ensures LauncherUrl(artifacts) == Some(artifacts[i].location)
  {
  }

  /**
    When there is only one launcher artifact, reordering the artifacts does not
    change the selection.
   */
  lemma SelectionIgnoresOrder(a: seq<Artifact>, b: seq<Artifact>)
    requires multiset(a) == multiset(b)
    requires SingleLauncher(a)
    ensures LauncherUrl(a) == LauncherUrl(b)
  {
    var ra, rb := FirstLauncherIndex(a), FirstLauncherIndex(b);
    if ra.Some? {
      var x := a[ra.value];
      assert x in multiset(b);
      var k :| 0 <= k < |b| && b[k] == x;
      assert IsLauncher(b[k]);
      var y := b[rb.value];
      assert y in multiset(a);
      var m :| 0 <= m < |a| && a[m] == y;
      assert a[m] == a[ra.value];
    } else {
      forall k | 0 <= k < |b| ensures !IsLauncher(b[k]) {
        assert b[k] in multiset(a);
      }
    }
  }
}
