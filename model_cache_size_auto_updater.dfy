/**
 * The model-cache size updater: on a model change it reads the open projects,
 * builds one entry per Gradle build (keyed by its settings directory) holding the
 * number of projects of that build plus one, sums the entries with Java `int`
 * arithmetic and hands the total to a consumer that resizes the model cache.
 */
module CacheSize {
  import opened Wrappers
  import opened JavaLang
  import opened Files

  /** The Gradle facet of an open project, with what the updater reads of its current model. */
  datatype GradleProject = GradleProject(
    modelEverSet: bool,
    settingsDir: Path,
    numberOfProjectsInThisBuild: Int32)

  /** An open project; `gradle` is None when the project has no Gradle facet in its lookup. */
  datatype Project = Project(gradle: Option<GradleProject>)

  /** Whether a project takes part in sizing: it is a Gradle project whose model was set at least once. */
  predicate Retained(p: Project) {
    p.gradle.Some? && p.gradle.value.modelEverSet
  }

  /** Whether a project takes part in sizing and belongs to the build of settings directory `dir`. */
  predicate ContributesTo(p: Project, dir: Path) {
    Retained(p) && p.gradle.value.settingsDir == dir
  }

  /** The slots one build needs: its projects plus one for a possible buildSrc, as a Java `int`. */
  function Slots(g: GradleProject): (r: Int32)
    ensures g.numberOfProjectsInThisBuild < MAX_INT ==> r == g.numberOfProjectsInThisBuild + 1
    ensures g.numberOfProjectsInThisBuild == MAX_INT ==> r == MIN_INT
  {
    Wrap(g.numberOfProjectsInThisBuild + 1)
  }

  /**
   * The map built from the open projects in array order: each retained project
   * (re)sets the entry of its settings directory, so the last one wins.
   */
  function ProjectSizes(projects: seq<Project>): (r: map<Path, Int32>)
    ensures |r| <= |projects|
  {
    if projects == [] then map[]
    else
      var m := ProjectSizes(projects[..|projects| - 1]);
      var p := projects[|projects| - 1];
      if Retained(p) then m[p.gradle.value.settingsDir := Slots(p.gradle.value)] else m
  }

  /** The mathematical sum of a map's values, each entry taken once. */
  ghost function ValuesSum(m: map<Path, int>): int
    decreases |m|
  {
    if m == map[] then 0
    else
      var k :| k in m;
      assert |m - {k}| == |m| - 1;
      m[k] + ValuesSum(m - {k})
  }

  /** The cache size one `checkCacheSize` run passes to the consumer for this snapshot of open projects. */
  ghost function RequiredCacheSize(projects: seq<Project>): Int32 {
    Wrap(ValuesSum(ProjectSizes(projects)))
  }

  /** The consumer of the computed cache size; it records every value it was given, in order. */
  class CacheSizeConsumer {
    var accepted: seq<Int32>

    constructor ()
      ensures accepted == []
    {
      accepted := [];
    }

    method Accept(requiredCacheSize: Int32)
      modifies this
      ensures accepted == old(accepted) + [requiredCacheSize]
    {
      accepted := accepted + [requiredCacheSize];
    }
  }

  /** The executor that runs the size checks; its scheduling is not part of the model. */
  class UpdateTaskExecutor {
    constructor () { }
  }

  class ModelCacheSizeAutoUpdater {
    const cacheSizeCheckExecutor: UpdateTaskExecutor
    const cacheSizeUpdater: CacheSizeConsumer

    constructor (cacheSizeCheckExecutor: UpdateTaskExecutor, cacheSizeUpdater: CacheSizeConsumer)
      ensures this.cacheSizeCheckExecutor == cacheSizeCheckExecutor
      ensures this.cacheSizeUpdater == cacheSizeUpdater
    {
      this.cacheSizeCheckExecutor := cacheSizeCheckExecutor;
      this.cacheSizeUpdater := cacheSizeUpdater;
    }

    /** The public constructor's argument checks: a null executor or consumer is refused, the executor checked first. */
    static method Create(cacheSizeCheckExecutor: UpdateTaskExecutor?, cacheSizeUpdater: CacheSizeConsumer?)
      returns (r: Result<ModelCacheSizeAutoUpdater, Exception>)
      ensures cacheSizeCheckExecutor == null ==> r == Failure(NullPointerException("cacheSizeCheckExecutor"))
      ensures cacheSizeCheckExecutor != null && cacheSizeUpdater == null ==>
        r == Failure(NullPointerException("cacheSizeUpdater"))
      ensures cacheSizeCheckExecutor != null && cacheSizeUpdater != null ==>
        && r.Success? && fresh(r.value)
        && r.value.cacheSizeCheckExecutor == cacheSizeCheckExecutor
        && r.value.cacheSizeUpdater == cacheSizeUpdater
    {
      if cacheSizeCheckExecutor == null {
        return Failure(NullPointerException("cacheSizeCheckExecutor"));
      }
      if cacheSizeUpdater == null {
        return Failure(NullPointerException("cacheSizeUpdater"));
      }
      var updater := new ModelCacheSizeAutoUpdater(cacheSizeCheckExecutor, cacheSizeUpdater);
      return Success(updater);
    }

    /** A model change requests one size check over the open projects at the time it runs. */
    method OnModelChanged(openProjects: seq<Project>)
      modifies cacheSizeUpdater
      ensures cacheSizeUpdater.accepted == old(cacheSizeUpdater.accepted) + [RequiredCacheSize(openProjects)]
    {
      CheckCacheSize(openProjects);
    }

    /** One size check: the consumer is called exactly once, with the sum of the per-build sizes. */
    method CheckCacheSize(openProjects: seq<Project>)
      modifies cacheSizeUpdater
      ensures cacheSizeUpdater.accepted == old(cacheSizeUpdater.accepted) + [RequiredCacheSize(openProjects)]
    {
      var projectSizes := GetProjectSizes(openProjects);
      var requiredCacheSize := Sum(projectSizes);
      cacheSizeUpdater.Accept(requiredCacheSize);
    }

    /** The sum of all values with Java's wrapping `int` addition; 0 for an empty map. */
    static method Sum(values: map<Path, Int32>) returns (result: Int32)
      ensures result == Wrap(ValuesSum(values))
    {
      result := 0;
      var rest := values;
      ghost var exact := 0;
      while rest != map[]
        invariant exact + ValuesSum(rest) == ValuesSum(values)
        invariant result == Wrap(exact)
        decreases |rest|
      {
        var k :| k in rest;
        var value: int := rest[k];
        ValuesSumRemove(rest, k);
        WrapAdd(exact, value);
        assert |rest - {k}| == |rest| - 1;
        result := Wrap(result + value);
        exact := exact + value;
        rest := rest - {k};
      }
    }

    /** The per-build sizes of the open projects, built by one pass in array order. */
    static method GetProjectSizes(projects: seq<Project>) returns (sizes: map<Path, Int32>)
      ensures sizes == ProjectSizes(projects)
    {
      var projectSizes: Option<map<Path, Int32>> := None;
      for i := 0 to |projects|
        invariant projectSizes.None? ==> ProjectSizes(projects[..i]) == map[]
        invariant projectSizes.Some? ==> projectSizes.value == ProjectSizes(projects[..i])
      {
        assert projects[..i + 1][..i] == projects[..i];
        var gradleProject := projects[i].gradle;
        if gradleProject.Some? && gradleProject.value.modelEverSet {
          var numberOfProjectsInThisBuild: int := gradleProject.value.numberOfProjectsInThisBuild;
          if projectSizes.None? {
            projectSizes := Some(map[]);
          }
          projectSizes := Some(projectSizes.value[gradleProject.value.settingsDir := Wrap(numberOfProjectsInThisBuild + 1)]);
        }
      }
      assert projects[..|projects|] == projects;
      sizes := if projectSizes.Some? then projectSizes.value else map[];
    }
  }

  /** The sum does not depend on which entry is taken first. */
  lemma {:induction false} ValuesSumRemove(m: map<Path, int>, k: Path)
    requires k in m
    ensures ValuesSum(m) == m[k] + ValuesSum(m - {k})
    decreases |m|
  {
    var j :| j in m && ValuesSum(m) == m[j] + ValuesSum(m - {j});
    if j != k {
      assert |m - {j}| == |m| - 1;
      assert |m - {k}| == |m| - 1;
      ValuesSumRemove(m - {j}, k);
      ValuesSumRemove(m - {k}, j);
      assert m - {j} - {k} == m - {k} - {j};
    }
  }

  /** A sum of values that are each at least 1 is at least the number of entries. */
  lemma {:induction false} ValuesSumAtLeastSize(m: map<Path, int>)
    requires forall k :: k in m ==> m[k] >= 1
    ensures ValuesSum(m) >= |m|
    decreases |m|
  {
    if m != map[] {
      var k :| k in m;
      ValuesSumRemove(m, k);
      assert |m - {k}| == |m| - 1;
      ValuesSumAtLeastSize(m - {k});
    }
  }

  /** A settings directory has an entry exactly when some retained project of that build is open. */
  lemma {:induction false} ProjectSizesKeys(projects: seq<Project>, dir: Path)
    ensures dir in ProjectSizes(projects) <==> exists i :: 0 <= i < |projects| && ContributesTo(projects[i], dir)
  {
    if projects != [] {
      var init := projects[..|projects| - 1];
      ProjectSizesKeys(init, dir);
      if dir in ProjectSizes(projects) && !ContributesTo(projects[|projects| - 1], dir) {
        var i :| 0 <= i < |init| && ContributesTo(init[i], dir);
        assert projects[i] == init[i];
      }
      if i :| 0 <= i < |projects| && ContributesTo(projects[i], dir) {
        if i < |init| {
          assert init[i] == projects[i];
        }
      }
    }
  }

  /** The project `i` is the last retained project of the build of `dir` in the array. */
  predicate LastContributor(projects: seq<Project>, i: int, dir: Path) {
    && 0 <= i < |projects|
    && ContributesTo(projects[i], dir)
    && forall j :: i < j < |projects| ==> !ContributesTo(projects[j], dir)
  }

  /** The entry of a build holds the slots of the last retained project of that build: last write wins. */
  lemma {:induction false} ProjectSizesLastWins(projects: seq<Project>, i: int, dir: Path)
    requires LastContributor(projects, i, dir)
    ensures dir in ProjectSizes(projects)
    ensures ProjectSizes(projects)[dir] == Slots(projects[i].gradle.value)
  {
    var init := projects[..|projects| - 1];
    if i < |projects| - 1 {
      assert LastContributor(init, i, dir) by {
        forall j | i < j < |init| ensures !ContributesTo(init[j], dir) {
          assert init[j] == projects[j];
        }
      }
      ProjectSizesLastWins(init, i, dir);
    }
  }

  /** A project without a Gradle facet, or whose model was never set, changes nothing wherever it stands. */
  lemma {:induction false} ExcludedProjectIgnored(before: seq<Project>, p: Project, after: seq<Project>)
    requires !Retained(p)
    ensures ProjectSizes(before + [p] + after) == ProjectSizes(before + after)
    decreases |after|
  {
    if after == [] {
      assert (before + [p])[..|before|] == before;
      assert before + [p] + after == before + [p];
      assert before + after == before;
    } else {
      var init := after[..|after| - 1];
      var q := after[|after| - 1];
      ExcludedProjectIgnored(before, p, init);
      assert (before + [p] + after)[..|before + [p] + after| - 1] == before + [p] + init;
      assert (before + after)[..|before + after| - 1] == before + init;
      assert (before + [p] + after)[|before + [p] + after| - 1] == q;
      assert (before + after)[|before + after| - 1] == q;
    }
  }

  /** The map is empty exactly when no open project is retained, in particular for no open projects. */
  lemma ProjectSizesEmpty(projects: seq<Project>)
    ensures ProjectSizes(projects) == map[] <==> forall i :: 0 <= i < |projects| ==> !Retained(projects[i])
  {
    if ProjectSizes(projects) != map[] {
      var dir :| dir in ProjectSizes(projects);
      ProjectSizesKeys(projects, dir);
    }
    if i :| 0 <= i < |projects| && Retained(projects[i]) {
      ProjectSizesKeys(projects, projects[i].gradle.value.settingsDir);
    }
  }

  /** With no retained project the consumer is given 0. */
  lemma RequiredCacheSizeZero(projects: seq<Project>)
    requires forall i :: 0 <= i < |projects| ==> !Retained(projects[i])
    ensures RequiredCacheSize(projects) == 0
  {
    ProjectSizesEmpty(projects);
  }

  /**
   * With non-negative build sizes below the `int` maximum and a total that fits
   * in an `int`, nothing wraps: the consumer gets the exact sum of
   * `numberOfProjectsInThisBuild + 1` over the distinct builds, at least one per build.
   */
  lemma RequiredCacheSizeAtLeastBuilds(projects: seq<Project>)
    requires forall i :: 0 <= i < |projects| && Retained(projects[i]) ==>
      0 <= projects[i].gradle.value.numberOfProjectsInThisBuild < MAX_INT
    requires ValuesSum(ProjectSizes(projects)) <= MAX_INT
    ensures forall dir :: dir in ProjectSizes(projects) ==> ProjectSizes(projects)[dir] >= 1
    ensures RequiredCacheSize(projects) == ValuesSum(ProjectSizes(projects))
    ensures RequiredCacheSize(projects) >= |ProjectSizes(projects)|
  {
    var m := ProjectSizes(projects);
    forall dir | dir in m ensures m[dir] >= 1 {
      ProjectSizesKeys(projects, dir);
      var i :| 0 <= i < |projects| && ContributesTo(projects[i], dir);
      var last := LastIndex(projects, i, dir);
      ProjectSizesLastWins(projects, last, dir);
    }
    ValuesSumAtLeastSize(m);
  }

  /** The last contributor of a build, found from any contributor. */
  lemma {:induction false} LastIndex(projects: seq<Project>, i: int, dir: Path) returns (last: int)
    requires 0 <= i < |projects| && ContributesTo(projects[i], dir)
    ensures i <= last && LastContributor(projects, last, dir)
    decreases |projects| - i
  {
    if j :| i < j < |projects| && ContributesTo(projects[j], dir) {
      last := LastIndex(projects, j, dir);
    } else {
      last := i;
    }
  }

  /**
   * Two open modules of the build at /repo/buildA with 3 projects, one of the build
   * at /repo/buildB with 2 projects, a non-Gradle project and one whose model was
   * never set: the required size is (3 + 1) + (2 + 1) = 7.
   */
  lemma TwoBuildsExample()
    ensures RequiredCacheSize([
      Project(Some(GradleProject(true, Path(true, ["repo", "buildA"]), 3))),
      Project(Some(GradleProject(true, Path(true, ["repo", "buildA"]), 3))),
      Project(None),
      Project(Some(GradleProject(true, Path(true, ["repo", "buildB"]), 2))),
      Project(Some(GradleProject(false, Path(true, ["repo", "buildC"]), 5)))]) == 7
  {
    var a := Path(true, ["repo", "buildA"]);
    var b := Path(true, ["repo", "buildB"]);
    var ps := [
      Project(Some(GradleProject(true, a, 3))),
      Project(Some(GradleProject(true, a, 3))),
      Project(None),
      Project(Some(GradleProject(true, b, 2))),
      Project(Some(GradleProject(false, Path(true, ["repo", "buildC"]), 5)))];
    assert ps[..4][..3][..2][..1] == [ps[0]];
    assert ps[..4][..3][..2] == [ps[0], ps[1]];
    assert ps[..4][..3] == [ps[0], ps[1], ps[2]];
    assert ps[..4] == [ps[0], ps[1], ps[2], ps[3]];
    assert ProjectSizes([ps[0]]) == map[a := 4];
    assert ProjectSizes([ps[0], ps[1]]) == map[a := 4];
    assert ProjectSizes([ps[0], ps[1], ps[2]]) == map[a := 4];
    assert ProjectSizes([ps[0], ps[1], ps[2], ps[3]]) == map[a := 4, b := 3];
    var m := ProjectSizes(ps);
    assert m == map[a := 4, b := 3];
    ValuesSumRemove(m, a);
    assert m - {a} == map[b := 3];
    ValuesSumRemove(m - {a}, b);
    assert m - {a} - {b} == map[];
  }
}
