/** Scaffolding an empty working directory and then deleting the project leaves nothing behind:
    not the scaffolded paths, and not the working directory itself. */
module InverseLaw {
  import opened Common
  import opened Pyproject
  import opened FileSystem
  import opened Helper
  import opened FileCreation
  import opened ScaffoldLaws
  import opened UnscaffoldLaws

  /** A real filesystem in which the working directory is an empty directory other than the root. */
  ghost predicate EmptyBase(m: Entries, cwd: Path)
  {
    && Tree(m) && cwd != [] && IsDir(m, cwd)
    && forall q :: q in m ==> !Below(cwd, q)
  }

  /** Every relative part of the plan is non-empty; the parent of each is the working directory
      or one of the three directories the plan makes first. */
  lemma PlanTailParents(projectName: string, fastapi: bool)
    ensures var tails := PlanTails(projectName, fastapi);
      && |tails| >= 3
      && tails[0] == ["src"] && tails[1] == ["src", projectName] && tails[2] == ["tests"]
      && forall i :: 0 <= i < |tails| ==>
           && tails[i] != []
           && (|tails[i]| == 1
               || (i > 0 && tails[i][..|tails[i]| - 1] == tails[0])
               || (i > 1 && tails[i][..|tails[i]| - 1] == tails[1])
               || (i > 2 && tails[i][..|tails[i]| - 1] == tails[2]))
  {
    var tails := PlanTails(projectName, fastapi);
    forall i | 0 <= i < |tails|
      ensures tails[i] != []
      ensures (|tails[i]| == 1
               || (i > 0 && tails[i][..|tails[i]| - 1] == tails[0])
               || (i > 1 && tails[i][..|tails[i]| - 1] == tails[1])
               || (i > 2 && tails[i][..|tails[i]| - 1] == tails[2]))
    {
      if i < 5 {
        assert tails[i] == DirTails(projectName)[i];
      } else if fastapi && i == 5 {
        assert tails[i] == ["src", projectName, "main.py"];
      } else {
        var k := if fastapi then 6 else 5;
        assert tails[i] == FileTails()[i - k];
      }
    }
  }

  /** The first three calls of the plan make `src`, the application directory and `tests`; every
      later call is a touch or a write. */
  lemma PlanKinds(cwd: Path, projectName: string, pythonVersion: string, authorName: string,
                  fastapi: bool, year: int)
    ensures var plan := ScaffoldPlan(cwd, projectName, pythonVersion, authorName, fastapi, year);
      && |plan| >= 3
      && (forall i :: 0 <= i < 3 ==> plan[i].Mkdir?)
      && (forall i :: 3 <= i < |plan| ==> plan[i].Touch? || plan[i].WriteText?)
  {
    SegmentKinds(cwd, projectName, fastapi, authorName,
                 BuildManifest(projectName, pythonVersion, authorName, fastapi), year);
  }

  /** `PlanKinds` for any manifest. */
  lemma SegmentKinds(cwd: Path, projectName: string, fastapi: bool, authorName: string,
                     manifest: Manifest, year: int)
    ensures var plan := ScaffoldDirs(cwd, projectName) + ScaffoldStub(cwd, projectName, fastapi)
                        + ScaffoldFiles(cwd, authorName, manifest, year);
      && |plan| >= 3
      && (forall i :: 0 <= i < 3 ==> plan[i].Mkdir?)
      && (forall i :: 3 <= i < |plan| ==> plan[i].Touch? || plan[i].WriteText?)
  {
    var dirs := ScaffoldDirs(cwd, projectName);
    var stub := ScaffoldStub(cwd, projectName, fastapi);
    var files := ScaffoldFiles(cwd, authorName, manifest, year);
    FilesCreateOnly(cwd, authorName, manifest, year);
    var plan := dirs + stub + files;
    forall i | 3 <= i < |plan| ensures plan[i].Touch? || plan[i].WriteText? {
      if i < 5 {
        assert plan[i] == dirs[i];
      } else if i < 5 + |stub| {
        assert plan[i] == stub[i - 5];
      } else {
        assert plan[i] == files[i - 5 - |stub|];
        assert files[i - 5 - |stub|] in files;
      }
    }
  }

  /** Every path of the plan lies inside the working directory. */
  lemma ScaffoldPathsBelow(cwd: Path, name: string, fastapi: bool)
    ensures forall q :: q in ScaffoldPaths(cwd, name, fastapi) ==> Below(cwd, q)
  {
    PlanTailParents(name, fastapi);
    forall q | q in ScaffoldPaths(cwd, name, fastapi) ensures Below(cwd, q) {
      var t :| t in PlanTails(name, fastapi) && q == cwd + t;
      assert q[..|cwd|] == cwd;
    }
  }

  /** On an empty working directory the plan meets what `RunOpsFresh` asks of it. */
  lemma PlanFreshOnEmptyBase(m: Entries, cwd: Path, name: string, pythonVersion: string,
                             author: string, fastapi: bool, year: int)
    requires ValidateProjectName(name).Ok?
    requires EmptyBase(m, cwd)
    ensures var plan := ScaffoldPlan(cwd, name, pythonVersion, author, fastapi, year);
      && (forall i :: 0 <= i < |plan| ==> Creates(plan[i]) && plan[i].path !in m && plan[i].path != [])
      && (forall i, j :: 0 <= i < j < |plan| ==> plan[i].path != plan[j].path)
      && (forall i :: 0 <= i < |plan| ==> ParentReady(m, plan, i))
  {
    var plan := ScaffoldPlan(cwd, name, pythonVersion, author, fastapi, year);
    var tails := PlanTails(name, fastapi);
    PlanNamesTails(cwd, name, pythonVersion, author, fastapi, year);
    PlanPathsDistinct(cwd, name, pythonVersion, author, fastapi, year);
    PlanKinds(cwd, name, pythonVersion, author, fastapi, year);
    PlanTailParents(name, fastapi);
    PlanCreatesOnly(cwd, name, pythonVersion, author, fastapi, year);
    forall i | 0 <= i < |plan|
      ensures Creates(plan[i]) && plan[i].path !in m && plan[i].path != []
      ensures ParentReady(m, plan, i)
    {
      assert plan[i] in plan;
      var t := tails[i];
      assert Below(cwd, cwd + t);
      assert Parent(cwd + t) == cwd + t[..|t| - 1];
      if |t| == 1 {
        assert Parent(cwd + t) == cwd;
      } else {
        var j := if i > 0 && t[..|t| - 1] == tails[0] then 0
                 else if i > 1 && t[..|t| - 1] == tails[1] then 1
                 else 2;
        assert plan[j] == Mkdir(Parent(cwd + t));
      }
    }
  }

  /** Running a list of fresh creations, made of three directories followed by files, named by
      `cwd` and `tails`: it returns normally, adds exactly the named paths with the right kinds,
      and keeps every other entry. */
  lemma FreshRunLayout(m: Entries, plan: seq<Op>, cwd: Path, tails: seq<Path>)
    requires forall i :: 0 <= i < |plan| ==> Creates(plan[i]) && plan[i].path !in m && plan[i].path != []
    requires forall i, j :: 0 <= i < j < |plan| ==> plan[i].path != plan[j].path
    requires forall i :: 0 <= i < |plan| ==> ParentReady(m, plan, i)
    requires NamesTails(plan, cwd, tails) && |plan| >= 3
    requires forall i :: 0 <= i < 3 ==> plan[i].Mkdir?
    requires forall i :: 3 <= i < |plan| ==> plan[i].Touch? || plan[i].WriteText?
    ensures var s := RunOps(m, plan);
      && s.raised.None?
      && (forall q :: q in s.fs <==> q in m || q in (set t | t in tails :: cwd + t))
      && (forall q :: q in m ==> s.fs[q] == m[q])
      && (forall i :: 0 <= i < |tails| ==> cwd + tails[i] in s.fs && (s.fs[cwd + tails[i]].Dir? <==> i < 3))
  {
    RunOpsFresh(m, plan);
    var s := RunOps(m, plan);
    forall q ensures q in s.fs <==> q in m || q in (set t | t in tails :: cwd + t) {
      if q in (set t | t in tails :: cwd + t) {
        var t :| t in tails && q == cwd + t;
        var i :| 0 <= i < |tails| && tails[i] == t;
        assert q == plan[i].path;
      } else {
        RunOpsFrame(m, plan, q);
      }
    }
    forall q | q in m ensures s.fs[q] == m[q] {
      RunOpsFrame(m, plan, q);
    }
    forall i | 0 <= i < |tails| ensures cwd + tails[i] in s.fs && (s.fs[cwd + tails[i]].Dir? <==> i < 3) {
      assert cwd + tails[i] == plan[i].path;
    }
  }

  /** On an empty working directory, `create_project_structure` with valid names returns normally;
      afterwards exactly the plan's paths are new, the first three directories and the rest files,
      and every other entry is as it was. */
  lemma ScaffoldOnEmptyBase(m: Entries, cwd: Path, name: string, pythonVersion: string,
                            author: string, fastapi: bool, year: int)
    requires ValidateProjectName(name).Ok? && ValidateAuthorName(author).Ok?
    requires EmptyBase(m, cwd)
    ensures var s := Scaffold(m, cwd, name, pythonVersion, author, fastapi, year);
      var tails := PlanTails(name, fastapi);
      && s.raised.None?
      && (forall q :: q in s.fs <==> q in m || q in ScaffoldPaths(cwd, name, fastapi))
      && (forall q :: q in m ==> s.fs[q] == m[q])
      && (forall i :: 0 <= i < |tails| ==> cwd + tails[i] in s.fs && (s.fs[cwd + tails[i]].Dir? <==> i < 3))
  {
    var plan := ScaffoldPlan(cwd, name, pythonVersion, author, fastapi, year);
    PlanFreshOnEmptyBase(m, cwd, name, pythonVersion, author, fastapi, year);
    PlanNamesTails(cwd, name, pythonVersion, author, fastapi, year);
    PlanKinds(cwd, name, pythonVersion, author, fastapi, year);
    ScaffoldRunsPlan(m, cwd, name, pythonVersion, author, fastapi, year);
    FreshRunLayout(m, plan, cwd, PlanTails(name, fastapi));
  }

  /** `Below` is transitive. */
  lemma BelowTrans(a: Path, b: Path, c: Path)
    requires Below(a, b) && Below(b, c)
    ensures Below(a, c)
  {
    assert c[..|a|] == c[..|b|][..|a|];
  }

  /** For the `k`-th path of the plan, the entry of the delete list that covers it. */
  function CoveringEntry(fastapi: bool, k: int): nat
  {
    var f := if fastapi then 1 else 0;
    if k == 1 || k == 3 || (fastapi && k == 5) then 8
    else if k == 2 || k == 4 || k == 5 + f then 7
    else if k == 6 + f then 6
    else if k == 7 + f then 0
    else if k == 8 + f then 5
    else if k == 9 + f then 4
    else 3
  }

  /** How the delete list sits against the plan: every entry lies inside the working directory;
      none covers `src`; every other path of the plan is covered by some entry; and no entry has
      one of the plan's three directories strictly inside it. */
  lemma DeletePlanAgainstPlan(cwd: Path, name: string, fastapi: bool)
    requires ValidateProjectName(name).Ok?
    ensures var ps := DeletePlan(cwd, name, fastapi);
      var tails := PlanTails(name, fastapi);
      && (forall i :: 0 <= i < |ps| ==> Below(cwd, ps[i]))
      && Untouched(ps, cwd + ["src"])
      && (forall k :: 1 <= k < |tails| ==> !Untouched(ps, cwd + tails[k]))
      && (forall i, k :: 0 <= i < |ps| && 0 <= k < 3 ==> !Below(ps[i], cwd + tails[k]))
  {
    ProjectNameIsComponent(name);
    var ps := DeletePlan(cwd, name, fastapi);
    var tails := PlanTails(name, fastapi);
    PlanTailParents(name, fastapi);
    forall i | 0 <= i < |ps| ensures Below(cwd, ps[i]) && !Covers(ps[i], cwd + ["src"]) {
      assert ps[i][..|cwd|] == cwd;
      assert (cwd + ["src"])[|cwd|] == "src";
    }
    forall i, k | 0 <= i < |ps| && 0 <= k < 3 ensures !Below(ps[i], cwd + tails[k]) {
      assert (cwd + ["src", name])[..|cwd| + 1] == cwd + ["src"];
    }
    forall k | 1 <= k < |tails| ensures !Untouched(ps, cwd + tails[k]) {
      var q := cwd + tails[k];
      var j := CoveringEntry(fastapi, k);
      assert Covers(ps[j], q) by {
        assert ps[j] == q[..|ps[j]|];
      }
    }
  }

  /** `s` is what scaffolding the empty base `m` leaves: a tree holding the old entries unchanged
      and the plan's paths, the first three directories and the rest files. */
  ghost predicate Scaffolded(m: Entries, s: Entries, cwd: Path, name: string, fastapi: bool)
  {
    var tails := PlanTails(name, fastapi);
    && ValidateProjectName(name).Ok?
    && EmptyBase(m, cwd) && Tree(s)
    && (forall q :: q in s <==> q in m || q in ScaffoldPaths(cwd, name, fastapi))
    && (forall q :: q in m ==> s[q] == m[q])
    && (forall i :: 0 <= i < |tails| ==> cwd + tails[i] in s && (s[cwd + tails[i]].Dir? <==> i < 3))
  }

  /** After scaffolding an empty base, nothing inside an entry of the delete list is a directory. */
  lemma ScaffoldedHasNoSubdirs(m: Entries, s: Entries, cwd: Path, name: string, fastapi: bool)
    requires Scaffolded(m, s, cwd, name, fastapi)
    ensures var ps := DeletePlan(cwd, name, fastapi);
      (forall i :: 0 <= i < |ps| ==> ps[i] != []) && NoSubdirs(s, ps)
  {
    var ps := DeletePlan(cwd, name, fastapi);
    var tails := PlanTails(name, fastapi);
    DeletePlanAgainstPlan(cwd, name, fastapi);
    forall i, q | 0 <= i < |ps| && q in s && Below(ps[i], q) ensures s[q].File? {
      BelowTrans(cwd, ps[i], q);
      assert q !in m;
      var t :| t in tails && q == cwd + t;
      var k :| 0 <= k < |tails| && tails[k] == t;
      assert Below(ps[i], cwd + tails[k]);
    }
  }

  /** Entries outside `cwd` are out of reach of a delete list inside `cwd`. */
  lemma OutsideUntouched(m: Entries, cwd: Path, ps: seq<Path>)
    requires forall i :: 0 <= i < |ps| ==> Below(cwd, ps[i])
    requires forall q :: q in m ==> !Below(cwd, q)
    ensures forall q :: q in m ==> Untouched(ps, q)
  {
    forall q, i | q in m && 0 <= i < |ps| ensures !Covers(ps[i], q) {
      if Below(ps[i], q) {
        BelowTrans(cwd, ps[i], q);
      }
    }
  }

  /** Every scaffolded path except `src` is reached by the delete list. */
  lemma ScaffoldedTouched(m: Entries, s: Entries, cwd: Path, name: string, fastapi: bool)
    requires Scaffolded(m, s, cwd, name, fastapi)
    ensures var ps := DeletePlan(cwd, name, fastapi);
      forall q :: q in s && q !in m && q != cwd + ["src"] ==> !Untouched(ps, q)
    ensures IsDir(s, cwd + ["src"]) && cwd + ["src"] !in m
  {
    var tails := PlanTails(name, fastapi);
    DeletePlanAgainstPlan(cwd, name, fastapi);
    PlanTailParents(name, fastapi);
    forall q | q in s && q !in m && q != cwd + ["src"]
      ensures !Untouched(DeletePlan(cwd, name, fastapi), q)
    {
      var t :| t in tails && q == cwd + t;
      var k :| 0 <= k < |tails| && tails[k] == t;
      assert k != 0;
    }
    assert cwd + ["src"] == cwd + tails[0];
    assert Below(cwd, cwd + ["src"]);
  }

  /** After scaffolding an empty base, the delete list removes every scaffolded path except `src`,
      which is then an empty directory, and leaves every older entry as it was. */
  lemma DeleteListAfterScaffold(m: Entries, s: Entries, cwd: Path, name: string, fastapi: bool)
    requires Scaffolded(m, s, cwd, name, fastapi)
    ensures var d := DeletePaths(s, DeletePlan(cwd, name, fastapi));
      && d.raised.None?
      && (forall q :: q in d.fs <==> q in m || q == cwd + ["src"])
      && (forall q :: q in m ==> d.fs[q] == m[q])
      && IsDir(d.fs, cwd + ["src"])
  {
    var ps := DeletePlan(cwd, name, fastapi);
    DeletePlanAgainstPlan(cwd, name, fastapi);
    ScaffoldedHasNoSubdirs(m, s, cwd, name, fastapi);
    ScaffoldedTouched(m, s, cwd, name, fastapi);
    OutsideUntouched(m, cwd, ps);
    DeletePathsClean(s, ps);
    DeletePathsEffect(s, ps);
  }

  /** A child of a subdirectory of `d` lies below `d`. */
  lemma GrandchildBelow(d: Path, x: string, q: Path)
    ensures IsChild(d + [x], q) ==> Below(d, q)
  {
    if IsChild(d + [x], q) {
      assert q[..|d|] == q[..|d + [x]|][..|d|];
    }
  }

  /** What the delete list leaves of a scaffolded empty base: `src` with nothing in it, the old
      entries, and a working directory with nothing in it once `src` is gone. */
  lemma LeftoverIsEmptySrc(m: Entries, d: Entries, cwd: Path)
    requires EmptyBase(m, cwd)
    requires forall q :: q in d <==> q in m || q == cwd + ["src"]
    requires forall q :: q in m ==> d[q] == m[q]
    ensures !HasChildren(d, cwd + ["src"])
    ensures d - {cwd + ["src"]} == m
    ensures !HasChildren(m, cwd)
  {
    var src := cwd + ["src"];
    forall q | q in d ensures !IsChild(src, q) {
      GrandchildBelow(cwd, "src", q);
    }
    assert src !in m;
  }

  /** Deleting the project from what scaffolding an empty base left restores the filesystem as it
      was before, without the working directory. */
  lemma UnscaffoldAfterScaffold(m: Entries, s: Entries, cwd: Path, name: string, fastapi: bool)
    requires Scaffolded(m, s, cwd, name, fastapi)
    ensures Unscaffold(s, cwd, name, fastapi) == Run(m - {cwd}, None)
  {
    var d := DeletePaths(s, DeletePlan(cwd, name, fastapi)).fs;
    DeleteListAfterScaffold(m, s, cwd, name, fastapi);
    LeftoverIsEmptySrc(m, d, cwd);
    UnscaffoldSteps(s, d, m, cwd, name, fastapi);
  }

  /** The two removals that close `delete_project_files`: the emptied `src`, then the emptied
      working directory. */
  lemma UnscaffoldSteps(s: Entries, d: Entries, m: Entries, cwd: Path, name: string, fastapi: bool)
    requires IsDir(s, cwd) && cwd != []
    requires DeletePaths(s, DeletePlan(cwd, name, fastapi)) == Run(d, None)
    requires IsDir(d, SrcDir(cwd)) && !HasChildren(d, SrcDir(cwd)) && d - {SrcDir(cwd)} == m
    requires IsDir(m, cwd) && !HasChildren(m, cwd)
    ensures Unscaffold(s, cwd, name, fastapi) == Run(m - {cwd}, None)
  {
    assert Apply(d, Rmdir(SrcDir(cwd))) == Run(m, None);
  }

  /** The inverse law: on an empty working directory other than the root, creating the project
      with valid names and then deleting it returns normally both times and leaves the filesystem
      as it was, minus the working directory, which the deletion removes as well. */
  lemma ScaffoldThenUnscaffold(m: Entries, cwd: Path, name: string, pythonVersion: string,
                               author: string, fastapi: bool, year: int)
    requires ValidateProjectName(name).Ok? && ValidateAuthorName(author).Ok?
    requires EmptyBase(m, cwd)
    ensures var s := Scaffold(m, cwd, name, pythonVersion, author, fastapi, year);
      && s.raised.None?
      && Unscaffold(s.fs, cwd, name, fastapi) == Run(m - {cwd}, None)
  {
    var s := Scaffold(m, cwd, name, pythonVersion, author, fastapi, year).fs;
    ScaffoldOnEmptyBase(m, cwd, name, pythonVersion, author, fastapi, year);
    ScaffoldKeepsTree(m, cwd, name, pythonVersion, author, fastapi, year);
    UnscaffoldAfterScaffold(m, s, cwd, name, fastapi);
  }
}
