/** What `delete_project_files` guarantees: what it removes, what it leaves alone, when it fails,
    and that a second run finds nothing left to do. */
module UnscaffoldLaws {
  import opened Common
  import opened FileSystem
  import opened FileCreation

  /** Every entry of `a` is in `b`, with the same node: `a` is `b` with some entries removed. */
  predicate SubMap(a: Entries, b: Entries)
  {
    forall q :: q in a ==> q in b && a[q] == b[q]
  }

  /** `q` is `p` itself or lies inside it. */
  predicate Covers(p: Path, q: Path)
  {
    p == q || Below(p, q)
  }

  /** In a tree, every path above an entry is a directory. */
  lemma {:induction false} AncestorIsDir(m: Entries, d: Path, q: Path)
    requires Tree(m) && q in m && Below(d, q)
    ensures IsDir(m, d)
    decreases |q|
  {
    var up := Parent(q);
    assert IsDir(m, up);
    if up != d {
      assert Below(d, up) by {
        assert up[..|d|] == q[..|d|];
      }
      AncestorIsDir(m, d, up);
    }
  }

  /** Removing files keeps the tree shape: no entry sits in a file. */
  lemma RemoveFilesKeepsTree(m: Entries, files: set<Path>)
    requires Tree(m)
    requires forall q :: q in files ==> IsFile(m, q)
    ensures Tree(m - files)
  {
    forall q | q in m - files && q != [] ensures IsDir(m - files, Parent(q)) {
      assert IsDir(m, Parent(q));
    }
  }

  /** One entry of the list: only the entry and what lies inside it can go, nothing is added, and
      when the step returns normally the entry is gone. Below the root, the only exception is
      "directory not empty", raised when a subdirectory survives the file sweep. */
  lemma DeletePathEffect(m: Entries, p: Path)
    ensures SubMap(DeletePath(m, p).fs, m)
    ensures forall q :: !Covers(p, q) ==> Same(m, DeletePath(m, p).fs, q)
    ensures DeletePath(m, p).raised.None? ==> p !in DeletePath(m, p).fs
    ensures p != [] && DeletePath(m, p).raised.Some? ==>
              DeletePath(m, p).raised == Some(OSError(DirectoryNotEmpty))
    ensures Tree(m) ==> Tree(DeletePath(m, p).fs)
  {
    if IsDir(m, p) && !IsFile(m, p) {
      if Tree(m) {
        RemoveFilesKeepsTree(m, FilesBelow(m, p));
        ApplyKeepsTree(m - FilesBelow(m, p), Rmdir(p));
      }
    } else if IsFile(m, p) && Tree(m) {
      ApplyKeepsTree(m, Unlink(p));
    }
  }

  /** No entry of the list is `q` or lies above it. */
  predicate Untouched(ps: seq<Path>, q: Path)
  {
    forall i :: 0 <= i < |ps| ==> !Covers(ps[i], q)
  }

  /** The list as a whole: it only removes, and only what its entries cover; when it returns
      normally every entry is gone; below the root its only exception is "directory not empty". */
  lemma {:induction false} DeletePathsEffect(m: Entries, ps: seq<Path>)
    ensures SubMap(DeletePaths(m, ps).fs, m)
    ensures forall q :: Untouched(ps, q) ==> Same(m, DeletePaths(m, ps).fs, q)
    ensures DeletePaths(m, ps).raised.None? ==> forall i :: 0 <= i < |ps| ==> ps[i] !in DeletePaths(m, ps).fs
    ensures (forall i :: 0 <= i < |ps| ==> ps[i] != []) && DeletePaths(m, ps).raised.Some? ==>
              DeletePaths(m, ps).raised == Some(OSError(DirectoryNotEmpty))
    ensures Tree(m) ==> Tree(DeletePaths(m, ps).fs)
    decreases |ps|
  {
    if ps != [] {
      var r := DeletePath(m, ps[0]);
      DeletePathEffect(m, ps[0]);
      if r.raised.None? {
        var rest := ps[1..];
        DeletePathsEffect(r.fs, rest);
        var end := DeletePaths(r.fs, rest);
        forall q | Untouched(ps, q) ensures Same(m, end.fs, q) {
          assert !Covers(ps[0], q);
          assert Untouched(rest, q) by {
            forall i | 0 <= i < |rest| ensures !Covers(rest[i], q) {
              assert rest[i] == ps[i + 1];
            }
          }
        }
        if end.raised.None? {
          forall i | 0 <= i < |ps| ensures ps[i] !in end.fs {
            if i > 0 {
              assert ps[i] == rest[i - 1];
            }
          }
        }
        if (forall i :: 0 <= i < |ps| ==> ps[i] != []) {
          assert forall i :: 0 <= i < |rest| ==> rest[i] == ps[i + 1];
        }
      }
    }
  }

  /** Processing two lists one after the other. */
  lemma {:induction false} DeletePathsAppend(m: Entries, a: seq<Path>, b: seq<Path>)
    ensures DeletePaths(m, a + b) ==
      var r := DeletePaths(m, a); if r.raised.Some? then r else DeletePaths(r.fs, b)
    decreases |a|
  {
    if a != [] {
      assert (a + b)[0] == a[0] && (a + b)[1..] == a[1..] + b;
      if DeletePath(m, a[0]).raised.None? {
        DeletePathsAppend(DeletePath(m, a[0]).fs, a[1..], b);
      }
    } else {
      assert a + b == b;
    }
  }

  /** Entries that are neither files nor directories are skipped: a list none of whose entries
      exists changes nothing and raises nothing. */
  lemma {:induction false} DeletePathsSkipsAbsent(m: Entries, ps: seq<Path>)
    requires forall i :: 0 <= i < |ps| ==> ps[i] !in m
    ensures DeletePaths(m, ps) == Run(m, None)
    decreases |ps|
  {
    if ps != [] {
      DeletePathsSkipsAbsent(m, ps[1..]);
    }
  }

  /** `delete_project_files` keeps the tree shape, whether or not it raises. */
  lemma UnscaffoldKeepsTree(m: Entries, cwd: Path, projectName: string, fastapi: bool)
    requires Tree(m)
    ensures Tree(Unscaffold(m, cwd, projectName, fastapi).fs)
  {
    var r := DeletePaths(m, DeletePlan(cwd, projectName, fastapi));
    DeletePathsEffect(m, DeletePlan(cwd, projectName, fastapi));
    ApplyKeepsTree(r.fs, Rmdir(SrcDir(cwd)));
    var r2 := if IsDir(r.fs, SrcDir(cwd)) && !HasChildren(r.fs, SrcDir(cwd)) then Apply(r.fs, Rmdir(SrcDir(cwd))) else r;
    ApplyKeepsTree(r2.fs, Rmdir(cwd));
  }

  /** An entry that no listed path covers, other than `src` and the working directory themselves,
      keeps its node, or its absence, whatever happens. */
  lemma UnscaffoldFrame(m: Entries, cwd: Path, projectName: string, fastapi: bool, q: Path)
    requires Untouched(DeletePlan(cwd, projectName, fastapi), q)
    requires q != SrcDir(cwd) && q != cwd
    ensures Same(m, Unscaffold(m, cwd, projectName, fastapi).fs, q)
  {
    var r := DeletePaths(m, DeletePlan(cwd, projectName, fastapi));
    DeletePathsEffect(m, DeletePlan(cwd, projectName, fastapi));
    ApplyEffect(r.fs, Rmdir(SrcDir(cwd)));
    var r2 := if IsDir(r.fs, SrcDir(cwd)) && !HasChildren(r.fs, SrcDir(cwd)) then Apply(r.fs, Rmdir(SrcDir(cwd))) else r;
    ApplyEffect(r2.fs, Rmdir(cwd));
  }

  /** The list, walked a second time on the state the first walk left, ends in that same state with
      the same exception: the entries handled before are gone and are skipped, and an entry whose
      rmdir raised has no files left below it, so its rmdir meets the same directory again. */
  lemma {:induction false} DeletePathsRepeat(m: Entries, ps: seq<Path>)
    ensures DeletePaths(DeletePaths(m, ps).fs, ps) == DeletePaths(m, ps)
    decreases |ps|
  {
    if ps != [] {
      var p := ps[0];
      var r1 := DeletePath(m, p);
      DeletePathEffect(m, p);
      if r1.raised.Some? {
        var swept := m - FilesBelow(m, p);
        assert FilesBelow(swept, p) == {};
        assert swept - FilesBelow(swept, p) == swept;
      } else {
        var rest := ps[1..];
        DeletePathsRepeat(r1.fs, rest);
        DeletePathsEffect(r1.fs, rest);
      }
    }
  }

  /** `delete_project_files` run a second time on the state the first run left ends in that same
      state with the same exception, unless the first run removed the working directory, in which
      case the second cannot start. This holds whether or not the first run raised. */
  lemma UnscaffoldIdempotent(m: Entries, cwd: Path, projectName: string, fastapi: bool)
    ensures var r := Unscaffold(m, cwd, projectName, fastapi);
      Unscaffold(r.fs, cwd, projectName, fastapi) ==
        if IsDir(r.fs, cwd) then r else Run(r.fs, Some(OSError(FileNotFound)))
  {
    var plan := DeletePlan(cwd, projectName, fastapi);
    var src := SrcDir(cwd);
    var r := Unscaffold(m, cwd, projectName, fastapi);
    if IsDir(m, cwd) && IsDir(r.fs, cwd) {
      var d := DeletePaths(m, plan);
      DeletePathsEffect(m, plan);
      if d.raised.Some? {
        DeletePathsRepeat(m, plan);
      } else {
        var r2 := if IsDir(d.fs, src) && !HasChildren(d.fs, src) then Apply(d.fs, Rmdir(src)) else d;
        assert r.fs == r2.fs;
        assert SubMap(r2.fs, d.fs);
        DeletePathsSkipsAbsent(r2.fs, plan);
      }
    }
  }

  /** The two steps after the list, on a normal return: `src` is removed exactly when the list left
      it an empty directory, and the working directory is removed exactly when it then holds
      nothing; nothing else changes after the list. */
  lemma UnscaffoldRemovesEmptyDirs(m: Entries, cwd: Path, projectName: string, fastapi: bool)
    requires Unscaffold(m, cwd, projectName, fastapi).raised.None?
    ensures var d := DeletePaths(m, DeletePlan(cwd, projectName, fastapi)).fs;
      var src := SrcDir(cwd);
      var emptySrc := IsDir(d, src) && !HasChildren(d, src);
      var afterSrc := if emptySrc then d - {src} else d;
      && IsDir(d, cwd)
      && (src !in Unscaffold(m, cwd, projectName, fastapi).fs <==> src !in d || emptySrc)
      && (cwd !in Unscaffold(m, cwd, projectName, fastapi).fs <==> !HasChildren(afterSrc, cwd))
      && Unscaffold(m, cwd, projectName, fastapi).fs == if HasChildren(afterSrc, cwd) then afterSrc else afterSrc - {cwd}
  {
    var plan := DeletePlan(cwd, projectName, fastapi);
    DeletePathsEffect(m, plan);
    forall i | 0 <= i < |plan| ensures !Covers(plan[i], cwd) {
      assert |plan[i]| > |cwd|;
    }
    var d := DeletePaths(m, plan).fs;
    assert Same(m, d, cwd);
    var src := SrcDir(cwd);
    var afterSrc := if IsDir(d, src) && !HasChildren(d, src) then d - {src} else d;
    assert (if IsDir(d, src) && !HasChildren(d, src) then Apply(d, Rmdir(src)) else Run(d, None)) == Run(afterSrc, None);
    assert IsDir(afterSrc, cwd);
  }

  /** On a directory where no listed path exists, `src` is not an empty directory and something
      else is left, the command changes nothing and raises nothing. */
  lemma CleanDirectoryUnchanged(m: Entries, cwd: Path, projectName: string, fastapi: bool)
    requires IsDir(m, cwd) && HasChildren(m, cwd)
    requires var plan := DeletePlan(cwd, projectName, fastapi); forall i :: 0 <= i < |plan| ==> plan[i] !in m
    requires !(IsDir(m, SrcDir(cwd)) && !HasChildren(m, SrcDir(cwd)))
    ensures Unscaffold(m, cwd, projectName, fastapi) == Run(m, None)
  {
    DeletePathsSkipsAbsent(m, DeletePlan(cwd, projectName, fastapi));
  }

  /** The `main.py` entry appended for FastAPI never has an effect: by the time it is reached the
      application directory that would hold it is gone. */
  lemma FastapiEntryHasNoEffect(m: Entries, cwd: Path, projectName: string)
    requires Tree(m)
    ensures Unscaffold(m, cwd, projectName, true) == Unscaffold(m, cwd, projectName, false)
  {
    var base := DeletePlan(cwd, projectName, false);
    var app := AppDir(cwd, projectName);
    var main := FastApiMain(cwd, projectName);
    assert DeletePlan(cwd, projectName, true) == base + [main];
    DeletePathsAppend(m, base, [main]);
    DeletePathsEffect(m, base);
    var d := DeletePaths(m, base);
    if d.raised.None? {
      assert base[8] == app && app !in d.fs;
      assert Parent(main) == app;
      assert main !in d.fs;
    }
  }

  /** A subdirectory left inside `tests` or inside the application directory (a `__pycache__`, say)
      makes the command fail with "directory not empty": the file sweep leaves directories alone,
      so the `rmdir` that follows finds an entry. */
  lemma SubdirectoryBlocksDelete(m: Entries, cwd: Path, projectName: string, fastapi: bool, d: Path, sub: string)
    requires IsDir(m, cwd)
    requires d == TestsDir(cwd) || d == AppDir(cwd, projectName)
    requires IsDir(m, d) && IsDir(m, d + [sub])
    ensures Unscaffold(m, cwd, projectName, fastapi).raised == Some(OSError(DirectoryNotEmpty))
  {
    var plan := DeletePlan(cwd, projectName, fastapi);
    var k := if d == TestsDir(cwd) then 7 else 8;
    assert plan[k] == d;
    var before := plan[..k];
    assert plan == before + plan[k..];
    DeletePathsAppend(m, before, plan[k..]);
    DeletePathsEffect(m, before);
    var files := ["pyproject.toml", "poetry.toml", "poetry.lock", ".pre-commit-config.yaml", "tox.ini",
                  "README.md", "LICENSE.md", "tests"];
    assert |before| == k && forall j :: 0 <= j < k ==> before[j] == cwd + [files[j]];
    assert d[|cwd|] == "tests" || d[|cwd|] == "src";
    forall i | 0 <= i < |before| ensures before[i] != [] && !Covers(before[i], d) && !Covers(before[i], d + [sub]) {
      var p := cwd + [files[i]];
      assert before[i] == p && p[|cwd|] == files[i] != d[|cwd|];
    }
    var r := DeletePaths(m, before);
    if r.raised.None? {
      assert Same(m, r.fs, d) && Same(m, r.fs, d + [sub]);
      SubdirectoryBlocksRmdir(r.fs, d, sub);
      assert plan[k..][0] == d;
    }
  }

  /** A listed directory holding a subdirectory cannot be removed. */
  lemma SubdirectoryBlocksRmdir(m: Entries, d: Path, sub: string)
    requires d != [] && IsDir(m, d) && IsDir(m, d + [sub])
    ensures DeletePath(m, d).raised == Some(OSError(DirectoryNotEmpty))
  {
    var swept := m - FilesBelow(m, d);
    assert IsChild(d, d + [sub]) && d + [sub] in swept;
  }

  /** The names in the working directory that the command lists or handles. */
  const ListedNames := {"pyproject.toml", "poetry.toml", "poetry.lock", ".pre-commit-config.yaml", "tox.ini",
                        "README.md", "LICENSE.md", "tests", "src"}

  /** Any other entry of the working directory, with everything inside it, is left as it was. */
  lemma UnrelatedEntryKept(m: Entries, cwd: Path, projectName: string, fastapi: bool, name: string, rest: Path)
    requires name !in ListedNames
    ensures Same(m, Unscaffold(m, cwd, projectName, fastapi).fs, cwd + [name] + rest)
  {
    var q := cwd + [name] + rest;
    var plan := DeletePlan(cwd, projectName, fastapi);
    forall i | 0 <= i < |plan| ensures !Covers(plan[i], q) {
      assert q[|cwd|] == name;
      assert plan[i][|cwd|] in ListedNames;
    }
    assert SrcDir(cwd)[|cwd|] == "src";
    UnscaffoldFrame(m, cwd, projectName, fastapi, q);
  }

  /** Nothing inside a listed path is a directory. */
  predicate NoSubdirs(m: Entries, ps: seq<Path>)
  {
    forall i, q :: 0 <= i < |ps| && q in m && Below(ps[i], q) ==> m[q].File?
  }

  /** One entry, when nothing inside it is a directory: the entry and everything inside it go. */
  lemma DeletePathClean(m: Entries, p: Path)
    requires Tree(m) && p != []
    requires forall q :: q in m && Below(p, q) ==> m[q].File?
    ensures DeletePath(m, p).raised.None?
    ensures forall q :: q in DeletePath(m, p).fs <==> q in m && !Covers(p, q)
  {
    if !IsDir(m, p) {
      forall q | q in m && Below(p, q) ensures false {
        AncestorIsDir(m, p, q);
      }
    } else {
      var swept := m - FilesBelow(m, p);
      assert !HasChildren(swept, p);
    }
  }

  /** The list, when nothing inside its entries is a directory: it returns normally, and exactly
      what its entries cover is gone. */
  lemma {:induction false} DeletePathsClean(m: Entries, ps: seq<Path>)
    requires Tree(m)
    requires forall i :: 0 <= i < |ps| ==> ps[i] != []
    requires NoSubdirs(m, ps)
    ensures DeletePaths(m, ps).raised.None?
    ensures forall q :: q in DeletePaths(m, ps).fs <==> q in m && Untouched(ps, q)
    decreases |ps|
  {
    if ps != [] {
      var rest := ps[1..];
      assert forall i :: 0 <= i < |rest| ==> rest[i] == ps[i + 1];
      DeletePathClean(m, ps[0]);
      DeletePathEffect(m, ps[0]);
      var m1 := DeletePath(m, ps[0]).fs;
      DeletePathsClean(m1, rest);
      forall q ensures q in DeletePaths(m, ps).fs <==> q in m && Untouched(ps, q) {
        assert Untouched(ps, q) <==> !Covers(ps[0], q) && Untouched(rest, q);
      }
    }
  }
}
