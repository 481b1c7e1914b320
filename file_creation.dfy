/** `create_project_structure` and `delete_project_files`: building the project layout in the
    working directory and tearing it down again. */
module FileCreation {
  import opened Common
  import opened Pyproject
  import opened FileSystem
  import opened Helper

  /** `Path.cwd()`: the working directory; it raises when that directory no longer exists. */
  function CwdError(m: Entries, cwd: Path): Option<Error>
  {
    if IsDir(m, cwd) then None else Some(OSError(FileNotFound))
  }

  function SrcDir(cwd: Path): Path { cwd + ["src"] }
  function AppDir(cwd: Path, projectName: string): Path { Join(SrcDir(cwd), projectName) }
  function TestsDir(cwd: Path): Path { cwd + ["tests"] }
  function FastApiMain(cwd: Path, projectName: string): Path { AppDir(cwd, projectName) + ["main.py"] }

  /** The directories and package markers `create_project_structure` creates first. */
  function ScaffoldDirs(cwd: Path, projectName: string): seq<Op>
  {
    var app := AppDir(cwd, projectName);
    var tests := TestsDir(cwd);
    [ Mkdir(SrcDir(cwd)),
      Mkdir(app),
      Mkdir(tests),
      Touch(app + ["__init__.py"]),
      Touch(tests + ["__init__.py"]) ]
  }

  /** The FastAPI stub, written only when the flag is set. */
  function ScaffoldStub(cwd: Path, projectName: string, fastapi: bool): seq<Op>
  {
    if fastapi then [WriteText(FastApiMain(cwd, projectName), Template(FastApiApp))] else []
  }

  /** The files written after the optional stub, in order; `manifest` is the `pyproject.toml` record. */
  function ScaffoldFiles(cwd: Path, authorName: string, manifest: Manifest, year: int): seq<Op>
  {
    [ WriteText(TestsDir(cwd) + ["test_helper.py"], Template(SimpleTest)),
      WriteText(cwd + ["LICENSE.md"], License(year, authorName)),
      WriteText(cwd + ["pyproject.toml"], Toml(manifest)),
      Touch(cwd + ["README.md"]),
      WriteText(cwd + ["tox.ini"], Template(ToxIni)),
      WriteText(cwd + [".pre-commit-config.yaml"], Template(PreCommitConfig)) ]
  }

  /** The filesystem calls `create_project_structure` makes once both names are valid, in order. */
  function ScaffoldPlan(cwd: Path, projectName: string, pythonVersion: string, authorName: string,
                        fastapi: bool, year: int): seq<Op>
  {
    ScaffoldDirs(cwd, projectName) + ScaffoldStub(cwd, projectName, fastapi)
    + ScaffoldFiles(cwd, authorName, BuildManifest(projectName, pythonVersion, authorName, fastapi), year)
  }

  /** Filesystem calls raise only OSError. */
  lemma {:induction false} RunOpsRaisesOSError(m: Entries, ops: seq<Op>)
    ensures RunOps(m, ops).raised.Some? ==> RunOps(m, ops).raised.value.OSError?
    decreases |ops|
  {
    if ops != [] && Apply(m, ops[0]).raised.None? {
      RunOpsRaisesOSError(Apply(m, ops[0]).fs, ops[1..]);
    }
  }

  /** `create_project_structure(name, python_version, author, fastapi)` run in `cwd` in the year
      `year`. It raises ValueError exactly when a name is invalid, and then the filesystem is
      untouched: both names are checked before the first call that changes it. */
  function Scaffold(m: Entries, cwd: Path, name: string, pythonVersion: string, author: string,
                    fastapi: bool, year: int): (r: Run)
    ensures (r.raised.Some? && r.raised.value.ValueError?) <==>
            (ValidateProjectName(name).Err? || ValidateAuthorName(author).Err?)
    ensures r.raised.Some? && r.raised.value.ValueError? ==> r.fs == m
  {
    match ValidateProjectName(name)
    case Err(e) => Run(m, Some(e))
    case Ok(projectName) =>
      match ValidateAuthorName(author)
      case Err(e) => Run(m, Some(e))
      case Ok(authorName) =>
        if CwdError(m, cwd).Some? then Run(m, CwdError(m, cwd))
        else
          var plan := ScaffoldPlan(cwd, projectName, pythonVersion, authorName, fastapi, year);
          RunOpsRaisesOSError(m, plan);
          RunOps(m, plan)
  }

  /** `create_project_structure`, step by step on the filesystem object. */
  method CreateProjectStructure(fs: FileSystem, cwd: Path, name: string, pythonVersion: string,
                                author: string, fastapi: bool, year: int) returns (raised: Option<Error>)
    requires fs.Valid()
    modifies fs
    ensures fs.Valid()
    ensures Run(fs.entries, raised) == Scaffold(old(fs.entries), cwd, name, pythonVersion, author, fastapi, year)
  {
    var validName := ValidateProjectName(name);
    if validName.Err? {
      return Some(validName.error);
    }
    var projectName := validName.value;
    var validAuthor := ValidateAuthorName(author);
    if validAuthor.Err? {
      return Some(validAuthor.error);
    }
    var authorName := validAuthor.value;
    if !fs.IsDirAt(cwd) {
      return Some(OSError(FileNotFound));
    }
    ProjectNameIsComponent(projectName);
    raised := WriteScaffold(fs, cwd, projectName, pythonVersion, authorName, fastapi, year);
  }

  /** The body of `create_project_structure` once both names are valid and the working directory
      exists: the directories, the optional stub and the files, through the filesystem object. */
  method WriteScaffold(fs: FileSystem, cwd: Path, projectName: string, pythonVersion: string,
                       authorName: string, fastapi: bool, year: int) returns (raised: Option<Error>)
    requires fs.Valid()
    requires projectName != "" && projectName != "." && '/' !in projectName
    modifies fs
    ensures fs.Valid()
    ensures Run(fs.entries, raised)
            == RunOps(old(fs.entries), ScaffoldPlan(cwd, projectName, pythonVersion, authorName, fastapi, year))
  {
    var projectDir := cwd;
    var srcDir := projectDir + ["src"];
    var appDir := Join(srcDir, projectName);
    var testsDir := projectDir + ["tests"];
    assert appDir == srcDir + [projectName];
    var manifest := BuildManifest(projectName, pythonVersion, authorName, fastapi);

    // The calls below are made in this order; the first one that raises ends the function.
    var dirs := [ Mkdir(srcDir),
                  Mkdir(appDir),
                  Mkdir(testsDir),
                  Touch(appDir + ["__init__.py"]),
                  Touch(testsDir + ["__init__.py"]) ];
    var stub := if fastapi then [WriteText(appDir + ["main.py"], Template(FastApiApp))] else [];
    var files := [ WriteText(testsDir + ["test_helper.py"], Template(SimpleTest)),
                   WriteText(projectDir + ["LICENSE.md"], License(year, authorName)),
                   WriteText(cwd + ["pyproject.toml"], Toml(manifest)),
                   Touch(cwd + ["README.md"]),
                   WriteText(projectDir + ["tox.ini"], Template(ToxIni)),
                   WriteText(projectDir + [".pre-commit-config.yaml"], Template(PreCommitConfig)) ];
    assert dirs == ScaffoldDirs(cwd, projectName);
    assert stub == ScaffoldStub(cwd, projectName, fastapi);
    assert files == ScaffoldFiles(cwd, authorName, manifest, year);
    var calls := dirs + stub + files;
    raised := MakeCalls(fs, calls);
  }

  /** Makes the calls in order on the filesystem object, stopping at the first that raises:
      the object ends in the state `RunOps` gives, with the same exception. */
  method MakeCalls(fs: FileSystem, calls: seq<Op>) returns (raised: Option<Error>)
    requires fs.Valid()
    modifies fs
    ensures fs.Valid()
    ensures Run(fs.entries, raised) == RunOps(old(fs.entries), calls)
  {
    raised := None;
    var i := 0;
    while i < |calls|
      invariant 0 <= i <= |calls|
      invariant fs.Valid()
      invariant raised.None?
      invariant RunOps(old(fs.entries), calls) == RunOps(fs.entries, calls[i..])
    {
      assert calls[i..][0] == calls[i] && calls[i..][1..] == calls[i + 1..];
      match calls[i] {
        case Mkdir(p) => raised := fs.Mkdir(p);
        case Touch(p) => raised := fs.Touch(p);
        case WriteText(p, c) => raised := fs.WriteText(p, c);
        case Unlink(p) => raised := fs.Unlink(p);
        case Rmdir(p) => raised := fs.Rmdir(p);
      }
      if raised.Some? {
        return;
      }
      i := i + 1;
    }
  }

  // ---------------------------------------------------------------------------------------------
  // delete_project_files

  /** The paths `delete_project_files` walks, in order. */
  function DeletePlan(cwd: Path, projectName: string, fastapi: bool): seq<Path>
  {
    [ cwd + ["pyproject.toml"],
      cwd + ["poetry.toml"],
      cwd + ["poetry.lock"],
      cwd + [".pre-commit-config.yaml"],
      cwd + ["tox.ini"],
      cwd + ["README.md"],
      cwd + ["LICENSE.md"],
      TestsDir(cwd),
      AppDir(cwd, projectName) ]
    + (if fastapi then [FastApiMain(cwd, projectName)] else [])
  }

  /** The files `d.rglob("*")` finds at any depth below `d`. */
  function FilesBelow(m: Entries, d: Path): set<Path>
  {
    set q | q in m && Below(d, q) && m[q].File?
  }

  /** One entry of the list: a file is unlinked; a directory has every file below it unlinked and
      is then removed with rmdir, which raises if a subdirectory is left; anything else is skipped. */
  function DeletePath(m: Entries, p: Path): Run
  {
    if IsFile(m, p) then Apply(m, Unlink(p))
    else if IsDir(m, p) then Apply(m - FilesBelow(m, p), Rmdir(p))
    else Run(m, None)
  }

  /** The list, in order, stopping at the first entry that raises. */
  function DeletePaths(m: Entries, ps: seq<Path>): Run
    decreases |ps|
  {
    if ps == [] then Run(m, None)
    else
      var r := DeletePath(m, ps[0]);
      if r.raised.Some? then r else DeletePaths(r.fs, ps[1..])
  }

  /** `delete_project_files(name, fastapi)` run in `cwd`: the list, then `src` if it is an empty
      directory, then the working directory itself if it is empty. */
  function Unscaffold(m: Entries, cwd: Path, projectName: string, fastapi: bool): Run
  {
    if CwdError(m, cwd).Some? then Run(m, CwdError(m, cwd))
    else
      var r := DeletePaths(m, DeletePlan(cwd, projectName, fastapi));
      if r.raised.Some? then r
      else
        var r2 := if IsDir(r.fs, SrcDir(cwd)) && !HasChildren(r.fs, SrcDir(cwd)) then Apply(r.fs, Rmdir(SrcDir(cwd))) else r;
        if r2.raised.Some? then r2
        else if IsDir(r2.fs, cwd) && !HasChildren(r2.fs, cwd) then Apply(r2.fs, Rmdir(cwd))
        else r2
  }

  /** `delete_project_files`, step by step on the filesystem object. The files below a listed
      directory are unlinked in whatever order `rglob` yields them; the result does not depend on it. */
  method DeleteProjectFiles(fs: FileSystem, cwd: Path, projectName: string, fastapi: bool) returns (raised: Option<Error>)
    requires fs.Valid()
    modifies fs
    ensures fs.Valid()
    ensures Run(fs.entries, raised) == Unscaffold(old(fs.entries), cwd, projectName, fastapi)
  {
    if !fs.IsDirAt(cwd) {
      return Some(OSError(FileNotFound));
    }
    var baseDir := cwd;
    var pathsToDelete := [
      baseDir + ["pyproject.toml"],
      baseDir + ["poetry.toml"],
      baseDir + ["poetry.lock"],
      baseDir + [".pre-commit-config.yaml"],
      baseDir + ["tox.ini"],
      baseDir + ["README.md"],
      baseDir + ["LICENSE.md"],
      baseDir + ["tests"],
      Join(baseDir + ["src"], projectName) ];
    if fastapi {
      pathsToDelete := pathsToDelete + [Join(baseDir + ["src"], projectName) + ["main.py"]];
    }
    assert pathsToDelete == DeletePlan(cwd, projectName, fastapi);
    raised := DeleteListed(fs, pathsToDelete);
    if raised.Some? {
      return;
    }

    var srcDir := baseDir + ["src"];
    if fs.IsDirAt(srcDir) && !fs.HasEntries(srcDir) {
      raised := fs.Rmdir(srcDir);
    }
    if fs.IsDirAt(baseDir) && !fs.HasEntries(baseDir) {
      raised := fs.Rmdir(baseDir);
    }
  }

  /** The loop over the list in `delete_project_files`: each entry handled as `DeletePath` says,
      stopping at the first rmdir that raises. */
  method DeleteListed(fs: FileSystem, pathsToDelete: seq<Path>) returns (raised: Option<Error>)
    requires fs.Valid()
    modifies fs
    ensures fs.Valid()
    ensures Run(fs.entries, raised) == DeletePaths(old(fs.entries), pathsToDelete)
  {
    var i := 0;
    while i < |pathsToDelete|
      invariant 0 <= i <= |pathsToDelete|
      invariant fs.Valid()
      invariant DeletePaths(old(fs.entries), pathsToDelete) == DeletePaths(fs.entries, pathsToDelete[i..])
    {
      var path := pathsToDelete[i];
      ghost var before := fs.entries;
      assert pathsToDelete[i..][0] == path && pathsToDelete[i..][1..] == pathsToDelete[i + 1..];
      if fs.IsFileAt(path) {
        raised := fs.Unlink(path);
      } else if fs.IsDirAt(path) {
        UnlinkFilesBelow(fs, path);
        raised := fs.Rmdir(path);
        if raised.Some? {
          return;
        }
      }
      assert DeletePath(before, path) == Run(fs.entries, None);
      i := i + 1;
    }
    raised := None;
  }

  /** `for child in d.rglob("*"): if child.is_file(): child.unlink()`: every file at any depth
      below `d` is unlinked and nothing else changes. Directories stay, so each file the walk
      reaches is still there when it is unlinked. */
  method UnlinkFilesBelow(fs: FileSystem, d: Path)
    requires fs.Valid()
    modifies fs
    ensures fs.Valid()
    ensures fs.entries == old(fs.entries) - FilesBelow(old(fs.entries), d)
  {
    ghost var before := fs.entries;
    var pending := set q | q in fs.entries && Below(d, q) && fs.entries[q].File?;
    while pending != {}
      invariant fs.Valid()
      invariant pending <= FilesBelow(before, d)
      invariant fs.entries == before - (FilesBelow(before, d) - pending)
      decreases |pending|
    {
      var child :| child in pending;
      assert child in fs.entries && fs.entries[child] == before[child];
      var _ := fs.Unlink(child);
      pending := pending - {child};
      assert fs.entries == before - (FilesBelow(before, d) - pending);
    }
  }
}
