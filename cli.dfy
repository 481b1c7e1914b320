/** The commands of the command-line application that decide what happens: `new`, `check_files`,
    `delete_all` and `use_venv`. Answers to prompts, the platform name and the current directory
    are parameters; the lines a command echoes are returned instead of printed. */
module Cli {
  import opened Common
  import opened FileSystem
  import opened Helper
  import opened FileCreation
  import opened ScaffoldLaws
  import opened InverseLaw

  // ---------------------------------------------------------------------------------------------
  // new

  const DefaultPythonVersion := "3.10"
  const DefaultAuthorName := "John Doe"

  datatype Settings = Settings(pythonVersion: string, authorName: string)

  /** The Python version and author `new` passes on: the defaults with `--default`, otherwise the
      answers to the two prompts. */
  function NewSettings(useDefaults: bool, promptedVersion: string, promptedAuthor: string): Settings
  {
    if useDefaults then Settings(DefaultPythonVersion, DefaultAuthorName)
    else Settings(promptedVersion, promptedAuthor)
  }

  /** The two files `new` writes again after the structure exists. */
  function NewRewrites(cwd: Path): seq<Op>
  {
    [ WriteText(cwd + ["tox.ini"], Template(ToxIni)),
      WriteText(cwd + [".pre-commit-config.yaml"], Template(PreCommitConfig)) ]
  }

  /** `new`: the project structure, then `tox.ini` and the pre-commit configuration once more; an
      exception from the structure ends the command. */
  function NewRun(m: Entries, cwd: Path, projectName: string, useDefaults: bool, fastapi: bool,
                  promptedVersion: string, promptedAuthor: string, year: int): Run
  {
    var s := NewSettings(useDefaults, promptedVersion, promptedAuthor);
    var r := Scaffold(m, cwd, projectName, s.pythonVersion, s.authorName, fastapi, year);
    if r.raised.Some? then r else RunOps(r.fs, NewRewrites(cwd))
  }

  /** `new project_name [--default] [--fastapi]` on the filesystem object. */
  method New(fs: FileSystem, cwd: Path, projectName: string, useDefaults: bool, fastapi: bool,
             promptedVersion: string, promptedAuthor: string, year: int)
    returns (raised: Option<Error>, echoed: seq<string>)
    requires fs.Valid()
    modifies fs
    ensures fs.Valid()
    ensures Run(fs.entries, raised)
            == NewRun(old(fs.entries), cwd, projectName, useDefaults, fastapi, promptedVersion, promptedAuthor, year)
    ensures echoed == if raised.Some? then []
                      else [CreatedMessage(projectName, NewSettings(useDefaults, promptedVersion, promptedAuthor).pythonVersion)]
  {
    var pythonVersion := if useDefaults then DefaultPythonVersion else promptedVersion;
    var authorName := if useDefaults then DefaultAuthorName else promptedAuthor;
    assert Settings(pythonVersion, authorName) == NewSettings(useDefaults, promptedVersion, promptedAuthor);
    raised := CreateProjectStructure(fs, cwd, projectName, pythonVersion, authorName, fastapi, year);
    if raised.Some? {
      return raised, [];
    }
    var projectDir := cwd;
    raised := RewriteConfigs(fs, projectDir);
    echoed := if raised.Some? then [] else [CreatedMessage(projectName, pythonVersion)];
  }

  /** The line `new` echoes when it is done. */
  function CreatedMessage(projectName: string, pythonVersion: string): string
  {
    "'src/" + projectName + "' project structure created with Python version " + pythonVersion + "."
  }

  /** `create_tox_ini(project_dir)` and `create_pre_commit_config(project_dir)`, in this order. */
  method RewriteConfigs(fs: FileSystem, projectDir: Path) returns (raised: Option<Error>)
    requires fs.Valid()
    modifies fs
    ensures fs.Valid()
    ensures Run(fs.entries, raised) == RunOps(old(fs.entries), NewRewrites(projectDir))
  {
    ghost var ops := NewRewrites(projectDir);
    assert ops[1..] == [ops[1]] && ops[1..][1..] == [];
    raised := fs.WriteText(projectDir + ["tox.ini"], Template(ToxIni));
    if raised.Some? {
      return;
    }
    ghost var between := fs.entries;
    raised := fs.WriteText(projectDir + [".pre-commit-config.yaml"], Template(PreCommitConfig));
    assert RunOps(between, ops[1..]) == Run(fs.entries, raised);
  }

  /** Writing a file with the content it already holds changes nothing. */
  lemma RewritesAreNoOps(s: Entries, cwd: Path)
    requires HasFile(s, cwd + ["tox.ini"], Template(ToxIni))
    requires HasFile(s, cwd + [".pre-commit-config.yaml"], Template(PreCommitConfig))
    ensures RunOps(s, NewRewrites(cwd)) == Run(s, None)
  {
    var ops := NewRewrites(cwd);
    assert Done(s, ops[0]) && Done(s, ops[1]);
    RunOpsDoneFixpoint(s, ops);
  }

  /** `new` ends in exactly the state and the exception of `create_project_structure` with the
      chosen settings: the second writes of `tox.ini` and the pre-commit configuration put back
      the content that is already there. */
  lemma NewIsScaffold(m: Entries, cwd: Path, projectName: string, useDefaults: bool, fastapi: bool,
                      promptedVersion: string, promptedAuthor: string, year: int)
    ensures var s := NewSettings(useDefaults, promptedVersion, promptedAuthor);
      NewRun(m, cwd, projectName, useDefaults, fastapi, promptedVersion, promptedAuthor, year)
      == Scaffold(m, cwd, projectName, s.pythonVersion, s.authorName, fastapi, year)
  {
    var s := NewSettings(useDefaults, promptedVersion, promptedAuthor);
    var r := Scaffold(m, cwd, projectName, s.pythonVersion, s.authorName, fastapi, year);
    if r.raised.None? {
      ScaffoldCreatesLayout(m, cwd, projectName, s.pythonVersion, s.authorName, fastapi, year);
      RewritesAreNoOps(r.fs, cwd);
    }
  }

  /** With `--default` the prompts play no part, and only the project name can be rejected: the
      default author passes validation. */
  lemma NewWithDefaults(m: Entries, cwd: Path, projectName: string, fastapi: bool,
                        promptedVersion: string, promptedAuthor: string, year: int)
    ensures NewRun(m, cwd, projectName, true, fastapi, promptedVersion, promptedAuthor, year)
            == Scaffold(m, cwd, projectName, DefaultPythonVersion, DefaultAuthorName, fastapi, year)
    ensures var r := NewRun(m, cwd, projectName, true, fastapi, promptedVersion, promptedAuthor, year);
      (r.raised.Some? && r.raised.value.ValueError?) <==> ValidateProjectName(projectName).Err?
  {
    NewIsScaffold(m, cwd, projectName, true, fastapi, promptedVersion, promptedAuthor, year);
    ValidatorExamples();
  }

  // ---------------------------------------------------------------------------------------------
  // check_files

  /** The paths `check_files` reports on, in order: eight always, the FastAPI module last when
      the flag is set. */
  function CheckPaths(cwd: Path, projectName: string, fastapi: bool): seq<Path>
  {
    var src := cwd + ["src"];
    [ cwd + ["pyproject.toml"],
      cwd + [".pre-commit-config.yaml"],
      cwd + ["tox.ini"],
      cwd + ["README.md"],
      cwd + ["LICENSE.md"],
      src,
      cwd + ["tests"],
      Join(src, projectName) ]
    + (if fastapi then [Join(src, projectName) + ["main.py"]] else [])
  }

  /** `check_files project_name [--fastapi]`: `Path.cwd()` raises when the working directory is
      gone, and then nothing is reported; otherwise one report line per path, in order. */
  method CheckFiles(fs: FileSystem, cwd: Path, projectName: string, fastapi: bool)
    returns (raised: Option<Error>, lines: seq<string>)
    ensures raised == CwdError(fs.entries, cwd)
    ensures raised.Some? ==> lines == []
    ensures raised.None? ==> |lines| == |CheckPaths(cwd, projectName, fastapi)|
    ensures raised.None? ==> forall i :: 0 <= i < |lines| ==>
              lines[i] == CheckFileExists(fs.entries, CheckPaths(cwd, projectName, fastapi)[i])
  {
    if !fs.IsDirAt(cwd) {
      return Some(OSError(FileNotFound)), [];
    }
    raised := None;
    var pathsToCheck := CheckPaths(cwd, projectName, fastapi);
    lines := [];
    for i := 0 to |pathsToCheck|
      invariant |lines| == i
      invariant forall j :: 0 <= j < i ==> lines[j] == CheckFileExists(fs.entries, pathsToCheck[j])
    {
      lines := lines + [CheckFileExists(fs.entries, pathsToCheck[i])];
    }
  }

  /** Every path `check_files` reports on is one that `create_project_structure` makes. */
  lemma CheckPathsAreScaffolded(m: Entries, cwd: Path, name: string, pythonVersion: string,
                                author: string, fastapi: bool, year: int)
    requires Scaffold(m, cwd, name, pythonVersion, author, fastapi, year).raised.None?
    ensures var fs := Scaffold(m, cwd, name, pythonVersion, author, fastapi, year).fs;
      forall p :: p in CheckPaths(cwd, name, fastapi) ==> p in fs
  {
    ScaffoldDone(m, cwd, name, pythonVersion, author, fastapi, year);
    ScaffoldCreatesLayout(m, cwd, name, pythonVersion, author, fastapi, year);
    ProjectNameIsComponent(name);
    assert Join(cwd + ["src"], name) == cwd + ["src", name];
    assert Join(cwd + ["src"], name) + ["main.py"] == cwd + ["src", name, "main.py"];
  }

  /** After `create_project_structure` returned normally, `check_files` with the same name and
      flag finds the working directory and reports every path with the green check mark. */
  lemma CheckAfterScaffoldAllPresent(m: Entries, cwd: Path, name: string, pythonVersion: string,
                                     author: string, fastapi: bool, year: int)
    requires Scaffold(m, cwd, name, pythonVersion, author, fastapi, year).raised.None?
    ensures var fs := Scaffold(m, cwd, name, pythonVersion, author, fastapi, year).fs;
      var ps := CheckPaths(cwd, name, fastapi);
      && CwdError(fs, cwd).None?
      && forall i :: 0 <= i < |ps| ==> CheckFileExists(fs, ps[i]) == Marker(true) + Render(ps[i])
  {
    ScaffoldDone(m, cwd, name, pythonVersion, author, fastapi, year);
    CwdNotScaffolded(cwd, name, fastapi);
    ScaffoldFrame(m, cwd, name, pythonVersion, author, fastapi, year, cwd);
    CheckPathsAreScaffolded(m, cwd, name, pythonVersion, author, fastapi, year);
    var ps := CheckPaths(cwd, name, fastapi);
    assert forall i :: 0 <= i < |ps| ==> ps[i] in ps;
  }

  /** Every path `check_files` reports on lies inside the working directory. */
  lemma CheckPathsBelow(cwd: Path, name: string, fastapi: bool)
    requires ValidateProjectName(name).Ok?
    ensures forall p :: p in CheckPaths(cwd, name, fastapi) ==> Below(cwd, p)
  {
    ProjectNameIsComponent(name);
    var ps := CheckPaths(cwd, name, fastapi);
    forall p | p in ps ensures Below(cwd, p) {
      assert p[..|cwd|] == cwd;
    }
  }

  /** After creating a project on an empty working directory and deleting it again, the working
      directory is gone with every path `check_files` would report on, so `Path.cwd()` raises
      FileNotFoundError and nothing is reported. */
  lemma CheckAfterRoundTripRaises(m: Entries, cwd: Path, name: string, pythonVersion: string,
                                  author: string, fastapi: bool, year: int)
    requires ValidateProjectName(name).Ok? && ValidateAuthorName(author).Ok?
    requires EmptyBase(m, cwd)
    ensures var s := Scaffold(m, cwd, name, pythonVersion, author, fastapi, year);
      var d := Unscaffold(s.fs, cwd, name, fastapi);
      && CwdError(d.fs, cwd) == Some(OSError(FileNotFound))
      && forall p :: p in CheckPaths(cwd, name, fastapi) ==> p !in d.fs
  {
    ScaffoldThenUnscaffold(m, cwd, name, pythonVersion, author, fastapi, year);
    CheckPathsBelow(cwd, name, fastapi);
  }

  // ---------------------------------------------------------------------------------------------
  // delete_all

  /** The line `delete_project_files` echoes at its end. */
  function DeletedMessage(projectName: string): string
  {
    "All files and directories for '" + projectName + "' have been deleted."
  }

  const DeletionCompleted := "Deletion completed."
  const DeletionCancelled := "Deletion cancelled."

  /** `delete_all`: the project files are deleted only when the confirmation is answered yes. */
  function DeleteAllRun(m: Entries, cwd: Path, projectName: string, fastapi: bool, confirmed: bool): Run
  {
    if confirmed then Unscaffold(m, cwd, projectName, fastapi) else Run(m, None)
  }

  /** `delete_all project_name [--fastapi]` with the answer to the confirmation prompt. */
  method DeleteAll(fs: FileSystem, cwd: Path, projectName: string, fastapi: bool, confirmed: bool)
    returns (raised: Option<Error>, echoed: seq<string>)
    requires fs.Valid()
    modifies fs
    ensures fs.Valid()
    ensures Run(fs.entries, raised) == DeleteAllRun(old(fs.entries), cwd, projectName, fastapi, confirmed)
    ensures echoed == if raised.Some? then []
                      else if confirmed then [DeletedMessage(projectName), DeletionCompleted]
                      else [DeletionCancelled]
  {
    if confirmed {
      raised := DeleteProjectFiles(fs, cwd, projectName, fastapi);
      if raised.Some? {
        return raised, [];
      }
      echoed := [DeletedMessage(projectName), DeletionCompleted];
    } else {
      raised := None;
      echoed := [DeletionCancelled];
    }
  }

  /** `new` followed by a confirmed `delete_all` on an empty working directory returns normally
      and leaves the filesystem as it was, minus the working directory; declining leaves what
      `new` made. */
  lemma NewThenDeleteAll(m: Entries, cwd: Path, name: string, useDefaults: bool, fastapi: bool,
                         promptedVersion: string, promptedAuthor: string, year: int, confirmed: bool)
    requires ValidateProjectName(name).Ok?
    requires ValidateAuthorName(NewSettings(useDefaults, promptedVersion, promptedAuthor).authorName).Ok?
    requires EmptyBase(m, cwd)
    ensures var n := NewRun(m, cwd, name, useDefaults, fastapi, promptedVersion, promptedAuthor, year);
      && n.raised.None?
      && DeleteAllRun(n.fs, cwd, name, fastapi, confirmed) == (if confirmed then Run(m - {cwd}, None) else n)
  {
    var s := NewSettings(useDefaults, promptedVersion, promptedAuthor);
    NewIsScaffold(m, cwd, name, useDefaults, fastapi, promptedVersion, promptedAuthor, year);
    ScaffoldThenUnscaffold(m, cwd, name, s.pythonVersion, s.authorName, fastapi, year);
  }

  // ---------------------------------------------------------------------------------------------
  // use_venv

  /** How `use_venv` ends: `Path.cwd()` raising, no `pyproject.toml` upward, no interpreter in
      `.venv`, or handing the interpreter's path to `poetry env use`. */
  datatype VenvOutcome = Raised(error: Error) | NoManifest | NoEnvironment | SwitchTo(interpreter: Path)

  /** The interpreter inside `.venv`: `Scripts/python.exe` on Windows, `bin/python` elsewhere. */
  function InterpreterPath(cwd: Path, windows: bool): (p: Path)
    ensures |p| == |cwd| + 3 && p[..|cwd|] == cwd && p[|cwd|] == ".venv"
  {
    if windows then cwd + [".venv", "Scripts", "python.exe"] else cwd + [".venv", "bin", "python"]
  }

  /** Some directory from `start` up to, but not including, the root holds `pyproject.toml`. */
  ghost predicate ManifestAbove(m: Entries, start: Path)
  {
    exists k :: 1 <= k <= |start| && HasManifest(m, start[..k])
  }

  /** The decision `use_venv` makes. */
  ghost function VenvDecision(m: Entries, cwd: Path, windows: bool): VenvOutcome
  {
    if CwdError(m, cwd).Some? then Raised(CwdError(m, cwd).value)
    else if !ManifestAbove(m, cwd) then NoManifest
    else if InterpreterPath(cwd, windows) !in m then NoEnvironment
    else SwitchTo(InterpreterPath(cwd, windows))
  }

  /** `use_venv` up to the external call; `windows` is `platform.system() == "Windows"`. */
  method UseVenv(fs: FileSystem, cwd: Path, windows: bool) returns (outcome: VenvOutcome)
    ensures outcome == VenvDecision(fs.entries, cwd, windows)
  {
    if !fs.IsDirAt(cwd) {
      return Raised(OSError(FileNotFound));
    }
    var found := FindPyprojectToml(fs, cwd);
    if !found {
      return NoManifest;
    }
    var venvPath := cwd + [".venv", "bin", "python"];
    if windows {
      venvPath := cwd + [".venv", "Scripts", "python.exe"];
    }
    if !fs.Exists(venvPath) {
      return NoEnvironment;
    }
    return SwitchTo(venvPath);
  }

  /** No path `create_project_structure` makes lies inside `.venv`. */
  lemma InterpreterNotScaffolded(cwd: Path, name: string, fastapi: bool, windows: bool)
    ensures InterpreterPath(cwd, windows) !in ScaffoldPaths(cwd, name, fastapi)
  {
    var p := InterpreterPath(cwd, windows);
    PlanTailParents(name, fastapi);
    forall t | t in PlanTails(name, fastapi) ensures p != cwd + t {
      assert (cwd + t)[|cwd|] == t[0] != ".venv" == p[|cwd|];
    }
  }

  /** Right after creating a project on an empty working directory, `use_venv` finds the working
      directory and the manifest but no virtual environment, so it stops before the external call. */
  lemma UseVenvAfterScaffold(m: Entries, cwd: Path, name: string, pythonVersion: string,
                             author: string, fastapi: bool, year: int, windows: bool)
    requires ValidateProjectName(name).Ok? && ValidateAuthorName(author).Ok?
    requires EmptyBase(m, cwd)
    ensures VenvDecision(Scaffold(m, cwd, name, pythonVersion, author, fastapi, year).fs, cwd, windows)
            == NoEnvironment
  {
    var s := Scaffold(m, cwd, name, pythonVersion, author, fastapi, year).fs;
    ScaffoldOnEmptyBase(m, cwd, name, pythonVersion, author, fastapi, year);
    CwdNotScaffolded(cwd, name, fastapi);
    ScaffoldFrame(m, cwd, name, pythonVersion, author, fastapi, year, cwd);
    ScaffoldCreatesLayout(m, cwd, name, pythonVersion, author, fastapi, year);
    InterpreterNotScaffolded(cwd, name, fastapi, windows);
    var p := InterpreterPath(cwd, windows);
    assert Below(cwd, p) by {
      assert p[..|cwd|] == cwd;
    }
    assert cwd[..|cwd|] == cwd;
    assert HasManifest(s, cwd[..|cwd|]);
  }
}
