/** What `create_project_structure` guarantees: the layout it leaves, the paths it never touches,
    and that running it a second time changes nothing. */
module ScaffoldLaws {
  import opened Common
  import opened PyStr
  import opened Pyproject
  import opened FileSystem
  import opened Helper
  import opened FileCreation

  /** The plan's paths, each as the working directory followed by a relative part. */
  function DirTails(projectName: string): seq<Path>
  {
    [ ["src"], ["src", projectName], ["tests"], ["src", projectName, "__init__.py"], ["tests", "__init__.py"] ]
  }

  function StubTails(projectName: string, fastapi: bool): seq<Path>
  {
    if fastapi then [["src", projectName, "main.py"]] else []
  }

  function FileTails(): seq<Path>
  {
    [ ["tests", "test_helper.py"], ["LICENSE.md"], ["pyproject.toml"], ["README.md"], ["tox.ini"],
      [".pre-commit-config.yaml"] ]
  }

  function PlanTails(projectName: string, fastapi: bool): seq<Path>
  {
    DirTails(projectName) + StubTails(projectName, fastapi) + FileTails()
  }

  /** `ops` names, one by one, the working directory followed by the relative parts `tails`. */
  predicate NamesTails(ops: seq<Op>, cwd: Path, tails: seq<Path>)
  {
    |ops| == |tails| && forall i :: 0 <= i < |ops| ==> ops[i].path == cwd + tails[i]
  }

  lemma NamesTailsConcat(a: seq<Op>, b: seq<Op>, cwd: Path, ta: seq<Path>, tb: seq<Path>)
    requires NamesTails(a, cwd, ta) && NamesTails(b, cwd, tb)
    ensures NamesTails(a + b, cwd, ta + tb)
  {
    forall i | 0 <= i < |a + b| ensures (a + b)[i].path == cwd + (ta + tb)[i] {
      if i >= |a| {
        assert (a + b)[i] == b[i - |a|] && (ta + tb)[i] == tb[i - |a|];
      }
    }
  }

  lemma DirsNameTails(cwd: Path, projectName: string)
    requires ValidateProjectName(projectName).Ok?
    ensures NamesTails(ScaffoldDirs(cwd, projectName), cwd, DirTails(projectName))
  {
    ProjectNameIsComponent(projectName);
  }

  lemma StubNamesTails(cwd: Path, projectName: string, fastapi: bool)
    requires ValidateProjectName(projectName).Ok?
    ensures NamesTails(ScaffoldStub(cwd, projectName, fastapi), cwd, StubTails(projectName, fastapi))
  {
    ProjectNameIsComponent(projectName);
  }

  lemma FilesNameTails(cwd: Path, authorName: string, manifest: Manifest, year: int)
    ensures NamesTails(ScaffoldFiles(cwd, authorName, manifest, year), cwd, FileTails())
  {
  }

  /** Each call of the plan names the working directory followed by the matching relative part. */
  lemma PlanNamesTails(cwd: Path, projectName: string, pythonVersion: string, authorName: string,
                       fastapi: bool, year: int)
    requires ValidateProjectName(projectName).Ok?
    ensures NamesTails(ScaffoldPlan(cwd, projectName, pythonVersion, authorName, fastapi, year), cwd,
                       PlanTails(projectName, fastapi))
  {
    var dirs := ScaffoldDirs(cwd, projectName);
    var stub := ScaffoldStub(cwd, projectName, fastapi);
    var manifest := BuildManifest(projectName, pythonVersion, authorName, fastapi);
    var files := ScaffoldFiles(cwd, authorName, manifest, year);
    DirsNameTails(cwd, projectName);
    StubNamesTails(cwd, projectName, fastapi);
    FilesNameTails(cwd, authorName, manifest, year);
    NamesTailsConcat(dirs, stub, cwd, DirTails(projectName), StubTails(projectName, fastapi));
    NamesTailsConcat(dirs + stub, files, cwd, DirTails(projectName) + StubTails(projectName, fastapi), FileTails());
  }

  /** Lengths that tell the relative parts of the plan apart: the number of components, and the
      lengths of the first and the last one. */
  function Shape(t: Path): (int, int, int)
  {
    if t == [] then (0, 0, 0) else (|t|, |t[0]|, |t[|t| - 1]|)
  }

  /** No two relative parts of the plan are alike. */
  lemma PlanTailsDistinct(projectName: string, fastapi: bool)
    ensures var tails := PlanTails(projectName, fastapi);
      forall i, j :: 0 <= i < j < |tails| ==> tails[i] != tails[j]
  {
    var tails := PlanTails(projectName, fastapi);
    forall i, j | 0 <= i < j < |tails| ensures tails[i] != tails[j] {
      assert Shape(tails[i]) != Shape(tails[j]);
    }
  }

  /** No two calls of the plan name the same path. */
  lemma PlanPathsDistinct(cwd: Path, projectName: string, pythonVersion: string, authorName: string,
                          fastapi: bool, year: int)
    requires ValidateProjectName(projectName).Ok?
    ensures var plan := ScaffoldPlan(cwd, projectName, pythonVersion, authorName, fastapi, year);
      forall i, j :: 0 <= i < j < |plan| ==> plan[i].path != plan[j].path
  {
    ProjectNameIsComponent(projectName);
    var plan := ScaffoldPlan(cwd, projectName, pythonVersion, authorName, fastapi, year);
    var tails := PlanTails(projectName, fastapi);
    PlanNamesTails(cwd, projectName, pythonVersion, authorName, fastapi, year);
    PlanTailsDistinct(projectName, fastapi);
    forall i, j | 0 <= i < j < |plan| ensures plan[i].path != plan[j].path {
      assert plan[i].path[|cwd|..] == tails[i] && plan[j].path[|cwd|..] == tails[j];
    }
  }

  /** Once both names are valid and the working directory exists, `create_project_structure` is
      exactly its plan of calls. */
  lemma ScaffoldRunsPlan(m: Entries, cwd: Path, name: string, pythonVersion: string, author: string,
                         fastapi: bool, year: int)
    requires ValidateProjectName(name).Ok? && ValidateAuthorName(author).Ok? && IsDir(m, cwd)
    ensures Scaffold(m, cwd, name, pythonVersion, author, fastapi, year)
            == RunOps(m, ScaffoldPlan(cwd, name, pythonVersion, author, fastapi, year))
  {
  }

  /** `p` is a file holding `c`. */
  predicate HasFile(fs: Entries, p: Path, c: Content)
  {
    p in fs && fs[p] == File(c)
  }

  /** Every path the plan may create or overwrite. */
  function ScaffoldPaths(cwd: Path, projectName: string, fastapi: bool): set<Path>
  {
    set t | t in PlanTails(projectName, fastapi) :: cwd + t
  }

  /** The plan only creates: it makes directories, touches and writes files, and removes nothing. */
  lemma PlanCreatesOnly(cwd: Path, projectName: string, pythonVersion: string, authorName: string,
                        fastapi: bool, year: int)
    ensures forall op :: op in ScaffoldPlan(cwd, projectName, pythonVersion, authorName, fastapi, year) ==> Creates(op)
  {
    var manifest := BuildManifest(projectName, pythonVersion, authorName, fastapi);
    FilesCreateOnly(cwd, authorName, manifest, year);
  }

  lemma FilesCreateOnly(cwd: Path, authorName: string, manifest: Manifest, year: int)
    ensures forall op :: op in ScaffoldFiles(cwd, authorName, manifest, year) ==> Creates(op)
  {
  }

  /** When `create_project_structure` returns normally, both names were valid, the working directory
      existed, and every call of the plan has done its job. */
  lemma {:induction false} ScaffoldDone(m: Entries, cwd: Path, name: string, pythonVersion: string, author: string,
                     fastapi: bool, year: int)
    requires Scaffold(m, cwd, name, pythonVersion, author, fastapi, year).raised.None?
    ensures ValidateProjectName(name).Ok? && ValidateAuthorName(author).Ok? && IsDir(m, cwd)
    ensures forall op :: op in ScaffoldPlan(cwd, name, pythonVersion, author, fastapi, year) ==>
              Done(Scaffold(m, cwd, name, pythonVersion, author, fastapi, year).fs, op)
  {
    var plan := ScaffoldPlan(cwd, name, pythonVersion, author, fastapi, year);
    PlanPathsDistinct(cwd, name, pythonVersion, author, fastapi, year);
    ScaffoldRunsPlan(m, cwd, name, pythonVersion, author, fastapi, year);
    forall op | op in plan ensures Done(RunOps(m, plan).fs, op) {
      var i :| 0 <= i < |plan| && plan[i] == op;
      RunOpsDone(m, plan, i);
    }
  }

  /** A path outside the plan keeps its entry, or its absence, whatever `create_project_structure`
      raises. */
  lemma ScaffoldFrame(m: Entries, cwd: Path, name: string, pythonVersion: string, author: string,
                      fastapi: bool, year: int, q: Path)
    requires q !in ScaffoldPaths(cwd, name, fastapi)
    ensures Same(m, Scaffold(m, cwd, name, pythonVersion, author, fastapi, year).fs, q)
  {
    if ValidateProjectName(name).Ok? && ValidateAuthorName(author).Ok? && IsDir(m, cwd) {
      var plan := ScaffoldPlan(cwd, name, pythonVersion, author, fastapi, year);
      var tails := PlanTails(name, fastapi);
      PlanNamesTails(cwd, name, pythonVersion, author, fastapi, year);
      forall i | 0 <= i < |plan| ensures plan[i].path != q {
        assert cwd + tails[i] in ScaffoldPaths(cwd, name, fastapi);
      }
      ScaffoldRunsPlan(m, cwd, name, pythonVersion, author, fastapi, year);
      RunOpsFrame(m, plan, q);
    }
  }

  /** `create_mypy_config` is never called: the run leaves `mypy.ini` as it found it. */
  lemma MypyIniUntouched(m: Entries, cwd: Path, name: string, pythonVersion: string, author: string,
                         fastapi: bool, year: int)
    ensures Same(m, Scaffold(m, cwd, name, pythonVersion, author, fastapi, year).fs, cwd + ["mypy.ini"])
  {
    var q := cwd + ["mypy.ini"];
    forall t | t in PlanTails(name, fastapi) ensures q != cwd + t {
      assert Shape(t) != Shape(["mypy.ini"]);
      assert q[|cwd|..] == ["mypy.ini"] && (cwd + t)[|cwd|..] == t;
    }
    ScaffoldFrame(m, cwd, name, pythonVersion, author, fastapi, year, q);
  }

  /** Running `create_project_structure` again with the same arguments (and the same year) on the
      state it left ends in that same state with the same exception, whatever happened the first
      time: a rejected name or a missing working directory changed nothing, and otherwise the
      calls are repeated on paths where they already did their jobs, up to the one that raised. */
  lemma ScaffoldIdempotent(m: Entries, cwd: Path, name: string, pythonVersion: string, author: string,
                           fastapi: bool, year: int)
    ensures var r := Scaffold(m, cwd, name, pythonVersion, author, fastapi, year);
      Scaffold(r.fs, cwd, name, pythonVersion, author, fastapi, year) == r
  {
    if ValidateProjectName(name).Ok? && ValidateAuthorName(author).Ok? && IsDir(m, cwd) {
      var r := Scaffold(m, cwd, name, pythonVersion, author, fastapi, year);
      var plan := ScaffoldPlan(cwd, name, pythonVersion, author, fastapi, year);
      ScaffoldRunsPlan(m, cwd, name, pythonVersion, author, fastapi, year);
      PlanPathsDistinct(cwd, name, pythonVersion, author, fastapi, year);
      PlanCreatesOnly(cwd, name, pythonVersion, author, fastapi, year);
      assert forall i :: 0 <= i < |plan| ==> plan[i] in plan;
      RunOpsRepeat(m, plan);
      CwdNotScaffolded(cwd, name, fastapi);
      ScaffoldFrame(m, cwd, name, pythonVersion, author, fastapi, year, cwd);
      ScaffoldRunsPlan(r.fs, cwd, name, pythonVersion, author, fastapi, year);
    }
  }

  /** The working directory is not one of the paths scaffolding creates. */
  lemma CwdNotScaffolded(cwd: Path, name: string, fastapi: bool)
    ensures cwd !in ScaffoldPaths(cwd, name, fastapi)
  {
    forall t | t in PlanTails(name, fastapi) ensures cwd != cwd + t {
      assert |t| > 0;
    }
  }

  /** On a filesystem where every call of the plan has already done its job, scaffolding changes
      nothing and raises nothing. */
  lemma ScaffoldWhenDone(s: Entries, cwd: Path, name: string, pythonVersion: string, author: string,
                         fastapi: bool, year: int)
    requires ValidateProjectName(name).Ok? && ValidateAuthorName(author).Ok? && IsDir(s, cwd)
    requires forall op :: op in ScaffoldPlan(cwd, name, pythonVersion, author, fastapi, year) ==> Done(s, op)
    ensures Scaffold(s, cwd, name, pythonVersion, author, fastapi, year) == Run(s, None)
  {
    var plan := ScaffoldPlan(cwd, name, pythonVersion, author, fastapi, year);
    PlanCreatesOnly(cwd, name, pythonVersion, author, fastapi, year);
    assert forall i :: 0 <= i < |plan| ==> plan[i] in plan;
    RunOpsDoneFixpoint(s, plan);
    ScaffoldRunsPlan(s, cwd, name, pythonVersion, author, fastapi, year);
  }

  /** `create_project_structure` keeps the tree shape, whether or not it raises. */
  lemma ScaffoldKeepsTree(m: Entries, cwd: Path, name: string, pythonVersion: string, author: string,
                          fastapi: bool, year: int)
    requires Tree(m)
    ensures Tree(Scaffold(m, cwd, name, pythonVersion, author, fastapi, year).fs)
  {
    if ValidateProjectName(name).Ok? && ValidateAuthorName(author).Ok? && IsDir(m, cwd) {
      ScaffoldRunsPlan(m, cwd, name, pythonVersion, author, fastapi, year);
      RunOpsKeepsTree(m, ScaffoldPlan(cwd, name, pythonVersion, author, fastapi, year));
    }
  }

  /** The directories and package markers, once their calls have done their jobs. */
  lemma DirsLayout(fs: Entries, cwd: Path, projectName: string)
    requires ValidateProjectName(projectName).Ok?
    requires forall op :: op in ScaffoldDirs(cwd, projectName) ==> Done(fs, op)
    ensures IsDir(fs, cwd + ["src"]) && IsDir(fs, cwd + ["src", projectName]) && IsDir(fs, cwd + ["tests"])
    ensures cwd + ["src", projectName, "__init__.py"] in fs && cwd + ["tests", "__init__.py"] in fs
  {
    ProjectNameIsComponent(projectName);
    var dirs := ScaffoldDirs(cwd, projectName);
    assert Done(fs, dirs[0]) && Done(fs, dirs[1]) && Done(fs, dirs[2]) && Done(fs, dirs[3]) && Done(fs, dirs[4]);
    assert cwd + ["src", projectName] == SrcDir(cwd) + [projectName];
    assert cwd + ["src", projectName, "__init__.py"] == SrcDir(cwd) + [projectName] + ["__init__.py"];
    assert cwd + ["tests", "__init__.py"] == TestsDir(cwd) + ["__init__.py"];
  }

  /** The FastAPI stub, once its call has done its job. */
  lemma StubLayout(fs: Entries, cwd: Path, projectName: string, fastapi: bool)
    requires ValidateProjectName(projectName).Ok?
    requires forall op :: op in ScaffoldStub(cwd, projectName, fastapi) ==> Done(fs, op)
    ensures fastapi ==> HasFile(fs, cwd + ["src", projectName, "main.py"], Template(FastApiApp))
  {
    ProjectNameIsComponent(projectName);
    if fastapi {
      assert Done(fs, ScaffoldStub(cwd, projectName, fastapi)[0]);
      assert cwd + ["src", projectName, "main.py"] == SrcDir(cwd) + [projectName] + ["main.py"];
    }
  }

  /** The files written after the stub, once their calls have done their jobs. */
  lemma FilesLayout(fs: Entries, cwd: Path, authorName: string, manifest: Manifest, year: int)
    requires forall op :: op in ScaffoldFiles(cwd, authorName, manifest, year) ==> Done(fs, op)
    ensures HasFile(fs, cwd + ["tests", "test_helper.py"], Template(SimpleTest))
    ensures HasFile(fs, cwd + ["LICENSE.md"], License(year, authorName))
    ensures HasFile(fs, cwd + ["pyproject.toml"], Toml(manifest))
    ensures cwd + ["README.md"] in fs
    ensures HasFile(fs, cwd + ["tox.ini"], Template(ToxIni))
    ensures HasFile(fs, cwd + [".pre-commit-config.yaml"], Template(PreCommitConfig))
  {
    var files := ScaffoldFiles(cwd, authorName, manifest, year);
    assert cwd + ["tests", "test_helper.py"] == TestsDir(cwd) + ["test_helper.py"];
    assert Done(fs, files[0]) && Done(fs, files[1]) && Done(fs, files[2]);
    assert Done(fs, files[3]) && Done(fs, files[4]) && Done(fs, files[5]);
  }

  /** After `create_project_structure` returns normally: `src`, `src/<name>` and `tests` are
      directories, the package markers and `README.md` exist, the FastAPI stub is written when
      the flag is set, and the other files hold their fixed contents. The licence names the author
      as given, while the manifest lists the author stripped of surrounding whitespace. */
  lemma ScaffoldCreatesLayout(m: Entries, cwd: Path, name: string, pythonVersion: string, author: string,
                              fastapi: bool, year: int)
    requires Scaffold(m, cwd, name, pythonVersion, author, fastapi, year).raised.None?
    ensures var fs := Scaffold(m, cwd, name, pythonVersion, author, fastapi, year).fs;
      && IsDir(fs, cwd + ["src"]) && IsDir(fs, cwd + ["src", name]) && IsDir(fs, cwd + ["tests"])
      && cwd + ["src", name, "__init__.py"] in fs && cwd + ["tests", "__init__.py"] in fs
      && (fastapi ==> HasFile(fs, cwd + ["src", name, "main.py"], Template(FastApiApp)))
      && HasFile(fs, cwd + ["tests", "test_helper.py"], Template(SimpleTest))
      && HasFile(fs, cwd + ["LICENSE.md"], License(year, author))
      && HasFile(fs, cwd + ["pyproject.toml"], Toml(BuildManifest(name, pythonVersion, author, fastapi)))
      && BuildManifest(name, pythonVersion, author, fastapi).poetry.authors == [Strip(author)]
      && cwd + ["README.md"] in fs
      && HasFile(fs, cwd + ["tox.ini"], Template(ToxIni))
      && HasFile(fs, cwd + [".pre-commit-config.yaml"], Template(PreCommitConfig))
  {
    var fs := Scaffold(m, cwd, name, pythonVersion, author, fastapi, year).fs;
    ScaffoldDone(m, cwd, name, pythonVersion, author, fastapi, year);
    var manifest := BuildManifest(name, pythonVersion, author, fastapi);
    var dirs := ScaffoldDirs(cwd, name);
    var stub := ScaffoldStub(cwd, name, fastapi);
    var files := ScaffoldFiles(cwd, author, manifest, year);
    var plan := ScaffoldPlan(cwd, name, pythonVersion, author, fastapi, year);
    assert plan == dirs + stub + files;
    DirsLayout(fs, cwd, name);
    StubLayout(fs, cwd, name, fastapi);
    FilesLayout(fs, cwd, author, manifest, year);
    ManifestMetadata(name, pythonVersion, author, fastapi);
  }
}
