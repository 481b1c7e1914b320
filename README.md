# py-bootstrap, modelled in Dafny

py-bootstrap is a command-line tool that scaffolds a Poetry-based Python project in the current
directory and can remove the scaffold again. This project models its core, and proves what the
commands do to the filesystem and what they report. The core is:

- the name validators;
- the upward search for `pyproject.toml`;
- the existence report line;
- `create_project_structure`;
- `delete_project_files`;
- the decisions made by the commands `new`, `check_files`, `delete_all` and `use_venv`.

The filesystem is a map from absolute paths to nodes. A path is a sequence of components; a node
is a directory or a file with its content. It must be a tree: the root is a directory, and every
other entry sits in a directory. Each pathlib call the tool makes is one `Op`, and `Apply` gives
its effect. The call either returns, or raises `OSError` and changes nothing. `RunOps` chains the
calls and stops at the first exception. The changes made before that exception remain, as they do
on a real disk. The imperative code runs on a `FileSystem` object. Each of its methods is proved to
do exactly what `Apply` says for its call.

Modules, one per file:

- `Common`: Option, Result and the exceptions.
- `PyStr`: `str.isspace` and `str.strip`.
- `Pyproject`: the `pyproject.toml` record.
- `FileSystem`: paths, calls and the filesystem object.
- `Helper`: the functions of `src/app/helper.py`.
- `FileCreation`: `create_project_structure` and `delete_project_files`, each as a specification
  function and as a method.
- `ScaffoldLaws` and `UnscaffoldLaws`: what those two promise.
- `InverseLaw`: on an empty working directory, deleting what was created leaves the filesystem as it
  was, minus the working directory itself.
- `Cli`: the commands in `src/app/main.py`.

The code's behaviour is followed where the written description of the tool is looser:

- Python's `re.match` lets `$` match before a final newline, so `"my_app\n"` is an accepted
  project name.
- `find_pyproject_toml` never examines the root directory itself.
- `find_pyproject_toml` returns `None` rather than `False` when it finds nothing.
- The `main.py` entry that `delete_project_files` appends for FastAPI never has an effect.
- `delete_project_files` raises when a listed directory still holds a subdirectory, such as a
  `__pycache__`.

## Model

| member | source | states |
|---|---|---|
| PyStr.StripLeading | src/app/file_creation_commands.py:126 | what is dropped is whitespace, and the rest is a suffix that does not start with whitespace |
| PyStr.StripTrailing | src/app/file_creation_commands.py:126 | what is dropped is whitespace, and the rest is a prefix that does not end with whitespace |
| PyStr.Strip | src/app/file_creation_commands.py:126 | `author_name.strip()` is an infix of the input with only whitespace around it, and it neither starts nor ends with whitespace |
| PyStr.StripFixed | src/app/file_creation_commands.py:126 | a string with no whitespace at either end is left unchanged by `strip()` |
| PyStr.StripIdempotent | src/app/file_creation_commands.py:126 | stripping twice is stripping once |
| PyStr.IsPyWhitespace | src/app/helper.py:48 | the characters `str.isspace()` accepts, which are also what `\s` matches in `validate_author_name` and what `strip()` removes at file_creation_commands.py:126 |
| Pyproject.Lookup | src/app/file_creation_commands.py:149 | `table[key]` is absent exactly when the key is not in the table, and a present value comes from an item of the table |
| Pyproject.PutKeys | src/app/file_creation_commands.py:149 | assigning into a dict keeps an existing key in its place and appends a new key last |
| Pyproject.PutThenLookup | src/app/file_creation_commands.py:149 | after the assignment, the key maps to the new value |
| Pyproject.PutKeepsOthers | src/app/file_creation_commands.py:149 | the assignment leaves every other key's value unchanged |
| Pyproject.PutKeepsDistinct | src/app/file_creation_commands.py:149 | the assignment keeps the keys distinct |
| Pyproject.PutNew | src/app/file_creation_commands.py:149 | assigning a key the table lacks appends exactly one item |
| Pyproject.Put | src/app/file_creation_commands.py:149 | `table[key] = value` on a dict, whose properties are the Put lemmas |
| Pyproject.BuildManifest | src/app/file_creation_commands.py:116-149 | the dictionary `create_project_structure` assembles, whose properties are the Manifest lemmas |
| Pyproject.ManifestMetadata | src/app/file_creation_commands.py:116-127 | the build system is poetry-core; the name is the project name; the version is 0.0.1; the description is empty; the only author is the stripped author name; the readme is README.md |
| Pyproject.ManifestDependencies | src/app/file_creation_commands.py:128-149 | python (the given version), typer, toml and colorama, then fastapi ^0.108.0 as a fifth entry exactly when the flag is set; no key twice |
| Pyproject.DependenciesDistinct | src/app/file_creation_commands.py:128-149 | the runtime dependency keys are distinct with and without fastapi |
| Pyproject.ManifestDevDependencies | src/app/file_creation_commands.py:134-143 | the development dependencies are isort, flake8, black, tox and mypy, in that order |
| Pyproject.DevDependenciesDistinct | src/app/file_creation_commands.py:134-143 | no development dependency is listed twice |
| FileSystem.Join | src/app/file_creation_commands.py:102 | `path / name` adds one component, except that `""` and `"."` leave the path as it is |
| FileSystem.Apply | src/app/file_creation_commands.py:105-109 | a pathlib call that raises leaves the filesystem unchanged |
| FileSystem.RunOpsAppend | src/app/file_creation_commands.py:105-155 | two blocks of calls in a row are the first block, then the second unless the first raised |
| FileSystem.ApplyKeepsTree | src/app/file_creation_commands.py:105-109 | every call keeps the tree shape |
| FileSystem.RunOpsKeepsTree | src/app/file_creation_commands.py:105-155 | any sequence of calls keeps the tree shape |
| FileSystem.ApplyEffect | src/app/file_creation_commands.py:105-109 | a call that returns has done its job, and it touches no path but its own |
| FileSystem.ApplyDone | src/app/file_creation_commands.py:105-109 | the following return without changing anything: mkdir with exist_ok on an existing directory, touch on an existing path, and writing the content a file already holds |
| FileSystem.RunOpsFrame | src/app/file_creation_commands.py:105-155 | a path that no call names keeps its entry |
| FileSystem.RunOpsDone | src/app/file_creation_commands.py:105-155 | after a normal return, each call that no later call overrides has done its job |
| FileSystem.RunOpsDoneFixpoint | src/app/file_creation_commands.py:105-155 | creating calls whose jobs are all done already change nothing and raise nothing |
| FileSystem.RunOpsFresh | src/app/file_creation_commands.py:105-155 | creating distinct fresh paths, each in a directory that exists or was made earlier, returns normally and creates each one |
| FileSystem.RunOpsRepeat | src/app/file_creation_commands.py:105-155 | creating calls on distinct paths, made again on the state the first round left, end in that same state with the same exception |
| FileSystem.FileSystem.Mkdir | src/app/file_creation_commands.py:105-107 | `mkdir(exist_ok=True)` on the object changes its state as `Apply` says |
| FileSystem.FileSystem.Touch | src/app/file_creation_commands.py:108-109 | `touch()` on the object changes its state as `Apply` says |
| FileSystem.FileSystem.WriteText | src/app/file_creation_commands.py:151 | `write_text` on the object changes its state as `Apply` says |
| FileSystem.FileSystem.Unlink | src/app/file_creation_commands.py:227 | `unlink()` on the object changes its state as `Apply` says |
| FileSystem.FileSystem.Rmdir | src/app/file_creation_commands.py:232 | `rmdir()` on the object changes its state as `Apply` says |
| FileSystem.FileSystem.Exists | src/app/helper.py:33 | `path.exists()`: the path has an entry |
| FileSystem.FileSystem.IsFileAt | src/app/file_creation_commands.py:226 | `path.is_file()`: the path is a file |
| FileSystem.FileSystem.IsDirAt | src/app/file_creation_commands.py:228 | `path.is_dir()`: the path is a directory |
| FileSystem.FileSystem.HasEntries | src/app/file_creation_commands.py:235-237 | `any(path.iterdir())`: some entry sits directly in the directory |
| Helper.MatchesToEnd | src/app/helper.py:40 | the two ways an anchored `^C+$` pattern can match are the same as the regular-expression semantics |
| Helper.DollarAt | src/app/helper.py:40 | where `$` matches without the MULTILINE flag: at the end of the string, or just before a final newline |
| Helper.AnchoredMatch | src/app/helper.py:40-48 | what `re.match(r"^C+$", s)` accepts: a non-empty run of class characters from the start, after which `$` matches; the validators' contracts are stated against it |
| Helper.ValidateProjectName | src/app/helper.py:39-44 | Ok exactly when `re.match(r"^[a-z_]+$")` matches, with the name unchanged; otherwise ValueError with the source's message |
| Helper.ProjectNameAccepted | src/app/helper.py:39-44 | the accepted names are a non-empty run of a-z and `_`, optionally followed by one newline |
| Helper.ProjectNameIsComponent | src/app/helper.py:39-44 | an accepted name is one path component: non-empty, not `.`, without `/` |
| Helper.ValidateAuthorName | src/app/helper.py:47-50 | Ok exactly when `re.match(r"^[a-zA-Z\s]+$")` matches, with the name unchanged; otherwise ValueError with the source's message |
| Helper.AuthorNameAccepted | src/app/helper.py:47-50 | the accepted author names are the non-empty strings of letters and Unicode whitespace |
| Helper.ValidatorExamples | src/app/helper.py:39-50 | the repository's four test cases hold: `valid_project_name` and `John Doe` pass, `InvalidProjectName` and `John_Doe123` fail; beyond them, the empty name fails, `my_app\n` passes and `my_app\n\n` fails |
| Helper.FindPyprojectToml | src/app/helper.py:8-15 | true exactly when some directory from the start upwards, excluding the root, holds `pyproject.toml` |
| Helper.CheckFileExists | src/app/helper.py:31-36 | the line is the green check mark or the red cross, chosen by existence, followed by the path's text |
| Helper.Render | src/app/helper.py:34-36 | `str(path)` of an absolute path |
| Helper.Marker | src/app/helper.py:33-36 | the green check mark or the red cross, in colour |
| Helper.MarkerTellsExistence | src/app/helper.py:31-36 | the line starts with the green check mark exactly when the path exists |
| FileCreation.RunOpsRaisesOSError | src/app/file_creation_commands.py:105-155 | filesystem calls raise only OSError |
| FileCreation.CwdError | src/app/file_creation_commands.py:100 | `Path.cwd()` raises FileNotFound exactly when the working directory is not a directory; the same call is at file_creation_commands.py:209 and main.py:43 and :102 |
| FileCreation.ScaffoldPlan | src/app/file_creation_commands.py:105-155 | the calls made once both names are valid, in order, whose properties are the ScaffoldLaws lemmas |
| FileCreation.Scaffold | src/app/file_creation_commands.py:95-99 | `create_project_structure` raises ValueError exactly when a name is invalid, and then it changes nothing |
| FileCreation.CreateProjectStructure | src/app/file_creation_commands.py:95-155 | the object ends in the state `Scaffold` gives, with the same exception |
| FileCreation.WriteScaffold | src/app/file_creation_commands.py:100-155 | after validation, the directories, markers, optional stub and files are made in order, as the plan lists them |
| FileCreation.MakeCalls | src/app/file_creation_commands.py:105-155 | the calls are made in order and stop at the first that raises; the result is what `RunOps` gives |
| FileCreation.DeleteProjectFiles | src/app/file_creation_commands.py:207-238 | the object ends in the state `Unscaffold` gives, with the same exception |
| FileCreation.Unscaffold | src/app/file_creation_commands.py:207-238 | `delete_project_files` as a function of the filesystem, whose properties are the UnscaffoldLaws lemmas |
| FileCreation.DeletePlan | src/app/file_creation_commands.py:210-223 | the list of paths to delete, in order, with the FastAPI module last when the flag is set |
| FileCreation.DeletePath | src/app/file_creation_commands.py:226-232 | one entry of the list; its properties are DeletePathEffect and DeletePathClean |
| FileCreation.DeletePaths | src/app/file_creation_commands.py:225-232 | the loop over the list, stopping at the first exception; its properties are the DeletePaths lemmas |
| FileCreation.FilesBelow | src/app/file_creation_commands.py:229-231 | the files `rglob("*")` yields below a directory, at any depth |
| FileCreation.DeleteListed | src/app/file_creation_commands.py:225-232 | the loop over the list handles each entry as `DeletePath` says and stops at the first rmdir that raises |
| FileCreation.UnlinkFilesBelow | src/app/file_creation_commands.py:229-231 | every file at any depth below the directory is unlinked, and nothing else changes, whatever order the walk takes |
| ScaffoldLaws.PlanTailsDistinct | src/app/file_creation_commands.py:105-155 | no two paths of the plan are alike, relative to the working directory |
| ScaffoldLaws.PlanPathsDistinct | src/app/file_creation_commands.py:105-155 | with a valid name, no two calls name the same path |
| ScaffoldLaws.ScaffoldRunsPlan | src/app/file_creation_commands.py:95-155 | with valid names and an existing working directory, the function is exactly the plan of calls |
| ScaffoldLaws.PlanCreatesOnly | src/app/file_creation_commands.py:105-155 | the plan only makes directories, touches files and writes files |
| ScaffoldLaws.ScaffoldDone | src/app/file_creation_commands.py:95-155 | a normal return means both names were valid, the working directory existed, and every call did its job |
| ScaffoldLaws.ScaffoldFrame | src/app/file_creation_commands.py:95-155 | a path outside the plan is left as it was, whether or not an exception is raised |
| ScaffoldLaws.MypyIniUntouched | src/app/file_creation_commands.py:47-55 | `create_mypy_config` is never called, so `mypy.ini` is left as it was |
| ScaffoldLaws.ScaffoldIdempotent | src/app/file_creation_commands.py:95-155 | for every starting state, running it again on the state it left ends in that same state with the same exception |
| ScaffoldLaws.CwdNotScaffolded | src/app/file_creation_commands.py:100-103 | the working directory is not among the paths the plan creates |
| ScaffoldLaws.ScaffoldWhenDone | src/app/file_creation_commands.py:105-155 | on a filesystem where every call has already done its job, it changes nothing |
| ScaffoldLaws.ScaffoldKeepsTree | src/app/file_creation_commands.py:95-155 | the tree shape is kept |
| ScaffoldLaws.DirsLayout | src/app/file_creation_commands.py:105-109 | `src`, `src/<name>` and `tests` are directories; both `__init__.py` markers exist |
| ScaffoldLaws.StubLayout | src/app/file_creation_commands.py:111-112 | with the flag set, `src/<name>/main.py` holds the FastAPI app |
| ScaffoldLaws.FilesLayout | src/app/file_creation_commands.py:113-155 | the test, the license, the manifest, README.md, tox.ini and the pre-commit configuration hold their contents |
| ScaffoldLaws.ScaffoldCreatesLayout | src/app/file_creation_commands.py:95-155 | after a normal return, the whole layout exists; the license names the year and the author; the manifest lists the stripped author |
| UnscaffoldLaws.AncestorIsDir | src/app/file_creation_commands.py:228 | in a tree, everything above an entry is a directory |
| UnscaffoldLaws.RemoveFilesKeepsTree | src/app/file_creation_commands.py:229-231 | unlinking files keeps the tree shape |
| UnscaffoldLaws.DeletePathEffect | src/app/file_creation_commands.py:225-232 | one entry only removes the entry and what is inside it; on a normal return the entry is gone; a non-root entry can only raise DirectoryNotEmpty |
| UnscaffoldLaws.DeletePathsEffect | src/app/file_creation_commands.py:225-232 | the list only removes what its entries cover; on a normal return every entry is gone; a failure is DirectoryNotEmpty |
| UnscaffoldLaws.DeletePathsAppend | src/app/file_creation_commands.py:210-225 | two lists in a row are the first list, then the second unless the first raised |
| UnscaffoldLaws.DeletePathsSkipsAbsent | src/app/file_creation_commands.py:226-228 | entries that do not exist are skipped without effect |
| UnscaffoldLaws.UnscaffoldKeepsTree | src/app/file_creation_commands.py:207-238 | `delete_project_files` keeps the tree shape |
| UnscaffoldLaws.UnscaffoldFrame | src/app/file_creation_commands.py:207-238 | an entry that no listed path covers, other than `src` and the working directory, is left as it was |
| UnscaffoldLaws.UnscaffoldIdempotent | src/app/file_creation_commands.py:207-238 | for every starting state, raising or not, a second run on the state the first left ends in that same state with the same exception; the one exception is when the first run removed the working directory, and then the second raises FileNotFound and changes nothing |
| UnscaffoldLaws.DeletePathsRepeat | src/app/file_creation_commands.py:225-232 | walking the list again on the state the first walk left ends in that same state with the same exception |
| UnscaffoldLaws.UnscaffoldRemovesEmptyDirs | src/app/file_creation_commands.py:234-238 | on a normal return the working directory survived the list; `src` is then removed exactly when the list left it an empty directory; the working directory is removed exactly when it is empty after that; nothing else changes after the list |
| UnscaffoldLaws.CleanDirectoryUnchanged | src/app/file_creation_commands.py:234-238 | in a non-empty directory that holds nothing listed and no empty `src`, nothing happens |
| UnscaffoldLaws.FastapiEntryHasNoEffect | src/app/file_creation_commands.py:222-232 | the FastAPI entry changes nothing: by the time it is reached, the application directory is gone |
| UnscaffoldLaws.SubdirectoryBlocksDelete | src/app/file_creation_commands.py:229-232 | a subdirectory left in `tests` or in the application directory makes the command raise DirectoryNotEmpty |
| UnscaffoldLaws.SubdirectoryBlocksRmdir | src/app/file_creation_commands.py:228-232 | a listed directory that holds a subdirectory cannot be removed |
| UnscaffoldLaws.UnrelatedEntryKept | src/app/file_creation_commands.py:210-238 | an entry of the working directory that is not listed is kept, with everything inside it |
| UnscaffoldLaws.DeletePathClean | src/app/file_creation_commands.py:226-232 | an entry with no subdirectory inside it goes away, with everything inside it |
| UnscaffoldLaws.DeletePathsClean | src/app/file_creation_commands.py:225-232 | a list whose entries hold no subdirectories returns normally, and exactly what the entries do not cover remains |
| InverseLaw.PlanKinds | src/app/file_creation_commands.py:105-155 | the first three calls make directories; every later call touches or writes a file |
| InverseLaw.ScaffoldPathsBelow | src/app/file_creation_commands.py:100-155 | every created path lies inside the working directory |
| InverseLaw.PlanFreshOnEmptyBase | src/app/file_creation_commands.py:105-155 | on an empty working directory, every call creates a new path in a directory that exists by then |
| InverseLaw.ScaffoldOnEmptyBase | src/app/file_creation_commands.py:95-155 | on an empty working directory: a normal return; exactly the planned paths are new; the first three are directories and the rest are files |
| InverseLaw.DeletePlanAgainstPlan | src/app/file_creation_commands.py:210-223 | the delete list lies inside the working directory, never covers `src`, and covers every other created path |
| InverseLaw.ScaffoldedHasNoSubdirs | src/app/file_creation_commands.py:225-232 | after scaffolding an empty directory, no listed entry holds a subdirectory |
| InverseLaw.DeleteListAfterScaffold | src/app/file_creation_commands.py:225-232 | after scaffolding an empty directory, the list removes every created path except `src` and keeps every older entry |
| InverseLaw.UnscaffoldAfterScaffold | src/app/file_creation_commands.py:207-238 | deleting a scaffolded empty directory leaves the old filesystem minus the working directory |
| InverseLaw.ScaffoldThenUnscaffold | src/app/file_creation_commands.py:95-238 | create, then delete, on an empty working directory: both return normally, and the result is the old filesystem minus the working directory |
| Cli.New | src/app/main.py:19-38 | `new` ends as `NewRun` says and echoes its one line only on success |
| Cli.NewRun | src/app/main.py:25-35 | `new` as a function of the filesystem: the structure with the chosen settings, then the two rewrites unless the structure raised |
| Cli.NewRewrites | src/app/main.py:34-35 | `tox.ini`, then the pre-commit configuration, written with their templates |
| Cli.CreatedMessage | src/app/main.py:36-38 | the line `new` echoes: the project directory and the Python version |
| Cli.RewriteConfigs | src/app/main.py:33-35 | tox.ini, then the pre-commit configuration, are written again |
| Cli.RewritesAreNoOps | src/app/main.py:34-35 | writing them again over identical content changes nothing |
| Cli.NewIsScaffold | src/app/main.py:25-35 | `new` has exactly the effect and exception of `create_project_structure` with the chosen settings |
| Cli.NewWithDefaults | src/app/main.py:25-30 | with `--default` the prompts play no part: Python "3.10" and author "John Doe" are used, and only the project name can be rejected |
| Cli.NewSettings | src/app/main.py:25-30 | the defaults with `--default`, otherwise the two prompted answers |
| Cli.CheckFiles | src/app/main.py:41-57 | `Path.cwd()` raises FileNotFound exactly when the working directory is gone, and then no line is reported; otherwise one report line per path of the list, in order |
| Cli.CheckPaths | src/app/main.py:44-55 | the eight paths `check_files` reports on, then the FastAPI module when the flag is set |
| Cli.CheckPathsAreScaffolded | src/app/main.py:44-55 | every path `check_files` checks is created by `create_project_structure` with the same name and flag |
| Cli.CheckAfterScaffoldAllPresent | src/app/main.py:41-57 | after a successful scaffold, the working directory exists and every line carries the green check mark |
| Cli.CheckPathsBelow | src/app/main.py:43-55 | every checked path lies inside the working directory |
| Cli.CheckAfterRoundTripRaises | src/app/main.py:41-57 | after create and then delete on an empty working directory, the working directory and every checked path are gone, so `Path.cwd()` raises FileNotFound |
| Cli.DeleteAll | src/app/main.py:60-69 | deletion happens only when confirmed; declining changes nothing and echoes the cancellation |
| Cli.DeletedMessage | src/app/file_creation_commands.py:240 | the line `delete_project_files` echoes, naming the project |
| Cli.DeleteAllRun | src/app/main.py:63-69 | `delete_project_files` when confirmed, otherwise nothing |
| Cli.NewThenDeleteAll | src/app/main.py:60-69 | `new`, then a confirmed `delete_all`, on an empty working directory restores the old filesystem minus the working directory; declining keeps what `new` made |
| Cli.UseVenv | src/app/main.py:99-115 | `Path.cwd()` raises FileNotFound when the working directory is gone; then, with no manifest upwards, it stops; then, with the platform's interpreter missing, it stops; otherwise it switches to that interpreter |
| Cli.VenvDecision | src/app/main.py:102-115 | the working directory check, then the manifest check, then the interpreter check |
| Cli.InterpreterPath | src/app/main.py:108-110 | the interpreter lies inside the working directory, under `.venv` |
| Cli.InterpreterNotScaffolded | src/app/main.py:108-110 | the interpreter path lies in `.venv`, which scaffolding never creates |
| Cli.UseVenvAfterScaffold | src/app/main.py:99-115 | right after scaffolding an empty directory, `use_venv` finds the working directory and the manifest, but no environment |

## Left out

- File timestamps are not modelled. `touch()` and `write_text` update modification times even when
  the path or the content is already there, so "the same state" in ScaffoldLaws.ScaffoldIdempotent and
  Cli.RewritesAreNoOps means the same paths, kinds and contents, not the same times.
- Subprocess calls are not modelled: `install_poetry`, `is_poetry_installed`, `setup_poetry`,
  `create_venv`, and the `poetry env use` call of `use_venv`. `UseVenv` stops at the decision to
  make that call.
- `toml.dumps` is not modelled; the manifest is kept as the record it is serialised from.
- The template texts of the license, the tests, tox.ini, the pre-commit configuration and the
  FastAPI app are not modelled; each is a symbolic content, and the license keeps its year and
  holder.
- The clock is a parameter: `datetime.now().year` is the `year` argument.
- The current directory is a parameter: `Path.cwd()` is the `cwd` argument.
- The platform is a parameter: `platform.system() == "Windows"` is the `windows` argument.
- Prompts are parameters: `typer.prompt` and `typer.confirm` answers are arguments.
- Echoed lines are returned, not printed; colour codes are the ANSI sequences colorama emits, which
  appear on a terminal only: click removes them when standard output is not a terminal.
  `use_venv`'s messages are represented by its outcome value.
- `typer.Exit` and exit codes are not modelled.
- Helper.FindPyprojectToml: the source returns `None`, not `False`, when nothing is found; the
  model returns false.
- FileCreation.UnlinkFilesBelow: the order of `rglob` is not modelled; the result is proved
  independent of it.
- Pathlib details are not modelled: symbolic links, permissions, names containing `/` or `..`,
  and relative paths other than the working directory's own entries.
- Filesystem errors other than those listed in `FsError` are not modelled.
- Concurrency with other processes is not modelled.
- The root `main.py` is not part of this model: every line of it is commented out.
- Cli.DeleteAll: `delete_project_files` echoes its own line before `delete_all` adds its line.
  The model returns both lines from `DeleteAll`, not one from each function.
