/** Name validators, the upward search for `pyproject.toml`, and the existence report line. */
module Helper {
  import opened Common
  import opened PyStr
  import opened FileSystem

  // ---------------------------------------------------------------------------------------------
  // Validators: `re.match(r"^C+$", s)` for a character class C

  /** `[a-z_]` */
  predicate IsProjectNameChar(c: char)
  {
    ('a' <= c <= 'z') || c == '_'
  }

  /** `[a-zA-Z\s]`, where `\s` is Unicode whitespace */
  predicate IsAuthorNameChar(c: char)
  {
    ('a' <= c <= 'z') || ('A' <= c <= 'Z') || IsPyWhitespace(c)
  }

  /** Without the MULTILINE flag, `$` matches at the end of the string and just before a newline
      that ends it. */
  predicate DollarAt(s: string, k: int)
  {
    k == |s| || (0 <= k == |s| - 1 && s[k] == '\n')
  }

  /** What `re.match(r"^C+$", s)` accepts: a non-empty run of class characters from the start of
      `s`, after which `$` matches. */
  ghost predicate AnchoredMatch(inClass: char -> bool, s: string)
  {
    exists k :: 1 <= k <= |s| && (forall i :: 0 <= i < k ==> inClass(s[i])) && DollarAt(s, k)
  }

  predicate AllIn(inClass: char -> bool, s: string)
  {
    forall i :: 0 <= i < |s| ==> inClass(s[i])
  }

  /** The two ways the anchored pattern can match: the whole string is class characters, or all
      but a final newline are. */
  predicate MatchesToEnd(inClass: char -> bool, s: string)
    ensures MatchesToEnd(inClass, s) <==> AnchoredMatch(inClass, s)
  {
    var whole := |s| >= 1 && AllIn(inClass, s);
    var beforeNewline := |s| >= 2 && s[|s| - 1] == '\n' && AllIn(inClass, s[..|s| - 1]);
    assert whole ==> DollarAt(s, |s|);
    assert beforeNewline ==> DollarAt(s, |s| - 1);
    whole || beforeNewline
  }

  const ProjectNameMessage := "Project name must contain only lowercase letters and underscores."
  const AuthorNameMessage := "Author name must contain only letters and spaces."

  /** `validate_project_name`: the name itself when `^[a-z_]+$` matches it, ValueError otherwise. */
  function ValidateProjectName(name: string): (r: Result<string>)
    ensures r.Ok? <==> AnchoredMatch(IsProjectNameChar, name)
    ensures r.Ok? ==> r.value == name
    ensures r.Err? ==> r.error == ValueError(ProjectNameMessage)
  {
    if MatchesToEnd(IsProjectNameChar, name) then Ok(name) else Err(ValueError(ProjectNameMessage))
  }

  /** `validate_author_name`: the name itself when `^[a-zA-Z\s]+$` matches it, ValueError otherwise. */
  function ValidateAuthorName(name: string): (r: Result<string>)
    ensures r.Ok? <==> AnchoredMatch(IsAuthorNameChar, name)
    ensures r.Ok? ==> r.value == name
    ensures r.Err? ==> r.error == ValueError(AuthorNameMessage)
  {
    if MatchesToEnd(IsAuthorNameChar, name) then Ok(name) else Err(ValueError(AuthorNameMessage))
  }

  /** The project names accepted are exactly a non-empty run of `a`-`z` and `_`, optionally
      followed by one newline (which `$` lets through). */
  lemma ProjectNameAccepted(name: string)
    ensures ValidateProjectName(name).Ok? <==>
      || (|name| >= 1 && AllIn(IsProjectNameChar, name))
      || (|name| >= 2 && name[|name| - 1] == '\n' && AllIn(IsProjectNameChar, name[..|name| - 1]))
  {
  }

  /** A valid project name is never empty, never "." and never contains "/", so it names exactly one
      new path component. */
  lemma {:induction false} ProjectNameIsComponent(name: string)
    requires ValidateProjectName(name).Ok?
    ensures name != "" && name != "." && '/' !in name
  {
    assert MatchesToEnd(IsProjectNameChar, name);
    var body := if AllIn(IsProjectNameChar, name) then name else name[..|name| - 1];
    assert |body| >= 1 && AllIn(IsProjectNameChar, body);
    forall i | 0 <= i < |name| ensures name[i] != '/' {
      if i < |body| {
        assert IsProjectNameChar(body[i]);
      }
    }
    assert IsProjectNameChar(body[0]);
  }

  /** For author names the newline allowance adds nothing, since `\s` already matches a newline:
      the names accepted are exactly the non-empty strings of ASCII letters and whitespace. */
  lemma {:induction false} AuthorNameAccepted(name: string)
    ensures ValidateAuthorName(name).Ok? <==> |name| >= 1 && AllIn(IsAuthorNameChar, name)
  {
    if |name| >= 2 && name[|name| - 1] == '\n' && AllIn(IsAuthorNameChar, name[..|name| - 1]) {
      assert IsAuthorNameChar('\n');
      assert forall i :: 0 <= i < |name| - 1 ==> name[..|name| - 1][i] == name[i];
    }
  }

  /** The repository's four test cases, plus the empty name and the trailing-newline cases. */
  lemma ValidatorExamples()
    ensures ValidateProjectName("valid_project_name") == Ok("valid_project_name")
    ensures ValidateProjectName("my_app\n") == Ok("my_app\n")
    ensures ValidateProjectName("InvalidProjectName").Err?
    ensures ValidateProjectName("").Err?
    ensures ValidateProjectName("my_app\n\n").Err?
    ensures ValidateAuthorName("John Doe") == Ok("John Doe")
    ensures ValidateAuthorName("John_Doe123").Err?
  {
    assert !IsProjectNameChar("InvalidProjectName"[0]);
    assert !IsProjectNameChar("my_app\n\n"[6]);
    assert !IsAuthorNameChar("John_Doe123"[4]);
  }

  // ---------------------------------------------------------------------------------------------
  // find_pyproject_toml

  const PyprojectName := "pyproject.toml"

  /** `dir / "pyproject.toml"` exists. */
  predicate HasManifest(m: Entries, dir: Path)
  {
    dir + [PyprojectName] in m
  }

  /** `find_pyproject_toml(start)`: walks from `start` towards the root and reports whether some
      directory on the way holds `pyproject.toml`. The loop stops when a path is its own parent,
      so the root itself is never examined. The source returns None rather than False when nothing
      is found; `found` is false then. */
  method FindPyprojectToml(fs: FileSystem, start: Path) returns (found: bool)
    ensures found <==> exists k :: 1 <= k <= |start| && HasManifest(fs.entries, start[..k])
  {
    var current := start;
    while current != []
      invariant |current| <= |start| && current == start[..|current|]
      invariant forall k :: |current| < k <= |start| ==> !HasManifest(fs.entries, start[..k])
      decreases |current|
    {
      if fs.Exists(current + [PyprojectName]) {
        assert HasManifest(fs.entries, start[..|current|]);
        return true;
      }
      current := current[..|current| - 1];
    }
    return false;
  }

  // ---------------------------------------------------------------------------------------------
  // check_file_exists

  /** `str(path)` for an absolute path. */
  function Render(p: Path): string
  {
    if p == [] then "/" else RenderComponents(p)
  }

  function RenderComponents(p: Path): string
  {
    if p == [] then "" else RenderComponents(p[..|p| - 1]) + "/" + p[|p| - 1]
  }

  const Green := "\U{1B}[32m"
  const Red := "\U{1B}[31m"
  const ResetAll := "\U{1B}[0m"
  const CheckMark := "\U{2714} "
  const CrossMark := "\U{2716} "

  /** The prefix `check_file_exists` echoes before the path: a green check mark or a red cross. */
  function Marker(present: bool): string
  {
    if present then Green + CheckMark + ResetAll else Red + CrossMark + ResetAll
  }

  /** `check_file_exists(path)`: the one line it echoes. */
  function CheckFileExists(m: Entries, p: Path): (line: string)
    ensures var shown := Render(p);
      && |line| == |Marker(p in m)| + |shown|
      && line[..|Marker(p in m)|] == Marker(p in m)
      && line[|Marker(p in m)|..] == shown
  {
    Marker(p in m) + Render(p)
  }

  /** The two markers differ, so a report line tells whether the path exists. */
  lemma MarkerTellsExistence(m: Entries, p: Path)
    ensures CheckFileExists(m, p)[..|Marker(true)|] == Marker(true) <==> p in m
  {
    assert Marker(true)[5] != Marker(false)[5];
  }
}
