/** The part of `pathlib` the tool uses, over an abstract filesystem: a map from absolute paths
    (sequences of components, the root being []) to files and directories. */
module FileSystem {
  import opened Common
  import opened Pyproject

  type Path = seq<string>

  /** The fixed template texts the tool writes; their wording is not modelled. */
  datatype TemplateKind = FastApiApp | SimpleTest | ToxIni | PreCommitConfig | MypyIni

  /** File contents: plain text, a fixed template, the MIT licence for a year and a copyright
      holder, or the TOML serialisation of a manifest. */
  datatype Content =
    | Text(text: string)
    | Template(kind: TemplateKind)
    | License(year: int, holder: string)
    | Toml(doc: Manifest)

  datatype Node = File(content: Content) | Dir

  type Entries = map<Path, Node>

  /** `p / name`: pathlib drops an empty or "." component. */
  function Join(p: Path, name: string): (r: Path)
    ensures r == p || r == p + [name]
    ensures r == p <==> (name == "" || name == ".")
  {
    if name == "" || name == "." then p else p + [name]
  }

  function Parent(p: Path): Path
    requires p != []
  {
    p[..|p| - 1]
  }

  predicate IsFile(m: Entries, p: Path)
  {
    p in m && m[p].File?
  }

  predicate IsDir(m: Entries, p: Path)
  {
    p in m && m[p].Dir?
  }

  /** `q` lies strictly inside directory `d`. */
  predicate Below(d: Path, q: Path)
  {
    |d| < |q| && q[..|d|] == d
  }

  /** `q` is an immediate entry of directory `d`. */
  predicate IsChild(d: Path, q: Path)
  {
    |q| == |d| + 1 && q[..|d|] == d
  }

  /** `any(d.iterdir())` */
  predicate HasChildren(m: Entries, d: Path)
  {
    exists q :: q in m && IsChild(d, q)
  }

  /** The shape every real filesystem has: the root is a directory and every other entry sits in a
      directory. */
  ghost predicate Tree(m: Entries)
  {
    && IsDir(m, [])
    && forall p {:trigger Parent(p)} :: p in m && p != [] ==> IsDir(m, Parent(p))
  }

  /** The error opening or creating `p` raises because of its parent, if any. */
  function ParentError(m: Entries, p: Path): Option<Error>
  {
    if p != [] && IsDir(m, Parent(p)) then None
    else if p != [] && IsFile(m, Parent(p)) then Some(OSError(NotADirectory))
    else Some(OSError(FileNotFound))
  }

  /** One filesystem call. */
  datatype Op =
    | Mkdir(path: Path)                       // path.mkdir(exist_ok=True)
    | Touch(path: Path)                       // path.touch()
    | WriteText(path: Path, content: Content) // path.write_text(...)
    | Unlink(path: Path)                      // path.unlink()
    | Rmdir(path: Path)                       // path.rmdir()

  /** The filesystem after a sequence of calls, and the exception that stopped it, if any; the
      calls made before the exception keep their effect. */
  datatype Run = Run(fs: Entries, raised: Option<Error>)

  /** The effect of one call. A call that raises changes nothing. */
  function Apply(m: Entries, op: Op): (r: Run)
    ensures r.raised.Some? ==> r.fs == m
  {
    match op
    case Mkdir(p) =>
      if IsDir(m, p) then Run(m, None)
      else if p in m then Run(m, Some(OSError(FileExists)))
      else if ParentError(m, p).Some? then Run(m, ParentError(m, p))
      else Run(m[p := Dir], None)
    case Touch(p) =>
      if p in m then Run(m, None)
      else if ParentError(m, p).Some? then Run(m, ParentError(m, p))
      else Run(m[p := File(Text(""))], None)
    case WriteText(p, c) =>
      if IsDir(m, p) then Run(m, Some(OSError(IsADirectory)))
      else if p in m then Run(m[p := File(c)], None)
      else if ParentError(m, p).Some? then Run(m, ParentError(m, p))
      else Run(m[p := File(c)], None)
    case Unlink(p) =>
      if IsFile(m, p) then Run(m - {p}, None)
      else if p in m then Run(m, Some(OSError(IsADirectory)))
      else Run(m, Some(OSError(FileNotFound)))
    case Rmdir(p) =>
      if p !in m then Run(m, Some(OSError(FileNotFound)))
      else if IsFile(m, p) then Run(m, Some(OSError(NotADirectory)))
      else if p == [] then Run(m, Some(OSError(ResourceBusy)))
      else if HasChildren(m, p) then Run(m, Some(OSError(DirectoryNotEmpty)))
      else Run(m - {p}, None)
  }

  /** The calls one after another, stopping at the first that raises. */
  function RunOps(m: Entries, ops: seq<Op>): Run
    decreases |ops|
  {
    if ops == [] then Run(m, None)
    else
      var r := Apply(m, ops[0]);
      if r.raised.Some? then r else RunOps(r.fs, ops[1..])
  }

  /** Running two sequences of calls one after the other. */
  lemma {:induction false} RunOpsAppend(m: Entries, a: seq<Op>, b: seq<Op>)
    ensures RunOps(m, a + b) ==
      var r := RunOps(m, a); if r.raised.Some? then r else RunOps(r.fs, b)
    decreases |a|
  {
    if a != [] {
      assert (a + b)[1..] == a[1..] + b;
      if Apply(m, a[0]).raised.None? {
        RunOpsAppend(Apply(m, a[0]).fs, a[1..], b);
      }
    } else {
      assert a + b == b;
    }
  }

  /** Every call keeps the tree shape. */
  lemma ApplyKeepsTree(m: Entries, op: Op)
    requires Tree(m)
    ensures Tree(Apply(m, op).fs)
  {
    var r := Apply(m, op);
    if r.raised.None? {
      forall q | q in r.fs && q != [] ensures IsDir(r.fs, Parent(q)) {
        if q != op.path {
          assert IsDir(m, Parent(q));
          if Parent(q) == op.path {
            // only Unlink and Rmdir remove their path: a file has no entries, and rmdir needs none
            assert IsChild(op.path, q);
          }
        }
      }
    }
  }

  /** A sequence of calls keeps the tree shape. */
  lemma {:induction false} RunOpsKeepsTree(m: Entries, ops: seq<Op>)
    requires Tree(m)
    ensures Tree(RunOps(m, ops).fs)
    decreases |ops|
  {
    if ops != [] {
      ApplyKeepsTree(m, ops[0]);
      RunOpsKeepsTree(Apply(m, ops[0]).fs, ops[1..]);
    }
  }

  /** `q` has the same entry, or the same absence, in `a` and `b`. */
  predicate Same(a: Entries, b: Entries, q: Path)
  {
    (q in a <==> q in b) && (q in a ==> a[q] == b[q])
  }

  /** A call that creates or overwrites, as opposed to one that removes. */
  predicate Creates(op: Op)
  {
    op.Mkdir? || op.Touch? || op.WriteText?
  }

  /** What holds of the call's path once the call has returned normally. */
  predicate Done(m: Entries, op: Op)
  {
    match op
    case Mkdir(p) => IsDir(m, p)
    case Touch(p) => p in m
    case WriteText(p, c) => p in m && m[p] == File(c)
    case Unlink(p) => p !in m
    case Rmdir(p) => p !in m
  }

  /** A call that returns has done its job, and no call touches any path but its own. */
  lemma ApplyEffect(m: Entries, op: Op)
    ensures Apply(m, op).raised.None? ==> Done(Apply(m, op).fs, op)
    ensures forall q :: q != op.path ==> Same(m, Apply(m, op).fs, q)
  {
  }

  /** A creating call whose job is already done returns without changing anything: mkdir with
      `exist_ok`, touch of an existing path, and writing the content a file already has. */
  lemma ApplyDone(m: Entries, op: Op)
    requires Creates(op) && Done(m, op)
    ensures Apply(m, op) == Run(m, None)
  {
    if op.WriteText? {
      assert m[op.path := File(op.content)] == m;
    }
  }

  /** A path that no call of the sequence names keeps its entry, whether or not a call raises. */
  lemma {:induction false} RunOpsFrame(m: Entries, ops: seq<Op>, q: Path)
    requires forall i :: 0 <= i < |ops| ==> ops[i].path != q
    ensures Same(m, RunOps(m, ops).fs, q)
    decreases |ops|
  {
    if ops != [] {
      ApplyEffect(m, ops[0]);
      var r := Apply(m, ops[0]);
      if r.raised.None? {
        RunOpsFrame(r.fs, ops[1..], q);
      }
    }
  }

  /** When a sequence of calls returns normally, every call whose path no later call names has its
      job done at the end. */
  lemma {:induction false} RunOpsDone(m: Entries, ops: seq<Op>, i: nat)
    requires i < |ops|
    requires RunOps(m, ops).raised.None?
    requires forall j :: i < j < |ops| ==> ops[j].path != ops[i].path
    ensures Done(RunOps(m, ops).fs, ops[i])
    decreases |ops|
  {
    ApplyEffect(m, ops[0]);
    var r := Apply(m, ops[0]);
    if i == 0 {
      RunOpsFrame(r.fs, ops[1..], ops[0].path);
      assert Same(r.fs, RunOps(m, ops).fs, ops[0].path);
    } else {
      RunOpsDone(r.fs, ops[1..], i - 1);
    }
  }

  /** Creating calls whose jobs are all done leave the filesystem as it is. */
  lemma {:induction false} RunOpsDoneFixpoint(m: Entries, ops: seq<Op>)
    requires forall i :: 0 <= i < |ops| ==> Creates(ops[i]) && Done(m, ops[i])
    ensures RunOps(m, ops) == Run(m, None)
    decreases |ops|
  {
    if ops != [] {
      ApplyDone(m, ops[0]);
      RunOpsDoneFixpoint(m, ops[1..]);
    }
  }

  /** Creating calls on distinct paths, made a second time on the state the first round left, end in
      that same state with the same exception: the calls that returned have already done their
      jobs, and the one that raised meets the state it raised on. */
  lemma {:induction false} RunOpsRepeat(m: Entries, ops: seq<Op>)
    requires forall i :: 0 <= i < |ops| ==> Creates(ops[i])
    requires forall i, j :: 0 <= i < j < |ops| ==> ops[i].path != ops[j].path
    ensures RunOps(RunOps(m, ops).fs, ops) == RunOps(m, ops)
    decreases |ops|
  {
    if ops != [] {
      var r1 := Apply(m, ops[0]);
      if r1.raised.None? {
        var rest := ops[1..];
        assert forall i :: 0 <= i < |rest| ==> rest[i] == ops[i + 1];
        RunOpsRepeat(r1.fs, rest);
        var end := RunOps(r1.fs, rest);
        ApplyEffect(m, ops[0]);
        RunOpsFrame(r1.fs, rest, ops[0].path);
        assert Done(end.fs, ops[0]);
        ApplyDone(end.fs, ops[0]);
      }
    }
  }

  /** The node a creating call leaves on a path that did not exist. */
  function Created(op: Op): Node
    requires Creates(op)
  {
    match op
    case Mkdir(_) => Dir
    case Touch(_) => File(Text(""))
    case WriteText(_, c) => File(c)
  }

  /** The directory that will hold the path of `ops[i]` exists beforehand or is made by an earlier
      call of the sequence. */
  predicate ParentReady(m: Entries, ops: seq<Op>, i: nat)
    requires i < |ops| && ops[i].path != []
  {
    var up := Parent(ops[i].path);
    IsDir(m, up) || exists j :: 0 <= j < i && ops[j] == Mkdir(up)
  }

  /** Creating calls on distinct new paths, each of whose directories exists in time, all return
      normally, and each leaves its node. */
  lemma {:induction false} RunOpsFresh(m: Entries, ops: seq<Op>)
    requires forall i :: 0 <= i < |ops| ==> Creates(ops[i]) && ops[i].path !in m && ops[i].path != []
    requires forall i, j :: 0 <= i < j < |ops| ==> ops[i].path != ops[j].path
    requires forall i :: 0 <= i < |ops| ==> ParentReady(m, ops, i)
    ensures RunOps(m, ops).raised.None?
    ensures forall i :: 0 <= i < |ops| ==>
              ops[i].path in RunOps(m, ops).fs && RunOps(m, ops).fs[ops[i].path] == Created(ops[i])
    decreases |ops|
  {
    if ops != [] {
      var p := ops[0].path;
      var m1 := m[p := Created(ops[0])];
      assert ParentReady(m, ops, 0);
      assert ParentError(m, p).None?;
      assert Apply(m, ops[0]) == Run(m1, None);
      var rest := ops[1..];
      forall i | 0 <= i < |rest| ensures ParentReady(m1, rest, i) {
        assert rest[i] == ops[i + 1];
        var up := Parent(ops[i + 1].path);
        assert ParentReady(m, ops, i + 1);
        if !IsDir(m, up) {
          var j :| 0 <= j < i + 1 && ops[j] == Mkdir(up);
          if j > 0 {
            assert rest[j - 1] == ops[j];
          }
        }
      }
      RunOpsFresh(m1, rest);
      RunOpsFrame(m1, rest, p);
      forall i | 0 <= i < |ops| ensures ops[i].path in RunOps(m, ops).fs && RunOps(m, ops).fs[ops[i].path] == Created(ops[i]) {
        if i > 0 {
          assert ops[i] == rest[i - 1];
        }
      }
    }
  }

  /** The filesystem as the commands see it: one object whose state every pathlib call updates. */
  class FileSystem {
    var entries: Entries

    ghost predicate Valid()
      reads this
    {
      Tree(entries)
    }

    constructor (initial: Entries)
      requires Tree(initial)
      ensures Valid() && entries == initial
    {
      entries := initial;
    }

    /** `path.exists()` */
    function Exists(p: Path): bool
      reads this
    {
      p in entries
    }

    /** `path.is_file()` */
    function IsFileAt(p: Path): bool
      reads this
    {
      IsFile(entries, p)
    }

    /** `path.is_dir()` */
    function IsDirAt(p: Path): bool
      reads this
    {
      IsDir(entries, p)
    }

    /** `any(path.iterdir())` */
    function HasEntries(p: Path): bool
      reads this
    {
      HasChildren(entries, p)
    }

    /** `path.mkdir(exist_ok=True)`: an existing directory is left alone; an existing file raises. */
    method Mkdir(p: Path) returns (raised: Option<Error>)
      requires Valid()
      modifies this
      ensures Valid()
      ensures Run(entries, raised) == Apply(old(entries), Op.Mkdir(p))
    {
      ApplyKeepsTree(entries, Op.Mkdir(p));
      if p in entries && entries[p].Dir? {
        raised := None;
      } else if p in entries {
        raised := Some(OSError(FileExists));
      } else {
        raised := ParentError(entries, p);
        if raised.None? {
          entries := entries[p := Dir];
        }
      }
    }

    /** `path.touch()`: an existing path keeps its content; a missing one becomes an empty file. */
    method Touch(p: Path) returns (raised: Option<Error>)
      requires Valid()
      modifies this
      ensures Valid()
      ensures Run(entries, raised) == Apply(old(entries), Op.Touch(p))
    {
      ApplyKeepsTree(entries, Op.Touch(p));
      if p in entries {
        raised := None;
      } else {
        raised := ParentError(entries, p);
        if raised.None? {
          entries := entries[p := File(Text(""))];
        }
      }
    }

    /** `path.write_text(...)`: creates or overwrites a file; a directory raises. */
    method WriteText(p: Path, c: Content) returns (raised: Option<Error>)
      requires Valid()
      modifies this
      ensures Valid()
      ensures Run(entries, raised) == Apply(old(entries), Op.WriteText(p, c))
    {
      ApplyKeepsTree(entries, Op.WriteText(p, c));
      if p in entries && entries[p].Dir? {
        raised := Some(OSError(IsADirectory));
      } else if p in entries {
        raised := None;
        entries := entries[p := File(c)];
      } else {
        raised := ParentError(entries, p);
        if raised.None? {
          entries := entries[p := File(c)];
        }
      }
    }

    /** `path.unlink()`: removes a file; a directory or a missing path raises. */
    method Unlink(p: Path) returns (raised: Option<Error>)
      requires Valid()
      modifies this
      ensures Valid()
      ensures Run(entries, raised) == Apply(old(entries), Op.Unlink(p))
    {
      ApplyKeepsTree(entries, Op.Unlink(p));
      if p in entries && entries[p].File? {
        raised := None;
        entries := entries - {p};
      } else if p in entries {
        raised := Some(OSError(IsADirectory));
      } else {
        raised := Some(OSError(FileNotFound));
      }
    }

    /** `path.rmdir()`: removes an empty directory other than the root; anything else raises. */
    method Rmdir(p: Path) returns (raised: Option<Error>)
      requires Valid()
      modifies this
      ensures Valid()
      ensures Run(entries, raised) == Apply(old(entries), Op.Rmdir(p))
    {
      ApplyKeepsTree(entries, Op.Rmdir(p));
      if p !in entries {
        raised := Some(OSError(FileNotFound));
      } else if entries[p].File? {
        raised := Some(OSError(NotADirectory));
      } else if p == [] {
        raised := Some(OSError(ResourceBusy));
      } else if HasChildren(entries, p) {
        raised := Some(OSError(DirectoryNotEmpty));
      } else {
        raised := None;
        entries := entries - {p};
      }
    }
  }
}
