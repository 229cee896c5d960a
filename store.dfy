/** The filesystem the operations act on, as far as the server can observe it:
    regular files with their contents and directories, both keyed by the
    lexical normal form of their path, and the four OS calls the server makes
    (`os.ReadFile`, `os.WriteFile`, `os.MkdirAll`, `filepath.Glob` over the entries of a directory).

    Paths are resolved lexically, as `filepath.Clean` does. A relative path is
    kept apart from every rooted one (the working directory is not modelled).
    "Anchors" — the root, "." and the relative paths made only of ".." —
    always exist as directories. A failure the tree does not explain
    (permissions, a full disk, an I/O error) is an input: `fault`. */
module Store {
  import opened Wrappers
  import opened Paths

  /** The errno behind a failed call. */
  datatype Cause = NotExist | IsDirectory | NotDirectory | Fault(text: string)

  /** `*os.PathError`: the operation, the path as given, and the cause. */
  datatype FsError = FsError(op: string, path: string, cause: Cause)

  function CauseText(c: Cause): string {
    match c
    case NotExist => "no such file or directory"
    case IsDirectory => "is a directory"
    case NotDirectory => "not a directory"
    case Fault(text) => text
  }

  /** `PathError.Error()`. */
  function ErrorText(e: FsError): (m: string)
    ensures |m| > |e.op|
  {
    e.op + " " + e.path + ": " + CauseText(e.cause)
  }

  predicate Anchor(c: CleanPath) {
    |c.segs| == 0 || c.segs[|c.segs| - 1] == ".."
  }

  function Parent(c: CleanPath): CleanPath
    requires !Anchor(c)
  {
    CleanPath(c.rooted, c.segs[..|c.segs| - 1])
  }

  /** The ancestor made of the first `k` segments. */
  function Prefix(c: CleanPath, k: nat): CleanPath
    requires k <= |c.segs|
  {
    CleanPath(c.rooted, c.segs[..k])
  }

  datatype Tree = Tree(files: map<CleanPath, string>, dirs: set<CleanPath>)

  predicate IsDir(t: Tree, c: CleanPath) {
    Anchor(c) || c in t.dirs
  }

  /** A tree the OS could present: nothing is both a file and a directory,
      every entry is in normal form and sits in an existing directory. */
  predicate WellFormed(t: Tree) {
    (forall c :: c in t.files ==> c !in t.dirs && Canonical(c) && !Anchor(c) && IsDir(t, Parent(c))) &&
    (forall c :: c in t.dirs ==> Canonical(c) && !Anchor(c) && IsDir(t, Parent(c)))
  }

  /** Some proper ancestor of `c` is a regular file. */
  predicate UnderFile(t: Tree, c: CleanPath) {
    exists k :: 0 <= k < |c.segs| && Prefix(c, k) in t.files
  }

  /** Why looking up a missing entry fails. */
  function Missing(t: Tree, c: CleanPath): Cause {
    if UnderFile(t, c) then NotDirectory else NotExist
  }

  /** `os.ReadFile(path)`. */
  function ReadOutcome(t: Tree, path: string, fault: Option<string>): Result<string, FsError> {
    var c := Parse(path);
    if fault.Some? then Err(FsError("open", path, Fault(fault.value)))
    else if c in t.files then Ok(t.files[c])
    else if IsDir(t, c) then Err(FsError("read", path, IsDirectory))
    else Err(FsError("open", path, Missing(t, c)))
  }

  /** `os.WriteFile(path, data, 0644)`: create or truncate a regular file
      whose parent directory exists. */
  function WriteOutcome(t: Tree, path: string, content: string, fault: Option<string>): (Tree, Option<FsError>) {
    var c := Parse(path);
    if fault.Some? then (t, Some(FsError("open", path, Fault(fault.value))))
    else if IsDir(t, c) then (t, Some(FsError("open", path, IsDirectory)))
    else if !IsDir(t, Parent(c)) then (t, Some(FsError("open", path, Missing(t, c))))
    else (Tree(t.files[c := content], t.dirs), None)
  }

  /** The directories `os.MkdirAll` creates for `c`: every ancestor and `c`
      itself, anchors excepted. */
  function Ancestors(c: CleanPath): set<CleanPath> {
    set k | 1 <= k <= |c.segs| && !Anchor(Prefix(c, k)) :: Prefix(c, k)
  }

  /** `os.MkdirAll(path, 0755)`: an existing directory is success; an existing
      file, or a file on the way, is refused; otherwise every missing
      directory on the way is created. */
  function MkdirAllOutcome(t: Tree, path: string, fault: Option<string>): (Tree, Option<FsError>) {
    var c := Parse(path);
    if IsDir(t, c) then (t, None)
    else if c in t.files then (t, Some(FsError("mkdir", path, NotDirectory)))
    else if fault.Some? then (t, Some(FsError("mkdir", path, Fault(fault.value))))
    else if UnderFile(t, c) then (t, Some(FsError("mkdir", path, NotDirectory)))
    else (Tree(t.files, t.dirs + Ancestors(c)), None)
  }

  /** `filepath.Glob(filepath.Join(dir, "*"))`: the printed paths of the
      entries directly inside `dir`. Glob ignores I/O errors, so a fault (or a
      missing directory) yields no matches rather than an error. */
  function GlobOutcome(t: Tree, dir: string, fault: Option<string>): set<string> {
    if fault.Some? then {}
    else
      var d := Parse(dir);
      set c | c in t.files.Keys + t.dirs && !Anchor(c) && Parent(c) == d :: Render(c)
  }

  /** A successful write stores the content under the normal form of the path
      and changes nothing else; a failed one changes nothing. */
  lemma WriteEffect(t: Tree, path: string, content: string, fault: Option<string>)
    ensures WriteOutcome(t, path, content, fault).1.None? ==>
      WriteOutcome(t, path, content, fault).0 == Tree(t.files[Parse(path) := content], t.dirs)
    ensures WriteOutcome(t, path, content, fault).1.Some? ==>
      WriteOutcome(t, path, content, fault).0 == t
    ensures WriteOutcome(t, path, content, fault).1.None? <==>
      fault.None? && !IsDir(t, Parse(path)) && IsDir(t, Parent(Parse(path)))
  {
  }

  lemma WriteKeepsWellFormed(t: Tree, path: string, content: string, fault: Option<string>)
    requires WellFormed(t)
    ensures WellFormed(WriteOutcome(t, path, content, fault).0)
  {
  }

  /** Reading back what a successful write stored gives exactly the written
      content, whatever path spelling reaches the same normal form. */
  lemma WriteThenRead(t: Tree, path: string, again: string, content: string, fault: Option<string>)
    requires Clean(again) == Clean(path)
    requires WriteOutcome(t, path, content, fault).1.None?
    ensures ReadOutcome(WriteOutcome(t, path, content, fault).0, again, None) == Ok(content)
  {
    ParseRender(Parse(path));
    ParseRender(Parse(again));
  }

  lemma PrefixFull(c: CleanPath)
    ensures Prefix(c, |c.segs|) == c
  {
    assert c.segs[..|c.segs|] == c.segs;
  }

  /** An ancestor of a normal form is a normal form, and its parent is the
      next shorter ancestor. */
  lemma AncestorShape(c: CleanPath, k: nat)
    requires Canonical(c)
    requires 1 <= k <= |c.segs| && !Anchor(Prefix(c, k))
    ensures Canonical(Prefix(c, k))
    ensures Parent(Prefix(c, k)) == Prefix(c, k - 1)
  {
    var a := Prefix(c, k);
    assert forall i :: 0 <= i < k ==> a.segs[i] == c.segs[i];
    assert c.segs[..k][..k - 1] == c.segs[..k - 1];
  }

  /** Each directory `os.MkdirAll` adds is a normal form, is not a file, and
      sits in a directory that exists afterwards. */
  lemma AncestorFits(t: Tree, c: CleanPath, a: CleanPath)
    requires Canonical(c) && c !in t.files && !UnderFile(t, c)
    requires a in Ancestors(c)
    ensures a !in t.files && Canonical(a) && !Anchor(a)
    ensures IsDir(Tree(t.files, t.dirs + Ancestors(c)), Parent(a))
  {
    var k :| 1 <= k <= |c.segs| && !Anchor(Prefix(c, k)) && a == Prefix(c, k);
    AncestorShape(c, k);
    if k == |c.segs| {
      PrefixFull(c);
    }
    if !Anchor(Prefix(c, k - 1)) {
      assert Prefix(c, k - 1) in Ancestors(c);
    }
  }

  /** Adding directories that fit keeps a tree well-formed. */
  lemma AddDirsKeepsWellFormed(t: Tree, added: set<CleanPath>)
    requires WellFormed(t)
    requires forall a :: a in added ==>
      a !in t.files && Canonical(a) && !Anchor(a) && IsDir(Tree(t.files, t.dirs + added), Parent(a))
    ensures WellFormed(Tree(t.files, t.dirs + added))
  {
  }

  lemma MkdirAllKeepsWellFormed(t: Tree, path: string, fault: Option<string>)
    requires WellFormed(t)
    ensures WellFormed(MkdirAllOutcome(t, path, fault).0)
  {
    var c := Parse(path);
    if !IsDir(t, c) && c !in t.files && fault.None? && !UnderFile(t, c) {
      forall a | a in Ancestors(c)
        ensures a !in t.files && Canonical(a) && !Anchor(a) && IsDir(Tree(t.files, t.dirs + Ancestors(c)), Parent(a))
      {
        AncestorFits(t, c, a);
      }
      AddDirsKeepsWellFormed(t, Ancestors(c));
    }
  }

  /** `os.MkdirAll` is idempotent: after it succeeds, calling it again on the
      same path succeeds and changes nothing, whatever faults occur then. */
  lemma MkdirAllIdempotent(t: Tree, path: string, fault: Option<string>, fault': Option<string>)
    requires MkdirAllOutcome(t, path, fault).1.None?
    ensures IsDir(MkdirAllOutcome(t, path, fault).0, Parse(path))
    ensures MkdirAllOutcome(MkdirAllOutcome(t, path, fault).0, path, fault') ==
      (MkdirAllOutcome(t, path, fault).0, None)
  {
    var c := Parse(path);
    if !IsDir(t, c) {
      PrefixFull(c);
      assert c in Ancestors(c);
    }
  }

  /** Listing finds every entry whose parent is the listed directory. */
  lemma GlobFinds(t: Tree, dir: string, c: CleanPath)
    requires c in t.files || c in t.dirs
    requires !Anchor(c) && Parent(c) == Parse(dir)
    ensures Render(c) in GlobOutcome(t, dir, None)
  {
  }

  /** The OS filesystem as mutable state. */
  class FileSystem {
    var files: map<CleanPath, string>
    var dirs: set<CleanPath>

    function State(): Tree
      reads this
    {
      Tree(files, dirs)
    }

    predicate Valid()
      reads this
    {
      WellFormed(State())
    }

    constructor (t: Tree)
      requires WellFormed(t)
      ensures Valid() && State() == t
    {
      files := t.files;
      dirs := t.dirs;
    }

    /** `os.WriteFile`. */
    method Write(path: string, content: string, fault: Option<string>) returns (err: Option<FsError>)
      requires Valid()
      modifies this
      ensures Valid()
      ensures (State(), err) == WriteOutcome(old(State()), path, content, fault)
    {
      var c := Parse(path);
      if fault.Some? {
        err := Some(FsError("open", path, Fault(fault.value)));
      } else if IsDir(State(), c) {
        err := Some(FsError("open", path, IsDirectory));
      } else if !IsDir(State(), Parent(c)) {
        err := Some(FsError("open", path, Missing(State(), c)));
      } else {
        WriteKeepsWellFormed(State(), path, content, fault);
        files := files[c := content];
        err := None;
      }
    }

    /** `os.MkdirAll`. */
    method MkdirAll(path: string, fault: Option<string>) returns (err: Option<FsError>)
      requires Valid()
      modifies this
      ensures Valid()
      ensures (State(), err) == MkdirAllOutcome(old(State()), path, fault)
    {
      var c := Parse(path);
      if IsDir(State(), c) {
        err := None;
      } else if c in files {
        err := Some(FsError("mkdir", path, NotDirectory));
      } else if fault.Some? {
        err := Some(FsError("mkdir", path, Fault(fault.value)));
      } else if UnderFile(State(), c) {
        err := Some(FsError("mkdir", path, NotDirectory));
      } else {
        MkdirAllKeepsWellFormed(State(), path, fault);
        dirs := dirs + Ancestors(c);
        err := None;
      }
    }
  }
}
