/** `processOperation` and the four operations it dispatches to. Each operation
    checks its path against the allowlist before it touches the filesystem;
    `writeFile` then checks the file type. */
module Operations {
  import opened Wrappers
  import opened Paths
  import opened Settings
  import opened Policy
  import opened Store

  /** A decoded request body. The timestamp is decoded but never read, so it
      is not kept. */
  datatype Operation = Operation(action: string, parameters: map<string, string>)

  /** `op.Parameters[key]`: a missing key reads as the empty string. */
  function Param(op: Operation, key: string): string {
    if key in op.parameters then op.parameters[key] else ""
  }

  /** The errors `processOperation` can return. */
  datatype Error = AccessDenied(path: string) | FileTypeNotAllowed | Unsupported | Os(cause: FsError)

  /** `err.Error()`. */
  function Message(e: Error): (m: string)
    ensures m != ""
  {
    match e
    case AccessDenied(path) => "access denied to path: " + path
    case FileTypeNotAllowed => "file type not allowed"
    case Unsupported => "unsupported operation"
    case Os(cause) => ErrorText(cause)
  }

  /** What an operation returns on success: the listed paths, a file's
      content, or `true` for a write or a folder creation. */
  datatype Data = NoData | Listing(paths: set<string>) | Text(content: string) | Flag(done: bool)

  /** The actions `processOperation` knows. */
  const Dispatched: set<string> := {"list_files", "read_file", "write_file", "create_folder"}

  /** `listFiles`. */
  function ListFilesOutcome(cfg: Config, t: Tree, path: string, fault: Option<string>): Result<Data, Error> {
    if !PathAllowed(cfg, path) then Err(AccessDenied(path))
    else Ok(Listing(GlobOutcome(t, path, fault)))
  }

  /** `readFile`. */
  function ReadFileOutcome(cfg: Config, t: Tree, path: string, fault: Option<string>): Result<Data, Error> {
    if !PathAllowed(cfg, path) then Err(AccessDenied(path))
    else
      match ReadOutcome(t, path, fault)
      case Ok(content) => Ok(Text(content))
      case Err(e) => Err(Os(e))
  }

  /** `writeFile`: the path check, then the file-type check, then the write. */
  function WriteFileOutcome(cfg: Config, t: Tree, path: string, content: string, fault: Option<string>): (Result<Data, Error>, Tree) {
    if !PathAllowed(cfg, path) then (Err(AccessDenied(path)), t)
    else if !FileTypeAllowed(cfg, path) then (Err(FileTypeNotAllowed), t)
    else
      var (t', err) := WriteOutcome(t, path, content, fault);
      (if err.None? then Ok(Flag(true)) else Err(Os(err.value)), t')
  }

  /** `createFolder`. */
  function CreateFolderOutcome(cfg: Config, t: Tree, path: string, fault: Option<string>): (Result<Data, Error>, Tree) {
    if !PathAllowed(cfg, path) then (Err(AccessDenied(path)), t)
    else
      var (t', err) := MkdirAllOutcome(t, path, fault);
      (if err.None? then Ok(Flag(true)) else Err(Os(err.value)), t')
  }

  /** `processOperation`: the result and the filesystem afterwards. */
  function ProcessOutcome(cfg: Config, t: Tree, op: Operation, fault: Option<string>): (Result<Data, Error>, Tree) {
    match op.action
    case "list_files" => (ListFilesOutcome(cfg, t, Param(op, "path"), fault), t)
    case "read_file" => (ReadFileOutcome(cfg, t, Param(op, "path"), fault), t)
    case "write_file" => WriteFileOutcome(cfg, t, Param(op, "path"), Param(op, "content"), fault)
    case "create_folder" => CreateFolderOutcome(cfg, t, Param(op, "path"), fault)
    case _ => (Err(Unsupported), t)
  }

  method ListFiles(cfg: Config, fs: FileSystem, path: string, fault: Option<string>) returns (r: Result<Data, Error>)
    ensures r == ListFilesOutcome(cfg, fs.State(), path, fault)
  {
    var allowed := IsPathAllowed(cfg, path);
    if !allowed {
      return Err(AccessDenied(path));
    }
    var found := GlobOutcome(fs.State(), path, fault);
    return Ok(Listing(found));
  }

  method ReadFile(cfg: Config, fs: FileSystem, path: string, fault: Option<string>) returns (r: Result<Data, Error>)
    ensures r == ReadFileOutcome(cfg, fs.State(), path, fault)
  {
    var allowed := IsPathAllowed(cfg, path);
    if !allowed {
      return Err(AccessDenied(path));
    }
    var content := ReadOutcome(fs.State(), path, fault);
    if content.Err? {
      return Err(Os(content.error));
    }
    return Ok(Text(content.value));
  }

  method WriteFile(cfg: Config, fs: FileSystem, path: string, content: string, fault: Option<string>) returns (r: Result<Data, Error>)
    requires fs.Valid()
    modifies fs
    ensures fs.Valid()
    ensures (r, fs.State()) == WriteFileOutcome(cfg, old(fs.State()), path, content, fault)
  {
    var allowed := IsPathAllowed(cfg, path);
    if !allowed {
      return Err(AccessDenied(path));
    }
    var typeAllowed := IsFileTypeAllowed(cfg, path);
    if !typeAllowed {
      return Err(FileTypeNotAllowed);
    }
    var err := fs.Write(path, content, fault);
    if err.Some? {
      return Err(Os(err.value));
    }
    return Ok(Flag(true));
  }

  method CreateFolder(cfg: Config, fs: FileSystem, path: string, fault: Option<string>) returns (r: Result<Data, Error>)
    requires fs.Valid()
    modifies fs
    ensures fs.Valid()
    ensures (r, fs.State()) == CreateFolderOutcome(cfg, old(fs.State()), path, fault)
  {
    var allowed := IsPathAllowed(cfg, path);
    if !allowed {
      return Err(AccessDenied(path));
    }
    var err := fs.MkdirAll(path, fault);
    if err.Some? {
      return Err(Os(err.value));
    }
    return Ok(Flag(true));
  }

  method ProcessOperation(cfg: Config, fs: FileSystem, op: Operation, fault: Option<string>) returns (r: Result<Data, Error>)
    requires fs.Valid()
    modifies fs
    ensures fs.Valid()
    ensures (r, fs.State()) == ProcessOutcome(cfg, old(fs.State()), op, fault)
  {
    match op.action
    case "list_files" =>
      r := ListFiles(cfg, fs, Param(op, "path"), fault);
    case "read_file" =>
      r := ReadFile(cfg, fs, Param(op, "path"), fault);
    case "write_file" =>
      r := WriteFile(cfg, fs, Param(op, "path"), Param(op, "content"), fault);
    case "create_folder" =>
      r := CreateFolder(cfg, fs, Param(op, "path"), fault);
    case _ =>
      r := Err(Unsupported);
  }

  /** Every operation refuses a path outside the allowlist with "access
      denied", before touching the filesystem. */
  lemma DeniedPathUntouched(cfg: Config, t: Tree, op: Operation, fault: Option<string>)
    requires op.action in Dispatched
    requires !PathAllowed(cfg, Param(op, "path"))
    ensures ProcessOutcome(cfg, t, op, fault) == (Err(AccessDenied(Param(op, "path"))), t)
    ensures Message(ProcessOutcome(cfg, t, op, fault).0.error) == "access denied to path: " + Param(op, "path")
  {
  }

  /** Any other action is "unsupported operation" and changes nothing. */
  lemma UnsupportedUntouched(cfg: Config, t: Tree, op: Operation, fault: Option<string>)
    requires op.action !in Dispatched
    ensures ProcessOutcome(cfg, t, op, fault) == (Err(Unsupported), t)
    ensures Message(Unsupported) == "unsupported operation"
  {
  }

  /** Under the start-up configuration an action that passes the allowlist is
      always dispatched: the "unsupported operation" branch is unreachable from
      the handler. */
  lemma InitNeverUnsupported(t: Tree, op: Operation, fault: Option<string>)
    requires ActionAllowed(Init, op.action)
    ensures ProcessOutcome(Init, t, op, fault).0 != Err(Unsupported)
  {
    InitActions(op.action);
  }

  /** Listing and reading never change the filesystem. */
  lemma QueriesUntouched(cfg: Config, t: Tree, op: Operation, fault: Option<string>)
    requires op.action == "list_files" || op.action == "read_file"
    ensures ProcessOutcome(cfg, t, op, fault).1 == t
  {
  }

  /** The guards of `writeFile`, in order: a disallowed path is reported as
      such whatever the extension; an allowed path with a disallowed
      extension is "file type not allowed"; neither writes anything. On
      success exactly the target file changes. */
  lemma WriteGuards(cfg: Config, t: Tree, path: string, content: string, fault: Option<string>)
    ensures !PathAllowed(cfg, path) ==>
      WriteFileOutcome(cfg, t, path, content, fault) == (Err(AccessDenied(path)), t)
    ensures PathAllowed(cfg, path) && !FileTypeAllowed(cfg, path) ==>
      WriteFileOutcome(cfg, t, path, content, fault) == (Err(FileTypeNotAllowed), t)
    ensures WriteFileOutcome(cfg, t, path, content, fault).0 == Ok(Flag(true)) <==>
      PathAllowed(cfg, path) && FileTypeAllowed(cfg, path) && WriteOutcome(t, path, content, fault).1.None?
    ensures WriteFileOutcome(cfg, t, path, content, fault).0.Ok? ==>
      WriteFileOutcome(cfg, t, path, content, fault).1 == Tree(t.files[Parse(path) := content], t.dirs)
    ensures WriteFileOutcome(cfg, t, path, content, fault).0.Err? ==>
      WriteFileOutcome(cfg, t, path, content, fault).1 == t
  {
    WriteEffect(t, path, content, fault);
  }

  /** After `write_file` succeeds, `read_file` of the same path returns exactly
      the written content. */
  lemma WriteThenReadFile(cfg: Config, t: Tree, path: string, content: string, fault: Option<string>)
    requires WriteFileOutcome(cfg, t, path, content, fault).0.Ok?
    ensures ReadFileOutcome(cfg, WriteFileOutcome(cfg, t, path, content, fault).1, path, None) == Ok(Text(content))
  {
    WriteThenRead(t, path, path, content, fault);
  }

  /** The same round trip through `processOperation`. */
  lemma WriteThenReadOperation(cfg: Config, t: Tree, write: Operation, read: Operation, fault: Option<string>)
    requires write.action == "write_file" && read.action == "read_file"
    requires Param(read, "path") == Param(write, "path")
    requires ProcessOutcome(cfg, t, write, fault).0.Ok?
    ensures ProcessOutcome(cfg, ProcessOutcome(cfg, t, write, fault).1, read, None).0 ==
      Ok(Text(Param(write, "content")))
  {
    WriteThenReadFile(cfg, t, Param(write, "path"), Param(write, "content"), fault);
  }

  /** No size limit is enforced: the outcome of a write does not depend on the
      content, so content of any length, above `maxFileSize` included, is
      written exactly when a short one would be. */
  lemma WriteIgnoresSize(cfg: Config, t: Tree, path: string, small: string, large: string, fault: Option<string>)
    ensures WriteFileOutcome(cfg, t, path, large, fault).0 == WriteFileOutcome(cfg, t, path, small, fault).0
  {
    if PathAllowed(cfg, path) && FileTypeAllowed(cfg, path) {
      assert WriteOutcome(t, path, large, fault).1 == WriteOutcome(t, path, small, fault).1;
    }
  }

  /** `create_folder` is idempotent: once it has succeeded, repeating it
      succeeds and changes nothing. */
  lemma CreateFolderIdempotent(cfg: Config, t: Tree, path: string, fault: Option<string>, fault': Option<string>)
    requires CreateFolderOutcome(cfg, t, path, fault).0.Ok?
    ensures CreateFolderOutcome(cfg, CreateFolderOutcome(cfg, t, path, fault).1, path, fault') ==
      (Ok(Flag(true)), CreateFolderOutcome(cfg, t, path, fault).1)
  {
    MkdirAllIdempotent(t, path, fault, fault');
  }

  /** Every operation leaves a well-formed filesystem well-formed. */
  lemma ProcessKeepsWellFormed(cfg: Config, t: Tree, op: Operation, fault: Option<string>)
    requires WellFormed(t)
    ensures WellFormed(ProcessOutcome(cfg, t, op, fault).1)
  {
    if op.action == "write_file" {
      WriteKeepsWellFormed(t, Param(op, "path"), Param(op, "content"), fault);
    } else if op.action == "create_folder" {
      MkdirAllKeepsWellFormed(t, Param(op, "path"), fault);
    }
  }

  /** Listing an allowed directory reports every entry directly inside it. */
  lemma ListFilesFinds(cfg: Config, t: Tree, path: string, c: CleanPath)
    requires PathAllowed(cfg, path)
    requires c in t.files || c in t.dirs
    requires !Anchor(c) && Parent(c) == Parse(path)
    ensures ListFilesOutcome(cfg, t, path, None).Ok?
    ensures Render(c) in ListFilesOutcome(cfg, t, path, None).value.paths
  {
    GlobFinds(t, path, c);
  }
}
