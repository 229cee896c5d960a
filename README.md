# Request gate of the file-operation server

The server exposes one endpoint, `/api/operation`. A client sends a JSON
`Operation`: an action such as `list_files`, `read_file`, `write_file` or
`create_folder`, plus string parameters (`path`, `content`). The request
carries a bearer JWT. Before any filesystem call the server applies a fixed
chain of checks, and each failure produces one reply:

1. `authMiddleware`: a `Bearer ` prefix, then a token that validates with an
   HMAC algorithm. Failure is 401.
2. `operationHandler`: the method must be POST (otherwise 405), the body must
   decode (otherwise 400), and the action must be mapped to `true` in the
   configuration (otherwise 403).
3. `processOperation`: dispatches on the action. Each operation first checks
   the cleaned path against the path allowlist; `writeFile` also checks the
   lower-cased extension. The resulting OS call goes to the filesystem. Any
   error from this stage is a 500 carrying the error's text, and success is
   a 200 `success` envelope.

The Dafny model follows the program's structure, one module per concern:

- `Wrappers`: `Option` and `Result`.
- `Paths`: `strings.HasPrefix`, `filepath.Clean`, `filepath.Ext` and
  `strings.ToLower`.
  - `filepath.Clean` is a segment normaliser. It is proved to produce a
    normal form, to be idempotent and to print back exactly.
- `Settings`: the configuration record and the start-up constant.
- `Policy`:
  - The three allowlists.
  - The two loops of the source as methods, each proved equal to an
    existential predicate.
  - Concrete start-up consequences of the allowlists.
- `Auth`: the bearer prefix and the signing-algorithm pin.
- `Store`:
  - A filesystem of regular files and directories keyed by a path's lexical
    normal form.
  - The four OS calls as outcome functions.
  - A `FileSystem` class whose methods update its fields in place.
- `Operations`: the four operations and `processOperation`, as outcome
  functions and as methods on the `FileSystem`.
- `Pipeline`: the middleware wrapped around the handler. It is one method per
  stage, each proved to produce the reply and the new filesystem its outcome
  function describes.

Four behaviours of the gate are worth knowing; the model follows the code in
each:

- The path test is a plain textual prefix test, not bounded at a separator.
  Under the start-up configuration `/data/shared-evil/x` is therefore
  admitted (`Policy.SharedEvilAdmitted`, `Pipeline.SharedEvilReadable`).
- No size limit is enforced: `MaxFileSize` is configured but never read
  (`Operations.WriteIgnoresSize`).
- A denied path and a refused file type are reported as 500, like every
  other `processOperation` error, not as 403.
- Authentication runs before the method check, so an unauthenticated GET is
  401, not 405.

## Model

| member | source | states |
|---|---|---|
| Paths.Split | Server.go:196 | splitting at `/` gives separator-free pieces, at least one, that join back to the input |
| Paths.SplitJoin | Server.go:196 | splitting the join of separator-free pieces gives those pieces back |
| Paths.Parse | Server.go:196 | the normal form computed by `filepath.Clean` is canonical (proper segments, `..` only leading a relative path) and rooted exactly when the input starts with `/` |
| Paths.FoldIdentity | Server.go:196 | normalising segments that are already canonical leaves them unchanged |
| Paths.ParseRender | Server.go:196 | printing a canonical normal form and cleaning it again gives the same normal form |
| Paths.CleanIdempotent | Server.go:196 | `Clean` is idempotent and keeps the normal form of its input |
| Paths.CleanOfRender | Server.go:196 | a printed normal form is its own cleaned form |
| Paths.AbsoluteClean | Server.go:196 | an absolute path of proper non-`..` segments cleans to itself and parses to exactly those segments |
| Paths.Ext | Server.go:206 | `filepath.Ext` is a suffix of the path that starts with `.` and holds no further `.` or `/`; empty exactly when no dot follows the last separator |
| Paths.ExtAfterDot | Server.go:206 | the extension of `pre + "." + s`, with `s` free of dots and separators, is `"." + s` |
| Paths.ExtNoDot | Server.go:206 | a name without a dot has an empty extension |
| Paths.ToLower | Server.go:206 | lower-casing keeps the length, maps each character by ASCII lower-casing, and leaves no upper-case letter |
| Policy.IsPathAllowed | Server.go:195-203 | the loop returns true exactly when some allowlist entry is a textual prefix of the cleaned path; an empty allowlist admits nothing |
| Policy.EntryAdmitted | Server.go:195-203 | a path whose cleaned form is an allowlist entry is admitted, and it is contained in that entry |
| Policy.ContainedIsAllowed | Server.go:198 | every path inside an allowed directory, bounded at a separator, passes the prefix test |
| Policy.AllowedIffCleanAllowed | Server.go:196-198 | a path and its cleaned form are admitted alike |
| Policy.CleanSharedEvil | Server.go:196 | `/data/shared-evil/x` is already in normal form |
| Policy.SharedEvilAdmitted | Server.go:47-50 | under the start-up configuration `/data/shared-evil/x` is admitted although it lies in no allowed directory |
| Policy.SharedDirectoryAdmitted | Server.go:47-50 | under the start-up configuration `/data/shared` is admitted and contained |
| Policy.IsFileTypeAllowed | Server.go:205-213 | the loop returns true exactly when the lower-cased extension equals some configured type |
| Policy.InitFileTypes | Server.go:58-60 | under the start-up configuration a file type is accepted iff its lower-cased extension is `.txt`, `.json`, `.csv` or `.log` |
| Policy.UpperCaseExtensionAccepted | Server.go:206 | any name ending in `.TXT` is accepted: the comparison ignores case |
| Policy.OtherExtensionsRefused | Server.go:205-213 | any name ending in `.exe`, and any name without a dot, is refused |
| Policy.InitActions | Server.go:51-56 | under the start-up configuration an action is allowed iff it is one of the four dispatched ones; a missing key reads as false |
| Auth.ValidateToken | Server.go:64-71 | an accepted token decodes to itself, names an HMAC algorithm, and has a valid signature and valid claims |
| Auth.ValidateTokenAccepts | Server.go:64-71 | a token is accepted iff it decodes with an HMAC algorithm, a valid signature and valid claims |
| Auth.AlgorithmPinned | Server.go:66-67 | a token that decodes with any algorithm outside the HMAC family is refused with "unexpected signing method", whatever its signature (an algorithm the library does not register does not decode at all) |
| Auth.BearerToken | Server.go:76-81 | a token is found iff the header starts with `Bearer `, and the header is then that prefix followed by the token |
| Store.ErrorText | Server.go:165-167 | an OS error's text is longer than its operation name, so it is never empty |
| Store.WriteEffect | Server.go:182 | a successful write stores the content under the path's normal form and changes nothing else; it succeeds iff there is no fault, the target is no directory and its parent directory exists; a failed write changes nothing |
| Store.WriteKeepsWellFormed | Server.go:182 | a write keeps the filesystem well-formed |
| Store.WriteThenRead | Server.go:165-182 | after a successful write, reading any path with the same normal form returns exactly the written content |
| Store.AncestorShape | Server.go:191 | each ancestor of a normal form is a normal form whose parent is the next shorter ancestor |
| Store.AncestorFits | Server.go:191 | each directory `os.MkdirAll` adds is a normal form, no file, and sits in a directory that exists afterwards |
| Store.AddDirsKeepsWellFormed | Server.go:191 | adding directories that fit keeps the filesystem well-formed |
| Store.MkdirAllKeepsWellFormed | Server.go:191 | `os.MkdirAll` keeps the filesystem well-formed |
| Store.MkdirAllIdempotent | Server.go:191 | after `os.MkdirAll` succeeds the path is a directory, and repeating the call succeeds and changes nothing, whatever fault occurs then |
| Store.GlobFinds | Server.go:152 | listing a directory reports the printed path of every entry directly inside it |
| Store.FileSystem.constructor | Server.go:182-191 | the filesystem object starts in a given well-formed state |
| Store.FileSystem.Write | Server.go:182 | the in-place write reaches the new state and error that `WriteOutcome` describes, keeping the object well-formed |
| Store.FileSystem.MkdirAll | Server.go:191 | the in-place folder creation reaches the new state and error that `MkdirAllOutcome` describes, keeping the object well-formed |
| Operations.Message | Server.go:143-179 | every error's text is non-empty: "access denied to path: " plus the path, "file type not allowed", "unsupported operation", or the OS error's text |
| Operations.ListFiles | Server.go:147-158 | returns the outcome `ListFilesOutcome` describes (the path check, then the listing) and changes nothing |
| Operations.ReadFile | Server.go:160-171 | returns the outcome `ReadFileOutcome` describes (the path check, then the read) and changes nothing |
| Operations.WriteFile | Server.go:173-184 | reaches the result and state `WriteFileOutcome` describes: the path check, then the type check, then the write |
| Operations.CreateFolder | Server.go:186-193 | reaches the result and state `CreateFolderOutcome` describes: the path check, then `os.MkdirAll` |
| Operations.ProcessOperation | Server.go:132-145 | reaches the result and state `ProcessOutcome` describes, dispatching on the four actions, and keeps the filesystem well-formed |
| Operations.DeniedPathUntouched | Server.go:147-193 | for each of the four actions a path outside the allowlist gives "access denied to path: " plus the path and leaves the filesystem unchanged |
| Operations.UnsupportedUntouched | Server.go:142-143 | any other action gives "unsupported operation" and leaves the filesystem unchanged |
| Operations.InitNeverUnsupported | Server.go:132-145 | under the start-up configuration an allowed action never reaches the "unsupported operation" branch |
| Operations.QueriesUntouched | Server.go:134-137 | listing and reading never change the filesystem |
| Operations.WriteGuards | Server.go:173-184 | the path check comes before the type check; a refused type on an allowed path gives "file type not allowed" and writes nothing; the write succeeds iff both checks pass and the OS write succeeds, and then only the target file changes |
| Operations.WriteThenReadFile | Server.go:160-184 | after `writeFile` succeeds, `readFile` of the same path returns exactly the written content |
| Operations.WriteThenReadOperation | Server.go:132-145 | the same round trip through `processOperation` |
| Operations.WriteIgnoresSize | Server.go:173-184 | the result of a write does not depend on the content, so no size limit applies |
| Operations.CreateFolderIdempotent | Server.go:186-193 | once `create_folder` has succeeded, repeating it succeeds and changes nothing |
| Operations.ProcessKeepsWellFormed | Server.go:132-145 | every operation keeps the filesystem well-formed |
| Operations.ListFilesFinds | Server.go:147-158 | listing an allowed directory succeeds and reports every entry directly inside it |
| Pipeline.OperationHandler | Server.go:92-130 | the handler reaches the reply and state `HandleOutcome` describes: 405, 400, 403, then the operation's 500 or 200 |
| Pipeline.AuthMiddleware | Server.go:73-90 | the middleware around the handler reaches the reply and state `ServeOutcome` describes: 401 for a missing prefix or an invalid token, otherwise the handler |
| Pipeline.MissingBearerUnauthorized | Server.go:76-79 | a header without the `Bearer ` prefix gets 401 "Unauthorized" and nothing changes |
| Pipeline.InvalidTokenUnauthorized | Server.go:81-86 | a bearer token that fails validation gets 401 "Invalid token" and nothing changes |
| Pipeline.UnauthorizedExactly | Server.go:73-90 | a request gets 401 iff it is not authenticated, and then the filesystem is unchanged |
| Pipeline.ForeignAlgorithmUnauthorized | Server.go:64-86 | a token with a non-HMAC algorithm gets 401 even when its signature and claims are valid |
| Pipeline.NonPostNotAllowed | Server.go:93-96 | an authenticated non-POST request gets 405 before its body is decoded |
| Pipeline.MalformedBodyRejected | Server.go:98-105 | an authenticated POST whose body does not decode gets 400 "Invalid request format" |
| Pipeline.ForbiddenActionRejected | Server.go:107-114 | an action not mapped to true, a missing one included, gets 403 "Operation not allowed" and `processOperation` is not reached |
| Pipeline.OperationErrorIsInternal | Server.go:116-124 | every `processOperation` error, a denied path included, gets 500 with the error's text |
| Pipeline.OperationSuccessIsOk | Server.go:126-129 | a successful operation gets 200 "success" with its result and an empty message |
| Pipeline.EnvelopeShape | Server.go:215-219 | every JSON reply is a 200 "success" with an empty message or an "error" with no data and a non-empty message; plain-text replies are 401 or 405 |
| Pipeline.ChangesOnlyThroughMutations | Server.go:73-145 | the filesystem changes only through an authenticated POST whose allowed action is `write_file` or `create_folder` |
| Pipeline.ListSharedSucceeds | Server.go:147-158 | under the start-up configuration, listing `/data/shared` with a valid token gets 200 with the entries inside it |
| Pipeline.AdmittedReadSucceeds | Server.go:92-171 | an authenticated POST reading an existing file under an admitted path gets 200 with that file's content and changes nothing |
| Pipeline.SharedEvilReadable | Server.go:195-203 | under the start-up configuration, a valid token reads `/data/shared-evil/x`, outside every allowed directory, with 200 and the file's content |

## Left out

- The JSON layer is not modelled. The body arrives already decoded as an
  `Operation`, or as nothing when decoding fails. Replies are values, not
  encoded bytes: the `Content-Type` header, `http.Error`'s trailing newline
  and `Encode`'s newline are not represented.
- JWT parsing, HMAC verification and claim checks belong to the JWT library.
  The decoder is a parameter, and the outcome of the signature and claim
  checks is two flags of the decoded token. An empty `JWT_SECRET` is not
  represented.
- The `Timestamp` field of `Operation` is decoded but never read, so it is
  not kept.
- Server start-up over HTTP/3 with TLS (Server.go:221-238), the route
  registration and logging are left out: they are I/O.
- `AuthMiddleware` always wraps `OperationHandler`, the only handler the
  server registers. The model has no general `next` handler.
- No size limit: `maxFileSize` is kept in the configuration but nothing
  reads it, as in the source.
- Paths.ToLower: only ASCII letters are lower-cased. Unicode case mapping is
  not modelled.
- Store.GlobOutcome:
  - Glob metacharacters inside the listed path are not interpreted.
  - Results are a set, so Glob's sorted order is lost.
  - An empty listing is not marked as a `null` JSON value.
  - A malformed pattern cannot occur in the model, so Glob's only error is
    not represented.
- Store.MkdirAllOutcome:
  - On a file in the way, the error names the requested path. The OS names
    the ancestor where creation stopped.
  - A fault leaves nothing created. The OS may already have created some
    ancestors by then.
  - An existing directory is success before any fault is consulted: the model
    assumes the OS's `Stat` of an existing directory never fails.
  - The path is resolved lexically before anything is created. The OS walks
    the string as given, so `os.MkdirAll("/data/shared/new/..")` creates
    `/data/shared/new`, where the model creates nothing.
- Store.MkdirAllIdempotent: "whatever fault occurs then" rests on the
  assumption above that `Stat` of an existing directory never fails.
- Store.WriteEffect: a fault stands for a failure to open the target, reported
  under op "open", and leaves the tree unchanged. `os.WriteFile` opens with
  truncation before writing. A later write or close failure (a full disk, an
  I/O error) would leave the target created or truncated, or partly written,
  under op "write". The model does not capture that.
- Operations.WriteGuards: "a failed write changes nothing" inherits the gap
  of `Store.WriteEffect` above for a failure after the open.
- Paths are resolved lexically, as `filepath.Clean` resolves them.
  - Symbolic links, the working directory and permission bits are not
    modelled.
  - A relative path lives in its own namespace.
  - Any failure the tree cannot explain (permissions, a full disk, an I/O
    error) is an explicit `fault` input.
  - A trailing `/` or a `..` after a regular file resolves lexically, where
    the OS would report "not a directory".
- A concrete traversal example such as `/data/shared/../../etc/passwd` is not
  included. `Policy.AllowedIffCleanAllowed` states the general fact: the test
  looks only at the cleaned path.
- Client.go is not part of this model. It is a GUI and HTTP/3 client with no
  gate logic.
