/** The request pipeline of the `/api/operation` endpoint: `authMiddleware`
    wrapped around `operationHandler`. Each stage either writes one reply and
    stops or hands the request on: bearer prefix, token, method, body, action
    allowlist, then `processOperation`. */
module Pipeline {
  import opened Wrappers
  import opened Paths
  import opened Settings
  import opened Policy
  import opened Auth
  import opened Store
  import opened Operations

  /** A request as the handler sees it: the HTTP method, the `Authorization` header
      (empty when absent) and the body decoded as an operation (`None` when
      JSON decoding fails). */
  datatype Request = Request(verb: string, authorization: string, body: Option<Operation>)

  /** The JSON envelope. */
  datatype Response = Response(status: string, data: Data, message: string)

  /** What is written back: a plain-text `http.Error` or a JSON envelope sent
      by `sendResponse`, each with its HTTP status code. */
  datatype Reply = PlainText(code: int, text: string) | Json(code: int, response: Response)

  const StatusOK := 200
  const StatusBadRequest := 400
  const StatusUnauthorized := 401
  const StatusForbidden := 403
  const StatusMethodNotAllowed := 405
  const StatusInternalServerError := 500

  /** The header carries the `Bearer ` prefix and the token after it
      validates. */
  predicate Authenticated(decode: string -> Option<Jwt>, header: string) {
    match BearerToken(header)
    case None => false
    case Some(token) => ValidateToken(decode, token).Ok?
  }

  /** `operationHandler`: the reply and the filesystem afterwards. */
  function HandleOutcome(cfg: Config, t: Tree, req: Request, fault: Option<string>): (Reply, Tree) {
    if req.verb != "POST" then (PlainText(StatusMethodNotAllowed, "Method not allowed"), t)
    else
      match req.body
      case None =>
        (Json(StatusBadRequest, Response("error", NoData, "Invalid request format")), t)
      case Some(op) =>
        if !ActionAllowed(cfg, op.action) then
          (Json(StatusForbidden, Response("error", NoData, "Operation not allowed")), t)
        else
          var (result, t') := ProcessOutcome(cfg, t, op, fault);
          match result
          case Err(e) => (Json(StatusInternalServerError, Response("error", NoData, Message(e))), t')
          case Ok(d) => (Json(StatusOK, Response("success", d, "")), t')
  }

  /** `authMiddleware(operationHandler)`: the reply and the filesystem
      afterwards. */
  function ServeOutcome(cfg: Config, t: Tree, req: Request, decode: string -> Option<Jwt>, fault: Option<string>): (Reply, Tree) {
    match BearerToken(req.authorization)
    case None => (PlainText(StatusUnauthorized, "Unauthorized"), t)
    case Some(token) =>
      if ValidateToken(decode, token).Err? then (PlainText(StatusUnauthorized, "Invalid token"), t)
      else HandleOutcome(cfg, t, req, fault)
  }

  method OperationHandler(cfg: Config, fs: FileSystem, req: Request, fault: Option<string>) returns (reply: Reply)
    requires fs.Valid()
    modifies fs
    ensures fs.Valid()
    ensures (reply, fs.State()) == HandleOutcome(cfg, old(fs.State()), req, fault)
  {
    if req.verb != "POST" {
      return PlainText(StatusMethodNotAllowed, "Method not allowed");
    }
    if req.body.None? {
      return Json(StatusBadRequest, Response("error", NoData, "Invalid request format"));
    }
    var op := req.body.value;
    if !ActionAllowed(cfg, op.action) {
      return Json(StatusForbidden, Response("error", NoData, "Operation not allowed"));
    }
    var result := ProcessOperation(cfg, fs, op, fault);
    if result.Err? {
      return Json(StatusInternalServerError, Response("error", NoData, Message(result.error)));
    }
    return Json(StatusOK, Response("success", result.value, ""));
  }

  /** The middleware, with the one handler it wraps in the server. */
  method AuthMiddleware(cfg: Config, fs: FileSystem, req: Request, decode: string -> Option<Jwt>, fault: Option<string>) returns (reply: Reply)
    requires fs.Valid()
    modifies fs
    ensures fs.Valid()
    ensures (reply, fs.State()) == ServeOutcome(cfg, old(fs.State()), req, decode, fault)
  {
    if !(BearerPrefix <= req.authorization) {
      return PlainText(StatusUnauthorized, "Unauthorized");
    }
    var token := req.authorization[|BearerPrefix|..];
    var validated := ValidateToken(decode, token);
    if validated.Err? {
      return PlainText(StatusUnauthorized, "Invalid token");
    }
    reply := OperationHandler(cfg, fs, req, fault);
  }

  /** A header without the `Bearer ` prefix gets 401 before the method, the
      body or the filesystem is looked at. */
  lemma MissingBearerUnauthorized(cfg: Config, t: Tree, req: Request, decode: string -> Option<Jwt>, fault: Option<string>)
    requires !HasPrefix(req.authorization, "Bearer ")
    ensures ServeOutcome(cfg, t, req, decode, fault) == (PlainText(StatusUnauthorized, "Unauthorized"), t)
  {
  }

  /** A bearer token that fails validation gets 401 as well, whatever the
      rest of the request. */
  lemma InvalidTokenUnauthorized(cfg: Config, t: Tree, req: Request, decode: string -> Option<Jwt>, fault: Option<string>)
    requires HasPrefix(req.authorization, "Bearer ")
    requires ValidateToken(decode, req.authorization[7..]).Err?
    ensures ServeOutcome(cfg, t, req, decode, fault) == (PlainText(StatusUnauthorized, "Invalid token"), t)
  {
  }

  /** Every unauthenticated request, and only such a request, gets 401, and
      it leaves the filesystem alone. */
  lemma UnauthorizedExactly(cfg: Config, t: Tree, req: Request, decode: string -> Option<Jwt>, fault: Option<string>)
    ensures !Authenticated(decode, req.authorization) ==>
      ServeOutcome(cfg, t, req, decode, fault).0.code == StatusUnauthorized &&
      ServeOutcome(cfg, t, req, decode, fault).1 == t
    ensures ServeOutcome(cfg, t, req, decode, fault).0.code == StatusUnauthorized ==>
      !Authenticated(decode, req.authorization)
  {
  }

  /** A token whose `alg` lies outside the HMAC family is refused even when
      its signature and claims check out. */
  lemma ForeignAlgorithmUnauthorized(cfg: Config, t: Tree, req: Request, decode: string -> Option<Jwt>, fault: Option<string>)
    requires HasPrefix(req.authorization, "Bearer ")
    requires decode(req.authorization[7..]).Some?
    requires decode(req.authorization[7..]).value.alg !in HmacAlgs
    ensures ServeOutcome(cfg, t, req, decode, fault) == (PlainText(StatusUnauthorized, "Invalid token"), t)
  {
    AlgorithmPinned(decode, req.authorization[7..]);
  }

  /** An authenticated request with any method but POST gets 405 before its
      body is decoded. */
  lemma NonPostNotAllowed(cfg: Config, t: Tree, req: Request, decode: string -> Option<Jwt>, fault: Option<string>)
    requires Authenticated(decode, req.authorization)
    requires req.verb != "POST"
    ensures ServeOutcome(cfg, t, req, decode, fault) == (PlainText(StatusMethodNotAllowed, "Method not allowed"), t)
  {
  }

  /** An authenticated POST whose body does not decode gets 400. */
  lemma MalformedBodyRejected(cfg: Config, t: Tree, req: Request, decode: string -> Option<Jwt>, fault: Option<string>)
    requires Authenticated(decode, req.authorization)
    requires req.verb == "POST" && req.body.None?
    ensures ServeOutcome(cfg, t, req, decode, fault) ==
      (Json(StatusBadRequest, Response("error", NoData, "Invalid request format")), t)
  {
  }

  /** An action not mapped to `true` — absent from the map included — gets 403
      "Operation not allowed", and `processOperation` is never reached: the
      filesystem and every fault are irrelevant. */
  lemma ForbiddenActionRejected(cfg: Config, t: Tree, req: Request, decode: string -> Option<Jwt>, fault: Option<string>)
    requires Authenticated(decode, req.authorization)
    requires req.verb == "POST" && req.body.Some?
    requires !ActionAllowed(cfg, req.body.value.action)
    ensures ServeOutcome(cfg, t, req, decode, fault) ==
      (Json(StatusForbidden, Response("error", NoData, "Operation not allowed")), t)
  {
  }

  /** Past the gate, every error of `processOperation` — a denied path and a
      refused file type included — is a 500 carrying `err.Error()`. */
  lemma OperationErrorIsInternal(cfg: Config, t: Tree, req: Request, decode: string -> Option<Jwt>, fault: Option<string>)
    requires Authenticated(decode, req.authorization)
    requires req.verb == "POST" && req.body.Some?
    requires ActionAllowed(cfg, req.body.value.action)
    requires ProcessOutcome(cfg, t, req.body.value, fault).0.Err?
    ensures ServeOutcome(cfg, t, req, decode, fault) ==
      (Json(StatusInternalServerError,
            Response("error", NoData, Message(ProcessOutcome(cfg, t, req.body.value, fault).0.error))),
       ProcessOutcome(cfg, t, req.body.value, fault).1)
  {
  }

  /** Past the gate, a successful operation is a 200 "success" with the result
      as data and an empty message. */
  lemma OperationSuccessIsOk(cfg: Config, t: Tree, req: Request, decode: string -> Option<Jwt>, fault: Option<string>)
    requires Authenticated(decode, req.authorization)
    requires req.verb == "POST" && req.body.Some?
    requires ActionAllowed(cfg, req.body.value.action)
    requires ProcessOutcome(cfg, t, req.body.value, fault).0.Ok?
    ensures ServeOutcome(cfg, t, req, decode, fault) ==
      (Json(StatusOK, Response("success", ProcessOutcome(cfg, t, req.body.value, fault).0.value, "")),
       ProcessOutcome(cfg, t, req.body.value, fault).1)
  {
  }

  /** The envelope invariant: every JSON reply is either a 200 "success" with
      an empty message, or an "error" with no data and a non-empty message; the
      plain-text replies are 401 and 405. */
  lemma EnvelopeShape(cfg: Config, t: Tree, req: Request, decode: string -> Option<Jwt>, fault: Option<string>)
    ensures ServeOutcome(cfg, t, req, decode, fault).0.Json? ==>
      var resp := ServeOutcome(cfg, t, req, decode, fault).0.response;
      (resp.status == "success" || resp.status == "error") &&
      (resp.status == "success" <==> ServeOutcome(cfg, t, req, decode, fault).0.code == StatusOK) &&
      (resp.status == "success" ==> resp.message == "") &&
      (resp.status == "error" ==> resp.message != "" && resp.data == NoData)
    ensures ServeOutcome(cfg, t, req, decode, fault).0.PlainText? ==>
      ServeOutcome(cfg, t, req, decode, fault).0.code in {StatusUnauthorized, StatusMethodNotAllowed}
  {
  }

  /** The filesystem changes only through an authenticated POST whose allowed
      action is a write or a folder creation. */
  lemma ChangesOnlyThroughMutations(cfg: Config, t: Tree, req: Request, decode: string -> Option<Jwt>, fault: Option<string>)
    requires ServeOutcome(cfg, t, req, decode, fault).1 != t
    ensures Authenticated(decode, req.authorization)
    ensures req.verb == "POST" && req.body.Some?
    ensures ActionAllowed(cfg, req.body.value.action)
    ensures req.body.value.action in {"write_file", "create_folder"}
  {
  }

  /** Under the start-up configuration with a valid token, listing
      `/data/shared` succeeds with the paths of the entries inside it. */
  lemma ListSharedSucceeds(t: Tree, req: Request, decode: string -> Option<Jwt>, fault: Option<string>, path: string)
    requires path == "/data/shared"
    requires Authenticated(decode, req.authorization)
    requires req.verb == "POST"
    requires req.body == Some(Operation("list_files", map["path" := path]))
    ensures ServeOutcome(Init, t, req, decode, fault) ==
      (Json(StatusOK, Response("success", Listing(GlobOutcome(t, path, fault)), "")), t)
  {
    SharedDirectoryAdmitted(path);
    InitActions("list_files");
    assert Param(req.body.value, "path") == path;
  }

  /** An authenticated POST that reads an existing file under an admitted
      path returns its content with 200 and leaves the filesystem alone. */
  lemma AdmittedReadSucceeds(cfg: Config, t: Tree, req: Request, decode: string -> Option<Jwt>, path: string)
    requires Authenticated(decode, req.authorization)
    requires req.verb == "POST"
    requires req.body == Some(Operation("read_file", map["path" := path]))
    requires ActionAllowed(cfg, "read_file") && PathAllowed(cfg, path)
    requires Parse(path) in t.files
    ensures ServeOutcome(cfg, t, req, decode, None) ==
      (Json(StatusOK, Response("success", Text(t.files[Parse(path)]), "")), t)
  {
    assert Param(req.body.value, "path") == path;
  }

  /** Under the start-up configuration with a valid token, reading
      `/data/shared-evil/x` — outside every allowed directory — returns the
      file, because the path test is a textual prefix test. */
  lemma SharedEvilReadable(t: Tree, req: Request, decode: string -> Option<Jwt>, path: string)
    requires path == "/data/shared-evil/x"
    requires Authenticated(decode, req.authorization)
    requires req.verb == "POST"
    requires req.body == Some(Operation("read_file", map["path" := path]))
    requires CleanPath(true, ["data", "shared-evil", "x"]) in t.files
    ensures ServeOutcome(Init, t, req, decode, None) ==
      (Json(StatusOK, Response("success", Text(t.files[CleanPath(true, ["data", "shared-evil", "x"])]), "")), t)
    ensures !Contained(Init, path)
  {
    SharedEvilAdmitted(path);
    CleanSharedEvil(path);
    InitActions("read_file");
    AdmittedReadSucceeds(Init, t, req, decode, path);
  }
}
