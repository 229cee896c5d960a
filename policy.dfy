/** The three allowlist checks of the gate: the path allowlist, the
    file-extension allowlist and the action allowlist. */
module Policy {
  import opened Paths
  import opened Settings

  /** `isPathAllowed`: some configured entry is a textual prefix of the
      cleaned path. The test is not bounded at a separator. */
  predicate PathAllowed(cfg: Config, path: string) {
    exists i :: 0 <= i < |cfg.allowedPaths| && HasPrefix(Clean(path), cfg.allowedPaths[i])
  }

  /** The loop of `isPathAllowed`: scan the configured entries in order and
      stop at the first one that is a prefix of the cleaned path. */
  method IsPathAllowed(cfg: Config, path: string) returns (allowed: bool)
    ensures allowed <==> PathAllowed(cfg, path)
    ensures cfg.allowedPaths == [] ==> !allowed
  {
    var cleaned := Clean(path);
    var k := 0;
    while k < |cfg.allowedPaths|
      invariant 0 <= k <= |cfg.allowedPaths|
      invariant forall i :: 0 <= i < k ==> !HasPrefix(cleaned, cfg.allowedPaths[i])
    {
      if HasPrefix(cleaned, cfg.allowedPaths[k]) {
        return true;
      }
      k := k + 1;
    }
    return false;
  }

  /** A separator-bounded containment test, given as a reference: the cleaned
      path is an allowed directory or lies strictly below one. The server does
      not use it. */
  predicate Contained(cfg: Config, path: string) {
    exists i :: 0 <= i < |cfg.allowedPaths| &&
      (Clean(path) == cfg.allowedPaths[i] || HasPrefix(Clean(path), cfg.allowedPaths[i] + "/"))
  }

  /** Every path inside an allowed directory passes the prefix test, so the
      source's test admits at least what containment admits. */
  lemma ContainedIsAllowed(cfg: Config, path: string)
    requires Contained(cfg, path)
    ensures PathAllowed(cfg, path)
  {
    var i :| 0 <= i < |cfg.allowedPaths| &&
      (Clean(path) == cfg.allowedPaths[i] || HasPrefix(Clean(path), cfg.allowedPaths[i] + "/"));
    var dir := cfg.allowedPaths[i];
    if Clean(path) != dir {
      assert (dir + "/")[..|dir|] == dir;
      assert Clean(path)[..|dir|] == dir;
    }
    assert HasPrefix(Clean(path), cfg.allowedPaths[i]);
  }

  /** The segments of `/data/shared-evil/x`, joined. */
  lemma SharedEvilJoin(path: string)
    requires path == "/data/shared-evil/x"
    ensures "/" + Join(["data", "shared-evil", "x"]) == path
  {
    var segs := ["data", "shared-evil", "x"];
    assert segs[1..] == ["shared-evil", "x"] && segs[1..][1..] == ["x"];
    var rendered := "/" + Join(segs);
    assert rendered == "/" + ("data" + "/" + ("shared-evil" + "/" + "x"));
    assert |rendered| == |path|;
    forall i | 0 <= i < |path|
      ensures rendered[i] == path[i]
    {
    }
  }

  /** The segments of `/data/shared`, joined. */
  lemma SharedJoin(path: string)
    requires path == "/data/shared"
    ensures "/" + Join(["data", "shared"]) == path
  {
    var segs := ["data", "shared"];
    assert segs[1..] == ["shared"];
    var rendered := "/" + Join(segs);
    assert rendered == "/" + ("data" + "/" + "shared");
    assert |rendered| == |path|;
    forall i | 0 <= i < |path|
      ensures rendered[i] == path[i]
    {
    }
  }

  /** `/data/shared-evil/x` is already in normal form. */
  lemma CleanSharedEvil(path: string)
    requires path == "/data/shared-evil/x"
    ensures Parse(path) == CleanPath(true, ["data", "shared-evil", "x"])
    ensures Clean(path) == path
  {
    var segs := ["data", "shared-evil", "x"];
    assert Segment(segs[0]) && Segment(segs[1]) && Segment(segs[2]);
    SharedEvilJoin(path);
    AbsoluteClean(segs);
  }

  /** `/data/shared-evil/x` is neither an allowed directory of the start-up
      configuration nor below one. */
  lemma OutsideInitDirectories(q: string)
    requires q == "/data/shared-evil/x"
    ensures forall i :: 0 <= i < |Init.allowedPaths| ==>
      q != Init.allowedPaths[i] && !HasPrefix(q, Init.allowedPaths[i] + "/")
  {
    forall i | 0 <= i < |Init.allowedPaths|
      ensures q != Init.allowedPaths[i] && !HasPrefix(q, Init.allowedPaths[i] + "/")
    {
      var dir := Init.allowedPaths[i];
      if i == 0 {
        assert q[1] != dir[1] && (dir + "/")[1] == dir[1];
      } else {
        assert |q| != |dir| && (dir + "/")[12] == '/' && q[12] == '-';
      }
    }
  }

  /** The prefix test is not separator-bounded: under the start-up
      configuration `/data/shared-evil/x` is admitted because `/data/shared` is
      a textual prefix of it, although it lies in no allowed directory. */
  lemma SharedEvilAdmitted(path: string)
    requires path == "/data/shared-evil/x"
    ensures PathAllowed(Init, path)
    ensures !Contained(Init, path)
  {
    CleanSharedEvil(path);
    assert path[..12] == Init.allowedPaths[1];
    assert HasPrefix(Clean(path), Init.allowedPaths[1]);
    OutsideInitDirectories(Clean(path));
  }

  /** A path whose normal form is a configured entry is admitted, and it is
      contained in that entry. */
  lemma EntryAdmitted(cfg: Config, i: int, path: string)
    requires 0 <= i < |cfg.allowedPaths| && Clean(path) == cfg.allowedPaths[i]
    ensures PathAllowed(cfg, path) && Contained(cfg, path)
  {
    assert HasPrefix(Clean(path), cfg.allowedPaths[i]);
  }

  /** An allowed directory itself is admitted. */
  lemma SharedDirectoryAdmitted(path: string)
    requires path == "/data/shared"
    ensures PathAllowed(Init, path)
    ensures Contained(Init, path)
  {
    var segs := ["data", "shared"];
    assert Segment(segs[0]) && Segment(segs[1]);
    SharedJoin(path);
    AbsoluteClean(segs);
    EntryAdmitted(Init, 1, path);
  }

  /** The path test looks only at the normal form: a path and its cleaned
      form are admitted alike. */
  lemma AllowedIffCleanAllowed(cfg: Config, path: string)
    ensures PathAllowed(cfg, path) <==> PathAllowed(cfg, Clean(path))
  {
    CleanIdempotent(path);
  }

  /** `isFileTypeAllowed`: the lower-cased extension is one of the configured
      types. */
  predicate FileTypeAllowed(cfg: Config, path: string) {
    exists i :: 0 <= i < |cfg.allowedFileTypes| && ToLower(Ext(path)) == cfg.allowedFileTypes[i]
  }

  /** The loop of `isFileTypeAllowed`: lower-case the extension, then compare
      it with each configured type in order. */
  method IsFileTypeAllowed(cfg: Config, path: string) returns (allowed: bool)
    ensures allowed <==> FileTypeAllowed(cfg, path)
    ensures allowed ==> ToLower(Ext(path)) in cfg.allowedFileTypes
  {
    var ext := ToLower(Ext(path));
    var k := 0;
    while k < |cfg.allowedFileTypes|
      invariant 0 <= k <= |cfg.allowedFileTypes|
      invariant forall i :: 0 <= i < k ==> ext != cfg.allowedFileTypes[i]
    {
      if ext == cfg.allowedFileTypes[k] {
        return true;
      }
      k := k + 1;
    }
    return false;
  }

  /** Under the start-up configuration the file-type test holds exactly when
      the lower-cased extension is `.txt`, `.json`, `.csv` or `.log`. */
  lemma InitFileTypes(path: string)
    ensures FileTypeAllowed(Init, path) <==>
      ToLower(Ext(path)) in {".txt", ".json", ".csv", ".log"}
  {
    var ext := ToLower(Ext(path));
    var types := Init.allowedFileTypes;
    assert types == [".txt", ".json", ".csv", ".log"];
    if FileTypeAllowed(Init, path) {
      var i :| 0 <= i < |types| && ext == types[i];
      assert ext in types;
    }
    if ext in {".txt", ".json", ".csv", ".log"} {
      assert ext in types;
      var i :| 0 <= i < |types| && ext == types[i];
    }
  }

  /** The extension is compared case-insensitively: a name ending in `.TXT` is
      accepted. */
  lemma UpperCaseExtensionAccepted(name: string)
    ensures FileTypeAllowed(Init, name + ".TXT")
  {
    assert name + ".TXT" == name + "." + "TXT";
    ExtAfterDot(name, "TXT");
    var ext := ToLower(Ext(name + ".TXT"));
    assert ext[0] == '.' && ext[1] == 't' && ext[2] == 'x' && ext[3] == 't';
    assert ext == ".txt" == Init.allowedFileTypes[0];
  }

  /** An executable extension, and a name without a dot, are refused. */
  lemma OtherExtensionsRefused(name: string, bare: string)
    requires '.' !in bare
    ensures !FileTypeAllowed(Init, name + ".exe")
    ensures !FileTypeAllowed(Init, bare)
  {
    assert name + ".exe" == name + "." + "exe";
    ExtAfterDot(name, "exe");
    var ext := ToLower(Ext(name + ".exe"));
    assert ext == ".exe";
    InitFileTypes(name + ".exe");
    assert ext[1] != ".txt"[1] && ext[1] != ".json"[1];
    assert ext[1] != ".csv"[1] && ext[1] != ".log"[1];
    ExtNoDot(bare);
    InitFileTypes(bare);
  }

  /** `config.AllowedActions[action]`: a missing key reads as `false`. */
  predicate ActionAllowed(cfg: Config, action: string) {
    action in cfg.allowedActions && cfg.allowedActions[action]
  }

  /** Under the start-up configuration exactly the four dispatchable actions
      are allowed. */
  lemma InitActions(action: string)
    ensures ActionAllowed(Init, action) <==>
      action in {"list_files", "read_file", "write_file", "create_folder"}
  {
  }
}
