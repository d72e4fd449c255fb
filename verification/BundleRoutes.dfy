/** The bundle routes and the worker methods behind them, over a set of workbook files. */
module BundleRoutes {
  import opened Wrappers
  import opened Types
  import opened FsRead
  import opened Auth
  import opened Archive
  import opened Bundle

  /** Workbook files by canonical path; a file that is no zip archive maps to `None`. */
  type Files = map<Path, Option<Zip>>

  // ---- The worker's side --------------------------------------------------------------------------

  /** A worker reply: a payload, an error code, or no reply because the process died. */
  datatype Reply = Fine(payload: Value) | Code(code: string) | Died

  function CodeOf(e: BundleError): string {
    match e
    case NotFound => "bundle_not_found"
    case TooLarge => "bundle_too_large"
    case SchemaMismatch => "bundle_schema_mismatch"
    case Corrupt => "bundle_corrupt"
    case Uncaught => "bundle_corrupt"
  }

  /** `_bundle_read`: the payload goes out in its dict form; a snapshot that unpacks to more than
      the cap makes that last conversion raise outside every handler. */
  function WorkerRead(codec: Codec, files: Files, path: Path): Reply {
    if path !in files then Code("path_not_found")
    else
      match ReadBundle(codec, files[path])
      case Err(e) => Code(CodeOf(e))
      case Ok(p) => match ToDict(codec, p) case Ok(d) => Fine(d) case Err(_) => Died
  }

  /** `list(x)` of the JSON values that have one: arrays, and strings character by character. */
  function ToList(v: Value): Option<seq<Value>> {
    match v
    case Arr(items) => Some(items)
    case Str(s) => Some(seq(|s|, i requires 0 <= i < |s| => Str([s[i]])))
    case _ => None
  }

  /** The payload a request body means: the canonical form if it names a schema, a field-by-field
      reading otherwise. */
  function PayloadOf(codec: Codec, body: Value): Result<Payload, BundleError> {
    if body.Obj? && Truthy(Member(body.fields, "schema")) then FromDict(codec, body)
    else
      var root := Or(body, Obj(map[]));
      if !root.Obj? then Err(Uncaught)
      else
        var md := Or(Member(root.fields, "metadata"), Obj(map[]));
        var ai := Or(Member(root.fields, "ai_history"), Obj(map[]));
        if !md.Obj? || !ai.Obj? then Err(Uncaught)
        else
          match (ToInt(codec, Or(Member(md.fields, "created_ms"), Int(0))),
                 ToList(MemberOr(ai.fields, "sessions", Arr([]))),
                 ToList(MemberOr(root.fields, "python_modules", Arr([]))))
          case (Some(created), Some(sessions), Some(modules)) =>
            Ok(Payload(SCHEMA_VERSION, created, Null, Null, None, Null, sessions, modules))
          case _ => Err(Uncaught)
  }

  /** `_bundle_write`: the reply, and the files afterwards. */
  function WorkerWrite(codec: Codec, files: Files, path: Path, body: Value): (Reply, Files) {
    match PayloadOf(codec, body)
    case Err(e) => (Code("bundle_corrupt"), files)
    case Ok(p) =>
      if path !in files then (Code("path_not_found"), files)
      else
        match Written(codec, files[path], p)
        case Err(e) => (Code(CodeOf(e)), files)
        case Ok(z) => (Fine(Null), files[path := Some(z)])
  }

  // ---- The routes ---------------------------------------------------------------------------------

  function MapWorkerError(code: string): ApiError {
    if code == "bundle_not_found" then BundleNotFound
    else if code == "bundle_too_large" then BundleTooLarge
    else if code == "bundle_corrupt" then BundleCorrupt
    else if code == "bundle_schema_mismatch" then BundleSchemaMismatch
    else if code == "path_not_found" then PathNotFound
    else Internal
  }

  function EnsurePathUnderRoots(fs: FileSystem, requested: string, record: TokenRecord): Result<Path, ApiError> {
    match Canonicalize(fs, requested)
    case None => Err(PathNotFound)
    case Some(p) => if UnderAny(p, record.fsRoots) then Ok(p) else Err(ForbiddenPath)
  }

  /** A request through the scope guard and the read route. */
  function ReadRoute(codec: Codec, fs: FileSystem, files: Files, record: TokenRecord, requested: string)
    : Result<Value, ApiError>
  {
    if BundleRead !in record.scopes then Err(ScopeDenied)
    else
      match EnsurePathUnderRoots(fs, requested, record)
      case Err(e) => Err(e)
      case Ok(p) =>
        match WorkerRead(codec, files, p)
        case Fine(payload) => Ok(payload)
        case Code(code) => Err(MapWorkerError(code))
        case Died => Err(WorkerCrashed)
  }

  /** A request through the scope guard and the write route; `approved` is the user's answer. */
  function WriteRoute(codec: Codec, fs: FileSystem, files: Files, record: TokenRecord, requested: string, body: Value,
                      approved: bool)
    : (Result<(), ApiError>, Files)
  {
    if BundleWrite !in record.scopes then (Err(ScopeDenied), files)
    else
      match EnsurePathUnderRoots(fs, requested, record)
      case Err(e) => (Err(e), files)
      case Ok(p) =>
        if !approved then (Err(ConsentDenied), files)
        else
          var (reply, after) := WorkerWrite(codec, files, p, body);
          match reply
          case Fine(_) => (Ok(()), after)
          case Code(code) => (Err(MapWorkerError(code)), after)
          case Died => (Err(WorkerCrashed), after)
  }

  /** A write changes nothing unless it succeeds, and then only one file, under an approved root,
      after the user agreed. */
  lemma WriteIsConfined(codec: Codec, fs: FileSystem, files: Files, record: TokenRecord, requested: string,
                        body: Value, approved: bool)
    ensures var (r, after) := WriteRoute(codec, fs, files, record, requested, body, approved);
      if r.Err? then after == files
      else
        && approved && BundleWrite in record.scopes
        && requested in fs.canonical && UnderAny(fs.canonical[requested], record.fsRoots)
        && after.Keys == files.Keys
        && forall p :: p in files && p != fs.canonical[requested] ==> after[p] == files[p]
  {
  }

  /** A successful write replaced exactly the archive of the requested file by the written one. */
  lemma WriteStores(codec: Codec, fs: FileSystem, files: Files, record: TokenRecord, requested: string, body: Value,
                    p: Payload)
    requires WriteRoute(codec, fs, files, record, requested, body, true).0.Ok? && PayloadOf(codec, body) == Ok(p)
    ensures requested in fs.canonical && fs.canonical[requested] in files
    ensures var path := fs.canonical[requested];
      && Written(codec, files[path], p).Ok?
      && WriteRoute(codec, fs, files, record, requested, body, true).1
         == files[path := Some(Written(codec, files[path], p).value)]
  {
  }

  /** Reading a stored archive through the route, for a token that may. */
  lemma ReadServes(codec: Codec, fs: FileSystem, files: Files, record: TokenRecord, requested: string)
    requires BundleRead in record.scopes && requested in fs.canonical
      && UnderAny(fs.canonical[requested], record.fsRoots)
    requires fs.canonical[requested] in files
    ensures ReadRoute(codec, fs, files, record, requested) ==
      match ReadBundle(codec, files[fs.canonical[requested]])
      case Err(e) => Err(MapWorkerError(CodeOf(e)))
      case Ok(p) => match ToDict(codec, p) case Ok(d) => Ok(d) case Err(_) => Err(WorkerCrashed)
  {
  }

  /** The resolved path lies under one of the token's roots, component by component. */
  predicate Inside(fs: FileSystem, record: TokenRecord, requested: string) {
    requested in fs.canonical && exists i :: 0 <= i < |record.fsRoots| && record.fsRoots[i] <= fs.canonical[requested]
  }

  lemma InsideIsUnderAny(fs: FileSystem, record: TokenRecord, requested: string)
    requires requested in fs.canonical
    ensures Inside(fs, record, requested) <==> UnderAny(fs.canonical[requested], record.fsRoots)
  {
    if i :| 0 <= i < |record.fsRoots| && record.fsRoots[i] <= fs.canonical[requested] {
      assert Under(fs.canonical[requested], record.fsRoots[i]);
    }
  }

  /** What the read route answers, every case both ways: nothing outside the token's roots is ever read. */
  lemma ReadRouteIff(codec: Codec, fs: FileSystem, files: Files, record: TokenRecord, requested: string)
    ensures var r := ReadRoute(codec, fs, files, record, requested);
      var scope, found, inside := BundleRead in record.scopes, requested in fs.canonical, Inside(fs, record, requested);
      var there := inside && fs.canonical[requested] in files;
      && (r == Err(ScopeDenied) <==> !scope)
      && (r == Err(ForbiddenPath) <==> scope && found && !inside)
      && (r == Err(PathNotFound) <==> scope && (!found || (inside && !there)))
      && (scope && there ==>
            match ReadBundle(codec, files[fs.canonical[requested]])
            case Err(NotFound) => r == Err(BundleNotFound)
            case Err(TooLarge) => r == Err(BundleTooLarge)
            case Err(SchemaMismatch) => r == Err(BundleSchemaMismatch)
            case Err(_) => r == Err(BundleCorrupt)
            case Ok(p) => match ToDict(codec, p) case Ok(d) => r == Ok(d) case Err(_) => r == Err(WorkerCrashed))
  {
    CodesDiffer();
    if requested in fs.canonical {
      InsideIsUnderAny(fs, record, requested);
    }
  }

  lemma CodesDiffer()
    ensures |"bundle_not_found"| == 16 && |"bundle_too_large"| == 16 && |"bundle_corrupt"| == 14
      && |"bundle_schema_mismatch"| == 22 && |"path_not_found"| == 14
    ensures "bundle_not_found"[7] != "bundle_too_large"[7] && "bundle_corrupt"[0] != "path_not_found"[0]
  {
  }

  /** Whom the write route turns away: whoever lacks the scope, asks for a path outside the roots, or whose
      user says no. */
  lemma WriteRouteRefusesIff(codec: Codec, fs: FileSystem, files: Files, record: TokenRecord, requested: string,
                             body: Value, approved: bool)
    ensures var r := WriteRoute(codec, fs, files, record, requested, body, approved).0;
      var scope, found := BundleWrite in record.scopes, requested in fs.canonical;
      var inside := Inside(fs, record, requested);
      && (r == Err(ScopeDenied) <==> !scope)
      && (r == Err(ForbiddenPath) <==> scope && found && !inside)
      && (r == Err(ConsentDenied) <==> scope && inside && !approved)
      && (scope && !found ==> r == Err(PathNotFound))
  {
    if requested in fs.canonical {
      InsideIsUnderAny(fs, record, requested);
    }
  }

  /** What it does for the others. */
  lemma WriteRouteWrites(codec: Codec, fs: FileSystem, files: Files, record: TokenRecord, requested: string,
                         body: Value)
    requires BundleWrite in record.scopes && Inside(fs, record, requested)
    ensures var (r, after) := WriteRoute(codec, fs, files, record, requested, body, true);
      var path, meant := fs.canonical[requested], PayloadOf(codec, body);
      if meant.Err? then r == Err(BundleCorrupt)
      else if path !in files then r == Err(PathNotFound)
      else
        match Written(codec, files[path], meant.value)
        case Err(e) => r == Err(if e == TooLarge then BundleTooLarge else BundleCorrupt)
        case Ok(zip) => r == Ok(()) && after == files[path := Some(zip)]
  {
    CodesDiffer();
    InsideIsUnderAny(fs, record, requested);
  }

  /** A body in the canonical form means its payload, as far as it survives a round trip. */
  lemma CanonicalBodyMeansPayload(codec: Codec, p: Payload)
    requires Lawful(codec) && ToDict(codec, p).Ok?
    ensures PayloadOf(codec, ToDict(codec, p).value)
         == if p.schemaVersion <= 1 then Ok(Normalise(p)) else Err(SchemaMismatch)
  {
    FieldsRead(p);
    FromDictOfToDict(codec, p);
    assert |NAMESPACE| > 0;
  }

  // ---- Runs of writes -----------------------------------------------------------------------------

  datatype WriteRequest = WriteRequest(record: TokenRecord, path: string, body: Value, approved: bool)

  function FilesAfter(codec: Codec, fs: FileSystem, files: Files, requests: seq<WriteRequest>): Files {
    if requests == [] then files
    else
      var last := requests[|requests| - 1];
      WriteRoute(codec, fs, FilesAfter(codec, fs, files, requests[..|requests| - 1]), last.record, last.path, last.body,
                 last.approved).1
  }

  /** The request may write the file `p`, and the user agreed. */
  predicate MayWrite(fs: FileSystem, request: WriteRequest, p: Path) {
    && request.approved && BundleWrite in request.record.scopes
    && request.path in fs.canonical && fs.canonical[request.path] == p && UnderAny(p, request.record.fsRoots)
  }

  /** The archive is the original one, rewritten once with what this one request sent. */
  ghost predicate WrittenBy(codec: Codec, fs: FileSystem, original: Option<Zip>, request: WriteRequest, p: Path,
                            now: Option<Zip>)
  {
    && MayWrite(fs, request, p)
    && PayloadOf(codec, request.body).Ok?
    && Written(codec, original, PayloadOf(codec, request.body).value).Ok?
    && now == Some(Written(codec, original, PayloadOf(codec, request.body).value).value)
  }

  /** What a write does to one file. */
  lemma WriteChanges(codec: Codec, fs: FileSystem, files: Files, request: WriteRequest, p: Path)
    requires p in files
    ensures var after := WriteRoute(codec, fs, files, request.record, request.path, request.body, request.approved).1;
      p in after && (after[p] == files[p] || WrittenBy(codec, fs, files[p], request, p, after[p]))
  {
  }

  /** Writing over an earlier write is writing over the original. */
  lemma OverwrittenIsRewritten(codec: Codec, zip: Option<Zip>, earlier: Payload, later: Payload)
    requires Written(codec, zip, earlier).Ok?
    ensures Written(codec, Some(Written(codec, zip, earlier).value), later) == Written(codec, zip, later)
  {
    if PartOf(codec, later).Ok? {
      LastWriteWins(zip.value, PartOf(codec, earlier).value, PartOf(codec, later).value);
    }
  }

  /** After any run of write requests a file is as it was before the run, or the original rewritten
      once, with what one of the requests sent that may write it and that the user agreed to. */
  lemma {:induction false} OnlyApprovedWritesChange(codec: Codec, fs: FileSystem, files: Files,
                                                    requests: seq<WriteRequest>, p: Path)
    requires p in files
    ensures var after := FilesAfter(codec, fs, files, requests);
      && p in after
      && (after[p] == files[p]
          || exists i :: 0 <= i < |requests| && WrittenBy(codec, fs, files[p], requests[i], p, after[p]))
  {
    if requests != [] {
      var n := |requests| - 1;
      var before := FilesAfter(codec, fs, files, requests[..n]);
      var after := FilesAfter(codec, fs, files, requests);
      OnlyApprovedWritesChange(codec, fs, files, requests[..n], p);
      WriteChanges(codec, fs, before, requests[n], p);
      if before[p] != files[p] {
        var i :| 0 <= i < n && WrittenBy(codec, fs, files[p], requests[..n][i], p, before[p]);
        assert requests[..n][i] == requests[i];
        if after[p] != before[p] {
          OverwrittenIsRewritten(codec, files[p], PayloadOf(codec, requests[i].body).value,
                                 PayloadOf(codec, requests[n].body).value);
        }
      }
    }
  }
}
