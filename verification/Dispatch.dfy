/** Turning one model tool use into one tool result. */
module Dispatch {
  import opened Wrappers
  import opened Types
  import opened FsRead
  import opened Tools
  import opened Bytes
  import opened WorkerApi
  import Base64
  import Pem
  import Utf8

  /** Where the gates of `run_one` leave a tool use before anything runs. */
  datatype Gate = Refused(err: ApiError) | NeedsDialog | Cleared(via: ApprovedVia)

  /** The gates, in order: registry, session scopes, plan-only, trust window. */
  function GateOf(granted: seq<Scope>, planOnly: bool, name: string, covered: bool): Gate {
    match Find(name)
    case None => Refused(AiToolDenied)
    case Some(spec) =>
      if spec.requiredScope !in granted then Refused(AiToolDenied)
      else if !spec.mutates then Cleared(Auto)
      else if planOnly then Refused(AiPlanOnlyViolation)
      else if covered then Cleared(TrustWindow)
      else NeedsDialog
  }

  /** Where each tool use ends up: exactly these five ways. */
  lemma GateIff(granted: seq<Scope>, planOnly: bool, name: string, covered: bool)
    ensures var g, spec := GateOf(granted, planOnly, name, covered), Find(name);
      var known := spec.Some? && spec.value.requiredScope in granted;
      && (g == Refused(AiToolDenied) <==> !known)
      && (g == Cleared(Auto) <==> known && !spec.value.mutates)
      && (g == Refused(AiPlanOnlyViolation) <==> known && spec.value.mutates && planOnly)
      && (g == Cleared(TrustWindow) <==> known && spec.value.mutates && !planOnly && covered)
      && (g == NeedsDialog <==> known && spec.value.mutates && !planOnly && !covered)
      && (g.Refused? ==> g.err == AiToolDenied || g.err == AiPlanOnlyViolation)
      && (g.Cleared? ==> g.via == Auto || g.via == TrustWindow)
  {
  }

  function Display(p: Path): string {
    if p == [] then "" else "/" + p[0] + Display(p[1..])
  }

  /** The file a tool use would read, if it would read one. */
  function FileRead(fs: FileSystem, roots: seq<Path>, input: Value): Result<ReadOk, ApiError> {
    match StrField(input, "path")
    case None => Err(BadRequest)
    case Some(path) => ReadUnderRoots(fs, path, roots)
  }

  function RunFsRead(fs: FileSystem, roots: seq<Path>, input: Value): Result<Value, ApiError> {
    match FileRead(fs, roots, input)
    case Err(e) => Err(e)
    case Ok(r) =>
      EncodingIsAscii(r.bytes);
      Ok(Obj(map["path" := Str(Display(r.canonical)),
                 "size" := Int(|r.bytes|),
                 "encoding" := Str("base64"),
                 "content" := Str(Pem.AsText(Base64.Encode(r.bytes)))]))
  }

  lemma EncodingIsAscii(data: seq<Byte>)
    ensures forall i :: 0 <= i < |Base64.Encode(data)| ==> Base64.Encode(data)[i] < 128
  {
  }

  /** What a tool asks of the Python worker, if it asks. */
  function CallOf(name: string, input: Value): Option<WorkerCall> {
    if name == "excel_workbooks" then Some(WorkerCall("excel_workbooks", Obj(map[])))
    else if name == "excel_range_read" then
      Some(WorkerCall("excel_range_read", Obj(map["workbook" := Str(StrOr(input, "workbook")),
                                                  "sheet" := Str(StrOr(input, "sheet")),
                                                  "range" := Str(StrOr(input, "range"))])))
    else if name == "run_python" then
      match StrField(input, "code")
      case Some(code) => Some(WorkerCall("exec", Obj(map["code" := Str(code)])))
      case None => None
    else None
  }

  /** `worker` is what `call` returns for what the tool asks. */
  function RunExcel(name: string, worker: Result<Value, ApiError>): Result<Value, ApiError> {
    if name == "excel_workbooks" then
      match ExcelAnswer(worker)
      case Err(e) => Err(e)
      case Ok(v) => Ok(FieldOr(v, "workbooks", Arr([])))
    else if name == "excel_range_read" then
      match ExcelAnswer(worker)
      case Err(e) => Err(e)
      case Ok(v) => Ok(Obj(map["address" := FieldOr(v, "address", Str("")), "values" := FieldOr(v, "values", Arr([]))]))
    else Err(AiToolDenied)
  }

  function RunPython(input: Value, worker: Result<Value, ApiError>): Result<Value, ApiError> {
    if StrField(input, "code").None? then Err(BadRequest) else ExecAnswer(worker)
  }

  function RunTool(fs: FileSystem, roots: seq<Path>, spec: ToolSpec, input: Value, worker: Result<Value, ApiError>)
    : Result<Value, ApiError>
  {
    match spec.requiredScope
    case FsRead => RunFsRead(fs, roots, input)
    case ExcelCom => RunExcel(spec.name, worker)
    case AiExecPython => RunPython(input, worker)
    case _ => Err(AiToolDenied)
  }

  function ErrorPayload(err: ApiError): Value {
    Obj(map["error" := Str(ErrorName(err)), "hint" := Str("tool execution failed; see launcher audit log for details")])
  }

  function ErrorName(err: ApiError): string {
    match err
    case Unauthorized => "Unauthorized"
    case ScopeDenied => "ScopeDenied"
    case BadRequest => "BadRequest"
    case ConsentDenied => "ConsentDenied"
    case Internal => "Internal"
    case PathNotFound => "PathNotFound"
    case ForbiddenPath => "ForbiddenPath"
    case NotAFile => "NotAFile"
    case PathTooLarge => "PathTooLarge"
    case WorkerSpawnFailed => "WorkerSpawnFailed"
    case WorkerCrashed => "WorkerCrashed"
    case WorkerTimeout => "WorkerTimeout"
    case ExcelNotAvailable => "ExcelNotAvailable"
    case ExcelNotRunning => "ExcelNotRunning"
    case ExcelFailed => "ExcelFailed"
    case BundleNotFound => "BundleNotFound"
    case BundleTooLarge => "BundleTooLarge"
    case BundleCorrupt => "BundleCorrupt"
    case BundleSchemaMismatch => "BundleSchemaMismatch"
    case AiSessionNotFound => "AiSessionNotFound"
    case AiProviderUnconfigured => "AiProviderUnconfigured"
    case AiProviderUpstream => "AiProviderUpstream"
    case AiBudgetExceeded => "AiBudgetExceeded"
    case AiToolDenied => "AiToolDenied"
    case AiPlanOnlyViolation => "AiPlanOnlyViolation"
    case AiConsentDenied => "AiConsentDenied"
  }

  /** Failures become results too: the model sees them. */
  function ResultBlock(toolUseId: string, outcome: Result<Value, ApiError>, via: ApprovedVia): (r: ContentBlock)
    ensures r.ToolResult? && r.toolUseId == toolUseId
  {
    match outcome
    case Ok(v) => ToolResult(toolUseId, true, v, Some(via))
    case Err(e) => ToolResult(toolUseId, false, ErrorPayload(e), None)
  }

  predicate AnswersUse(result: ContentBlock, use: ContentBlock) {
    use.ToolUse? && result.ToolResult? && result.toolUseId == use.id
  }

  /** Each result answers the tool use at its own position. */
  predicate Matches(results: seq<ContentBlock>, uses: seq<ContentBlock>) {
    |results| <= |uses| && forall k :: 0 <= k < |results| ==> AnswersUse(results[k], uses[k])
  }

  /** What a successful file-read result carries: the whole content of a file under the roots,
      recoverable from its Base64 text. */
  lemma FsReadResultRoundTrips(fs: FileSystem, roots: seq<Path>, input: Value)
    requires RunFsRead(fs, roots, input).Ok?
    ensures FileRead(fs, roots, input).Ok?
    ensures var r := FileRead(fs, roots, input).value;
      && UnderAny(r.canonical, roots)
      && r.canonical in fs.nodes && fs.nodes[r.canonical] == File(r.bytes)
      && exists text :: StrField(RunFsRead(fs, roots, input).value, "content") == Some(text)
           && Base64.Decode(Utf8.Encode(text)) == Ok(r.bytes)
  {
    var r := FileRead(fs, roots, input).value;
    ReadIffConfined(fs, StrField(input, "path").value, roots);
    EncodingIsAscii(r.bytes);
    var code := Base64.Encode(r.bytes);
    Pem.EncodeAscii(code);
    Base64.SextetsOfEncoding(r.bytes);
    Base64.DecodeInvertsEncode(r.bytes, code);
    assert StrField(RunFsRead(fs, roots, input).value, "content") == Some(Pem.AsText(code));
  }
}
