/** What each tool gives the model, read off the block a use is answered with: by tool name, in terms of
    the input, the files, the session's rights and what user and worker reply. */
module ToolResults {
  import opened Wrappers
  import opened Types
  import opened FsRead
  import opened Tools
  import opened Dispatch
  import opened Engine
  import opened WorkerApi
  import opened Play
  import Base64
  import TrustWindows
  import Utf8
  import WorkerMain

  /** A failure carries no label; its payload names the error. */
  predicate Failed(block: ContentBlock, use: ContentBlock, error: string)
    requires use.ToolUse?
  {
    && block.ToolResult? && block.toolUseId == use.id && !block.ok && block.approvedVia == None
    && FieldOr(block.output, "error", Null) == Str(error)
  }

  predicate Gave(block: ContentBlock, use: ContentBlock, output: Value, via: ApprovedVia)
    requires use.ToolUse?
  {
    block == ToolResult(use.id, true, output, Some(via))
  }

  // ---- Who gets through -------------------------------------------------------------------------------

  /** A reading tool runs exactly if its scope is granted, plan-only or not, and asks nobody. */
  lemma ReadingVerdict(g: Setting, turn: nat, index: nat, use: ContentBlock, nowMs: nat)
    requires use.ToolUse? && use.name in {"fs_read", "excel_workbooks", "excel_range_read"}
    ensures Verdict(g, turn, index, use, nowMs)
         == if (if use.name == "fs_read" then FsRead else ExcelCom) in g.session.granted then Ok(Auto)
            else Err(AiToolDenied)
  {
    RegistryIs(use.name);
  }

  /** `run_python` never runs in a plan-only chat; elsewhere it does exactly if its scope is granted and a
      window covers it or the user says yes. */
  lemma PythonVerdict(g: Setting, turn: nat, index: nat, use: ContentBlock, nowMs: nat)
    requires use.ToolUse? && use.name == "run_python"
    ensures Verdict(g, turn, index, use, nowMs)
         == if AiExecPython !in g.session.granted then Err(AiToolDenied)
            else if g.planOnly then Err(AiPlanOnlyViolation)
            else if TrustWindows.Covered(g.windows, g.session.id, "run_python", nowMs) then Ok(TrustWindow)
            else if g.world.dialog(turn, index) then Ok(Dialog)
            else Err(AiConsentDenied)
  {
    RegistryIs(use.name);
  }

  /** Nothing else runs. */
  lemma UnknownVerdict(g: Setting, turn: nat, index: nat, use: ContentBlock, nowMs: nat)
    requires use.ToolUse? && use.name !in {"fs_read", "excel_workbooks", "excel_range_read", "run_python"}
    ensures Verdict(g, turn, index, use, nowMs) == Err(AiToolDenied)
  {
    RegistryIs(use.name);
  }

  // ---- Errors -----------------------------------------------------------------------------------------

  /** The names by which the model learns why a tool did not run, or what went wrong with its input. */
  lemma NamesOfRefusals()
    ensures ErrorName(AiToolDenied) == "AiToolDenied" && ErrorName(AiPlanOnlyViolation) == "AiPlanOnlyViolation"
    ensures ErrorName(AiConsentDenied) == "AiConsentDenied" && ErrorName(BadRequest) == "BadRequest"
    ensures ErrorName(ForbiddenPath) == "ForbiddenPath" && ErrorName(PathNotFound) == "PathNotFound"
    ensures ErrorName(NotAFile) == "NotAFile" && ErrorName(PathTooLarge) == "PathTooLarge"
  {
  }

  // ---- What comes back --------------------------------------------------------------------------------

  lemma FailedBlock(use: ContentBlock, e: ApiError, via: ApprovedVia)
    requires use.ToolUse?
    ensures Failed(ResultBlock(use.id, Err(e), via), use, ErrorName(e))
  {
  }

  /** A refusal names its error. */
  lemma RefusedResult(g: Setting, turn: nat, index: nat, use: ContentBlock, nowMs: nat)
    requires use.ToolUse? && Verdict(g, turn, index, use, nowMs).Err?
    ensures Failed(UseResult(g, turn, index, use, nowMs), use, ErrorName(Verdict(g, turn, index, use, nowMs).error))
  {
    UseAtVerdict(g, 0, turn, index, use, nowMs);
    FailedBlock(use, Verdict(g, turn, index, use, nowMs).error, Auto);
  }

  /** The chat runs with the launcher's own tools. */
  ghost predicate Real(g: Setting, cfg: Config) {
    g == Setup(cfg, g.windows, g.session, g.planOnly, g.world)
  }

  /** What comes back when the tool is done: its output under the label, or its error. */
  predicate Reports(block: ContentBlock, use: ContentBlock, r: Result<Value, ApiError>, via: ApprovedVia)
    requires use.ToolUse?
  {
    match r
    case Ok(output) => Gave(block, use, output, via)
    case Err(e) => Failed(block, use, ErrorName(e))
  }

  lemma ReportsBlock(use: ContentBlock, r: Result<Value, ApiError>, via: ApprovedVia)
    requires use.ToolUse?
    ensures Reports(ResultBlock(use.id, r, via), use, r, via)
  {
  }

  lemma ApprovedResult(cfg: Config, g: Setting, turn: nat, index: nat, use: ContentBlock, nowMs: nat, via: ApprovedVia)
    requires use.ToolUse? && Verdict(g, turn, index, use, nowMs) == Ok(via) && Real(g, cfg)
    ensures Find(use.name).Some?
    ensures Reports(UseResult(g, turn, index, use, nowMs), use,
                    RunTool(cfg.fs, g.session.fsRoots, Find(use.name).value, use.input,
                            WorkerReply(g.world, turn, index, use)), via)
  {
    UseAtVerdict(g, 0, turn, index, use, nowMs);
    ReportsBlock(use, g.tool(turn, index, use).result, via);
  }

  /** The file's own bytes, whole, with its path and size. */
  ghost predicate IsFile(output: Value, r: ReadOk) {
    && FieldOr(output, "path", Null) == Str(Display(r.canonical))
    && FieldOr(output, "size", Null) == Int(|r.bytes|)
    && FieldOr(output, "encoding", Null) == Str("base64")
    && exists text :: FieldOr(output, "content", Null) == Str(text) && Base64.Decode(Utf8.Encode(text)) == Ok(r.bytes)
  }

  /** `fs_read` gives a file under the session's roots, or says why not. */
  lemma FileResult(cfg: Config, g: Setting, turn: nat, index: nat, use: ContentBlock, nowMs: nat, via: ApprovedVia)
    returns (r: Result<Value, ApiError>)
    requires use.ToolUse? && use.name == "fs_read"
    requires Verdict(g, turn, index, use, nowMs) == Ok(via) && Real(g, cfg)
    ensures Reports(UseResult(g, turn, index, use, nowMs), use, r, via)
    ensures match FieldOr(use.input, "path", Null)
            case Str(path) =>
              (match ReadUnderRoots(cfg.fs, path, g.session.fsRoots)
               case Ok(file) => r.Ok? && IsFile(r.value, file)
               case Err(e) => r == Err(e))
            case _ => r == Err(BadRequest)
  {
    ApprovedResult(cfg, g, turn, index, use, nowMs, via);
    RegistryIs(use.name);
    r := RunFsRead(cfg.fs, g.session.fsRoots, use.input);
    if r.Ok? {
      FsReadResultRoundTrips(cfg.fs, g.session.fsRoots, use.input);
    }
  }

  /** `excel_workbooks` gives the reply's list of workbooks. */
  lemma WorkbooksResult(cfg: Config, g: Setting, turn: nat, index: nat, use: ContentBlock, nowMs: nat, via: ApprovedVia)
    returns (r: Result<Value, ApiError>)
    requires use.ToolUse? && use.name == "excel_workbooks"
    requires Verdict(g, turn, index, use, nowMs) == Ok(via) && Real(g, cfg)
    ensures Reports(UseResult(g, turn, index, use, nowMs), use, r, via)
    ensures match ExcelAnswer(g.world.worker(turn, index, WorkerCall("excel_workbooks", Obj(map[]))))
            case Ok(reply) => r == Ok(FieldOr(reply, "workbooks", Arr([])))
            case Err(e) => r == Err(e)
  {
    ApprovedResult(cfg, g, turn, index, use, nowMs, via);
    RegistryIs(use.name);
    r := RunExcel(use.name, WorkerReply(g.world, turn, index, use));
  }

  /** `excel_range_read` asks for the range the input names and gives its address and values. */
  lemma RangeResult(cfg: Config, g: Setting, turn: nat, index: nat, use: ContentBlock, nowMs: nat, via: ApprovedVia)
    returns (r: Result<Value, ApiError>)
    requires use.ToolUse? && use.name == "excel_range_read"
    requires Verdict(g, turn, index, use, nowMs) == Ok(via) && Real(g, cfg)
    ensures Reports(UseResult(g, turn, index, use, nowMs), use, r, via)
    ensures var params := map["workbook" := Str(StrOr(use.input, "workbook")),
                              "sheet" := Str(StrOr(use.input, "sheet")),
                              "range" := Str(StrOr(use.input, "range"))];
            match ExcelAnswer(g.world.worker(turn, index, WorkerCall("excel_range_read", Obj(params))))
            case Ok(reply) =>
              && r.Ok? && FieldOr(r.value, "address", Null) == FieldOr(reply, "address", Str(""))
              && FieldOr(r.value, "values", Null) == FieldOr(reply, "values", Arr([]))
            case Err(e) => r == Err(e)
  {
    ApprovedResult(cfg, g, turn, index, use, nowMs, via);
    RegistryIs(use.name);
    r := RunExcel(use.name, WorkerReply(g.world, turn, index, use));
  }

  lemma PythonAsks(world: World, turn: nat, index: nat, use: ContentBlock)
    requires use.ToolUse? && use.name == "run_python" && FieldOr(use.input, "code", Null).Str?
    ensures WorkerReply(world, turn, index, use)
         == world.worker(turn, index, WorkerCall("exec", Obj(map["code" := FieldOr(use.input, "code", Null)])))
  {
  }

  /** `run_python` runs the very code of the input and gives its result; without code nothing runs. */
  lemma PythonResult(cfg: Config, g: Setting, turn: nat, index: nat, use: ContentBlock, nowMs: nat, via: ApprovedVia)
    returns (r: Result<Value, ApiError>)
    requires use.ToolUse? && use.name == "run_python"
    requires Verdict(g, turn, index, use, nowMs) == Ok(via) && Real(g, cfg)
    ensures Reports(UseResult(g, turn, index, use, nowMs), use, r, via)
    ensures match FieldOr(use.input, "code", Null)
            case Str(code) =>
              r == ExecAnswer(g.world.worker(turn, index, WorkerCall("exec", Obj(map["code" := Str(code)]))))
            case _ => r == Err(BadRequest)
  {
    ApprovedResult(cfg, g, turn, index, use, nowMs, via);
    RegistryIs(use.name);
    if FieldOr(use.input, "code", Null).Str? {
      PythonAsks(g.world, turn, index, use);
    }
    r := Dispatch.RunPython(use.input, WorkerReply(g.world, turn, index, use));
  }

  // ---- Into the worker --------------------------------------------------------------------------------

  /** The request line of a call. */
  function LineOf(id: nat, call: WorkerCall): WorkerMain.Input {
    WorkerMain.Json(Obj(map["id" := Int(id), "method" := Str(call.verb), "params" := call.params]))
  }

  /** What a tool asks for is what the worker's own functions are called with: for `run_python` the code of
      the use, for `excel_range_read` its workbook, sheet and range. No such line kills the worker. */
  lemma CallReachesItsFunction(id: nat, name: string, input: Value)
    requires CallOf(name, input).Some?
    ensures var line := LineOf(id, CallOf(name, input).value);
      && WorkerMain.Delegated(line) && !WorkerMain.Fatal(line) && WorkerMain.IdOf(line) == Int(id)
      && (forall key :: Str(StrOr(input, key))
            == if FieldOr(input, key, Null).Str? then FieldOr(input, key, Null) else Str(""))
      && (name == "run_python" ==> WorkerMain.JobOf(line) == WorkerMain.Exec(FieldOr(input, "code", Null)))
      && (name == "excel_workbooks" ==> WorkerMain.JobOf(line) == WorkerMain.Workbooks)
      && (name == "excel_range_read" ==>
            WorkerMain.JobOf(line)
              == WorkerMain.RangeRead(Str(StrOr(input, "workbook")), Str(StrOr(input, "sheet")),
                                      Str(StrOr(input, "range"))))
  {
    VerbsDiffer();
  }

  lemma VerbsDiffer()
    ensures |"exec"| == 4 && |"excel_workbooks"| == 15 && |"excel_range_read"| == 16 && |"run_python"| == 10
  {
  }
}
