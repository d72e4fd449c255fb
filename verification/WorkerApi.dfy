/** The typed calls on top of `PythonWorker::call`: what is asked of the worker for a tool, and what
    its reply line comes to. `raw` is what `call` returns: the parsed reply, or its own error. */
module WorkerApi {
  import opened Wrappers
  import opened Types

  datatype WorkerCall = WorkerCall(verb: string, params: Value)

  // ---- Excel ----------------------------------------------------------------------------------------

  function StrField(v: Value, key: string): Option<string> {
    match FieldOr(v, key, Null)
    case Str(s) => Some(s)
    case _ => None
  }

  function StrOr(v: Value, key: string): string {
    match StrField(v, key)
    case Some(s) => s
    case None => ""
  }

  /** Whether the reply says `"ok": false`. */
  predicate SaysNo(reply: Value) {
    FieldOr(reply, "ok", Null) == Bool(false)
  }

  /** `excel_call`: the error code of a reply that says no becomes an error. */
  function ExcelAnswer(raw: Result<Value, ApiError>): Result<Value, ApiError> {
    match raw
    case Err(e) => Err(e)
    case Ok(reply) =>
      if !SaysNo(reply) then Ok(reply)
      else
        var code := StrOr(reply, "error_code");
        Err(if code == "excel_not_available" then ExcelNotAvailable
            else if code == "excel_not_running" then ExcelNotRunning
            else ExcelFailed)
  }

  // ---- Python ---------------------------------------------------------------------------------------

  /** The fields of `ExecResult`, in order. */
  const EXEC_FIELDS: seq<string> := ["ok", "stdout", "stderr", "result", "error"]

  /** What a reply has for field `i`: an object by name, an array by position. */
  function ExecField(reply: Value, i: nat): Option<Value>
    requires i < |EXEC_FIELDS|
  {
    match reply
    case Obj(fields) => if EXEC_FIELDS[i] in fields then Some(fields[EXEC_FIELDS[i]]) else None
    case Arr(items) => if i < |items| then Some(items[i]) else None
    case _ => None
  }

  /** A missing field is its default; one of the wrong type is an error. */
  function ExecValue(field: Option<Value>, i: nat): Option<Value> {
    match field
    case None => Some(if i == 0 then Bool(false) else if i <= 2 then Str("") else Null)
    case Some(v) => if (i == 0 && v.Bool?) || (i > 0 && v.Str?) || (i > 2 && v.Null?) then Some(v) else None
  }

  /** `exec`: the reply as an `ExecResult`, and that as a value again. */
  function ExecAnswer(raw: Result<Value, ApiError>): Result<Value, ApiError> {
    match raw
    case Err(e) => Err(e)
    case Ok(reply) =>
      if !(reply.Obj? || (reply.Arr? && |reply.items| <= 5)) then Err(Internal)
      else
        var ok, out, err := ExecValue(ExecField(reply, 0), 0), ExecValue(ExecField(reply, 1), 1),
                            ExecValue(ExecField(reply, 2), 2);
        var result, error := ExecValue(ExecField(reply, 3), 3), ExecValue(ExecField(reply, 4), 4);
        if ok.None? || out.None? || err.None? || result.None? || error.None? then Err(Internal)
        else
          Ok(Obj(map["ok" := ok.value, "stdout" := out.value, "stderr" := err.value,
                     "result" := result.value, "error" := error.value]))
  }

  // ---- What the answers come to -----------------------------------------------------------------------

  /** A reply that does not say no is handed on as it is; one that does is the error of its code. */
  lemma ExcelAnswerIs(reply: Value)
    ensures FieldOr(reply, "ok", Null) != Bool(false) ==> ExcelAnswer(Ok(reply)) == Ok(reply)
    ensures FieldOr(reply, "ok", Null) == Bool(false) ==>
      var code := FieldOr(reply, "error_code", Null);
      && (ExcelAnswer(Ok(reply)) == Err(ExcelNotAvailable) <==> code == Str("excel_not_available"))
      && (ExcelAnswer(Ok(reply)) == Err(ExcelNotRunning) <==> code == Str("excel_not_running"))
      && (ExcelAnswer(Ok(reply)) == Err(ExcelFailed) <==>
            code != Str("excel_not_available") && code != Str("excel_not_running"))
  {
    assert |"excel_not_available"| == 19 && |"excel_not_running"| == 17;
  }

  /** The field is missing or of a type it may have. */
  predicate Fits(fields: map<string, Value>, key: string, bool_: bool, null_: bool) {
    key in fields ==> if bool_ then fields[key].Bool? else fields[key].Str? || (null_ && fields[key].Null?)
  }

  /** An object with fitting fields is reduced to the five of a result, with their defaults; nothing else
      in it matters. */
  lemma ExecAnswerOfObject(fields: map<string, Value>)
    ensures var r := ExecAnswer(Ok(Obj(fields)));
      var fits := Fits(fields, "ok", true, false) && Fits(fields, "stdout", false, false)
                  && Fits(fields, "stderr", false, false) && Fits(fields, "result", false, true)
                  && Fits(fields, "error", false, true);
      && (!fits ==> r == Err(Internal))
      && (fits ==>
            r == Ok(Obj(map["ok" := MemberOr(fields, "ok", Bool(false)),
                            "stdout" := MemberOr(fields, "stdout", Str("")),
                            "stderr" := MemberOr(fields, "stderr", Str("")),
                            "result" := MemberOr(fields, "result", Null), "error" := MemberOr(fields, "error", Null)])))
  {
  }

  /** An array is read by position, and anything but an object or an array fails. */
  lemma ExecAnswerOfOthers(reply: Value)
    ensures reply.Arr? && |reply.items| == 5 ==>
      ExecAnswer(Ok(reply))
        == ExecAnswer(Ok(Obj(map["ok" := reply.items[0], "stdout" := reply.items[1], "stderr" := reply.items[2],
                                 "result" := reply.items[3], "error" := reply.items[4]])))
    ensures !reply.Obj? && !(reply.Arr? && |reply.items| <= 5) ==> ExecAnswer(Ok(reply)) == Err(Internal)
  {
  }
}
