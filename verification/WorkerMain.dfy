/** The worker's `_main`: an endless loop that answers every request line with one reply line.

    This is what the machine of `Worker` assumes of a child process, and the reason why its
    processes write one line for each line they take. */
module WorkerMain {
  import opened Wrappers
  import opened Types

  /** A request line: text that is no JSON, or the value it parses to. */
  datatype Input = NotJson | Json(msg: Value)

  /** The id a reply to this line must carry. */
  function IdOf(line: Input): Value {
    if line.Json? then FieldOr(line.msg, "id", Null) else Null
  }

  predicate Asks(line: Input, verb: string) {
    line.Json? && FieldOr(line.msg, "method", Null) == Str(verb)
  }

  /** The methods that look into their parameters. */
  predicate ReadsParams(line: Input) {
    Asks(line, "exec") || Asks(line, "excel_range_read") || Asks(line, "bundle_read") || Asks(line, "bundle_write")
  }

  /** The methods that have a function of their own. */
  predicate Delegated(line: Input) {
    Asks(line, "excel_workbooks") || ReadsParams(line)
  }

  /** The process dies on this line: the message has no fields to look up, or its parameters have
      none. */
  predicate Fatal(line: Input) {
    line.Json? &&
    (!line.msg.Obj? || (ReadsParams(line) && Truthy(FieldOr(line.msg, "params", Null))
                        && !FieldOr(line.msg, "params", Null).Obj?))
  }

  /** What a method's own function is called with. */
  datatype Job =
    | Exec(code: Value)
    | Workbooks
    | RangeRead(workbook: Value, sheet: Value, range: Value)
    | ReadBundle(path: Value)
    | WriteBundle(path: Value, payload: Value)

  /** A parameter of the line, if its parameters have one of that name. */
  function Param(line: Input, key: string, default: Value): Value {
    if line.Json? then FieldOr(FieldOr(line.msg, "params", Null), key, default) else default
  }

  function JobOf(line: Input): Job
    requires Delegated(line)
  {
    if Asks(line, "exec") then Exec(Param(line, "code", Str("")))
    else if Asks(line, "excel_workbooks") then Workbooks
    else if Asks(line, "excel_range_read") then
      RangeRead(Param(line, "workbook", Str("")), Param(line, "sheet", Str("")), Param(line, "range", Str("")))
    else if Asks(line, "bundle_read") then ReadBundle(Param(line, "path", Str("")))
    else WriteBundle(Param(line, "path", Str("")), Param(line, "payload", Obj(map[])))
  }

  /** The reply a line deserves, if its method's function gives `handled`. */
  ghost predicate Answers(reply: Value, line: Input, handled: Job -> Option<map<string, Value>>) {
    && !Fatal(line) && reply.Obj? && FieldOr(reply, "id", Null) == IdOf(line)
    && (Delegated(line) ==>
          handled(JobOf(line)).Some? && reply.fields == handled(JobOf(line)).value["id" := IdOf(line)])
    && (!Delegated(line) ==>
          FieldOr(reply, "ok", Null) == Bool(Asks(line, "ping") || Asks(line, "shutdown"))
          && (FieldOr(reply, "error", Null) == Null <==> Asks(line, "ping") || Asks(line, "shutdown")))
  }

  /** `handled` is what a method's own function returns at a position; `None` if it does not return.

      The replies are one for each line, in order, each under the id of its own line, whatever the
      method put there; only a `shutdown`, a fatal line or a method that does not return ends it. */
  method Serve(lines: seq<Input>, handled: nat -> Job -> Option<map<string, Value>>) returns (replies: seq<Value>)
    ensures |replies| <= |lines|
    ensures forall i :: 0 <= i < |replies| ==> Answers(replies[i], lines[i], handled(i))
    ensures forall i :: 0 <= i < |replies| - 1 ==> !Asks(lines[i], "shutdown")
    ensures |replies| < |lines| ==>
      || (|replies| > 0 && Asks(lines[|replies| - 1], "shutdown"))
      || Fatal(lines[|replies|])
      || (Delegated(lines[|replies|]) && handled(|replies|)(JobOf(lines[|replies|])).None?)
  {
    replies := [];
    while |replies| < |lines|
      invariant |replies| <= |lines|
      invariant forall i :: 0 <= i < |replies| ==> Answers(replies[i], lines[i], handled(i))
      invariant forall i :: 0 <= i < |replies| ==> !Asks(lines[i], "shutdown")
    {
      var line := lines[|replies|];
      var id := IdOf(line);
      if line.NotJson? {
        replies := replies + [Refusal(Null, "bad json")];
      } else if !line.msg.Obj? {
        return;
      } else if Asks(line, "ping") {
        replies := replies + [Plain(id)];
      } else if Delegated(line) {
        if Fatal(line) {
          return;
        }
        var payload := handled(|replies|)(JobOf(line));
        if payload.None? {
          return;
        }
        replies := replies + [Obj(payload.value["id" := id])];
      } else if Asks(line, "shutdown") {
        replies := replies + [Plain(id)];
        return;
      } else {
        replies := replies + [Refusal(id, "unknown method")];
      }
    }
  }

  function Plain(id: Value): (r: Value)
    ensures r.Obj? && FieldOr(r, "id", Null) == id && FieldOr(r, "ok", Null) == Bool(true)
    ensures FieldOr(r, "error", Null) == Null
  {
    Obj(map["id" := id, "ok" := Bool(true)])
  }

  function Refusal(id: Value, error: string): (r: Value)
    ensures r.Obj? && FieldOr(r, "id", Null) == id && FieldOr(r, "ok", Null) == Bool(false)
    ensures FieldOr(r, "error", Null) == Str(error)
  {
    Obj(map["id" := id, "ok" := Bool(false), "error" := Str(error)])
  }
}
