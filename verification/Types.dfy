/** The wire types the AI bridge shares. */
module Types {
  import opened Wrappers

  type Uuid = nat

  datatype Scope =
    | FsRead | FsWrite | RunPython | ExcelCom
    | AiProviderCall | AiCodegenWrite | AiExecPython
    | BundleRead | BundleWrite

  /** A JSON value. A number with a fraction is a finite double: its integer part, truncated towards
      zero, and the rest with the same sign, counted in units of 2^-1074. */
  datatype Value =
    | Null
    | Bool(b: bool)
    | Int(n: int)
    | Float(whole: int, rest: int)
    | Str(s: string)
    | Arr(items: seq<Value>)
    | Obj(fields: map<string, Value>)

  /** Whether Python takes a value for true. */
  predicate Truthy(v: Value) {
    match v
    case Null => false
    case Bool(b) => b
    case Int(n) => n != 0
    case Float(whole, rest) => whole != 0 || rest != 0
    case Str(s) => s != ""
    case Arr(items) => items != []
    case Obj(fields) => fields != map[]
  }

  /** The value an object has under a key. */
  function MemberOr(fields: map<string, Value>, key: string, default: Value): Value {
    if key in fields then fields[key] else default
  }

  /** A missing key reads as null. */
  function Member(fields: map<string, Value>, key: string): Value {
    MemberOr(fields, key, Null)
  }

  /** The same of any value; what is no object has no keys. */
  function FieldOr(v: Value, key: string, default: Value): Value {
    if v.Obj? then MemberOr(v.fields, key, default) else default
  }

  datatype ApprovedVia = Auto | Dialog | TrustWindow

  datatype ContentBlock =
    | Text(text: string)
    | ToolUse(id: string, name: string, input: Value)
    | ToolResult(toolUseId: string, ok: bool, output: Value, approvedVia: Option<ApprovedVia>)

  datatype Role = System | User | Assistant | Tool

  datatype ChatMessage = ChatMessage(role: Role, tsMs: Option<nat>, content: seq<ContentBlock>)

  datatype StopReason = EndTurn | MaxTokens | ToolUseRoundLimit

  /** The errors the modelled routes produce. */
  datatype ApiError =
    | Unauthorized | ScopeDenied | BadRequest | ConsentDenied | Internal
    | PathNotFound | ForbiddenPath | NotAFile | PathTooLarge
    | WorkerSpawnFailed | WorkerCrashed | WorkerTimeout
    | ExcelNotAvailable | ExcelNotRunning | ExcelFailed
    | BundleNotFound | BundleTooLarge | BundleCorrupt | BundleSchemaMismatch
    | AiSessionNotFound | AiProviderUnconfigured | AiProviderUpstream | AiBudgetExceeded
    | AiToolDenied | AiPlanOnlyViolation | AiConsentDenied

  /** The tool uses of a message, in order. */
  function ToolUses(content: seq<ContentBlock>): (r: seq<ContentBlock>)
    ensures forall i :: 0 <= i < |r| ==> r[i].ToolUse?
  {
    if content == [] then []
    else if content[0].ToolUse? then [content[0]] + ToolUses(content[1..])
    else ToolUses(content[1..])
  }

  /** A message's tool uses are those of its parts, one after the other. */
  lemma {:induction false} ToolUsesConcat(a: seq<ContentBlock>, b: seq<ContentBlock>)
    ensures ToolUses(a + b) == ToolUses(a) + ToolUses(b)
  {
    if a == [] {
      assert a + b == b;
    } else {
      assert (a + b)[1..] == a[1..] + b;
      ToolUsesConcat(a[1..], b);
    }
  }

  /** So block `i`, if a tool use, is the one that comes after the tool uses before it. */
  lemma ToolUseAt(content: seq<ContentBlock>, i: nat)
    requires i < |content|
    ensures ToolUses(content[..i + 1]) == ToolUses(content[..i]) + (if content[i].ToolUse? then [content[i]] else [])
    ensures content[i].ToolUse? ==>
      var k := |ToolUses(content[..i])|; k < |ToolUses(content)| && ToolUses(content)[k] == content[i]
  {
    assert content[..i + 1] == content[..i] + [content[i]] && content == content[..i + 1] + content[i + 1..];
    assert [content[i]][1..] == [];
    ToolUsesConcat(content[..i], [content[i]]);
    ToolUsesConcat(content[..i + 1], content[i + 1..]);
  }
}
