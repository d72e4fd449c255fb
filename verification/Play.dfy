/** What one chat request amounts to when it runs by itself: its reply, its transcript, what it spends,
    what the user sees and what runs, as a function of the stores and of everybody's answers. */
module Play {
  import opened Wrappers
  import opened Types
  import opened FsRead
  import opened Sessions
  import opened Tools
  import opened Dispatch
  import opened WorkerApi
  import opened Engine
  import Cost
  import TrustWindows

  /** What the outside world answers and how long it takes: the provider by turn, counted from 1, and
      the list it is sent; the user by turn and position of the tool use; the worker by these and what
      it is asked. `written` is whether a ledger append reaches the file. */
  datatype World = World(
    provider: (nat, seq<ChatMessage>) -> Result<ProviderTurn, ProviderError>,
    dialog: (nat, nat) -> bool,
    worker: (nat, nat, WorkerCall) -> Result<Value, ApiError>,
    thinkMs: nat -> nat,
    written: nat -> bool,
    dialogMs: (nat, nat) -> nat)

  /** What a tool comes to, and the file it reads, if it reads one. */
  datatype ToolDone = ToolDone(result: Result<Value, ApiError>, file: Option<ReadOk>)

  /** What does not change while the chat runs. `tool` is what an approved use, named by turn and position,
      comes to. */
  datatype Setting = Setting(windows: TrustWindows.Store, session: Session, planOnly: bool, world: World,
                             tool: (nat, nat, ContentBlock) -> ToolDone)

  /** What the worker replies to the tool, if the tool asks it. */
  function WorkerReply(world: World, turn: nat, index: nat, use: ContentBlock): Result<Value, ApiError>
    requires use.ToolUse?
  {
    match CallOf(use.name, use.input)
    case Some(call) => world.worker(turn, index, call)
    case None => Err(Internal)
  }

  function ToolOutcome(cfg: Config, session: Session, world: World, turn: nat, index: nat, use: ContentBlock)
    : ToolDone
  {
    if !use.ToolUse? || Find(use.name).None? then ToolDone(Err(AiToolDenied), None)
    else
      ToolDone(RunTool(cfg.fs, session.fsRoots, Find(use.name).value, use.input, WorkerReply(world, turn, index, use)),
               FileOf(cfg, session, use))
  }

  function Setup(cfg: Config, windows: TrustWindows.Store, session: Session, planOnly: bool, world: World): Setting {
    Setting(windows, session, planOnly, world,
            (turn: nat, index: nat, use) => ToolOutcome(cfg, session, world, turn, index, use))
  }

  /** The tools of `g` are the launcher's own. The quantifier keeps what they do out of sight where no tool
      runs. */
  ghost predicate Equipped(g: Setting, cfg: Config) {
    forall turn: nat, index: nat, use {:trigger ToolOutcome(cfg, g.session, g.world, turn, index, use)} ::
      g.tool(turn, index, use) == ToolOutcome(cfg, g.session, g.world, turn, index, use)
  }

  lemma SetupIsEquipped(cfg: Config, windows: TrustWindows.Store, session: Session, planOnly: bool, world: World)
    ensures Equipped(Setup(cfg, windows, session, planOnly, world), cfg)
  {
  }

  // ---- One tool use -------------------------------------------------------------------------------

  function GateAt(g: Setting, use: ContentBlock, nowMs: nat): Gate
    requires use.ToolUse?
  {
    GateOf(g.session.granted, g.planOnly, use.name, TrustWindows.Covered(g.windows, g.session.id, use.name, nowMs))
  }

  /** The gates, and the user's answer where they ask for it. */
  function Verdict(g: Setting, turn: nat, index: nat, use: ContentBlock, nowMs: nat): Result<ApprovedVia, ApiError>
    requires use.ToolUse?
  {
    match GateAt(g, use, nowMs)
    case Refused(err) => Err(err)
    case Cleared(via) => Ok(via)
    case NeedsDialog => if g.world.dialog(turn, index) then Ok(Dialog) else Err(AiConsentDenied)
  }

  function AfterGate(g: Setting, turn: nat, index: nat, use: ContentBlock, nowMs: nat): nat
    requires use.ToolUse?
  {
    nowMs + (if GateAt(g, use, nowMs).NeedsDialog? then g.world.dialogMs(turn, index) else 0)
  }

  /** The result the model is shown. */
  function UseResult(g: Setting, turn: nat, index: nat, use: ContentBlock, nowMs: nat): ContentBlock
    requires use.ToolUse?
  {
    match Verdict(g, turn, index, use, nowMs)
    case Err(e) => ResultBlock(use.id, Err(e), Auto)
    case Ok(via) => ResultBlock(use.id, g.tool(turn, index, use).result, via)
  }

  /** The dialog the user sees, if any. */
  function DialogEvents(g: Setting, c: nat, turn: nat, index: nat, use: ContentBlock, nowMs: nat): seq<Event>
    requires use.ToolUse?
  {
    if GateAt(g, use, nowMs).NeedsDialog? then
      [CallDialog(c, turn, index, g.session.id, use.name, g.world.dialog(turn, index))]
    else []
  }

  /** The tool that runs, if it does. */
  function RunEvents(g: Setting, c: nat, turn: nat, index: nat, use: ContentBlock, nowMs: nat): seq<Event>
    requires use.ToolUse?
  {
    match Verdict(g, turn, index, use, nowMs)
    case Err(_) => []
    case Ok(via) =>
      [Ran(c, turn, index, g.session.id, use.name, g.planOnly, via, AfterGate(g, turn, index, use, nowMs),
           g.tool(turn, index, use).file)]
  }

  lemma VerdictAtGate(g: Setting, c: nat, turn: nat, index: nat, use: ContentBlock, nowMs: nat)
    requires use.ToolUse?
    ensures var gate, verdict := GateAt(g, use, nowMs), Verdict(g, turn, index, use, nowMs);
      && (gate.Refused? ==> verdict == Err(gate.err))
      && (gate.Cleared? ==> verdict == Ok(gate.via))
      && (gate.NeedsDialog? ==> verdict == if g.world.dialog(turn, index) then Ok(Dialog) else Err(AiConsentDenied))
      && (!gate.NeedsDialog? ==> AfterGate(g, turn, index, use, nowMs) == nowMs)
      && (!gate.NeedsDialog? ==> DialogEvents(g, c, turn, index, use, nowMs) == [])
      && (verdict.Ok? ==> Find(use.name).Some?)
  {
    GateIff(g.session.granted, g.planOnly, use.name, TrustWindows.Covered(g.windows, g.session.id, use.name, nowMs));
  }

  lemma UseAtVerdict(g: Setting, c: nat, turn: nat, index: nat, use: ContentBlock, nowMs: nat)
    requires use.ToolUse?
    ensures var verdict := Verdict(g, turn, index, use, nowMs);
      && (verdict.Err? ==>
            && UseResult(g, turn, index, use, nowMs) == ResultBlock(use.id, Err(verdict.error), Auto)
            && RunEvents(g, c, turn, index, use, nowMs) == [])
      && (verdict.Ok? ==>
            && Find(use.name).Some?
            && UseResult(g, turn, index, use, nowMs)
               == ResultBlock(use.id, g.tool(turn, index, use).result, verdict.value)
            && RunEvents(g, c, turn, index, use, nowMs)
               == [Ran(c, turn, index, g.session.id, use.name, g.planOnly, verdict.value,
                       AfterGate(g, turn, index, use, nowMs), g.tool(turn, index, use).file)])
  {
    VerdictAtGate(g, c, turn, index, use, nowMs);
  }

  // ---- One turn -----------------------------------------------------------------------------------

  datatype Round = Round(results: seq<ContentBlock>, events: seq<Event>, clockMs: nat)

  /** After the first `n` tool uses. */
  function RoundOf(g: Setting, c: nat, turn: nat, uses: seq<ContentBlock>, nowMs: nat, n: nat): (r: Round)
    requires n <= |uses| && forall k :: 0 <= k < |uses| ==> uses[k].ToolUse?
    ensures |r.results| == n
  {
    if n == 0 then Round([], [], nowMs)
    else
      var r, use := RoundOf(g, c, turn, uses, nowMs, n - 1), uses[n - 1];
      Round(r.results + [UseResult(g, turn, n - 1, use, r.clockMs)],
            r.events + (DialogEvents(g, c, turn, n - 1, use, r.clockMs) + RunEvents(g, c, turn, n - 1, use, r.clockMs)),
            AfterGate(g, turn, n - 1, use, r.clockMs))
  }

  lemma OneUseMore(g: Setting, c: nat, turn: nat, uses: seq<ContentBlock>, nowMs: nat, n: nat)
    requires n < |uses| && forall k :: 0 <= k < |uses| ==> uses[k].ToolUse?
    ensures var r, q, use := RoundOf(g, c, turn, uses, nowMs, n), RoundOf(g, c, turn, uses, nowMs, n + 1), uses[n];
      && q.results == r.results + [UseResult(g, turn, n, use, r.clockMs)]
      && q.events == r.events + (DialogEvents(g, c, turn, n, use, r.clockMs) + RunEvents(g, c, turn, n, use, r.clockMs))
      && q.clockMs == AfterGate(g, turn, n, use, r.clockMs)
  {
  }

  lemma UseIsAnswered(g: Setting, turn: nat, index: nat, use: ContentBlock, nowMs: nat)
    requires use.ToolUse?
    ensures AnswersUse(UseResult(g, turn, index, use, nowMs), use)
  {
    UseAtVerdict(g, 0, turn, index, use, nowMs);
  }

  lemma MatchesOneMore(results: seq<ContentBlock>, uses: seq<ContentBlock>, result: ContentBlock)
    requires Matches(results, uses) && |results| < |uses| && AnswersUse(result, uses[|results|])
    ensures Matches(results + [result], uses)
  {
  }

  lemma {:induction false} RoundMatches(g: Setting, c: nat, turn: nat, uses: seq<ContentBlock>, nowMs: nat, n: nat)
    requires n <= |uses| && forall k :: 0 <= k < |uses| ==> uses[k].ToolUse?
    ensures Matches(RoundOf(g, c, turn, uses, nowMs, n).results, uses)
  {
    if n > 0 {
      var r := RoundOf(g, c, turn, uses, nowMs, n - 1);
      RoundMatches(g, c, turn, uses, nowMs, n - 1);
      UseIsAnswered(g, turn, n - 1, uses[n - 1], r.clockMs);
      MatchesOneMore(r.results, uses, UseResult(g, turn, n - 1, uses[n - 1], r.clockMs));
    }
  }

  // ---- What the user saw and what ran -------------------------------------------------------------

  /** The event is true to the world: a dialog carries the user's own answer to this very use, and a
      mutating tool ran only outside plan-only chats, on the user's yes to this very use, or in a
      window that was open when the gate let it through. */
  predicate True(g: Setting, c: nat, e: Event) {
    match e
    case CallDialog(chat, turn, index, sid, _, approved) =>
      chat == c && sid == g.session.id && approved == g.world.dialog(turn, index)
    case Ran(chat, turn, index, sid, tool, planOnly, via, gateMs, _) =>
      && chat == c && sid == g.session.id && planOnly == g.planOnly
      && Find(tool).Some? && Find(tool).value.requiredScope in g.session.granted
      && (Find(tool).value.mutates ==>
            && !g.planOnly
            && ((via == Dialog && g.world.dialog(turn, index))
                || (via == TrustWindow && TrustWindows.Covered(g.windows, sid, tool, gateMs))))
    case _ => false
  }

  predicate AllTrue(g: Setting, c: nat, events: seq<Event>) {
    forall i {:trigger True(g, c, events[i])} :: 0 <= i < |events| ==> True(g, c, events[i])
  }

  lemma BothTrue(g: Setting, c: nat, a: seq<Event>, b: seq<Event>)
    requires AllTrue(g, c, a) && AllTrue(g, c, b)
    ensures AllTrue(g, c, a + b)
  {
    forall i | 0 <= i < |a + b| ensures True(g, c, (a + b)[i]) {
      if i < |a| {
        assert True(g, c, a[i]);
      } else {
        assert True(g, c, b[i - |a|]);
      }
    }
  }

  lemma UseIsTrue(g: Setting, c: nat, turn: nat, index: nat, use: ContentBlock, nowMs: nat)
    requires use.ToolUse?
    ensures AllTrue(g, c, DialogEvents(g, c, turn, index, use, nowMs) + RunEvents(g, c, turn, index, use, nowMs))
  {
    GateIff(g.session.granted, g.planOnly, use.name, TrustWindows.Covered(g.windows, g.session.id, use.name, nowMs));
  }

  lemma {:induction false} RoundIsTrue(g: Setting, c: nat, turn: nat, uses: seq<ContentBlock>, nowMs: nat, n: nat)
    requires n <= |uses| && forall k :: 0 <= k < |uses| ==> uses[k].ToolUse?
    ensures AllTrue(g, c, RoundOf(g, c, turn, uses, nowMs, n).events)
  {
    if n > 0 {
      RoundIsTrue(g, c, turn, uses, nowMs, n - 1);
      var r := RoundOf(g, c, turn, uses, nowMs, n - 1);
      UseIsTrue(g, c, turn, n - 1, uses[n - 1], r.clockMs);
      BothTrue(g, c, r.events, DialogEvents(g, c, turn, n - 1, uses[n - 1], r.clockMs)
                               + RunEvents(g, c, turn, n - 1, uses[n - 1], r.clockMs));
    }
  }

  // ---- The whole chat -----------------------------------------------------------------------------

  /** Where a chat is: its list, the ledger's file and rows, what was seen and done, the time; and the
      answer once it has one. */
  datatype Progress = Progress(history: seq<ChatMessage>, file: seq<Cost.CostEntry>, rows: Cost.Rows,
                               events: seq<Event>, clockMs: nat, answer: Option<Result<Reply, ApiError>>)

  /** What stands in front of the chat: the spending cap, the session and its provider. */
  ghost function Admission(cfg: Config, sessions: Store, rows: Cost.Rows, sid: Uuid): Result<Session, ApiError> {
    if Cost.Over(rows, cfg.cap) then Err(AiBudgetExceeded)
    else if sid !in sessions then Err(AiSessionNotFound)
    else if sessions[sid].provider !in cfg.providers then Err(AiProviderUnconfigured)
    else Ok(sessions[sid])
  }

  /** Why a chat does not begin, each error both ways. */
  lemma AdmissionIff(cfg: Config, sessions: Store, rows: Cost.Rows, sid: Uuid)
    ensures var r, over := Admission(cfg, sessions, rows, sid), cfg.cap > 0 && Cost.Total(rows) % Cost.U64 >= cfg.cap;
      && (r == Err(AiBudgetExceeded) <==> over)
      && (r == Err(AiSessionNotFound) <==> !over && sid !in sessions)
      && (r == Err(AiProviderUnconfigured) <==>
            !over && sid in sessions && sessions[sid].provider !in cfg.providers)
      && (!over && sid in sessions && sessions[sid].provider in cfg.providers ==> r == Ok(sessions[sid]))
  {
  }

  /** The user's messages are stored. */
  function Start(session: Session, user: seq<ChatMessage>, file: seq<Cost.CostEntry>, rows: Cost.Rows, nowMs: nat)
    : Progress
  {
    Progress(session.messages + user, file, rows, [], nowMs, None)
  }

  function Mapped(e: ProviderError): ApiError {
    if e.Unconfigured? then AiProviderUnconfigured else AiProviderUpstream
  }

  /** What the provider says to the chat in turn `n`, sent `list`. */
  function Heard(world: World, n: nat, list: seq<ChatMessage>): Result<ProviderTurn, ApiError> {
    match world.provider(n, list)
    case Ok(turn) => Ok(turn)
    case Err(e) => Err(Mapped(e))
  }

  /** Turn `n` fails. */
  function Lost(g: Setting, p: Progress, n: nat, e: ApiError): Progress {
    Progress(p.history, p.file, p.rows, p.events, p.clockMs + g.world.thinkMs(n), Some(Err(e)))
  }

  /** Turn `n` is in the list and in the store. */
  function Said(g: Setting, p: Progress, n: nat, turn: ProviderTurn): Progress {
    Progress(p.history + [turn.message], p.file, p.rows, p.events, p.clockMs + g.world.thinkMs(n), None)
  }

  /** And in the ledger. */
  function Paid(g: Setting, p: Progress, n: nat, turn: ProviderTurn): Progress {
    var q := Said(g, p, n, turn);
    var entry := EntryFor(g.session, turn, q.clockMs);
    q.(file := if g.world.written(n) then p.file + [entry] else p.file, rows := Cost.RecordRow(p.rows, entry))
  }

  /** Its tool uses are answered. */
  function Answered(g: Setting, c: nat, p: Progress, n: nat, turn: ProviderTurn): Progress {
    var r := RoundOf(g, c, n, Uses(turn), p.clockMs, |Uses(turn)|);
    Progress(p.history + [ChatMessage(Tool, None, r.results)], p.file, p.rows, p.events + r.events, r.clockMs, None)
  }

  /** Turn `n`, asked for at `p`. */
  function TurnFrom(g: Setting, c: nat, p: Progress, n: nat): Progress {
    var t := p.clockMs + g.world.thinkMs(n);
    match Heard(g.world, n, p.history)
    case Err(e) => Lost(g, p, n, e)
    case Ok(turn) =>
      var entry := EntryFor(g.session, turn, t);
      var file, rows := if g.world.written(n) then p.file + [entry] else p.file, Cost.RecordRow(p.rows, entry);
      if Uses(turn) == [] then
        Progress(p.history + [turn.message], file, rows, p.events, t,
                 Some(Ok(Reply(turn.message, turn.stop, turn.usage))))
      else
        var r := RoundOf(g, c, n, Uses(turn), t, |Uses(turn)|);
        Progress(p.history + [turn.message, ChatMessage(Tool, None, r.results)], file, rows, p.events + r.events,
                 r.clockMs, if n == MAX_TURNS then Some(Ok(Reply(EMPTY_REPLY, turn.stop, turn.usage))) else None)
  }

  /** A turn of the provider is charged once, to the session's model, with the turn's own tokens at the
      built-in price, in the rollup and in the file if that takes it. */
  lemma TurnIsCharged(g: Setting, c: nat, p: Progress, n: nat) returns (entry: Cost.CostEntry)
    requires g.world.provider(n, p.history).Ok?
    ensures var usage, q := g.world.provider(n, p.history).value.usage, TurnFrom(g, c, p, n);
      && entry.provider == g.session.provider && entry.model == g.session.model
      && entry.input == usage.input && entry.output == usage.output
      && (entry.provider == "anthropic" ==>
            && ("claude-opus-4" <= entry.model && Cost.Unsaturated(Cost.PriceTable(15_000_000, 75_000_000), usage) ==>
                  entry.usd == 15 * usage.input + 75 * usage.output)
            && (!("claude-opus-4" <= entry.model) && Cost.Unsaturated(Cost.PriceTable(3_000_000, 15_000_000), usage) ==>
                  entry.usd == 3 * usage.input + 15 * usage.output))
      && (entry.provider != "anthropic" ==> entry.usd == 0)
      && q.file == (if g.world.written(n) then p.file + [entry] else p.file)
      && q.rows - {entry.Key()} == p.rows - {entry.Key()}
      && Cost.RowTotals(q.rows, entry.Key()) == Cost.RowTotals(p.rows, entry.Key()).Plus(entry).Clamped()
  {
    entry := EntryFor(g.session, g.world.provider(n, p.history).value, p.clockMs + g.world.thinkMs(n));
    Cost.Prices(entry.provider, entry.model, g.world.provider(n, p.history).value.usage);
    Cost.RecordAddsTokens(p.rows, entry);
  }

  lemma TurnFails(g: Setting, c: nat, p: Progress, n: nat)
    requires Heard(g.world, n, p.history).Err?
    ensures TurnFrom(g, c, p, n) == Lost(g, p, n, Heard(g.world, n, p.history).error)
  {
  }

  lemma TurnAsksNothing(g: Setting, c: nat, p: Progress, n: nat, turn: ProviderTurn)
    requires Heard(g.world, n, p.history) == Ok(turn) && Uses(turn) == []
    ensures TurnFrom(g, c, p, n) == Paid(g, p, n, turn).(answer := Some(Ok(Reply(turn.message, turn.stop, turn.usage))))
  {
  }

  lemma TurnAsks(g: Setting, c: nat, p: Progress, n: nat, turn: ProviderTurn)
    requires Heard(g.world, n, p.history) == Ok(turn) && Uses(turn) != []
    ensures var q := TurnFrom(g, c, p, n);
      && q == Answered(g, c, Paid(g, p, n, turn), n, turn).(answer := q.answer)
      && q.answer == if n == MAX_TURNS then Some(Ok(Reply(EMPTY_REPLY, turn.stop, turn.usage))) else None
  {
    var q := Answered(g, c, Paid(g, p, n, turn), n, turn);
    assert q.history == TurnFrom(g, c, p, n).history;
  }

  /** The provider's turn ends the chat: it failed, or asks for no tool. */
  predicate Stops(world: World, n: nat, list: seq<ChatMessage>) {
    Heard(world, n, list).Err? || Uses(Heard(world, n, list).value) == []
  }

  /** What the client gets if turn `n`, asked with `list`, is the last one. */
  function AnswerAt(world: World, n: nat, list: seq<ChatMessage>): Result<Reply, ApiError> {
    match Heard(world, n, list)
    case Err(e) => Err(e)
    case Ok(turn) =>
      Ok(Reply(if Uses(turn) == [] then turn.message else EMPTY_REPLY, turn.stop, turn.usage))
  }

  lemma AnswerOfTurn(g: Setting, c: nat, p: Progress, n: nat)
    ensures TurnFrom(g, c, p, n).answer
         == if Stops(g.world, n, p.history) || n == MAX_TURNS then Some(AnswerAt(g.world, n, p.history)) else None
  {
  }

  lemma TurnIsTrue(g: Setting, c: nat, p: Progress, n: nat)
    ensures AllTrue(g, c, p.events) ==> AllTrue(g, c, TurnFrom(g, c, p, n).events)
  {
    if AllTrue(g, c, p.events) && Heard(g.world, n, p.history).Ok? {
      var uses, t := Uses(Heard(g.world, n, p.history).value), p.clockMs + g.world.thinkMs(n);
      RoundIsTrue(g, c, n, uses, t, |uses|);
      BothTrue(g, c, p.events, RoundOf(g, c, n, uses, t, |uses|).events);
    }
  }

  /** From turn `n` on, up to the answer. Every event on the way is true. */
  function PlayFrom(g: Setting, c: nat, p: Progress, n: nat): (q: Progress)
    requires 1 <= n <= MAX_TURNS
    ensures q.answer.Some?
    ensures AllTrue(g, c, p.events) ==> AllTrue(g, c, q.events)
    decreases MAX_TURNS - n, p
  {
    AnswerOfTurn(g, c, p, n);
    TurnIsTrue(g, c, p, n);
    var q := TurnFrom(g, c, p, n);
    if n == MAX_TURNS || q.answer.Some? then q else PlayFrom(g, c, q, n + 1)
  }

  /** Asked for turn `n` at `p`, the chat ends at `goal`. The quantifier keeps the definition out of sight
      where no turn is taken. */
  ghost predicate HeadsFor(g: Setting, c: nat, p: Progress, n: nat, goal: Progress) {
    forall k {:trigger TurnFrom(g, c, p, k)} :: k == n && 1 <= k <= MAX_TURNS ==> PlayFrom(g, c, p, k) == goal
  }

  lemma OneTurnOn(g: Setting, c: nat, p: Progress, n: nat, goal: Progress)
    requires 1 <= n <= MAX_TURNS && HeadsFor(g, c, p, n, goal)
    ensures var q := TurnFrom(g, c, p, n);
      if q.answer.Some? then q == goal else n < MAX_TURNS && HeadsFor(g, c, q, n + 1, goal)
  {
    AnswerOfTurn(g, c, p, n);
  }

  // ---- The talk with the provider -------------------------------------------------------------------

  predicate AsksForTools(m: ChatMessage) {
    exists i :: 0 <= i < |m.content| && m.content[i].ToolUse?
  }

  /** Between two turns: the provider's message, which asks for tools, and one tool message with a result
      for each, in order, stand behind the list it was sent. */
  ghost predicate Follows(world: World, n: nat, list: seq<ChatMessage>, next: seq<ChatMessage>) {
    && world.provider(n, list).Ok?
    && var m := world.provider(n, list).value.message;
    && AsksForTools(m)
    && |next| == |list| + 2 && next[..|list|] == list && next[|list|] == m
    && next[|list| + 1].role == Tool
    && |next[|list| + 1].content| == |ToolUses(m.content)| && Matches(next[|list| + 1].content, ToolUses(m.content))
  }

  /** What the client gets when turn `n`, asked with `list`, is the last one. */
  ghost predicate RightAnswer(world: World, n: nat, list: seq<ChatMessage>, r: Result<Reply, ApiError>) {
    match world.provider(n, list)
    case Err(Unconfigured) => r == Err(AiProviderUnconfigured)
    case Err(_) => r == Err(AiProviderUpstream)
    case Ok(turn) =>
      && r.Ok? && r.value.stop == turn.stop && r.value.usage == turn.usage
      && r.value.message == if AsksForTools(turn.message) then ChatMessage(Assistant, None, []) else turn.message
  }

  /** The lists sent to the provider, turn by turn from turn `n` on. A turn that fails or asks for no tool
      is the last, and so is the eighth. */
  ghost predicate Talk(world: World, lists: seq<seq<ChatMessage>>, n: nat, r: Result<Reply, ApiError>) {
    && 0 < |lists| <= 9 - n
    && (forall k :: 0 <= k < |lists| - 1 ==> Follows(world, n + k, lists[k], lists[k + 1]))
    && var last, list := n + |lists| - 1, lists[|lists| - 1];
    && (last == 8 || world.provider(last, list).Err? || !AsksForTools(world.provider(last, list).value.message))
    && RightAnswer(world, last, list, r)
  }

  lemma {:induction false} UsesIffAsks(content: seq<ContentBlock>)
    ensures ToolUses(content) != [] <==> exists i :: 0 <= i < |content| && content[i].ToolUse?
  {
    if content != [] {
      UsesIffAsks(content[1..]);
      if exists i :: 1 <= i < |content| && content[i].ToolUse? {
        var i :| 1 <= i < |content| && content[i].ToolUse?;
        assert content[1..][i - 1].ToolUse?;
      }
      if exists i :: 0 <= i < |content[1..]| && content[1..][i].ToolUse? {
        var i :| 0 <= i < |content[1..]| && content[1..][i].ToolUse?;
        assert content[i + 1].ToolUse?;
      }
    }
  }

  lemma StopsMeans(world: World, n: nat, list: seq<ChatMessage>)
    ensures Stops(world, n, list)
      <==> world.provider(n, list).Err? || !AsksForTools(world.provider(n, list).value.message)
    ensures RightAnswer(world, n, list, AnswerAt(world, n, list))
  {
    if world.provider(n, list).Ok? {
      UsesIffAsks(world.provider(n, list).value.message.content);
    }
  }

  lemma ListGrows(g: Setting, c: nat, p: Progress, n: nat)
    requires !Stops(g.world, n, p.history)
    ensures Follows(g.world, n, p.history, TurnFrom(g, c, p, n).history)
  {
    var turn, t := Heard(g.world, n, p.history).value, p.clockMs + g.world.thinkMs(n);
    StopsMeans(g.world, n, p.history);
    RoundMatches(g, c, n, Uses(turn), t, |Uses(turn)|);
  }

  lemma TalkEnds(world: World, list: seq<ChatMessage>, n: nat)
    requires 1 <= n <= MAX_TURNS && (Stops(world, n, list) || n == MAX_TURNS)
    ensures Talk(world, [list], n, AnswerAt(world, n, list))
  {
    StopsMeans(world, n, list);
  }

  lemma TalkGoesOn(g: Setting, c: nat, p: Progress, n: nat, goal: Progress)
    requires 1 <= n <= MAX_TURNS && HeadsFor(g, c, p, n, goal)
    ensures var q := TurnFrom(g, c, p, n);
      if q.answer.Some? then goal.answer.Some? && Talk(g.world, [p.history], n, goal.answer.value)
      else n < MAX_TURNS && HeadsFor(g, c, q, n + 1, goal) && Follows(g.world, n, p.history, q.history)
  {
    AnswerOfTurn(g, c, p, n);
    OneTurnOn(g, c, p, n, goal);
    if TurnFrom(g, c, p, n).answer.Some? {
      TalkEnds(g.world, p.history, n);
    } else {
      ListGrows(g, c, p, n);
    }
  }

  lemma {:induction false} TalkFrom(g: Setting, c: nat, p: Progress, n: nat, goal: Progress)
    returns (lists: seq<seq<ChatMessage>>)
    requires 1 <= n <= MAX_TURNS && HeadsFor(g, c, p, n, goal)
    ensures goal.answer.Some? && Talk(g.world, lists, n, goal.answer.value) && lists[0] == p.history
    decreases MAX_TURNS - n
  {
    TalkGoesOn(g, c, p, n, goal);
    lists := [p.history];
    if TurnFrom(g, c, p, n).answer.None? {
      var rest := TalkFrom(g, c, TurnFrom(g, c, p, n), n + 1, goal);
      TalkGrows(g.world, p.history, rest, n, goal.answer.value);
      lists := lists + rest;
    }
  }

  lemma TalkGrows(world: World, list: seq<ChatMessage>, rest: seq<seq<ChatMessage>>, n: nat, r: Result<Reply, ApiError>)
    requires Talk(world, rest, n + 1, r) && Follows(world, n, list, rest[0])
    ensures Talk(world, [list] + rest, n, r)
  {
    var lists := [list] + rest;
    forall k | 0 <= k < |lists| - 1 ensures Follows(world, n + k, lists[k], lists[k + 1]) {
      assert k > 0 ==> Follows(world, n + 1 + (k - 1), rest[k - 1], rest[k]);
    }
  }

  /** A chat talks with the provider for at most eight turns. The first list it sends is its own, each
      further one is the one before with the provider's message and the tools' answers behind it. The
      client gets the message of the first turn without tool uses, the mapped error of the first failing
      turn if that comes first, and otherwise, after eight turns that asked for tools, an empty message
      with the eighth turn's stop reason and usage. */
  lemma AnswerIsThatOfTheLastTurn(g: Setting, c: nat, p: Progress) returns (lists: seq<seq<ChatMessage>>)
    ensures PlayFrom(g, c, p, 1).answer.Some?
    ensures Talk(g.world, lists, 1, PlayFrom(g, c, p, 1).answer.value) && lists[0] == p.history
  {
    lists := TalkFrom(g, c, p, 1, PlayFrom(g, c, p, 1));
  }
}
