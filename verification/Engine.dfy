/** The launcher's chat engine as a step machine.

    Many requests run at once. Between two awaits or two critical sections of one request any
    other request may take steps, so every critical section of the handlers is one step here and a
    run is an arbitrary sequence of steps. Answers of the provider, of the user and of the worker
    are parameters of the steps, and so are fresh identifiers. A request whose connection is
    dropped simply stops (`Cancel`). */
module Engine {
  import opened Wrappers
  import opened Types
  import opened FsRead
  import opened Auth
  import opened Tools
  import opened Sessions
  import opened Dispatch
  import TrustWindows
  import Cost

  datatype Config = Config(fs: FileSystem, providers: set<string>, cap: nat)

  const MAX_TURNS: nat := 8

  datatype ProviderTurn = ProviderTurn(message: ChatMessage, stop: StopReason, usage: Cost.Usage)

  datatype ProviderError = Unconfigured | Upstream | Decode

  datatype Reply = Reply(message: ChatMessage, stop: StopReason, usage: Cost.Usage)

  datatype Outcome = Replied(reply: Reply) | Failed(err: ApiError) | Dropped

  /** Where a chat request is in `ai_chat`. `results` are the tool results of the current turn. */
  datatype Phase =
    | Admitted
    | Found
    | Stored
    | Ready
    | Recording(turn: ProviderTurn)
    | Dispatching(turn: ProviderTurn, results: seq<ContentBlock>)
    | Asking(turn: ProviderTurn, results: seq<ContentBlock>)
    | Passed(turn: ProviderTurn, results: seq<ContentBlock>, via: ApprovedVia, gateMs: nat)
    | Finished(outcome: Outcome)

  datatype Chat = Chat(
    caller: string,
    sid: Uuid,
    user: seq<ChatMessage>,
    planOnly: bool,
    session: Option<Session>,     // the clone `get` returned
    history: seq<ChatMessage>,    // the local message list
    mark: Option<nat>,            // history: the list's length when it was cloned
    turns: nat,
    records: nat,                 // history: ledger records made
    phase: Phase)

  datatype WindowRequest = WindowRequest(sid: Uuid, tools: seq<string>, secs: nat)

  /** Where a stored message comes from: the request body, at a position; the provider, in a turn; the
      tools, after a turn. */
  datatype Origin = FromUser(index: nat) | FromTurn(turn: nat) | FromTools(turn: nat)

  datatype Signature = Signature(chat: nat, origin: Origin)

  /** What the user saw and what ran, in order. A tool use is named by chat, turn and position. */
  datatype Event =
    | CallDialog(chat: nat, turn: nat, index: nat, sid: Uuid, tool: string, approved: bool)
    | WindowDialog(request: WindowRequest, approved: bool)
    | WindowOpened(wid: Uuid, request: WindowRequest, atMs: nat)
    | Ran(chat: nat, turn: nat, index: nat, sid: Uuid, tool: string, planOnly: bool, via: ApprovedVia, gateMs: nat,
          file: Option<ReadOk>)

  datatype State = State(
    nowMs: nat,
    tokens: Tokens,
    sessions: Store,
    windows: TrustWindows.Store,
    rows: Cost.Rows,
    chats: map<nat, Chat>,
    approvals: seq<WindowRequest>,       // window dialogs answered yes, window not yet inserted
    authors: map<Uuid, seq<Signature>>,  // history: which chat appended each stored message, and as what
    openers: map<Uuid, string>,          // history: which token opened each session
    log: seq<Event>)                     // history

  const INIT: State := State(0, map[], map[], map[], map[], map[], [], map[], map[], [])

  /** What one chat request does next. */
  datatype Move =
    | Get
    | StoreUser
    | Snapshot
    | Provider(answer: Result<ProviderTurn, ProviderError>)
    | Record
    | PassGate
    | Answer(approved: bool)
    | RunIt(worker: Result<Value, ApiError>)
    | StoreResults
    | Cancel

  datatype Step =
    | Tick(ms: nat)
    | DoHandshake(token: string, requested: seq<Scope>, rawRoots: seq<string>, approved: bool)
    | OpenSession(bearer: string, sid: Uuid, provider: string, model: string)
    | AskWindow(bearer: string, request: WindowRequest, approved: bool)
    | OpenWindow(index: nat, wid: Uuid)
    | Admit(c: nat, bearer: string, sid: Uuid, user: seq<ChatMessage>, planOnly: bool)
    | Advance(c: nat, move: Move)

  // ---- Guards ---------------------------------------------------------------------------------

  /** The bearer and scope guards in front of every AI route. */
  predicate Authorized(s: State, bearer: string) {
    match Lookup(s.tokens, bearer, s.nowMs)
    case Ok(record) => AiProviderCall in record.scopes
    case Err(_) => false
  }

  function Uses(turn: ProviderTurn): seq<ContentBlock> {
    ToolUses(turn.message.content)
  }

  /** The chat is part-way through the tool uses of a turn. */
  predicate UseLeft(chat: Chat, turn: ProviderTurn, results: seq<ContentBlock>) {
    chat.session.Some? && |results| < |Uses(turn)|
  }

  /** The tool use whose result comes next. */
  function CurrentUse(turn: ProviderTurn, results: seq<ContentBlock>): ContentBlock
    requires |results| < |Uses(turn)|
    ensures CurrentUse(turn, results).ToolUse?
  {
    Uses(turn)[|results|]
  }

  predicate MoveEnabled(chat: Chat, move: Move) {
    var phase := chat.phase;
    match move
    case Get => phase.Admitted?
    case StoreUser => phase.Found?
    case Snapshot => phase.Stored?
    case Provider(_) => phase.Ready?
    case Record => phase.Recording? && chat.session.Some?
    case PassGate => phase.Dispatching? && UseLeft(chat, phase.turn, phase.results)
    case Answer(_) => phase.Asking? && UseLeft(chat, phase.turn, phase.results)
    case RunIt(_) =>
      && phase.Passed? && UseLeft(chat, phase.turn, phase.results)
      && Find(CurrentUse(phase.turn, phase.results).name).Some?
    case StoreResults => phase.Dispatching? && |phase.results| == |Uses(phase.turn)|
    case Cancel => !phase.Finished?
  }

  /** Whether the step can happen in `s`: the request is at that point and new names are new. */
  predicate Enabled(s: State, step: Step) {
    match step
    case Tick(_) => true
    case DoHandshake(token, _, _, _) => token !in s.tokens
    case OpenSession(bearer, sid, _, _) => Authorized(s, bearer) && sid !in s.sessions
    case AskWindow(bearer, request, _) => Authorized(s, bearer) && request.sid in s.sessions
    case OpenWindow(i, wid) => i < |s.approvals| && wid !in s.windows
    case Admit(c, bearer, _, _, _) => Authorized(s, bearer) && c !in s.chats
    case Advance(c, move) => c in s.chats && MoveEnabled(s.chats[c], move)
  }

  // ---- Effects of everything but a chat ---------------------------------------------------------

  function HandshakeStep(cfg: Config, s: State, token: string, requested: seq<Scope>, rawRoots: seq<string>,
                         approved: bool): State
  {
    match Handshake(cfg.fs, requested, rawRoots, approved)
    case Err(_) => s
    case Ok((scopes, roots)) => s.(tokens := s.tokens[token := NewRecord(scopes, roots, s.nowMs)])
  }

  function OpenSessionStep(s: State, bearer: string, sid: Uuid, provider: string, model: string): State
    requires bearer in s.tokens
  {
    var record := s.tokens[bearer];
    s.(sessions := s.sessions[sid := NewSession(sid, provider, model, Grant(record.scopes), record.fsRoots, s.nowMs)],
       authors := s.authors[sid := []],
       openers := s.openers[sid := bearer])
  }

  function AskWindowStep(s: State, request: WindowRequest, approved: bool): State {
    s.(approvals := if approved then s.approvals + [request] else s.approvals,
       log := s.log + [WindowDialog(request, approved)])
  }

  function OpenWindowStep(s: State, i: nat, wid: Uuid): State
    requires i < |s.approvals|
  {
    var r := s.approvals[i];
    s.(approvals := s.approvals[..i] + s.approvals[i + 1..],
       windows := s.windows[wid := TrustWindows.NewWindow(wid, r.sid, r.tools, r.secs, s.nowMs)],
       log := s.log + [WindowOpened(wid, r, s.nowMs)])
  }

  /** The over-budget check is the first thing a chat does; nothing later repeats it. */
  ghost function NewChat(cfg: Config, s: State, bearer: string, sid: Uuid, user: seq<ChatMessage>,
                         planOnly: bool): Chat
  {
    Chat(bearer, sid, user, planOnly, None, [], None, 0, 0,
         if Cost.Over(s.rows, cfg.cap) then Finished(Failed(AiBudgetExceeded)) else Admitted)
  }

  // ---- Effects of one chat's moves --------------------------------------------------------------

  /** What one critical section does to the shared stores. */
  datatype Effect =
    | Quiet
    // `append_messages` on the chat's session; `origin` is that of the first message
    | Say(messages: seq<ChatMessage>, origin: Origin)
    | Spend(entry: Cost.CostEntry)        // the ledger row update
    | Note(event: Event)                  // something the user saw, or a tool that ran

  /** A move: the request's own next state and its effect on the shared stores. */
  datatype Moved = Moved(chat: Chat, effect: Effect)

  function Stop(chat: Chat, outcome: Outcome): Moved {
    Moved(chat.(phase := Finished(outcome)), Quiet)
  }

  const EMPTY_REPLY: ChatMessage := ChatMessage(Assistant, None, [])

  function GetMove(cfg: Config, s: State, chat: Chat): Moved {
    if chat.sid !in s.sessions then Stop(chat, Failed(AiSessionNotFound))
    else if s.sessions[chat.sid].provider !in cfg.providers then Stop(chat, Failed(AiProviderUnconfigured))
    else Moved(chat.(session := Some(s.sessions[chat.sid]), phase := Found), Quiet)
  }

  function StoreUserMove(s: State, chat: Chat): Moved {
    if chat.sid !in s.sessions then Stop(chat, Failed(AiSessionNotFound))
    else Moved(chat.(phase := Stored), Say(chat.user, FromUser(0)))
  }

  function SnapshotMove(s: State, chat: Chat): Moved {
    if chat.sid !in s.sessions then Stop(chat, Failed(AiSessionNotFound))
    else
      var messages := s.sessions[chat.sid].messages;
      Moved(chat.(history := messages, mark := Some(|messages|), phase := Ready), Quiet)
  }

  function ProviderMove(s: State, chat: Chat, answer: Result<ProviderTurn, ProviderError>): Moved {
    match answer
    case Err(Unconfigured) => Stop(chat, Failed(AiProviderUnconfigured))
    case Err(_) => Stop(chat, Failed(AiProviderUpstream))
    case Ok(turn) =>
      if chat.sid !in s.sessions then Stop(chat, Failed(AiSessionNotFound))
      else
        Moved(chat.(history := chat.history + [turn.message], turns := chat.turns + 1, phase := Recording(turn)),
              Say([turn.message], FromTurn(chat.turns + 1)))
  }

  function EntryFor(session: Session, turn: ProviderTurn, nowMs: nat): Cost.CostEntry {
    Cost.CostEntry(nowMs, session.provider, session.model, turn.usage.input, turn.usage.output,
                   Cost.CostFor(session.provider, session.model, turn.usage))
  }

  function RecordMove(s: State, chat: Chat): Moved
    requires chat.phase.Recording? && chat.session.Some?
  {
    var turn := chat.phase.turn;
    var phase := if Uses(turn) == [] then Finished(Replied(Reply(turn.message, turn.stop, turn.usage)))
                 else Dispatching(turn, []);
    Moved(chat.(records := chat.records + 1, phase := phase), Spend(EntryFor(chat.session.value, turn, s.nowMs)))
  }

  function PassGateMove(s: State, chat: Chat): Moved
    requires chat.phase.Dispatching? && UseLeft(chat, chat.phase.turn, chat.phase.results)
  {
    var turn, results := chat.phase.turn, chat.phase.results;
    var use := CurrentUse(turn, results);
    var covered := TrustWindows.Covered(s.windows, chat.session.value.id, use.name, s.nowMs);
    var phase := (match GateOf(chat.session.value.granted, chat.planOnly, use.name, covered)
                  case Refused(err) => Dispatching(turn, results + [ResultBlock(use.id, Err(err), Auto)])
                  case NeedsDialog => Asking(turn, results)
                  case Cleared(via) => Passed(turn, results, via, s.nowMs));
    Moved(chat.(phase := phase), Quiet)
  }

  function AnswerMove(s: State, c: nat, chat: Chat, approved: bool): Moved
    requires chat.phase.Asking? && UseLeft(chat, chat.phase.turn, chat.phase.results)
  {
    var turn, results := chat.phase.turn, chat.phase.results;
    var use := CurrentUse(turn, results);
    var phase := if approved then Passed(turn, results, Dialog, s.nowMs)
                 else Dispatching(turn, results + [ResultBlock(use.id, Err(AiConsentDenied), Auto)]);
    Moved(chat.(phase := phase), Note(CallDialog(c, chat.turns, |results|, chat.session.value.id, use.name, approved)))
  }

  /** The file a tool reads, if its tool reads files and the read succeeds. */
  function FileOf(cfg: Config, session: Session, use: ContentBlock): Option<ReadOk>
    requires use.ToolUse? && Find(use.name).Some?
  {
    if !Find(use.name).value.requiredScope.FsRead? then None
    else
      match FileRead(cfg.fs, session.fsRoots, use.input)
      case Ok(r) => Some(r)
      case Err(_) => None
  }

  function RunItMove(cfg: Config, c: nat, chat: Chat, worker: Result<Value, ApiError>): Moved
    requires chat.phase.Passed? && UseLeft(chat, chat.phase.turn, chat.phase.results)
    requires Find(CurrentUse(chat.phase.turn, chat.phase.results).name).Some?
  {
    var turn, results, via := chat.phase.turn, chat.phase.results, chat.phase.via;
    var use, session := CurrentUse(turn, results), chat.session.value;
    var out := RunTool(cfg.fs, session.fsRoots, Find(use.name).value, use.input, worker);
    var event := Ran(c, chat.turns, |results|, session.id, use.name, chat.planOnly, via, chat.phase.gateMs,
                     FileOf(cfg, session, use));
    Moved(chat.(phase := Dispatching(turn, results + [ResultBlock(use.id, out, via)])), Note(event))
  }

  function StoreResultsMove(s: State, chat: Chat): Moved
    requires chat.phase.Dispatching?
  {
    var turn, message := chat.phase.turn, ChatMessage(Tool, None, chat.phase.results);
    if chat.sid !in s.sessions then Stop(chat, Failed(AiSessionNotFound))
    else
      var phase := if chat.turns == MAX_TURNS then Finished(Replied(Reply(EMPTY_REPLY, turn.stop, turn.usage)))
                   else Ready;
      Moved(chat.(history := chat.history + [message], phase := phase), Say([message], FromTools(chat.turns)))
  }

  function MoveOf(cfg: Config, s: State, c: nat, chat: Chat, move: Move): Moved
    requires MoveEnabled(chat, move)
  {
    match move
    case Get => GetMove(cfg, s, chat)
    case StoreUser => StoreUserMove(s, chat)
    case Snapshot => SnapshotMove(s, chat)
    case Provider(answer) => ProviderMove(s, chat, answer)
    case Record => RecordMove(s, chat)
    case PassGate => PassGateMove(s, chat)
    case Answer(approved) => AnswerMove(s, c, chat, approved)
    case RunIt(worker) => RunItMove(cfg, c, chat, worker)
    case StoreResults => StoreResultsMove(s, chat)
    case Cancel => Stop(chat, Dropped)
  }

  function Authors(s: State, sid: Uuid): seq<Signature> {
    if sid in s.authors then s.authors[sid] else []
  }

  function SessionsWith(sessions: Store, sid: Uuid, effect: Effect): Store {
    if effect.Say? && sid in sessions then Extended(sessions, sid, effect.messages) else sessions
  }

  function Later(origin: Origin, k: nat): Origin {
    if origin.FromUser? then FromUser(origin.index + k) else origin
  }

  function Signatures(c: nat, origin: Origin, n: nat): seq<Signature> {
    seq(n, k requires 0 <= k < n => Signature(c, Later(origin, k)))
  }

  /** Appended messages are signed with the chat that appended them and where it had them from. */
  function AuthorsWith(s: State, c: nat, sid: Uuid, effect: Effect): map<Uuid, seq<Signature>> {
    if effect.Say? && sid in s.sessions then
      s.authors[sid := Authors(s, sid) + Signatures(c, effect.origin, |effect.messages|)]
    else s.authors
  }

  function RowsWith(rows: Cost.Rows, effect: Effect): Cost.Rows {
    if effect.Spend? then Cost.RecordRow(rows, effect.entry) else rows
  }

  function LogWith(log: seq<Event>, effect: Effect): seq<Event> {
    if effect.Note? then log + [effect.event] else log
  }

  /** The state after a move of chat `c`. */
  function Commit(s: State, c: nat, m: Moved): State {
    State(s.nowMs, s.tokens, SessionsWith(s.sessions, m.chat.sid, m.effect), s.windows, RowsWith(s.rows, m.effect),
          s.chats[c := m.chat], s.approvals, AuthorsWith(s, c, m.chat.sid, m.effect), s.openers,
          LogWith(s.log, m.effect))
  }

  // ---- Runs -----------------------------------------------------------------------------------

  /** Everything but a chat's move. */
  ghost function OtherStep(cfg: Config, s: State, step: Step): State
    requires Enabled(s, step) && !step.Advance?
  {
    match step
    case Tick(ms) => s.(nowMs := s.nowMs + ms)
    case DoHandshake(token, requested, rawRoots, approved) =>
      HandshakeStep(cfg, s, token, requested, rawRoots, approved)
    case OpenSession(bearer, sid, provider, model) => OpenSessionStep(s, bearer, sid, provider, model)
    case AskWindow(_, request, approved) => AskWindowStep(s, request, approved)
    case OpenWindow(i, wid) => OpenWindowStep(s, i, wid)
    case Admit(c, bearer, sid, user, planOnly) =>
      s.(chats := s.chats[c := NewChat(cfg, s, bearer, sid, user, planOnly)])
  }

  ghost function Apply(cfg: Config, s: State, step: Step): State
    requires Enabled(s, step)
  {
    if step.Advance? then Commit(s, step.c, MoveOf(cfg, s, step.c, s.chats[step.c], step.move))
    else OtherStep(cfg, s, step)
  }

  /** The state after a run, if every step of it was enabled. */
  ghost function After(cfg: Config, steps: seq<Step>): Option<State> {
    if steps == [] then Some(INIT)
    else
      match After(cfg, steps[..|steps| - 1])
      case None => None
      case Some(s) =>
        var step := steps[|steps| - 1];
        if Enabled(s, step) then Some(Apply(cfg, s, step)) else None
  }

  ghost predicate Reachable(cfg: Config, s: State) {
    exists steps :: After(cfg, steps) == Some(s)
  }

  lemma OneStepFurther(cfg: Config, s: State, step: Step)
    requires Reachable(cfg, s) && Enabled(s, step)
    ensures Reachable(cfg, Apply(cfg, s, step))
  {
    var steps :| After(cfg, steps) == Some(s);
    assert (steps + [step])[..|steps + [step]| - 1] == steps;
    assert After(cfg, steps + [step]) == Some(Apply(cfg, s, step));
  }

  /** Only chats spend, and only admissions and moves change chats. */
  lemma OtherStepsKeepChats(cfg: Config, s: State, step: Step)
    requires Enabled(s, step) && !step.Advance? && !step.Admit?
    ensures var t := OtherStep(cfg, s, step);
      && t.chats == s.chats && t.rows == s.rows
      && (!step.OpenSession? ==> t.sessions == s.sessions && t.authors == s.authors)
  {
  }
}
