/** The handlers themselves, on the real stores: handshake, session, trust window and `ai_chat`
    with its bounded tool-use loop.

    Each method is a handler's code, run while the other requests are at rest; time may pass while
    it waits. `state` is the engine state it goes through: every call that touches a store is one
    step of the machine of `Engine`, and `Valid` says that the stores are those of a state the
    machine reaches, so what is proved about every run of the machine holds of this code. */
module Routes {
  import opened Wrappers
  import opened Types
  import opened FsRead
  import opened Auth
  import opened Sessions
  import opened Tools
  import opened Dispatch
  import opened WorkerApi
  import opened Engine
  import opened Play
  import Cost
  import TrustWindows

  /** `t` is `s` with the transcript of one session put to `history`. */
  predicate OnlyTranscript(t: Store, s: Store, sid: Uuid, history: seq<ChatMessage>) {
    && sid in s && sid in t && t - {sid} == s - {sid}
    && t[sid] == s[sid].(messages := history)
  }

  function Ended(r: Result<Reply, ApiError>): Outcome {
    match r
    case Ok(reply) => Replied(reply)
    case Err(e) => Failed(e)
  }

  class AppState {
    const cfg: Config
    const tokens: TokenStore
    const sessions: SessionStore
    const cost: Cost.CostLedger
    const windows: TrustWindows.TrustWindowStore
    var clockMs: nat
    ghost var state: State

    constructor (cfg: Config)
      ensures Valid() && this.cfg == cfg && state == INIT
      ensures fresh(tokens) && fresh(sessions) && fresh(cost) && fresh(windows)
    {
      this.cfg := cfg;
      tokens := new TokenStore();
      sessions := new SessionStore();
      cost := new Cost.CostLedger(cfg.cap);
      windows := new TrustWindows.TrustWindowStore();
      clockMs, state := 0, INIT;
      new;
      assert After(cfg, []) == Some(INIT);
    }

    /** The stores are what a reachable engine state says they are. */
    ghost predicate Valid()
      reads this, tokens, sessions, cost, windows
    {
      && Reachable(cfg, state)
      && clockMs == state.nowMs
      && tokens.inner == state.tokens && sessions.inner == state.sessions && windows.inner == state.windows
      && cost.today == state.rows && cost.cap == cfg.cap
      && forall k :: k in state.sessions ==> state.sessions[k].id == k
    }

    // ---- The other routes -----------------------------------------------------------------------

    /** `handshake`. `token` is a fresh random value; `approved` is the user's answer. */
    method Handshake(token: string, requested: seq<Scope>, rawRoots: seq<string>, approved: bool)
      returns (r: Result<(seq<Scope>, seq<Path>), ApiError>)
      requires Valid() && token !in tokens.inner
      modifies this`state, tokens
      ensures Valid() && r == Auth.Handshake(cfg.fs, requested, rawRoots, approved)
      ensures tokens.inner == if r.Ok? then old(tokens.inner)[token := NewRecord(r.value.0, r.value.1, clockMs)]
        else old(tokens.inner)
      ensures r.Ok? ==> r.value.0 == requested && tokens.inner[token].scopes == requested
      ensures Untouched(old(state)) && state.chats == old(state).chats && state.log == old(state).log
      ensures state.sessions == old(state).sessions
    {
      var step := DoHandshake(token, requested, rawRoots, approved);
      OneStepFurther(cfg, state, step);
      state := Apply(cfg, state, step);
      var roots := [];
      if WantsFs(requested) {
        roots := CanonicalizeRoots(cfg.fs, rawRoots);
        if roots == [] {
          return Err(BadRequest);
        }
      }
      if requested != [] && !approved {
        return Err(ConsentDenied);
      }
      var record := tokens.Issue(token, requested, roots, clockMs);
      return Ok((requested, roots));
    }

    /** `ai_open_session`. `sid` is a fresh random identifier. */
    method OpenSession(bearer: string, sid: Uuid, provider: string, model: string) returns (session: Session)
      requires Valid() && Authorized(state, bearer) && sid !in state.sessions
      modifies this`state, sessions
      ensures Valid() && bearer in tokens.inner
      ensures session
        == NewSession(sid, provider, model, Grant(tokens.inner[bearer].scopes), tokens.inner[bearer].fsRoots, clockMs)
      ensures sessions.inner == old(sessions.inner)[sid := session] && tokens.inner == old(tokens.inner)
      ensures Untouched(old(state)) && state.chats == old(state).chats && state.log == old(state).log
    {
      var step := Step.OpenSession(bearer, sid, provider, model);
      OneStepFurther(cfg, state, step);
      state := Apply(cfg, state, step);
      var record := tokens.inner[bearer];
      var granted := Held(BUILTIN_TOOLS, record.scopes);
      granted := SortByRank(granted);
      granted := Dedup(granted);
      session := sessions.Open(sid, provider, model, granted, record.fsRoots, clockMs);
    }

    /** The user's yes becomes a window. */
    ghost method TakeWindow(request: WindowRequest, wid: Uuid, before: seq<WindowRequest>)
      requires Reachable(cfg, state) && state.approvals == before + [request] && wid !in state.windows
      modifies this`state
      ensures Reachable(cfg, state) && old(state).nowMs == state.nowMs
      ensures state == old(state).(approvals := state.approvals, windows := state.windows, log := state.log)
      ensures state.approvals == before
      ensures state.windows
        == old(state).windows[wid := TrustWindows.NewWindow(wid, request.sid, request.tools, request.secs, state.nowMs)]
      ensures state.log == old(state).log + [WindowOpened(wid, request, state.nowMs)]
    {
      var n := |before|;
      OneStepFurther(cfg, state, OpenWindow(n, wid));
      assert state.approvals[..n] + state.approvals[n + 1..] == before;
      state := Apply(cfg, state, OpenWindow(n, wid));
    }

    /** `ai_open_trust_window`. The user takes `dialogMs` to answer; `wid` is fresh. */
    method OpenTrustWindow(bearer: string, request: WindowRequest, approved: bool, dialogMs: nat, wid: Uuid)
      returns (r: Result<TrustWindows.Window, ApiError>)
      requires Valid() && Authorized(state, bearer) && wid !in state.windows
      modifies this`state, this`clockMs, windows
      ensures Valid()
      ensures r == if request.sid !in old(sessions.inner) then Err(AiSessionNotFound)
        else if !approved then Err(AiConsentDenied)
        else Ok(TrustWindows.NewWindow(wid, request.sid, request.tools, request.secs, clockMs))
      ensures windows.inner == if r.Ok? then old(windows.inner)[wid := r.value] else old(windows.inner)
      ensures clockMs == old(clockMs) + (if request.sid in old(sessions.inner) then dialogMs else 0)
      ensures state.log == old(state).log
        + (if request.sid in old(sessions.inner) then [WindowDialog(request, approved)] else [])
        + (if r.Ok? then [WindowOpened(wid, request, clockMs)] else [])
      ensures state.approvals == old(state).approvals && state.chats == old(state).chats
        && state.rows == old(state).rows
    {
      var found := sessions.Get(request.sid);
      if found.Err? {
        return Err(found.error);
      }
      OneStepFurther(cfg, state, AskWindow(bearer, request, approved));
      state := Apply(cfg, state, AskWindow(bearer, request, approved));
      Wait(dialogMs);
      if !approved {
        return Err(AiConsentDenied);
      }
      TakeWindow(request, wid, old(state).approvals);
      var win := windows.Open(wid, request.sid, request.tools, request.secs, clockMs);
      return Ok(win);
    }

    /** What neither handshake nor session nor chat touches. */
    ghost predicate Untouched(s: State)
      reads this
    {
      state.approvals == s.approvals && state.windows == s.windows && state.rows == s.rows && state.nowMs == s.nowMs
    }

    // ---- One chat -------------------------------------------------------------------------------

    ghost method Take(c: nat, move: Move)
      requires Reachable(cfg, state) && c in state.chats && MoveEnabled(state.chats[c], move)
      modifies this`state
      ensures Reachable(cfg, state)
      ensures var m := MoveOf(cfg, old(state), c, old(state.chats[c]), move);
        && state.chats == old(state.chats)[c := m.chat]
        && state.sessions == SessionsWith(old(state.sessions), m.chat.sid, m.effect)
        && state.rows == RowsWith(old(state.rows), m.effect)
      ensures state.tokens == old(state.tokens) && state.windows == old(state.windows)
        && state.nowMs == old(state.nowMs) && state.approvals == old(state.approvals)
      ensures state.log == LogWith(old(state.log), MoveOf(cfg, old(state), c, old(state.chats[c]), move).effect)
    {
      OneStepFurther(cfg, state, Advance(c, move));
      state := Apply(cfg, state, Advance(c, move));
    }

    /** From `s` to `t` chat `c` has come to `phase`, the user has seen and the tools have done `events`,
        and nothing but that was changed. */
    static ghost predicate Moved(s: State, t: State, c: nat, phase: Phase, events: seq<Event>) {
      && c in s.chats && c in t.chats
      && t.chats[c] == s.chats[c].(phase := phase) && t.chats - {c} == s.chats - {c}
      && t.sessions == s.sessions && t.rows == s.rows && t.windows == s.windows
      && t.approvals == s.approvals && t.log == s.log + events
    }

    ghost predicate MovedOnlyTo(s: State, c: nat, phase: Phase, events: seq<Event>)
      reads this
    {
      Moved(s, state, c, phase, events)
    }

    static lemma MovedTwice(s: State, t: State, u: State, c: nat, first: Phase, a: seq<Event>, second: Phase,
                            b: seq<Event>)
      requires Moved(s, t, c, first, a) && Moved(t, u, c, second, b)
      ensures Moved(s, u, c, second, a + b)
    {
      EventsAssoc(s.log, a, b);
    }

    /** Chat `c` is to dispatch `use`, number `index` of turn `turn`, in the setting `g`. */
    ghost predicate AtUse(c: nat, g: Setting, turn: nat, index: nat, use: ContentBlock)
      reads this, windows
    {
      && c in state.chats && Equipped(g, cfg) && g.windows == windows.inner
      && var chat := state.chats[c];
      && (chat.phase.Dispatching? || chat.phase.Asking? || chat.phase.Passed?)
      && UseLeft(chat, chat.phase.turn, chat.phase.results)
      && chat.session == Some(g.session) && chat.planOnly == g.planOnly && chat.turns == turn
      && |chat.phase.results| == index && CurrentUse(chat.phase.turn, chat.phase.results) == use
    }

    static lemma EventsAssoc(log: seq<Event>, a: seq<Event>, b: seq<Event>)
      ensures (log + a) + b == log + (a + b)
    {
    }

    /** The use is answered with an error. */
    static function RefusedPhase(before: Phase, use: ContentBlock, err: ApiError): Phase
      requires (before.Dispatching? || before.Asking?) && use.ToolUse?
    {
      Dispatching(before.turn, before.results + [ResultBlock(use.id, Err(err), Auto)])
    }

    ghost method TakeGate(c: nat, g: Setting, turn: nat, index: nat, use: ContentBlock)
      requires Valid() && AtUse(c, g, turn, index, use) && state.chats[c].phase.Dispatching?
      modifies this`state
      ensures Valid()
      ensures old(state).chats[c].phase.Dispatching?
      ensures var before, gate := old(state).chats[c].phase, GateAt(g, use, clockMs);
        && (gate.Refused? ==> MovedOnlyTo(old(state), c, RefusedPhase(before, use, gate.err), []))
        && (gate.NeedsDialog? ==> MovedOnlyTo(old(state), c, Asking(before.turn, before.results), []))
        && (gate.Cleared? ==> MovedOnlyTo(old(state), c, Passed(before.turn, before.results, gate.via, clockMs), []))
    {
      Take(c, PassGate);
    }

    ghost method TakeAnswer(c: nat, g: Setting, turn: nat, index: nat, use: ContentBlock, ok: bool, since: State)
      requires Valid() && AtUse(c, g, turn, index, use) && state.chats[c].phase.Asking?
      requires MovedOnlyTo(since, c, state.chats[c].phase, [])
      modifies this`state
      ensures Valid()
      ensures old(state).chats[c].phase.Asking?
      ensures var before := old(state).chats[c].phase;
        MovedOnlyTo(since, c,
          if ok then Passed(before.turn, before.results, Dialog, clockMs)
            else RefusedPhase(before, use, AiConsentDenied),
          [CallDialog(c, turn, index, g.session.id, use.name, ok)])
    {
      Take(c, Answer(ok));
    }

    ghost method TakeRun(c: nat, g: Setting, turn: nat, index: nat, use: ContentBlock, spec: ToolSpec,
                         worker: Result<Value, ApiError>, since: State, events: seq<Event>)
      requires Valid() && AtUse(c, g, turn, index, use) && state.chats[c].phase.Passed? && Find(use.name) == Some(spec)
      requires MovedOnlyTo(since, c, state.chats[c].phase, events)
      modifies this`state
      ensures Valid()
      ensures old(state).chats[c].phase.Passed?
      ensures var before := old(state).chats[c].phase;
        MovedOnlyTo(since, c,
          Dispatching(before.turn, before.results +
            [ResultBlock(use.id, RunTool(cfg.fs, g.session.fsRoots, spec, use.input, worker), before.via)]),
          events + [Ran(c, turn, index, g.session.id, use.name, g.planOnly, before.via, before.gateMs,
                        FileOf(cfg, g.session, use))])
    {
      Take(c, RunIt(worker));
      EventsAssoc(since.log, events,
                  [Ran(c, turn, index, g.session.id, use.name, g.planOnly, old(state).chats[c].phase.via,
                       old(state).chats[c].phase.gateMs, FileOf(cfg, g.session, use))]);
    }

    method Wait(ms: nat)
      requires Valid()
      modifies this`clockMs, this`state
      ensures Valid() && clockMs == old(clockMs) + ms
      ensures state == old(state).(nowMs := clockMs)
    {
      OneStepFurther(cfg, state, Tick(ms));
      clockMs, state := clockMs + ms, Apply(cfg, state, Tick(ms));
    }

    /** Registry, session scopes, plan-only and trust window. */
    method PassGates(c: nat, session: Session, planOnly: bool, turn: nat, index: nat, use: ContentBlock,
                     ghost g: Setting)
      returns (gate: Gate)
      requires Valid() && AtUse(c, g, turn, index, use) && state.chats[c].phase.Dispatching?
      requires g.session == session && g.planOnly == planOnly
      modifies this`state
      ensures Valid() && old(state).chats[c].phase.Dispatching? && gate == GateAt(g, use, clockMs)
      ensures var before := old(state).chats[c].phase;
        MovedOnlyTo(old(state), c,
          match gate
          case Refused(err) => RefusedPhase(before, use, err)
          case NeedsDialog => Asking(before.turn, before.results)
          case Cleared(via) => Passed(before.turn, before.results, via, clockMs), [])
    {
      var covered := windows.Covers(session.id, use.name, clockMs);
      gate := GateOf(session.granted, planOnly, use.name, covered);
      TakeGate(c, g, turn, index, use);
    }

    /** The per-call dialog. */
    method AskUser(c: nat, world: World, turn: nat, index: nat, use: ContentBlock, ghost g: Setting, ghost since: State)
      returns (ok: bool)
      requires Valid() && AtUse(c, g, turn, index, use) && state.chats[c].phase.Asking? && g.world == world
      requires MovedOnlyTo(since, c, state.chats[c].phase, [])
      modifies this`state, this`clockMs
      ensures Valid() && old(state).chats[c].phase.Asking?
      ensures ok == world.dialog(turn, index) && clockMs == old(clockMs) + world.dialogMs(turn, index)
      ensures var before := old(state).chats[c].phase;
        MovedOnlyTo(since, c,
          if ok then Passed(before.turn, before.results, Dialog, clockMs)
            else RefusedPhase(before, use, AiConsentDenied),
          [CallDialog(c, turn, index, g.session.id, use.name, ok)])
    {
      Wait(world.dialogMs(turn, index));
      ok := world.dialog(turn, index);
      TakeAnswer(c, g, turn, index, use, ok, since);
    }

    /** The first half of `run_one`: the gates, and the dialog if there is one. */
    method Approve(c: nat, world: World, session: Session, planOnly: bool, turn: nat, index: nat, use: ContentBlock,
                   ghost g: Setting)
      returns (r: Result<ApprovedVia, ApiError>)
      requires Valid() && AtUse(c, g, turn, index, use) && state.chats[c].phase.Dispatching?
      requires g.session == session && g.planOnly == planOnly && g.world == world
      modifies this`state, this`clockMs
      ensures Valid() && old(state).chats[c].phase.Dispatching?
      ensures r == Verdict(g, turn, index, use, old(clockMs)) && clockMs == AfterGate(g, turn, index, use, old(clockMs))
      ensures var before := old(state).chats[c].phase;
        MovedOnlyTo(old(state), c,
          if r.Ok? then Passed(before.turn, before.results, r.value, clockMs) else RefusedPhase(before, use, r.error),
          DialogEvents(g, c, turn, index, use, old(clockMs)))
      ensures r.Ok? ==> Find(use.name).Some?
    {
      VerdictAtGate(g, c, turn, index, use, clockMs);
      var gate := PassGates(c, session, planOnly, turn, index, use, g);
      if gate.Refused? {
        r := Err(gate.err);
      } else if gate.NeedsDialog? {
        var ok := AskUser(c, world, turn, index, use, g, old(state));
        r := if ok then Ok(Dialog) else Err(AiConsentDenied);
      } else {
        r := Ok(gate.via);
      }
    }

    /** `execute_tool_use`: the gates, the dialog if there is one, the tool. */
    method ExecuteToolUse(c: nat, world: World, session: Session, planOnly: bool, turn: nat, index: nat,
                          use: ContentBlock, ghost g: Setting)
      returns (result: ContentBlock)
      requires Valid() && AtUse(c, g, turn, index, use) && state.chats[c].phase.Dispatching?
      requires g.session == session && g.planOnly == planOnly && g.world == world
      modifies this`state, this`clockMs
      ensures Valid() && AnswersUse(result, use)
      ensures result == UseResult(g, turn, index, use, old(clockMs))
      ensures clockMs == AfterGate(g, turn, index, use, old(clockMs))
      ensures old(state).chats[c].phase.Dispatching?
      ensures var before := old(state).chats[c].phase;
        MovedOnlyTo(old(state), c, Dispatching(before.turn, before.results + [result]),
          DialogEvents(g, c, turn, index, use, old(clockMs)) + RunEvents(g, c, turn, index, use, old(clockMs)))
    {
      var approved := Approve(c, world, session, planOnly, turn, index, use, g);
      UseAtVerdict(g, c, turn, index, use, old(clockMs));
      if approved.Err? {
        assert DialogEvents(g, c, turn, index, use, old(clockMs)) + []
            == DialogEvents(g, c, turn, index, use, old(clockMs));
        return ResultBlock(use.id, Err(approved.error), Auto);
      }
      var spec, call := Find(use.name).value, CallOf(use.name, use.input);
      var worker := Err(Internal);
      if call.Some? {
        worker := world.worker(turn, index, call.value);
      }
      assert g.tool(turn, index, use) == ToolOutcome(cfg, session, world, turn, index, use);
      TakeRun(c, g, turn, index, use, spec, worker, old(state), DialogEvents(g, c, turn, index, use, old(clockMs)));
      return ResultBlock(use.id, RunTool(cfg.fs, session.fsRoots, spec, use.input, worker), approved.value);
    }

    /** The tool uses of one turn, in order. */
    method RunTools(c: nat, world: World, session: Session, planOnly: bool, turnNo: nat, turn: ProviderTurn,
                    ghost g: Setting)
      returns (results: seq<ContentBlock>)
      requires Valid() && c in state.chats && Equipped(g, cfg) && g.windows == windows.inner
      requires g.session == session && g.planOnly == planOnly && g.world == world
      requires state.chats[c].session == Some(session) && state.chats[c].planOnly == planOnly
      requires state.chats[c].phase == Dispatching(turn, []) && state.chats[c].turns == turnNo
      modifies this`state, this`clockMs
      ensures Valid() && |results| == |Uses(turn)| && Matches(results, Uses(turn))
      ensures var round := RoundOf(g, c, turnNo, Uses(turn), old(clockMs), |Uses(turn)|);
        && results == round.results && clockMs == round.clockMs
        && MovedOnlyTo(old(state), c, Dispatching(turn, results), round.events)
    {
      results := [];
      var uses := Uses(turn);
      ghost var start := clockMs;
      assert state.log + [] == state.log;
      for i := 0 to |uses|
        invariant Valid() && |results| == i
        invariant RoundOf(g, c, turnNo, uses, start, i).results == results
        invariant RoundOf(g, c, turnNo, uses, start, i).clockMs == clockMs
        invariant MovedOnlyTo(old(state), c, Dispatching(turn, results), RoundOf(g, c, turnNo, uses, start, i).events)
      {
        ghost var before, r := state, RoundOf(g, c, turnNo, uses, start, i);
        OneUseMore(g, c, turnNo, uses, start, i);
        var result := ExecuteToolUse(c, world, session, planOnly, turnNo, i, uses[i], g);
        MovedTwice(old(state), before, state, c, Dispatching(turn, results), r.events,
                   Dispatching(turn, results + [result]),
                   DialogEvents(g, c, turnNo, i, uses[i], r.clockMs) + RunEvents(g, c, turnNo, i, uses[i], r.clockMs));
        results := results + [result];
      }
      RoundMatches(g, c, turnNo, uses, start, |uses|);
    }

    // ---- The loop -------------------------------------------------------------------------------

    /** Since `s`, when chat `c` had its list and no turn yet, the chat has come to `p` and now is `chat`:
        list, transcript, ledger, log and clock are those of `p`, and nothing else has changed. */
    ghost predicate Stands(s: State, c: nat, p: Progress, chat: Chat)
      reads this, cost
    {
      && c in s.chats && c in state.chats
      && state.chats[c] == chat && state.chats - {c} == s.chats - {c}
      && OnlyTranscript(state.sessions, s.sessions, chat.sid, p.history)
      && cost.file == p.file && state.rows == p.rows
      && state.log == s.log + p.events && clockMs == p.clockMs
      && state.windows == s.windows && state.approvals == s.approvals
    }

    static ghost function Changed(chat: Chat, history: seq<ChatMessage>, turns: nat, records: nat, phase: Phase): Chat {
      Chat.Chat(chat.caller, chat.sid, chat.user, chat.planOnly, chat.session, history, chat.mark, turns, records,
                phase)
    }

    /** Between two steps of the loop: `n` turns made and recorded. */
    ghost predicate Between(s: State, c: nat, p: Progress, n: nat, phase: Phase)
      reads this, cost
    {
      c in s.chats && Stands(s, c, p, Changed(s.chats[c], p.history, n, n, phase))
    }

    /** Chat `c` stands before its first turn in the setting `g`. */
    ghost predicate Opens(s: State, c: nat, g: Setting)
      reads this, windows
    {
      && c in s.chats && Equipped(g, cfg) && g.windows == s.windows == windows.inner
      && s.chats[c].session == Some(g.session) && s.chats[c].sid == g.session.id && s.chats[c].planOnly == g.planOnly
    }

    /** The request ended before it touched anything but its own chat. */
    ghost predicate Refused(s: State, c: nat, err: ApiError)
      reads this
    {
      && c in state.chats && state.chats - {c} == s.chats - {c} && state.chats[c].phase == Finished(Failed(err))
      && state.sessions == s.sessions && state.log == s.log && Untouched(s)
    }

    ghost method TakeIn(c: nat, bearer: string, sid: Uuid, user: seq<ChatMessage>, planOnly: bool)
      requires Valid() && c !in state.chats && Authorized(state, bearer)
      modifies this`state
      ensures Valid() && Untouched(old(state)) && state.sessions == old(state).sessions && state.log == old(state).log
      ensures c in state.chats && state.chats - {c} == old(state).chats - {c}
      ensures state.chats[c] == NewChat(cfg, old(state), bearer, sid, user, planOnly)
    {
      OneStepFurther(cfg, state, Admit(c, bearer, sid, user, planOnly));
      state := Apply(cfg, state, Admit(c, bearer, sid, user, planOnly));
    }

    /** Admission, and the clone of the session. */
    method FindSession(c: nat, bearer: string, sid: Uuid, user: seq<ChatMessage>, planOnly: bool)
      returns (r: Result<Session, ApiError>)
      requires Valid() && c !in state.chats && Authorized(state, bearer)
      modifies this`state
      ensures Valid() && r == Admission(cfg, sessions.inner, cost.today, sid)
      ensures r.Err? ==> Refused(old(state), c, r.error)
      ensures r.Ok? ==>
        && c in state.chats && state.chats - {c} == old(state).chats - {c}
        && state.chats[c] == Chat.Chat(bearer, sid, user, planOnly, Some(r.value), [], None, 0, 0, Found)
        && state.log == old(state).log && Untouched(old(state))
    {
      TakeIn(c, bearer, sid, user, planOnly);
      var over := cost.OverBudget();
      if over {
        return Err(AiBudgetExceeded);
      }
      var found := sessions.Get(sid);
      Take(c, Get);
      if found.Err? {
        return found;
      }
      if found.value.provider !in cfg.providers {
        return Err(AiProviderUnconfigured);
      }
      return found;
    }

    /** The user's messages are stored and the whole transcript is read back. */
    method StoreUserMessages(c: nat, session: Session, user: seq<ChatMessage>) returns (history: seq<ChatMessage>)
      requires Valid() && c in state.chats && session.id in state.sessions
      requires var chat := state.chats[c]; chat.phase == Found && chat.sid == session.id && chat.user == user
      modifies this`state, sessions
      ensures Valid() && history == old(sessions.inner)[session.id].messages + user
      ensures OnlyTranscript(state.sessions, old(sessions.inner), session.id, history)
      ensures state.log == old(state).log && Untouched(old(state))
      ensures c in state.chats && state.chats - {c} == old(state).chats - {c}
      ensures state.chats[c] == old(state).chats[c].(history := history, mark := Some(|history|), phase := Ready)
    {
      var stored := sessions.AppendMessages(session.id, user);
      Take(c, StoreUser);
      var again := sessions.Get(session.id);
      Take(c, Snapshot);
      history := again.value.messages;
    }

    /** The provider fails. */
    ghost method TakeFailure(c: nat, e: ProviderError, n: nat, p: Progress, since: State)
      requires Valid() && Between(since, c, p, n, Ready)
      modifies this`state
      ensures Valid() && Between(since, c, p, n, Finished(Failed(Mapped(e))))
    {
      Take(c, Provider(Err(e)));
    }

    /** The provider's turn goes to the list and to the store. */
    method StoreTurn(c: nat, session: Session, turn: ProviderTurn, n: nat, ghost p: Progress, ghost since: State)
      requires Valid() && Between(since, c, p, n, Ready) && since.chats[c].sid == session.id
      modifies this`state, sessions
      ensures Valid()
      ensures var list := p.history + [turn.message];
        Stands(since, c, p.(history := list), Changed(since.chats[c], list, n + 1, n, Recording(turn)))
    {
      var stored := sessions.AppendMessages(session.id, [turn.message]);
      Take(c, Provider(Ok(turn)));
    }

    /** One provider answer; its message is stored. */
    method AskProvider(c: nat, world: World, session: Session, n: nat, history: seq<ChatMessage>,
                       ghost g: Setting, ghost p: Progress, ghost since: State)
      returns (r: Result<ProviderTurn, ApiError>)
      requires Valid() && Between(since, c, p, n, Ready) && Opens(since, c, g)
      requires g.session == session && g.world == world && history == p.history
      modifies this`state, this`clockMs, sessions
      ensures Valid() && r == Heard(world, n + 1, history)
      ensures r.Err? ==> Between(since, c, Lost(g, p, n + 1, r.error), n, Finished(Failed(r.error)))
      ensures r.Ok? ==> var q := Said(g, p, n + 1, r.value);
        Stands(since, c, q, Changed(since.chats[c], q.history, n + 1, n, Recording(r.value)))
    {
      Wait(world.thinkMs(n + 1));
      var answer := world.provider(n + 1, history);
      if answer.Err? {
        TakeFailure(c, answer.error, n, p.(clockMs := clockMs), since);
        return Err(if answer.error.Unconfigured? then AiProviderUnconfigured else AiProviderUpstream);
      }
      StoreTurn(c, session, answer.value, n, p.(clockMs := clockMs), since);
      return Ok(answer.value);
    }

    /** After the record of a turn. */
    static function PaidPhase(turn: ProviderTurn): Phase {
      if Uses(turn) == [] then Finished(Replied(Reply(turn.message, turn.stop, turn.usage))) else Dispatching(turn, [])
    }

    method RecordCost(c: nat, session: Session, turn: ProviderTurn, written: bool, n: nat, ghost g: Setting,
                      ghost p: Progress, ghost since: State)
      requires Valid() && Opens(since, c, g) && g.session == session && g.world.written(n + 1) == written
      requires var q := Said(g, p, n + 1, turn);
        Stands(since, c, q, Changed(since.chats[c], q.history, n + 1, n, Recording(turn)))
      modifies this`state, cost
      ensures Valid() && Between(since, c, Paid(g, p, n + 1, turn), n + 1, PaidPhase(turn))
    {
      var usd := cost.Record(session.provider, session.model, turn.usage, clockMs, written);
      Take(c, Record);
    }

    /** After the tool message of turn `n`. */
    static function AnsweredPhase(turn: ProviderTurn, n: nat): Phase {
      if n == MAX_TURNS then Finished(Replied(Reply(EMPTY_REPLY, turn.stop, turn.usage))) else Ready
    }

    method StoreToolMessage(c: nat, session: Session, turn: ProviderTurn, results: seq<ContentBlock>, n: nat,
                            ghost p: Progress, ghost since: State)
      requires Valid() && |results| == |Uses(turn)| && Between(since, c, p, n, Dispatching(turn, results))
      requires since.chats[c].sid == session.id
      modifies this`state, sessions
      ensures Valid()
      ensures Between(since, c, p.(history := p.history + [ChatMessage(Tool, None, results)]), n,
                      AnsweredPhase(turn, n))
    {
      var stored := sessions.AppendMessages(session.id, [ChatMessage(Tool, None, results)]);
      Take(c, StoreResults);
    }

    /** The first half of round `n + 1` of the loop: the provider's turn, recorded. */
    method TakeTurn(c: nat, world: World, session: Session, n: nat, history: seq<ChatMessage>,
                    ghost g: Setting, ghost p: Progress, ghost since: State)
      returns (r: Result<ProviderTurn, ApiError>)
      requires Valid() && Between(since, c, p, n, Ready) && Opens(since, c, g)
      requires g.session == session && g.world == world && history == p.history
      modifies this`state, this`clockMs, sessions, cost
      ensures Valid() && r == Heard(world, n + 1, history)
      ensures r.Err? ==> Between(since, c, Lost(g, p, n + 1, r.error), n, Finished(Failed(r.error)))
      ensures r.Ok? ==> Between(since, c, Paid(g, p, n + 1, r.value), n + 1, PaidPhase(r.value))
    {
      r := AskProvider(c, world, session, n, history, g, p, since);
      if r.Ok? {
        RecordCost(c, session, r.value, world.written(n + 1), n, g, p, since);
      }
    }

    /** The second half: its tool uses, answered. */
    method AnswerTurn(c: nat, world: World, session: Session, planOnly: bool, n: nat, turn: ProviderTurn,
                      ghost g: Setting, ghost p: Progress, ghost since: State)
      returns (message: ChatMessage)
      requires Valid() && Between(since, c, p, n, Dispatching(turn, [])) && Opens(since, c, g)
      requires g.session == session && g.planOnly == planOnly && g.world == world
      modifies this`state, this`clockMs, sessions
      ensures Valid() && Between(since, c, Answered(g, c, p, n, turn), n, AnsweredPhase(turn, n))
      ensures Answered(g, c, p, n, turn).history == p.history + [message]
      ensures message.role == Tool && |message.content| == |Uses(turn)| && Matches(message.content, Uses(turn))
    {
      var results := RunTools(c, world, session, planOnly, n, turn, g);
      ghost var round := RoundOf(g, c, n, Uses(turn), p.clockMs, |Uses(turn)|);
      EventsAssoc(since.log, p.events, round.events);
      message := ChatMessage(Tool, None, results);
      StoreToolMessage(c, session, turn, results, n,
                       Progress(p.history, p.file, p.rows, p.events + round.events, round.clockMs, None), since);
    }

    static function PhaseAt(answer: Option<Result<Reply, ApiError>>): Phase {
      match answer
      case None => Ready
      case Some(r) => Finished(Ended(r))
    }

    static lemma TwoMore(list: seq<ChatMessage>, a: ChatMessage, b: ChatMessage)
      ensures (list + [a]) + [b] == list + [a, b]
    {
    }

    /** Round `n` of the loop; `more` is what it adds to the list. */
    method TakeRound(c: nat, world: World, session: Session, planOnly: bool, n: nat,
                     history: seq<ChatMessage>, ghost g: Setting, ghost p: Progress, ghost since: State)
      returns (asked: Result<ProviderTurn, ApiError>, more: seq<ChatMessage>)
      requires n > 0 && Valid() && Between(since, c, p, n - 1, Ready) && Opens(since, c, g)
      requires g.session == session && g.planOnly == planOnly && g.world == world && history == p.history
      modifies this`state, this`clockMs, sessions, cost
      ensures Valid() && asked == Heard(world, n, history) && TurnFrom(g, c, p, n).history == p.history + more
      ensures var q := TurnFrom(g, c, p, n);
        Between(since, c, q, if asked.Ok? then n else n - 1, PhaseAt(q.answer))
    {
      asked := TakeTurn(c, world, session, n - 1, history, g, p, since);
      if asked.Err? {
        TurnFails(g, c, p, n);
        return asked, [];
      }
      var turn := asked.value;
      if Uses(turn) == [] {
        TurnAsksNothing(g, c, p, n, turn);
        return asked, [turn.message];
      }
      ghost var paid := Paid(g, p, n, turn);
      var answer := AnswerTurn(c, world, session, planOnly, n, turn, g, paid, since);
      TurnAsks(g, c, p, n, turn);
      TwoMore(p.history, turn.message, answer);
      return asked, [turn.message, answer];
    }

    /** What the chat has to say once turn `n` is answered. */
    static function AnswerAfter(asked: Result<ProviderTurn, ApiError>, n: nat): Option<Result<Reply, ApiError>> {
      match asked
      case Err(e) => Some(Err(e))
      case Ok(turn) =>
        if Uses(turn) == [] then Some(Ok(Reply(turn.message, turn.stop, turn.usage)))
        else if n == MAX_TURNS then Some(Ok(Reply(EMPTY_REPLY, turn.stop, turn.usage)))
        else None
    }

    /** Round `n`, on the way to `goal`. */
    method NextRound(c: nat, world: World, session: Session, planOnly: bool, n: nat,
                     history: seq<ChatMessage>, ghost g: Setting, ghost p: Progress, ghost since: State,
                     ghost goal: Progress)
      returns (asked: Result<ProviderTurn, ApiError>, more: seq<ChatMessage>, ghost q: Progress)
      requires 1 <= n <= MAX_TURNS && HeadsFor(g, c, p, n, goal) && p.answer.None?
      requires Valid() && Between(since, c, p, n - 1, PhaseAt(p.answer)) && Opens(since, c, g)
      requires g.session == session && g.planOnly == planOnly && g.world == world && history == p.history
      modifies this`state, this`clockMs, sessions, cost
      ensures Valid() && q.history == p.history + more && q.answer == AnswerAfter(asked, n)
      ensures Between(since, c, q, if asked.Ok? then n else n - 1, PhaseAt(q.answer))
      ensures if q.answer.Some? then q == goal else HeadsFor(g, c, q, n + 1, goal)
    {
      asked, more := TakeRound(c, world, session, planOnly, n, history, g, p, since);
      q := TurnFrom(g, c, p, n);
      AnswerOfTurn(g, c, p, n);
      OneTurnOn(g, c, p, n, goal);
    }

    /** The bounded loop. */
    method Converse(c: nat, world: World, session: Session, planOnly: bool, stored: seq<ChatMessage>,
                    ghost g: Setting, ghost start: Progress, ghost goal: Progress)
      returns (r: Result<Reply, ApiError>, ghost n: nat)
      requires Valid() && Between(state, c, start, 0, Ready) && Opens(state, c, g)
      requires start.history == stored && start.answer.None? && HeadsFor(g, c, start, 1, goal)
      requires g.session == session && g.planOnly == planOnly && g.world == world
      modifies this`state, this`clockMs, sessions, cost
      ensures Valid() && goal.answer == Some(r) && Between(old(state), c, goal, n, Finished(Ended(r)))
    {
      var history := stored;
      var message, stop, usage := EMPTY_REPLY, EndTurn, Cost.Usage(0, 0);
      ghost var p := start;
      n := 0;
      for i := 0 to MAX_TURNS
        invariant Valid() && message == EMPTY_REPLY && history == p.history && n == i
        invariant Between(old(state), c, p, i, PhaseAt(p.answer))
        invariant if i == MAX_TURNS then p == goal && p.answer == Some(Ok(Reply(EMPTY_REPLY, stop, usage)))
          else p.answer.None? && HeadsFor(g, c, p, i + 1, goal)
      {
        var asked, more;
        asked, more, p := NextRound(c, world, session, planOnly, i + 1, history, g, p, old(state), goal);
        if asked.Err? {
          return Err(asked.error), i;
        }
        var turn := asked.value;
        history := history + more;
        n, stop, usage := i + 1, turn.stop, turn.usage;
        if Uses(turn) == [] {
          message := turn.message;
          break;
        }
      }
      return Ok(Reply(message, stop, usage)), n;
    }

    /** `ai_chat`. `c` is the request's own number. */
    method RunChat(c: nat, bearer: string, sid: Uuid, user: seq<ChatMessage>, planOnly: bool, world: World)
      returns (r: Result<Reply, ApiError>)
      requires Valid() && c !in state.chats && Authorized(state, bearer)
      modifies this`state, this`clockMs, sessions, cost
      ensures Valid()
      ensures var found := Admission(cfg, old(sessions.inner), old(cost.today), sid);
        && (found.Err? ==> r == Err(found.error) && Refused(old(state), c, found.error) && cost.file == old(cost.file))
        && (found.Ok? ==>
              var g := Setup(cfg, windows.inner, found.value, planOnly, world);
              var q := PlayFrom(g, c, Start(found.value, user, old(cost.file), old(cost.today), old(clockMs)), 1);
              && q.answer == Some(r) && PlayedOut(old(state), c, sid, q))
    {
      var found := FindSession(c, bearer, sid, user, planOnly);
      if found.Err? {
        return Err(found.error);
      }
      var session := found.value;
      ghost var g := Setup(cfg, windows.inner, session, planOnly, world);
      SetupIsEquipped(cfg, windows.inner, session, planOnly, world);
      ghost var start := Start(session, user, cost.file, cost.today, clockMs);
      var history := StoreUserMessages(c, session, user);
      ghost var ready, n := state, 0;
      r, n := Converse(c, world, session, planOnly, history, g, start, PlayFrom(g, c, start, 1));
      Ends(old(state), ready, c, sid, PlayFrom(g, c, start, 1), n);
    }

    lemma Ends(s: State, ready: State, c: nat, sid: Uuid, q: Progress, n: nat)
      requires q.answer.Some? && Between(ready, c, q, n, Finished(Ended(q.answer.value)))
      requires ready.chats[c].sid == sid && ready.chats - {c} == s.chats - {c} && ready.log == s.log
      requires ready.windows == s.windows && ready.approvals == s.approvals
      requires exists history :: OnlyTranscript(ready.sessions, s.sessions, sid, history)
      ensures PlayedOut(s, c, sid, q)
    {
    }

    /** Chat `c` has come to `q` and ended; other chats, other sessions and the windows are as in `s`. */
    ghost predicate PlayedOut(s: State, c: nat, sid: Uuid, q: Progress)
      reads this, cost
    {
      && c in state.chats && state.chats - {c} == s.chats - {c}
      && q.answer.Some? && state.chats[c].phase == Finished(Ended(q.answer.value))
      && OnlyTranscript(state.sessions, s.sessions, sid, q.history)
      && cost.file == q.file && state.rows == q.rows
      && state.log == s.log + q.events && clockMs == q.clockMs
      && state.windows == s.windows && state.approvals == s.approvals
    }
  }
}
