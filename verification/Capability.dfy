/** The capability chain handshake, token, session, tool, path: nothing along it gains rights. */
module Capability {
  import opened Wrappers
  import opened Types
  import opened FsRead
  import opened Auth
  import opened Tools
  import opened Sessions
  import opened Dispatch
  import opened WorkerApi
  import opened Engine
  import TrustWindows

  /** A token carries roots exactly if it carries a file-system scope. */
  predicate TokenInv(record: TokenRecord) {
    record.fsRoots != [] <==> WantsFs(record.scopes)
  }

  /** A session's rights are exactly what its opening token and the registry give. */
  ghost predicate SessionInv(s: State, sid: Uuid)
    requires sid in s.sessions
  {
    && sid in s.openers && s.openers[sid] in s.tokens
    && var record := s.tokens[s.openers[sid]];
    && s.sessions[sid].id == sid
    && s.sessions[sid].granted == Grant(record.scopes)
    && s.sessions[sid].fsRoots == record.fsRoots
  }

  /** A chat dispatches with its session's rights, and what passed the gates is within them. */
  ghost predicate ChatRights(s: State, chat: Chat) {
    && (chat.session.Some? ==>
          && chat.sid in s.sessions
          && chat.session.value.id == chat.sid
          && chat.session.value.granted == s.sessions[chat.sid].granted
          && chat.session.value.fsRoots == s.sessions[chat.sid].fsRoots)
    && match chat.phase
       case Asking(turn, results) =>
         UseLeft(chat, turn, results) && MayUse(chat.session.value, CurrentUse(turn, results).name)
       case Passed(turn, results, _, _) =>
         UseLeft(chat, turn, results) && MayUse(chat.session.value, CurrentUse(turn, results).name)
       case _ => true
  }

  predicate MayUse(session: Session, tool: string) {
    Find(tool).Some? && Find(tool).value.requiredScope in session.granted
  }

  /** What ran was within the rights of the token that opened the session. */
  ghost predicate RanWithin(cfg: Config, s: State, e: Event) {
    e.Ran? ==>
      && e.sid in s.openers && s.openers[e.sid] in s.tokens
      && var record := s.tokens[s.openers[e.sid]];
      && Find(e.tool).Some? && Find(e.tool).value.requiredScope in record.scopes
      && (e.file.Some? ==> WithinRoots(cfg, record.fsRoots, e.file.value))
  }

  /** The bytes are a whole file of at most 10 MiB that lies, component by component, under a root. */
  ghost predicate WithinRoots(cfg: Config, roots: seq<Path>, r: ReadOk) {
    && UnderAny(r.canonical, roots)
    && r.canonical in cfg.fs.nodes && cfg.fs.nodes[r.canonical] == File(r.bytes)
    && |r.bytes| <= FS_READ_MAX_BYTES
  }

  ghost predicate RightsInv(cfg: Config, s: State) {
    && (forall t :: t in s.tokens ==> TokenInv(s.tokens[t]))
    && (forall sid :: sid in s.openers <==> sid in s.sessions)
    && (forall sid :: sid in s.sessions ==> SessionInv(s, sid))
    && (forall c :: c in s.chats ==> ChatRights(s, s.chats[c]))
    && (forall i :: 0 <= i < |s.log| ==> RanWithin(cfg, s, s.log[i]))
  }

  // ---- Rights only get added at handshakes --------------------------------------------------------

  /** `t` keeps every token, session and opener of `s`, sessions up to their messages. */
  ghost predicate Keeps(s: State, t: State) {
    && (forall k :: k in s.tokens ==> k in t.tokens && t.tokens[k] == s.tokens[k])
    && (forall k :: k in s.openers ==> k in t.openers && t.openers[k] == s.openers[k])
    && (forall k :: k in s.sessions ==>
        k in t.sessions && t.sessions[k] == s.sessions[k].(messages := t.sessions[k].messages))
  }

  lemma SessionKept(s: State, t: State, sid: Uuid)
    requires Keeps(s, t) && sid in s.sessions && SessionInv(s, sid)
    ensures SessionInv(t, sid)
  {
  }

  lemma ChatKept(s: State, t: State, chat: Chat)
    requires Keeps(s, t) && ChatRights(s, chat)
    ensures ChatRights(t, chat)
  {
  }

  lemma RanKept(cfg: Config, s: State, t: State, e: Event)
    requires Keeps(s, t) && RanWithin(cfg, s, e)
    ensures RanWithin(cfg, t, e)
  {
  }

  /** Growing the stores keeps all rights, given that what is new is right. */
  lemma RightsKept(cfg: Config, s: State, t: State)
    requires RightsInv(cfg, s) && Keeps(s, t) && s.log <= t.log
    requires forall k :: k in t.tokens && k !in s.tokens ==> TokenInv(t.tokens[k])
    requires forall k :: k in t.openers <==> k in t.sessions
    requires forall k :: k in t.sessions && k !in s.sessions ==> SessionInv(t, k)
    requires forall c :: c in t.chats && !(c in s.chats && t.chats[c] == s.chats[c]) ==> ChatRights(t, t.chats[c])
    requires forall i :: |s.log| <= i < |t.log| ==> RanWithin(cfg, t, t.log[i])
    ensures RightsInv(cfg, t)
  {
    forall sid | sid in t.sessions ensures SessionInv(t, sid) {
      if sid in s.sessions { SessionKept(s, t, sid); }
    }
    forall c | c in t.chats ensures ChatRights(t, t.chats[c]) {
      if c in s.chats && t.chats[c] == s.chats[c] { ChatKept(s, t, s.chats[c]); }
    }
    forall i | 0 <= i < |t.log| ensures RanWithin(cfg, t, t.log[i]) {
      if i < |s.log| {
        assert t.log[i] == s.log[i];
        RanKept(cfg, s, t, s.log[i]);
      }
    }
  }

  // ---- Moves --------------------------------------------------------------------------------------

  lemma PassGateWithinRights(s: State, chat: Chat)
    requires ChatRights(s, chat) && chat.phase.Dispatching? && UseLeft(chat, chat.phase.turn, chat.phase.results)
    ensures ChatRights(s, PassGateMove(s, chat).chat)
  {
    var use := CurrentUse(chat.phase.turn, chat.phase.results);
    GateIff(chat.session.value.granted, chat.planOnly, use.name,
            TrustWindows.Covered(s.windows, chat.session.value.id, use.name, s.nowMs));
  }

  lemma MoveWithinRights(cfg: Config, s: State, c: nat, chat: Chat, move: Move)
    requires ChatRights(s, chat) && MoveEnabled(chat, move)
    requires forall k :: k in s.sessions ==> s.sessions[k].id == k
    ensures ChatRights(s, MoveOf(cfg, s, c, chat, move).chat)
  {
    if move.PassGate? {
      PassGateWithinRights(s, chat);
    }
  }

  /** A tool that runs does so within the opener's rights. */
  lemma RunWithinRights(cfg: Config, s: State, c: nat, chat: Chat, worker: Result<Value, ApiError>)
    requires ChatRights(s, chat) && chat.sid in s.sessions && SessionInv(s, chat.sid)
    requires chat.phase.Passed? && UseLeft(chat, chat.phase.turn, chat.phase.results)
    requires Find(CurrentUse(chat.phase.turn, chat.phase.results).name).Some?
    ensures RanWithin(cfg, s, RunItMove(cfg, c, chat, worker).effect.event)
  {
    var use, session := CurrentUse(chat.phase.turn, chat.phase.results), chat.session.value;
    GrantIsIntersection(s.tokens[s.openers[chat.sid]].scopes);
    var file := FileOf(cfg, session, use);
    if file.Some? {
      ReadIffConfined(cfg.fs, StrField(use.input, "path").value, session.fsRoots);
    }
  }

  lemma AnswerRunsNothing(cfg: Config, s: State, c: nat, chat: Chat, move: Move)
    requires MoveEnabled(chat, move) && !move.RunIt?
    ensures var e := MoveOf(cfg, s, c, chat, move).effect; e.Note? ==> !e.event.Ran?
  {
  }

  lemma CommitKeeps(s: State, c: nat, m: Moved)
    ensures Keeps(s, Commit(s, c, m)) && s.log <= Commit(s, c, m).log
    ensures Commit(s, c, m).sessions.Keys == s.sessions.Keys
  {
  }

  lemma CommitWithinRights(cfg: Config, s: State, c: nat, m: Moved)
    requires RightsInv(cfg, s) && c in s.chats && ChatRights(s, m.chat)
    requires m.effect.Note? ==> RanWithin(cfg, s, m.effect.event)
    ensures RightsInv(cfg, Commit(s, c, m))
  {
    var t := Commit(s, c, m);
    CommitKeeps(s, c, m);
    ChatKept(s, t, m.chat);
    if m.effect.Note? {
      RanKept(cfg, s, t, m.effect.event);
    }
    RightsKept(cfg, s, t);
  }

  lemma MoveKeepsRights(cfg: Config, s: State, c: nat, move: Move)
    requires RightsInv(cfg, s) && c in s.chats && MoveEnabled(s.chats[c], move)
    ensures RightsInv(cfg, Commit(s, c, MoveOf(cfg, s, c, s.chats[c], move)))
  {
    var chat := s.chats[c];
    assert forall k :: k in s.sessions ==> SessionInv(s, k);
    MoveWithinRights(cfg, s, c, chat, move);
    if move.RunIt? {
      RunWithinRights(cfg, s, c, chat, move.worker);
    } else {
      AnswerRunsNothing(cfg, s, c, chat, move);
    }
    CommitWithinRights(cfg, s, c, MoveOf(cfg, s, c, chat, move));
  }

  // ---- Other steps --------------------------------------------------------------------------------

  lemma HandshakeKeepsRights(cfg: Config, s: State, token: string, requested: seq<Scope>, rawRoots: seq<string>,
                             approved: bool)
    requires RightsInv(cfg, s) && token !in s.tokens
    ensures RightsInv(cfg, HandshakeStep(cfg, s, token, requested, rawRoots, approved))
  {
    if Handshake(cfg.fs, requested, rawRoots, approved).Ok? {
      RootsIffFsScope(cfg.fs, requested, rawRoots, approved);
      RightsKept(cfg, s, HandshakeStep(cfg, s, token, requested, rawRoots, approved));
    }
  }

  lemma OpenSessionKeepsRights(cfg: Config, s: State, bearer: string, sid: Uuid, provider: string, model: string)
    requires RightsInv(cfg, s) && bearer in s.tokens && sid !in s.sessions
    ensures RightsInv(cfg, OpenSessionStep(s, bearer, sid, provider, model))
  {
    var t := OpenSessionStep(s, bearer, sid, provider, model);
    assert SessionInv(t, sid);
    RightsKept(cfg, s, t);
  }

  lemma OtherStepsKeepRights(cfg: Config, s: State, step: Step)
    requires Enabled(s, step) && !step.Advance? && RightsInv(cfg, s)
    ensures RightsInv(cfg, OtherStep(cfg, s, step))
  {
    if step.DoHandshake? {
      HandshakeKeepsRights(cfg, s, step.token, step.requested, step.rawRoots, step.approved);
    } else if step.OpenSession? {
      OpenSessionKeepsRights(cfg, s, step.bearer, step.sid, step.provider, step.model);
    } else if step.Admit? {
      AdmitKeepsRights(cfg, s, step.c, NewChat(cfg, s, step.bearer, step.sid, step.user, step.planOnly),
                       OtherStep(cfg, s, step));
    } else {
      AsideKeepsRights(cfg, s, OtherStep(cfg, s, step));
    }
  }

  lemma AdmitKeepsRights(cfg: Config, s: State, c: nat, chat: Chat, t: State)
    requires RightsInv(cfg, s) && chat.session.None? && (chat.phase.Admitted? || chat.phase.Finished?)
    requires t == s.(chats := s.chats[c := chat])
    ensures RightsInv(cfg, t)
  {
    RightsKept(cfg, s, t);
  }

  /** Time, dialogs and windows carry no rights. */
  lemma AsideKeepsRights(cfg: Config, s: State, t: State)
    requires RightsInv(cfg, s) && t.tokens == s.tokens && t.sessions == s.sessions && t.openers == s.openers
      && t.chats == s.chats
    requires s.log <= t.log && forall i :: |s.log| <= i < |t.log| ==> !t.log[i].Ran?
    ensures RightsInv(cfg, t)
  {
    RightsKept(cfg, s, t);
  }

  lemma StepKeepsRights(cfg: Config, s: State, step: Step)
    requires Enabled(s, step) && RightsInv(cfg, s)
    ensures RightsInv(cfg, Apply(cfg, s, step))
  {
    if step.Advance? {
      MoveKeepsRights(cfg, s, step.c, step.move);
    } else {
      OtherStepsKeepRights(cfg, s, step);
    }
  }

  /** In every reachable state: a token has roots if and only if it has a file-system scope; a
      session's scopes are the duplicate-free intersection of its opening token's scopes with the
      registry; every tool that ran was registered and its scope held by that token; and every
      file it returned lies under that token's roots. */
  lemma {:induction false} NoEscalation(cfg: Config, steps: seq<Step>)
    requires After(cfg, steps).Some?
    ensures RightsInv(cfg, After(cfg, steps).value)
  {
    if steps != [] {
      NoEscalation(cfg, steps[..|steps| - 1]);
      StepKeepsRights(cfg, After(cfg, steps[..|steps| - 1]).value, steps[|steps| - 1]);
    }
  }

  /** The same for one event, spelled out. */
  lemma ToolRanWithinOpenersRights(cfg: Config, steps: seq<Step>, i: nat)
    requires After(cfg, steps).Some?
    ensures var s := After(cfg, steps).value;
      i < |s.log| && s.log[i].Ran? ==>
        var e := s.log[i];
        && e.sid in s.openers && s.openers[e.sid] in s.tokens
        && Find(e.tool).Some? && Find(e.tool).value.requiredScope in s.tokens[s.openers[e.sid]].scopes
        && (e.file.Some? ==>
              && UnderAny(e.file.value.canonical, s.tokens[s.openers[e.sid]].fsRoots)
              && e.file.value.canonical in cfg.fs.nodes
              && cfg.fs.nodes[e.file.value.canonical] == File(e.file.value.bytes))
  {
    NoEscalation(cfg, steps);
    var s := After(cfg, steps).value;
    if i < |s.log| {
      assert RanWithin(cfg, s, s.log[i]);
    }
  }

  /** A session never changes what it was opened with, over any continuation of the run. */
  lemma {:induction false} SessionRightsAreFixed(cfg: Config, steps: seq<Step>, more: seq<Step>, sid: Uuid)
    requires After(cfg, steps).Some? && After(cfg, steps + more).Some?
    requires sid in After(cfg, steps).value.sessions
    ensures var s, t := After(cfg, steps).value, After(cfg, steps + more).value;
      && sid in t.sessions
      && t.sessions[sid].granted == s.sessions[sid].granted && t.sessions[sid].fsRoots == s.sessions[sid].fsRoots
      && s.sessions[sid].messages <= t.sessions[sid].messages
  {
    if more == [] {
      assert steps + more == steps;
    } else {
      var all := steps + more;
      assert all[..|all| - 1] == steps + more[..|more| - 1];
      SessionRightsAreFixed(cfg, steps, more[..|more| - 1], sid);
      StepKeepsSession(cfg, After(cfg, all[..|all| - 1]).value, all[|all| - 1], sid);
    }
  }

  lemma StepKeepsSession(cfg: Config, s: State, step: Step, sid: Uuid)
    requires Enabled(s, step) && sid in s.sessions
    ensures var t := Apply(cfg, s, step);
      && sid in t.sessions
      && t.sessions[sid].granted == s.sessions[sid].granted && t.sessions[sid].fsRoots == s.sessions[sid].fsRoots
      && s.sessions[sid].messages <= t.sessions[sid].messages
  {
    if step.Advance? {
      CommitKeepsSession(s, step.c, MoveOf(cfg, s, step.c, s.chats[step.c], step.move), sid);
    } else if !step.Admit? {
      OtherStepsKeepChats(cfg, s, step);
    }
  }

  lemma CommitKeepsSession(s: State, c: nat, m: Moved, sid: Uuid)
    requires sid in s.sessions
    ensures var t := Commit(s, c, m);
      && sid in t.sessions
      && t.sessions[sid].granted == s.sessions[sid].granted && t.sessions[sid].fsRoots == s.sessions[sid].fsRoots
      && s.sessions[sid].messages <= t.sessions[sid].messages
  {
  }

  /** A chat is tied to its session, not to the token that called it: once admitted, nothing it
      does depends on the caller. Its rights are the opener's. */
  lemma CallerDoesNotMatter(cfg: Config, s: State, c: nat, chat: Chat, move: Move, other: string)
    requires MoveEnabled(chat, move)
    ensures MoveEnabled(chat.(caller := other), move)
    ensures var m, n := MoveOf(cfg, s, c, chat, move), MoveOf(cfg, s, c, chat.(caller := other), move);
      n.effect == m.effect && n.chat == m.chat.(caller := other)
  {
  }
}
