/** A way to use a session that keeps every tool use answered: one chat at a time, none given up in
    the middle of a turn, and request bodies that answer the tool uses they hold. */
module Orderly {
  import opened Wrappers
  import opened Types
  import opened Engine
  import opened Provenance
  import Consent
  import Transcript

  /** A request body answers its own tool uses. */
  predicate BodyClosed(user: seq<ChatMessage>) {
    forall r :: 0 <= r < |user| && ToolUses(user[r].content) != [] ==> BodyAnswers(user, r)
  }

  /** Between a turn and its tool message. */
  predicate InTurn(chat: Chat) {
    chat.phase.Recording? || chat.phase.Dispatching? || chat.phase.Asking? || chat.phase.Passed?
  }

  /** What the clients of session `sid` can see to: a chat is only asked for when all earlier ones on
      the session are finished, its body is closed, and nobody hangs up in the middle of a turn. */
  ghost predicate OrderlyStep(s: State, step: Step, sid: Uuid) {
    match step
    case Admit(_, _, on, user, _) =>
      on == sid ==> BodyClosed(user) && forall d :: d in s.chats && s.chats[d].sid == sid ==> s.chats[d].phase.Finished?
    case Advance(c, move) => move.Cancel? && c in s.chats && s.chats[c].sid == sid ==> !InTurn(s.chats[c])
    case _ => true
  }

  ghost predicate OrderlyRun(cfg: Config, steps: seq<Step>, sid: Uuid) {
    steps != [] ==>
      && OrderlyRun(cfg, steps[..|steps| - 1], sid)
      && (After(cfg, steps[..|steps| - 1]).Some? ==>
            OrderlyStep(After(cfg, steps[..|steps| - 1]).value, steps[|steps| - 1], sid))
  }

  // ---- The invariant ------------------------------------------------------------------------------

  /** Every tool use among the first `n` messages but `n - 1` is answered, that one too if `all`. */
  predicate Closed(messages: seq<ChatMessage>, authors: seq<Signature>, n: nat, all: bool)
    requires n <= |messages| == |authors|
  {
    forall i :: 0 <= i < n && ToolUses(messages[i].content) != [] && (all || i < n - 1) ==>
      AnsweredWithin(messages, authors, n, i)
  }

  predicate Busy(s: State, sid: Uuid, c: nat) {
    c in s.chats && s.chats[c].sid == sid && !s.chats[c].phase.Finished?
  }

  ghost predicate OneAtATime(s: State, sid: Uuid) {
    forall c, d :: Busy(s, sid, c) && Busy(s, sid, d) ==> c == d
  }

  /** The stored transcript, given what chat `c` is doing. */
  ghost predicate StoreClosed(s: State, sid: Uuid)
    requires sid in s.sessions
  {
    var messages, authors := s.sessions[sid].messages, Authors(s, sid);
    && |authors| == |messages|
    && (forall c :: c in s.chats && s.chats[c].sid == sid && InTurn(s.chats[c]) ==>
          && messages != [] && authors[|authors| - 1] == Signature(c, FromTurn(s.chats[c].turns))
          && messages[|messages| - 1] == s.chats[c].phase.turn.message)
    && Closed(messages, authors, |messages|,
              forall c :: c in s.chats && s.chats[c].sid == sid ==> !InTurn(s.chats[c]))
  }

  ghost predicate ClonesClosed(s: State, sid: Uuid)
    requires sid in s.sessions
  {
    forall c :: c in s.chats && s.chats[c].sid == sid && s.chats[c].mark.Some? ==>
      && s.chats[c].mark.value <= |s.sessions[sid].messages| == |Authors(s, sid)|
      && Closed(s.sessions[sid].messages, Authors(s, sid), s.chats[c].mark.value, true)
  }

  ghost predicate OrderInv(s: State, sid: Uuid) {
    && OneAtATime(s, sid)
    && (forall c :: c in s.chats && s.chats[c].sid == sid ==> BodyClosed(s.chats[c].user))
    && (sid in s.sessions ==> StoreClosed(s, sid) && ClonesClosed(s, sid))
    && (sid !in s.sessions ==>
          forall c :: c in s.chats && s.chats[c].sid == sid ==> !InTurn(s.chats[c]) && s.chats[c].mark.None?)
  }

  // ---- Lists --------------------------------------------------------------------------------------

  lemma ClosedGrows(messages: seq<ChatMessage>, authors: seq<Signature>, more: seq<ChatMessage>, signed: seq<Signature>,
                    n: nat, all: bool)
    requires n <= |messages| == |authors| && |more| == |signed| && Closed(messages, authors, n, all)
    ensures Closed(messages + more, authors + signed, n, all)
  {
    forall i | 0 <= i < n && ToolUses((messages + more)[i].content) != [] && (all || i < n - 1)
      ensures AnsweredWithin(messages + more, authors + signed, n, i)
    {
      assert AnsweredWithin(messages, authors, n, i);
    }
  }

  lemma BodyAppended(messages: seq<ChatMessage>, authors: seq<Signature>, user: seq<ChatMessage>, c: nat)
    requires |messages| == |authors| && Closed(messages, authors, |messages|, true) && BodyClosed(user)
    ensures Closed(messages + user, authors + Signatures(c, FromUser(0), |user|), |messages + user|, true)
  {
    var all, sigs, n := messages + user, authors + Signatures(c, FromUser(0), |user|), |messages|;
    forall i | 0 <= i < |all| && ToolUses(all[i].content) != [] ensures AnsweredWithin(all, sigs, |all|, i) {
      if i < n {
        assert AnsweredWithin(messages, authors, n, i);
      } else {
        assert BodyAnswers(user, i - n);
        assert all[i + 1] == user[i - n + 1];
      }
    }
  }

  lemma TurnAppended(messages: seq<ChatMessage>, authors: seq<Signature>, m: ChatMessage, sig: Signature)
    requires |messages| == |authors| && Closed(messages, authors, |messages|, true)
    ensures Closed(messages + [m], authors + [sig], |messages| + 1, false)
    ensures ToolUses(m.content) == [] ==> Closed(messages + [m], authors + [sig], |messages| + 1, true)
  {
    forall i | 0 <= i < |messages| && ToolUses((messages + [m])[i].content) != []
      ensures AnsweredWithin(messages + [m], authors + [sig], |messages| + 1, i)
    {
      assert AnsweredWithin(messages, authors, |messages|, i);
    }
  }

  lemma ToolsAppended(messages: seq<ChatMessage>, authors: seq<Signature>, m: ChatMessage, c: nat, t: nat)
    requires |messages| == |authors| && messages != [] && Closed(messages, authors, |messages|, false)
    requires authors[|authors| - 1] == Signature(c, FromTurn(t)) && Transcript.Answers(m, messages[|messages| - 1])
    ensures Closed(messages + [m], authors + [Signature(c, FromTools(t))], |messages| + 1, true)
  {
    var n, all, sigs := |messages|, messages + [m], authors + [Signature(c, FromTools(t))];
    ToolMessagesUseNothing(m, messages[n - 1]);
    forall i | 0 <= i < n + 1 && ToolUses(all[i].content) != [] ensures AnsweredWithin(all, sigs, n + 1, i) {
      if i < n - 1 {
        assert AnsweredWithin(messages, authors, n, i);
      }
    }
  }

  // ---- Every orderly step keeps it ----------------------------------------------------------------

  /** The session and its chats are the same in both states. */
  ghost predicate SameSession(s: State, t: State, sid: Uuid) {
    && (sid in t.sessions <==> sid in s.sessions)
    && (sid in s.sessions ==> t.sessions[sid] == s.sessions[sid] && Authors(t, sid) == Authors(s, sid))
    && (forall d :: d in s.chats && s.chats[d].sid == sid ==> d in t.chats && t.chats[d] == s.chats[d])
    && (forall d :: d in t.chats && t.chats[d].sid == sid ==> d in s.chats && t.chats[d] == s.chats[d])
  }

  lemma SameSessionSameOrder(s: State, t: State, sid: Uuid)
    requires OrderInv(s, sid) && SameSession(s, t, sid)
    ensures OrderInv(t, sid)
  {
    assert forall d :: Busy(t, sid, d) ==> Busy(s, sid, d);
    if sid in s.sessions {
      assert StoreClosed(s, sid) && ClonesClosed(s, sid);
      assert (forall c :: c in t.chats && t.chats[c].sid == sid ==> !InTurn(t.chats[c]))
        <==> (forall c :: c in s.chats && s.chats[c].sid == sid ==> !InTurn(s.chats[c]));
    }
  }

  /** A move of a chat on another session. */
  lemma ElsewhereKeepsOrder(s: State, c: nat, m: Moved, sid: Uuid)
    requires OrderInv(s, sid) && c in s.chats && s.chats[c].sid != sid && m.chat.sid == s.chats[c].sid
    ensures OrderInv(Commit(s, c, m), sid)
  {
    assert SameSession(s, Commit(s, c, m), sid);
    SameSessionSameOrder(s, Commit(s, c, m), sid);
  }

  /** What the transcript of its session is after a move of chat `c`. */
  function MessagesAfter(s: State, m: Moved): seq<ChatMessage>
    requires m.chat.sid in s.sessions
  {
    s.sessions[m.chat.sid].messages + (if m.effect.Say? then m.effect.messages else [])
  }

  function AuthorsAfter(s: State, c: nat, m: Moved): seq<Signature> {
    Authors(s, m.chat.sid) + (if m.effect.Say? then Signatures(c, m.effect.origin, |m.effect.messages|) else [])
  }

  /** What a move of the only busy chat must bring about. */
  ghost predicate Leaves(s: State, c: nat, m: Moved)
    requires m.chat.sid in s.sessions && c in s.chats
  {
    var messages, authors := MessagesAfter(s, m), AuthorsAfter(s, c, m);
    && |messages| == |authors|
    && (InTurn(m.chat) ==>
          && messages != [] && authors[|authors| - 1] == Signature(c, FromTurn(m.chat.turns))
          && messages[|messages| - 1] == m.chat.phase.turn.message)
    && Closed(messages, authors, |messages|, !InTurn(m.chat))
    && (m.chat.mark == s.chats[c].mark
        || (m.chat.mark == Some(|messages|) && Closed(messages, authors, |messages|, true)))
  }

  lemma CommittedLists(s: State, c: nat, m: Moved)
    requires m.chat.sid in s.sessions
    ensures var t := Commit(s, c, m);
      && m.chat.sid in t.sessions
      && t.sessions[m.chat.sid].messages == MessagesAfter(s, m) && Authors(t, m.chat.sid) == AuthorsAfter(s, c, m)
  {
  }

  lemma OthersAreDone(s: State, sid: Uuid, c: nat)
    requires OneAtATime(s, sid) && Busy(s, sid, c)
    ensures forall d :: d in s.chats && s.chats[d].sid == sid && d != c ==> s.chats[d].phase.Finished?
  {
    forall d | d in s.chats && s.chats[d].sid == sid && d != c ensures s.chats[d].phase.Finished? {
      assert !Busy(s, sid, d);
    }
  }

  lemma StoreStaysClosed(s: State, c: nat, m: Moved, sid: Uuid)
    requires OrderInv(s, sid) && Busy(s, sid, c) && sid in s.sessions && m.chat.sid == sid && Leaves(s, c, m)
    ensures StoreClosed(Commit(s, c, m), sid)
  {
    var t := Commit(s, c, m);
    CommittedLists(s, c, m);
    OthersAreDone(s, sid, c);
    assert forall d :: d in t.chats && t.chats[d].sid == sid && d != c ==> !InTurn(t.chats[d]);
    assert t.chats[c] == m.chat;
  }

  lemma ClonesStayClosed(s: State, c: nat, m: Moved, sid: Uuid)
    requires OrderInv(s, sid) && Busy(s, sid, c) && sid in s.sessions && m.chat.sid == sid && Leaves(s, c, m)
    ensures ClonesClosed(Commit(s, c, m), sid)
  {
    var t := Commit(s, c, m);
    CommittedLists(s, c, m);
    forall d | d in t.chats && t.chats[d].sid == sid && t.chats[d].mark.Some?
      ensures t.chats[d].mark.value <= |t.sessions[sid].messages| == |Authors(t, sid)|
        && Closed(t.sessions[sid].messages, Authors(t, sid), t.chats[d].mark.value, true)
    {
      if d != c || m.chat.mark == s.chats[c].mark {
        assert t.chats[d].mark == s.chats[d].mark;
        ClosedGrows(s.sessions[sid].messages, Authors(s, sid), if m.effect.Say? then m.effect.messages else [],
                    if m.effect.Say? then Signatures(c, m.effect.origin, |m.effect.messages|) else [],
                    t.chats[d].mark.value, true);
      }
    }
  }

  lemma SoleMoveKeepsOrder(s: State, c: nat, m: Moved, sid: Uuid)
    requires OrderInv(s, sid) && Busy(s, sid, c) && sid in s.sessions
    requires m.chat.sid == sid && m.chat.user == s.chats[c].user && Leaves(s, c, m)
    ensures OrderInv(Commit(s, c, m), sid)
  {
    StoreStaysClosed(s, c, m, sid);
    ClonesStayClosed(s, c, m, sid);
    assert forall d :: Busy(Commit(s, c, m), sid, d) ==> Busy(s, sid, d);
  }

  /** A chat on a session that does not exist gets nowhere. */
  lemma NowhereKeepsOrder(cfg: Config, s: State, c: nat, move: Move, sid: Uuid)
    requires OrderInv(s, sid) && c in s.chats && s.chats[c].sid == sid && sid !in s.sessions
    requires Sane(s, c) && MoveEnabled(s.chats[c], move)
    ensures OrderInv(Commit(s, c, MoveOf(cfg, s, c, s.chats[c], move)), sid)
  {
    var m := MoveOf(cfg, s, c, s.chats[c], move);
    assert !InTurn(m.chat) && m.chat.mark.None? && m.chat.sid == sid && m.chat.user == s.chats[c].user;
    assert forall d :: Busy(Commit(s, c, m), sid, d) ==> Busy(s, sid, d);
  }

  // ---- What each move leaves ----------------------------------------------------------------------

  lemma UserLeaves(s: State, c: nat, sid: Uuid)
    requires OrderInv(s, sid) && Busy(s, sid, c) && sid in s.sessions && s.chats[c].phase.Found?
    ensures Leaves(s, c, StoreUserMove(s, s.chats[c]))
  {
    OthersAreDone(s, sid, c);
    BodyAppended(s.sessions[sid].messages, Authors(s, sid), s.chats[c].user, c);
  }

  lemma TurnLeaves(s: State, c: nat, sid: Uuid, turn: ProviderTurn)
    requires OrderInv(s, sid) && Busy(s, sid, c) && sid in s.sessions && s.chats[c].phase.Ready?
    ensures Leaves(s, c, ProviderMove(s, s.chats[c], Ok(turn)))
  {
    var sig := Signature(c, FromTurn(s.chats[c].turns + 1));
    OthersAreDone(s, sid, c);
    assert Signatures(c, FromTurn(s.chats[c].turns + 1), 1) == [sig];
    TurnAppended(s.sessions[sid].messages, Authors(s, sid), turn.message, sig);
  }

  lemma FailureLeaves(s: State, c: nat, sid: Uuid, err: ProviderError)
    requires OrderInv(s, sid) && Busy(s, sid, c) && sid in s.sessions && s.chats[c].phase.Ready?
    ensures Leaves(s, c, ProviderMove(s, s.chats[c], Err(err)))
  {
    var messages, authors := s.sessions[sid].messages, Authors(s, sid);
    OthersAreDone(s, sid, c);
    assert messages + [] == messages && authors + [] == authors;
  }

  lemma ToolsLeave(s: State, c: nat, sid: Uuid)
    requires OrderInv(s, sid) && Busy(s, sid, c) && sid in s.sessions && Sane(s, c)
    requires s.chats[c].phase.Dispatching? && |s.chats[c].phase.results| == |Uses(s.chats[c].phase.turn)|
    ensures Leaves(s, c, StoreResultsMove(s, s.chats[c]))
  {
    var chat := s.chats[c];
    assert Transcript.MidTurn(Transcript.OwnPart(chat), chat.turns, chat.phase.turn, chat.phase.results);
    assert Signatures(c, FromTools(chat.turns), 1) == [Signature(c, FromTools(chat.turns))];
    ToolsAppended(s.sessions[sid].messages, Authors(s, sid), ChatMessage(Tool, None, chat.phase.results), c,
                  chat.turns);
  }

  /** A turn that asks for no tool leaves nothing open. */
  lemma LastUsesNothing(messages: seq<ChatMessage>, authors: seq<Signature>)
    requires |messages| == |authors| && messages != [] && Closed(messages, authors, |messages|, false)
    requires ToolUses(messages[|messages| - 1].content) == []
    ensures Closed(messages, authors, |messages|, true)
  {
  }

  lemma RecordLeaves(s: State, c: nat, sid: Uuid)
    requires OrderInv(s, sid) && Busy(s, sid, c) && sid in s.sessions
    requires s.chats[c].phase.Recording? && s.chats[c].session.Some?
    ensures Leaves(s, c, RecordMove(s, s.chats[c]))
  {
    var messages, authors := s.sessions[sid].messages, Authors(s, sid);
    OthersAreDone(s, sid, c);
    assert messages + [] == messages && authors + [] == authors;
    if Uses(s.chats[c].phase.turn) == [] {
      LastUsesNothing(messages, authors);
    }
  }

  /** Moves that neither say anything nor enter or leave a turn. */
  lemma StandingLeaves(cfg: Config, s: State, c: nat, sid: Uuid, move: Move)
    requires OrderInv(s, sid) && Busy(s, sid, c) && sid in s.sessions && MoveEnabled(s.chats[c], move)
    requires move.Get? || move.Snapshot? || move.PassGate? || move.Answer? || move.RunIt? || move.Cancel?
    requires move.Cancel? ==> !InTurn(s.chats[c])
    ensures Leaves(s, c, MoveOf(cfg, s, c, s.chats[c], move))
  {
    var messages, authors, m := s.sessions[sid].messages, Authors(s, sid), MoveOf(cfg, s, c, s.chats[c], move);
    OthersAreDone(s, sid, c);
    assert messages + [] == messages && authors + [] == authors;
    StandsWhereItStood(cfg, s, c, s.chats[c], move);
  }

  lemma StandsWhereItStood(cfg: Config, s: State, c: nat, chat: Chat, move: Move)
    requires MoveEnabled(chat, move) && chat.sid in s.sessions
    requires move.Get? || move.Snapshot? || move.PassGate? || move.Answer? || move.RunIt? || move.Cancel?
    requires move.Cancel? ==> !InTurn(chat)
    ensures var m := MoveOf(cfg, s, c, chat, move);
      && !m.effect.Say? && m.chat.sid == chat.sid && (InTurn(m.chat) <==> InTurn(chat))
      && (InTurn(chat) ==> m.chat.phase.turn == chat.phase.turn && m.chat.turns == chat.turns)
      && (move.Snapshot? ==> m.chat.mark == Some(|s.sessions[chat.sid].messages|))
      && (!move.Snapshot? ==> m.chat.mark == chat.mark)
      && (move.Snapshot? ==> !InTurn(chat))
  {
  }

  lemma MoveLeaves(cfg: Config, s: State, c: nat, sid: Uuid, move: Move)
    requires OrderInv(s, sid) && Busy(s, sid, c) && sid in s.sessions && Sane(s, c) && MoveEnabled(s.chats[c], move)
    requires move.Cancel? ==> !InTurn(s.chats[c])
    ensures Leaves(s, c, MoveOf(cfg, s, c, s.chats[c], move))
  {
    if move.StoreUser? {
      UserLeaves(s, c, sid);
    } else if move.Provider? {
      if move.answer.Ok? {
        TurnLeaves(s, c, sid, move.answer.value);
      } else {
        FailureLeaves(s, c, sid, move.answer.error);
      }
    } else if move.Record? {
      RecordLeaves(s, c, sid);
    } else if move.StoreResults? {
      ToolsLeave(s, c, sid);
    } else {
      StandingLeaves(cfg, s, c, sid, move);
    }
  }

  lemma MoveKeepsOrder(cfg: Config, s: State, c: nat, move: Move, sid: Uuid)
    requires OrderInv(s, sid) && Sane(s, c) && MoveEnabled(s.chats[c], move)
    requires OrderlyStep(s, Advance(c, move), sid)
    ensures OrderInv(Commit(s, c, MoveOf(cfg, s, c, s.chats[c], move)), sid)
  {
    var m := MoveOf(cfg, s, c, s.chats[c], move);
    SameRequest(cfg, s, c, s.chats[c], move);
    if s.chats[c].sid != sid {
      ElsewhereKeepsOrder(s, c, m, sid);
    } else if sid !in s.sessions {
      NowhereKeepsOrder(cfg, s, c, move, sid);
    } else {
      MoveLeaves(cfg, s, c, sid, move);
      SoleMoveKeepsOrder(s, c, m, sid);
    }
  }

  lemma SameRequest(cfg: Config, s: State, c: nat, chat: Chat, move: Move)
    requires MoveEnabled(chat, move)
    ensures var n := MoveOf(cfg, s, c, chat, move).chat;
      n.sid == chat.sid && n.user == chat.user && !chat.phase.Finished?
  {
  }

  /** A new chat on a session where everybody is finished. */
  ghost predicate Comes(s: State, t: State, c: nat, chat: Chat, sid: Uuid) {
    && c !in s.chats && t == s.(chats := s.chats[c := chat])
    && chat.mark.None? && !InTurn(chat) && chat.sid == sid && BodyClosed(chat.user)
    && forall d :: d in s.chats && s.chats[d].sid == sid ==> s.chats[d].phase.Finished?
  }

  lemma NewcomerKeepsStore(s: State, t: State, c: nat, chat: Chat, sid: Uuid)
    requires Comes(s, t, c, chat, sid) && sid in s.sessions && StoreClosed(s, sid)
    ensures StoreClosed(t, sid)
  {
    assert forall d :: d in s.chats ==> t.chats[d] == s.chats[d];
    assert forall d :: d in t.chats && t.chats[d].sid == sid ==> !InTurn(t.chats[d]);
    assert forall d :: d in s.chats && s.chats[d].sid == sid ==> !InTurn(s.chats[d]);
  }

  lemma NewcomerKeepsClones(s: State, t: State, c: nat, chat: Chat, sid: Uuid)
    requires Comes(s, t, c, chat, sid) && sid in s.sessions && ClonesClosed(s, sid)
    ensures ClonesClosed(t, sid)
  {
    assert forall d :: d in s.chats ==> t.chats[d] == s.chats[d];
  }

  lemma NewcomerKeepsOrder(s: State, t: State, c: nat, chat: Chat, sid: Uuid)
    requires OrderInv(s, sid) && Comes(s, t, c, chat, sid)
    ensures OrderInv(t, sid)
  {
    assert forall d :: Busy(t, sid, d) ==> d == c;
    if sid in s.sessions {
      NewcomerKeepsStore(s, t, c, chat, sid);
      NewcomerKeepsClones(s, t, c, chat, sid);
    }
  }

  lemma AdmissionKeepsOrder(s: State, t: State, c: nat, chat: Chat, sid: Uuid)
    requires OrderInv(s, sid) && c !in s.chats && t == s.(chats := s.chats[c := chat])
    requires chat.mark.None? && !InTurn(chat)
    requires chat.sid == sid ==>
      BodyClosed(chat.user) && forall d :: d in s.chats && s.chats[d].sid == sid ==> s.chats[d].phase.Finished?
    ensures OrderInv(t, sid)
  {
    if chat.sid == sid {
      NewcomerKeepsOrder(s, t, c, chat, sid);
    } else {
      assert SameSession(s, t, sid);
      SameSessionSameOrder(s, t, sid);
    }
  }

  lemma OpeningKeepsOrder(s: State, bearer: string, on: Uuid, provider: string, model: string, sid: Uuid)
    requires OrderInv(s, sid) && bearer in s.tokens && on !in s.sessions
    ensures OrderInv(OpenSessionStep(s, bearer, on, provider, model), sid)
  {
    var t := OpenSessionStep(s, bearer, on, provider, model);
    if on == sid {
      assert t.sessions[sid].messages == [] && Authors(t, sid) == [] && t.chats == s.chats;
      assert forall d :: Busy(t, sid, d) ==> Busy(s, sid, d);
    } else {
      assert SameSession(s, t, sid);
      SameSessionSameOrder(s, t, sid);
    }
  }

  lemma OtherStepKeepsOrder(cfg: Config, s: State, step: Step, sid: Uuid)
    requires OrderInv(s, sid) && Enabled(s, step) && OrderlyStep(s, step, sid) && !step.Advance?
    ensures OrderInv(OtherStep(cfg, s, step), sid)
  {
    if step.Admit? {
      AdmissionKeepsOrder(s, OtherStep(cfg, s, step), step.c,
                          NewChat(cfg, s, step.bearer, step.sid, step.user, step.planOnly), sid);
    } else if step.OpenSession? {
      OpeningKeepsOrder(s, step.bearer, step.sid, step.provider, step.model, sid);
    } else {
      OtherStepsKeepChats(cfg, s, step);
      SameSessionSameOrder(s, OtherStep(cfg, s, step), sid);
    }
  }

  lemma StepKeepsOrder(cfg: Config, s: State, step: Step, sid: Uuid)
    requires OrderInv(s, sid) && Enabled(s, step) && OrderlyStep(s, step, sid)
    requires Transcript.StoreInv(s) && Transcript.AllShaped(s) && Consent.ConsentInv(s)
    ensures OrderInv(Apply(cfg, s, step), sid)
  {
    if step.Advance? {
      MoveKeepsOrder(cfg, s, step.c, step.move, sid);
    } else {
      OtherStepKeepsOrder(cfg, s, step, sid);
    }
  }

  lemma {:induction false} OrderHolds(cfg: Config, steps: seq<Step>, sid: Uuid)
    requires After(cfg, steps).Some? && OrderlyRun(cfg, steps, sid)
    ensures OrderInv(After(cfg, steps).value, sid)
  {
    if steps != [] {
      var before := steps[..|steps| - 1];
      OrderHolds(cfg, before, sid);
      Transcript.TranscriptHolds(cfg, before);
      Consent.ConsentHolds(cfg, before);
      StepKeepsOrder(cfg, After(cfg, before).value, steps[|steps| - 1], sid);
    }
  }

  /** In every run that is orderly on a session, every chat on it that is about to ask the provider or
      has its answer has a list in which every message with tool uses is followed by a tool message
      whose results match its ids in order. */
  lemma OrderlyListsAreAnswered(cfg: Config, steps: seq<Step>, sid: Uuid, c: nat)
    requires After(cfg, steps).Some? && OrderlyRun(cfg, steps, sid)
    ensures var s := After(cfg, steps).value;
      c in s.chats && s.chats[c].sid == sid && AtRest(s.chats[c]) ==>
        var history := s.chats[c].history;
        forall i :: 0 <= i < |history| && ToolUses(history[i].content) != [] ==>
          i + 1 < |history| && Transcript.Answers(history[i + 1], history[i])
  {
    OrderHolds(cfg, steps, sid);
    WholeListAnsweredIff(cfg, steps, c);
    SignedHolds(cfg, steps);
    Transcript.TranscriptHolds(cfg, steps);
    var s := After(cfg, steps).value;
    if c in s.chats && s.chats[c].sid == sid && AtRest(s.chats[c]) {
      ClosedCloneIsKept(s, c);
    }
  }

  lemma ClosedCloneIsKept(s: State, c: nat)
    requires SignedInv(s) && c in s.chats && AtRest(s.chats[c]) && OrderInv(s, s.chats[c].sid)
    requires Transcript.ViewInv(s, c)
    ensures CloneKept(s, c)
  {
    var chat := s.chats[c];
    var messages, authors := s.sessions[chat.sid].messages, Authors(s, chat.sid);
    forall i | 0 <= i < chat.mark.value && ToolUses(messages[i].content) != []
      ensures Kept(s.chats, authors, chat.mark.value, i)
    {
      assert AnsweredWithin(messages, authors, chat.mark.value, i);
      AnsweredIffKept(s.chats, s.log, chat.sid, messages, authors, chat.mark.value, i);
    }
  }
}
