/** Where the messages of a stored transcript come from, and what that says about tool uses and
    approval labels in it.

    The store takes what it is given: request bodies may hold tool uses and tool results of any
    kind, chats on one session may interleave, and a client may go away between a tool use and its
    answer. */
module Provenance {
  import opened Wrappers
  import opened Types
  import opened Dispatch
  import opened Engine
  import Budget
  import Consent
  import Transcript

  // ---- One transcript and its signatures ----------------------------------------------------------

  /** What a signature vouches for. */
  ghost predicate Sound(chats: map<nat, Chat>, log: seq<Event>, sid: Uuid, m: ChatMessage, sig: Signature) {
    && sig.chat in chats && chats[sig.chat].sid == sid
    && match sig.origin
       case FromUser(r) => r < |chats[sig.chat].user| && m == chats[sig.chat].user[r]
       case FromTurn(_) => true
       case FromTools(n) =>
         m.role == Tool && ToolUses(m.content) == [] && Consent.AllLabelled(log, sig.chat, n, m.content)
  }

  /** Two neighbours in a transcript: what one chat says in a row, it says in its own order, and a
      tool message behind a turn answers it. */
  predicate Joint(m: ChatMessage, a: Signature, n: ChatMessage, b: Signature) {
    a.chat == b.chat ==>
      match a.origin
      case FromUser(r) => b.origin == FromUser(r + 1) || b.origin == FromTurn(1)
      case FromTurn(t) => b.origin == FromTools(t) && Transcript.Answers(n, m)
      case FromTools(t) => b.origin == FromTurn(t + 1)
  }

  /** A request body is stored in one piece. */
  predicate InOnePiece(chats: map<nat, Chat>, authors: seq<Signature>, i: nat)
    requires i < |authors|
  {
    var sig := authors[i];
    sig.origin.FromUser? && sig.chat in chats && sig.origin.index + 1 < |chats[sig.chat].user| ==>
      i + 1 < |authors| && authors[i + 1] == Signature(sig.chat, FromUser(sig.origin.index + 1))
  }

  ghost predicate AllSound(chats: map<nat, Chat>, log: seq<Event>, sid: Uuid, messages: seq<ChatMessage>,
                           authors: seq<Signature>)
    requires |authors| == |messages|
  {
    forall i :: 0 <= i < |messages| ==> Sound(chats, log, sid, messages[i], authors[i])
  }

  predicate AllInOnePiece(chats: map<nat, Chat>, authors: seq<Signature>) {
    forall i :: 0 <= i < |authors| ==> InOnePiece(chats, authors, i)
  }

  predicate AllJoint(messages: seq<ChatMessage>, authors: seq<Signature>)
    requires |authors| == |messages|
  {
    forall i :: 0 <= i < |messages| - 1 ==> Joint(messages[i], authors[i], messages[i + 1], authors[i + 1])
  }

  ghost predicate WellSigned(chats: map<nat, Chat>, log: seq<Event>, sid: Uuid, messages: seq<ChatMessage>,
                             authors: seq<Signature>)
  {
    && |authors| == |messages|
    && AllSound(chats, log, sid, messages, authors)
    && AllInOnePiece(chats, authors)
    && AllJoint(messages, authors)
  }

  lemma SoundJoined(chats: map<nat, Chat>, log: seq<Event>, sid: Uuid, messages: seq<ChatMessage>,
                    authors: seq<Signature>, more: seq<ChatMessage>, signed: seq<Signature>)
    requires |authors| == |messages| && |signed| == |more|
    requires AllSound(chats, log, sid, messages, authors) && AllSound(chats, log, sid, more, signed)
    ensures AllSound(chats, log, sid, messages + more, authors + signed)
  {
    var n := |messages|;
    forall i | 0 <= i < n + |more| ensures Sound(chats, log, sid, (messages + more)[i], (authors + signed)[i]) {
      if i >= n {
        assert Sound(chats, log, sid, more[i - n], signed[i - n]);
      }
    }
  }

  lemma PiecesJoined(chats: map<nat, Chat>, authors: seq<Signature>, signed: seq<Signature>)
    requires AllInOnePiece(chats, authors) && AllInOnePiece(chats, signed)
    ensures AllInOnePiece(chats, authors + signed)
  {
    var n := |authors|;
    forall i | 0 <= i < n + |signed| ensures InOnePiece(chats, authors + signed, i) {
      if i >= n {
        assert InOnePiece(chats, signed, i - n);
      } else {
        assert InOnePiece(chats, authors, i);
      }
    }
  }

  lemma JointsJoined(messages: seq<ChatMessage>, authors: seq<Signature>, more: seq<ChatMessage>,
                     signed: seq<Signature>)
    requires |authors| == |messages| && |signed| == |more|
    requires AllJoint(messages, authors) && AllJoint(more, signed)
    requires messages != [] && more != [] ==>
      Joint(messages[|messages| - 1], authors[|messages| - 1], more[0], signed[0])
    ensures AllJoint(messages + more, authors + signed)
  {
    var all, sigs, n := messages + more, authors + signed, |messages|;
    forall i | 0 <= i < |all| - 1 ensures Joint(all[i], sigs[i], all[i + 1], sigs[i + 1]) {
      if i >= n {
        assert Joint(more[i - n], signed[i - n], more[i - n + 1], signed[i - n + 1]);
      } else if i < n - 1 {
        assert Joint(messages[i], authors[i], messages[i + 1], authors[i + 1]);
      }
    }
  }

  lemma Joined(chats: map<nat, Chat>, log: seq<Event>, sid: Uuid, messages: seq<ChatMessage>, authors: seq<Signature>,
               more: seq<ChatMessage>, signed: seq<Signature>)
    requires WellSigned(chats, log, sid, messages, authors) && WellSigned(chats, log, sid, more, signed)
    requires messages != [] && more != [] ==>
      Joint(messages[|messages| - 1], authors[|messages| - 1], more[0], signed[0])
    ensures WellSigned(chats, log, sid, messages + more, authors + signed)
  {
    SoundJoined(chats, log, sid, messages, authors, more, signed);
    PiecesJoined(chats, authors, signed);
    JointsJoined(messages, authors, more, signed);
  }

  /** Requests keep their sessions and bodies. */
  ghost predicate SameRequests(before: map<nat, Chat>, after: map<nat, Chat>) {
    forall c :: c in before ==> c in after && after[c].sid == before[c].sid && after[c].user == before[c].user
  }

  lemma StillWellSigned(before: map<nat, Chat>, log: seq<Event>, after: map<nat, Chat>, more: seq<Event>, sid: Uuid,
                        messages: seq<ChatMessage>, authors: seq<Signature>)
    requires WellSigned(before, log, sid, messages, authors) && SameRequests(before, after)
    ensures WellSigned(after, log + more, sid, messages, authors)
  {
    forall i | 0 <= i < |messages| ensures Sound(after, log + more, sid, messages[i], authors[i]) {
      assert Sound(before, log, sid, messages[i], authors[i]);
      if authors[i].origin.FromTools? {
        Consent.LabelledGrows(log, more, authors[i].chat, authors[i].origin.turn, messages[i].content);
      }
    }
    forall i | 0 <= i < |messages| ensures InOnePiece(after, authors, i) {
      assert InOnePiece(before, authors, i);
      assert Sound(before, log, sid, messages[i], authors[i]);
    }
  }

  // ---- The invariant ------------------------------------------------------------------------------

  /** If the last stored message is the chat's own, it is the one its phase says. */
  predicate TailOf(messages: seq<ChatMessage>, authors: seq<Signature>, c: nat, chat: Chat) {
    |authors| == |messages| && (authors != [] && authors[|authors| - 1].chat == c ==>
      var origin, m := authors[|authors| - 1].origin, messages[|messages| - 1];
      match chat.phase
      case Admitted => false
      case Found => false
      case Stored => origin.FromUser? && chat.turns == 0
      case Ready => if chat.turns == 0 then origin.FromUser? else origin == FromTools(chat.turns)
      case Recording(turn) => origin == FromTurn(chat.turns) && m == turn.message
      case Dispatching(turn, _) => origin == FromTurn(chat.turns) && m == turn.message
      case Asking(turn, _) => origin == FromTurn(chat.turns) && m == turn.message
      case Passed(turn, _, _, _) => origin == FromTurn(chat.turns) && m == turn.message
      case Finished(_) => true)
  }

  ghost predicate SignedInv(s: State) {
    && (forall sid :: sid in s.sessions ==> WellSigned(s.chats, s.log, sid, s.sessions[sid].messages, Authors(s, sid)))
    && (forall c :: c in s.chats && s.chats[c].sid in s.sessions ==>
        TailOf(s.sessions[s.chats[c].sid].messages, Authors(s, s.chats[c].sid), c, s.chats[c]))
  }

  // ---- Every step keeps it ------------------------------------------------------------------------

  lemma UserBlock(chats: map<nat, Chat>, log: seq<Event>, c: nat)
    requires c in chats
    ensures WellSigned(chats, log, chats[c].sid, chats[c].user, Signatures(c, FromUser(0), |chats[c].user|))
  {
    var user, signed := chats[c].user, Signatures(c, FromUser(0), |chats[c].user|);
    assert forall i :: 0 <= i < |signed| ==> signed[i] == Signature(c, FromUser(i));
    forall i | 0 <= i < |user| ensures Sound(chats, log, chats[c].sid, user[i], signed[i]) {
    }
    forall i | 0 <= i < |user| ensures InOnePiece(chats, signed, i) {
    }
    forall i | 0 <= i < |user| - 1 ensures Joint(user[i], signed[i], user[i + 1], signed[i + 1]) {
    }
  }

  lemma TurnBlock(chats: map<nat, Chat>, log: seq<Event>, c: nat, m: ChatMessage, n: nat)
    requires c in chats
    ensures WellSigned(chats, log, chats[c].sid, [m], Signatures(c, FromTurn(n), 1))
  {
  }

  lemma {:induction false} ResultsUseNothing(content: seq<ContentBlock>)
    requires forall k :: 0 <= k < |content| ==> content[k].ToolResult?
    ensures ToolUses(content) == []
  {
    if content != [] {
      ResultsUseNothing(content[1..]);
    }
  }

  lemma ToolsBlock(chats: map<nat, Chat>, log: seq<Event>, c: nat, results: seq<ContentBlock>, uses: seq<ContentBlock>,
                   n: nat)
    requires c in chats && Matches(results, uses) && Consent.AllLabelled(log, c, n, results)
    ensures WellSigned(chats, log, chats[c].sid, [ChatMessage(Tool, None, results)], Signatures(c, FromTools(n), 1))
  {
    forall k | 0 <= k < |results| ensures results[k].ToolResult? {
      assert AnswersUse(results[k], uses[k]);
    }
    ResultsUseNothing(results);
  }

  /** A move that says nothing. */
  lemma SilentMoveKeepsSigned(s: State, c: nat, m: Moved)
    requires SignedInv(s) && c in s.chats && !m.effect.Say?
    requires m.chat.sid == s.chats[c].sid && m.chat.user == s.chats[c].user
    requires m.chat.sid in s.sessions ==> TailOf(s.sessions[m.chat.sid].messages, Authors(s, m.chat.sid), c, m.chat)
    ensures SignedInv(Commit(s, c, m))
  {
    var t := Commit(s, c, m);
    var more := if m.effect.Note? then [m.effect.event] else [];
    assert t.log == s.log + more;
    forall sid | sid in t.sessions ensures WellSigned(t.chats, t.log, sid, t.sessions[sid].messages, Authors(t, sid)) {
      StillWellSigned(s.chats, s.log, t.chats, more, sid, s.sessions[sid].messages, Authors(s, sid));
    }
  }

  /** What a move says fits behind what is stored, and leaves the last message right for its phase. */
  ghost predicate Fits(s: State, c: nat, m: Moved, messages: seq<ChatMessage>, authors: seq<Signature>)
    requires m.effect.Say?
  {
    var more, signed := m.effect.messages, Signatures(c, m.effect.origin, |m.effect.messages|);
    && |authors| == |messages|
    && WellSigned(s.chats[c := m.chat], s.log, m.chat.sid, more, signed)
    && (messages != [] && more != [] ==> Joint(messages[|messages| - 1], authors[|messages| - 1], more[0], signed[0]))
    && TailOf(messages + more, authors + signed, c, m.chat)
  }

  lemma TranscriptsStayWellSigned(s: State, c: nat, m: Moved, sid: Uuid)
    requires SignedInv(s) && c in s.chats && m.effect.Say? && m.chat.sid in s.sessions && sid in s.sessions
    requires m.chat.sid == s.chats[c].sid && m.chat.user == s.chats[c].user
    requires Fits(s, c, m, s.sessions[m.chat.sid].messages, Authors(s, m.chat.sid))
    ensures var t := Commit(s, c, m); WellSigned(t.chats, t.log, sid, t.sessions[sid].messages, Authors(t, sid))
  {
    var t := Commit(s, c, m);
    assert t.log == s.log + [];
    StillWellSigned(s.chats, s.log, t.chats, [], sid, s.sessions[sid].messages, Authors(s, sid));
    if sid == m.chat.sid {
      Joined(t.chats, t.log, sid, s.sessions[sid].messages, Authors(s, sid), m.effect.messages,
             Signatures(c, m.effect.origin, |m.effect.messages|));
    }
  }

  /** A move that appends something, or nothing, to the transcript. */
  lemma SayingMoveKeepsSigned(s: State, c: nat, m: Moved)
    requires SignedInv(s) && c in s.chats && m.effect.Say? && m.chat.sid in s.sessions
    requires m.chat.sid == s.chats[c].sid && m.chat.user == s.chats[c].user
    requires Fits(s, c, m, s.sessions[m.chat.sid].messages, Authors(s, m.chat.sid))
    ensures SignedInv(Commit(s, c, m))
  {
    var t, own := Commit(s, c, m), m.chat.sid;
    var more, signed := m.effect.messages, Signatures(c, m.effect.origin, |m.effect.messages|);
    forall sid | sid in t.sessions ensures WellSigned(t.chats, t.log, sid, t.sessions[sid].messages, Authors(t, sid)) {
      TranscriptsStayWellSigned(s, c, m, sid);
    }
    forall d | d in t.chats && t.chats[d].sid in t.sessions
      ensures TailOf(t.sessions[t.chats[d].sid].messages, Authors(t, t.chats[d].sid), d, t.chats[d])
    {
      if d != c && t.chats[d].sid == own && more == [] {
        assert s.sessions[own].messages + more == s.sessions[own].messages;
        assert Authors(s, own) + signed == Authors(s, own);
      }
    }
  }

  /** What is known of the chat that moves. */
  ghost predicate Sane(s: State, c: nat) {
    && c in s.chats && Transcript.ShapeInv(s.chats[c]) && Consent.ChatInv(s.log, c, s.chats[c], s.nowMs)
    && (s.chats[c].session.Some? || s.chats[c].mark.Some? ==> s.chats[c].sid in s.sessions)
  }

  lemma UserFits(s: State, c: nat)
    requires SignedInv(s) && Sane(s, c) && s.chats[c].phase.Found? && s.chats[c].sid in s.sessions
    ensures var sid := s.chats[c].sid;
      Fits(s, c, StoreUserMove(s, s.chats[c]), s.sessions[sid].messages, Authors(s, sid))
  {
    UserBlock(s.chats[c := StoreUserMove(s, s.chats[c]).chat], s.log, c);
  }

  lemma StoreUserKeepsSigned(s: State, c: nat)
    requires SignedInv(s) && Sane(s, c) && s.chats[c].phase.Found?
    ensures SignedInv(Commit(s, c, StoreUserMove(s, s.chats[c])))
  {
    var chat, m := s.chats[c], StoreUserMove(s, s.chats[c]);
    if chat.sid in s.sessions {
      UserFits(s, c);
      SayingMoveKeepsSigned(s, c, m);
    } else {
      SilentMoveKeepsSigned(s, c, m);
    }
  }

  lemma ProviderKeepsSigned(s: State, c: nat, answer: Result<ProviderTurn, ProviderError>)
    requires SignedInv(s) && Sane(s, c) && s.chats[c].phase.Ready?
    ensures SignedInv(Commit(s, c, ProviderMove(s, s.chats[c], answer)))
  {
    var chat, m := s.chats[c], ProviderMove(s, s.chats[c], answer);
    if answer.Ok? {
      TurnBlock(s.chats[c := m.chat], s.log, c, answer.value.message, chat.turns + 1);
      TurnFits(s, c, answer.value);
      SayingMoveKeepsSigned(s, c, m);
    } else {
      SilentMoveKeepsSigned(s, c, m);
    }
  }

  lemma TurnFits(s: State, c: nat, turn: ProviderTurn)
    requires SignedInv(s) && Sane(s, c) && s.chats[c].phase.Ready?
    ensures var messages, authors := s.sessions[s.chats[c].sid].messages, Authors(s, s.chats[c].sid);
      && |authors| == |messages|
      && (messages != [] ==>
            Joint(messages[|messages| - 1], authors[|messages| - 1], turn.message,
                  Signature(c, FromTurn(s.chats[c].turns + 1))))
  {
  }

  lemma StoreResultsKeepsSigned(s: State, c: nat)
    requires SignedInv(s) && Sane(s, c) && s.chats[c].phase.Dispatching?
    requires |s.chats[c].phase.results| == |Uses(s.chats[c].phase.turn)|
    ensures SignedInv(Commit(s, c, StoreResultsMove(s, s.chats[c])))
  {
    var chat, m := s.chats[c], StoreResultsMove(s, s.chats[c]);
    var results, uses := chat.phase.results, Uses(chat.phase.turn);
    assert Transcript.MidTurn(Transcript.OwnPart(chat), chat.turns, chat.phase.turn, results);
    ToolsBlock(s.chats[c := m.chat], s.log, c, results, uses, chat.turns);
    SayingMoveKeepsSigned(s, c, m);
  }

  lemma MoveKeepsSigned(cfg: Config, s: State, c: nat, move: Move)
    requires SignedInv(s) && Sane(s, c) && MoveEnabled(s.chats[c], move)
    ensures SignedInv(Commit(s, c, MoveOf(cfg, s, c, s.chats[c], move)))
  {
    if move.StoreUser? {
      StoreUserKeepsSigned(s, c);
    } else if move.Provider? {
      ProviderKeepsSigned(s, c, move.answer);
    } else if move.StoreResults? {
      StoreResultsKeepsSigned(s, c);
    } else {
      StandingMove(cfg, s, c, s.chats[c], move);
      SilentMoveKeepsSigned(s, c, MoveOf(cfg, s, c, s.chats[c], move));
    }
  }

  /** The other moves say nothing and leave the last message right for the phase they lead to. */
  lemma StandingMove(cfg: Config, s: State, c: nat, chat: Chat, move: Move)
    requires MoveEnabled(chat, move) && !move.StoreUser? && !move.Provider? && !move.StoreResults?
    requires Budget.TurnInv(chat)
    ensures var m := MoveOf(cfg, s, c, chat, move);
      && !m.effect.Say? && m.chat.sid == chat.sid && m.chat.user == chat.user
      && forall messages, authors :: TailOf(messages, authors, c, chat) ==> TailOf(messages, authors, c, m.chat)
  {
  }

  /** A step that leaves the store alone. */
  lemma AsideKeepsSigned(s: State, t: State, more: seq<Event>)
    requires SignedInv(s) && t.sessions == s.sessions && t.authors == s.authors && t.log == s.log + more
    requires SameRequests(s.chats, t.chats)
    requires forall c :: c in t.chats ==> (c in s.chats && t.chats[c] == s.chats[c]) || c !in s.chats
    ensures SignedInv(t)
  {
    forall sid | sid in t.sessions ensures WellSigned(t.chats, t.log, sid, t.sessions[sid].messages, Authors(t, sid)) {
      StillWellSigned(s.chats, s.log, t.chats, more, sid, s.sessions[sid].messages, Authors(s, sid));
    }
    forall c | c in t.chats && t.chats[c].sid in t.sessions
      ensures TailOf(t.sessions[t.chats[c].sid].messages, Authors(t, t.chats[c].sid), c, t.chats[c])
    {
      if c !in s.chats {
        NobodyElseSigned(s, c, t.chats[c].sid);
      }
    }
  }

  lemma NobodyElseSigned(s: State, c: nat, sid: Uuid)
    requires SignedInv(s) && c !in s.chats && sid in s.sessions
    ensures var authors := Authors(s, sid);
      |authors| == |s.sessions[sid].messages| && (authors != [] ==> authors[|authors| - 1].chat != c)
  {
    var messages, authors := s.sessions[sid].messages, Authors(s, sid);
    assert WellSigned(s.chats, s.log, sid, messages, authors);
    if authors != [] {
      assert Sound(s.chats, s.log, sid, messages[|messages| - 1], authors[|authors| - 1]);
    }
  }

  lemma OpenSessionKeepsSigned(s: State, bearer: string, sid: Uuid, provider: string, model: string)
    requires SignedInv(s) && bearer in s.tokens && sid !in s.sessions
    ensures SignedInv(OpenSessionStep(s, bearer, sid, provider, model))
  {
    var t := OpenSessionStep(s, bearer, sid, provider, model);
    forall k | k in t.sessions ensures WellSigned(t.chats, t.log, k, t.sessions[k].messages, Authors(t, k)) {
      if k != sid {
        assert WellSigned(s.chats, s.log, k, s.sessions[k].messages, Authors(s, k));
      }
    }
  }

  lemma OtherStepKeepsSigned(cfg: Config, s: State, step: Step)
    requires SignedInv(s) && Enabled(s, step) && !step.Advance?
    ensures SignedInv(OtherStep(cfg, s, step))
  {
    if step.OpenSession? {
      OpenSessionKeepsSigned(s, step.bearer, step.sid, step.provider, step.model);
    } else {
      LogGrows(cfg, s, step);
      var t := OtherStep(cfg, s, step);
      var more :| t.log == s.log + more;
      AsideKeepsSigned(s, t, more);
    }
  }

  lemma LogGrows(cfg: Config, s: State, step: Step)
    requires Enabled(s, step) && !step.Advance?
    ensures exists more :: OtherStep(cfg, s, step).log == s.log + more
  {
    var t := OtherStep(cfg, s, step);
    if step.AskWindow? {
      assert t.log == s.log + [WindowDialog(step.request, step.approved)];
    } else if step.OpenWindow? {
      assert t.log == s.log + [WindowOpened(step.wid, s.approvals[step.index], s.nowMs)];
    } else {
      assert t.log == s.log + [];
    }
  }

  lemma StepKeepsSigned(cfg: Config, s: State, step: Step)
    requires SignedInv(s) && Enabled(s, step)
    requires Transcript.StoreInv(s) && Transcript.AllShaped(s) && Consent.ConsentInv(s)
    ensures SignedInv(Apply(cfg, s, step))
  {
    if step.Advance? {
      MoveKeepsSigned(cfg, s, step.c, step.move);
    } else {
      OtherStepKeepsSigned(cfg, s, step);
    }
  }

  lemma {:induction false} SignedHolds(cfg: Config, steps: seq<Step>)
    requires After(cfg, steps).Some?
    ensures SignedInv(After(cfg, steps).value)
  {
    if steps != [] {
      var before := steps[..|steps| - 1];
      SignedHolds(cfg, before);
      Transcript.TranscriptHolds(cfg, before);
      Consent.ConsentHolds(cfg, before);
      StepKeepsSigned(cfg, After(cfg, before).value, steps[|steps| - 1]);
    }
  }

  // ---- Labels -------------------------------------------------------------------------------------

  /** Every message of every stored transcript is of a known origin, and of the three only the tool
      messages vouch for their labels: there each label is the one under which that very use ran. A
      label in a request body or a provider's turn says what its sender wrote. */
  lemma LabelsOfToolMessagesAreTruthful(cfg: Config, steps: seq<Step>, sid: Uuid, i: nat)
    requires After(cfg, steps).Some?
    ensures var s := After(cfg, steps).value;
      sid in s.sessions && i < |s.sessions[sid].messages| ==>
        && i < |Authors(s, sid)|
        && var m, sig := s.sessions[sid].messages[i], Authors(s, sid)[i];
        && sig.chat in s.chats && s.chats[sig.chat].sid == sid
        && (sig.origin.FromUser? ==> m in s.chats[sig.chat].user)
        && (sig.origin.FromTools? ==>
            m.role == Tool && Consent.AllLabelled(s.log, sig.chat, sig.origin.turn, m.content))
  {
    SignedHolds(cfg, steps);
    var s := After(cfg, steps).value;
    if sid in s.sessions && i < |s.sessions[sid].messages| {
      var messages, authors := s.sessions[sid].messages, Authors(s, sid);
      assert WellSigned(s.chats, s.log, sid, messages, authors);
      assert Sound(s.chats, s.log, sid, messages[i], authors[i]);
    }
  }

  // ---- Tool uses of the whole list ----------------------------------------------------------------

  /** The tool uses of message `i` are answered by the chat they come from, directly behind, among the
      first `n` messages. A provider's turn answers nothing. */
  predicate AnsweredWithin(messages: seq<ChatMessage>, authors: seq<Signature>, n: nat, i: nat)
    requires n <= |messages| == |authors|
  {
    && i + 1 < n
    && authors[i + 1].chat == authors[i].chat && !authors[i + 1].origin.FromTurn?
    && Transcript.Answers(messages[i + 1], messages[i])
  }

  /** In a request body, the message behind message `r` answers it. */
  predicate BodyAnswers(user: seq<ChatMessage>, r: nat) {
    r + 1 < |user| && Transcript.Answers(user[r + 1], user[r])
  }

  /** The next message comes from the same chat; if the message comes from a request body, the body
      itself goes on with the answer. */
  predicate Kept(chats: map<nat, Chat>, authors: seq<Signature>, n: nat, i: nat)
    requires n <= |authors|
  {
    && i + 1 < n
    && authors[i + 1].chat == authors[i].chat
    && (authors[i].origin.FromUser? ==>
          authors[i].chat in chats && BodyAnswers(chats[authors[i].chat].user, authors[i].origin.index))
  }

  lemma AnsweredIffKept(chats: map<nat, Chat>, log: seq<Event>, sid: Uuid, messages: seq<ChatMessage>,
                        authors: seq<Signature>, n: nat, i: nat)
    requires WellSigned(chats, log, sid, messages, authors)
    requires i < n <= |messages| && ToolUses(messages[i].content) != []
    ensures AnsweredWithin(messages, authors, n, i) <==> Kept(chats, authors, n, i)
  {
    assert Sound(chats, log, sid, messages[i], authors[i]) && InOnePiece(chats, authors, i);
    if i + 1 < n {
      assert Joint(messages[i], authors[i], messages[i + 1], authors[i + 1]);
      assert Sound(chats, log, sid, messages[i + 1], authors[i + 1]);
    }
  }

  /** The tool uses of message `i` of the list chat `c` sends to the provider are answered: in the
      part it cloned by whoever made them, in its own part by its tool message. */
  ghost predicate AnsweredInList(s: State, c: nat, i: nat)
    requires c in s.chats && s.chats[c].mark.Some? && s.chats[c].sid in s.sessions
    requires s.chats[c].mark.value <= |s.sessions[s.chats[c].sid].messages| == |Authors(s, s.chats[c].sid)|
  {
    var chat := s.chats[c];
    if i < chat.mark.value then
      AnsweredWithin(s.sessions[chat.sid].messages, Authors(s, chat.sid), chat.mark.value, i)
    else i + 1 < |chat.history| && Transcript.Answers(chat.history[i + 1], chat.history[i])
  }

  ghost predicate ListAnswered(s: State, c: nat)
    requires c in s.chats && s.chats[c].mark.Some? && s.chats[c].sid in s.sessions
    requires s.chats[c].mark.value <= |s.sessions[s.chats[c].sid].messages| == |Authors(s, s.chats[c].sid)|
  {
    forall i :: 0 <= i < |s.chats[c].history| && ToolUses(s.chats[c].history[i].content) != [] ==>
      AnsweredInList(s, c, i)
  }

  /** Each message with tool uses in the cloned part is kept within it. */
  ghost predicate CloneKept(s: State, c: nat)
    requires c in s.chats && s.chats[c].mark.Some? && s.chats[c].sid in s.sessions
    requires s.chats[c].mark.value <= |s.sessions[s.chats[c].sid].messages| == |Authors(s, s.chats[c].sid)|
  {
    var chat := s.chats[c];
    forall i :: 0 <= i < chat.mark.value && ToolUses(s.sessions[chat.sid].messages[i].content) != [] ==>
      Kept(s.chats, Authors(s, chat.sid), chat.mark.value, i)
  }

  /** Between two turns, and when it has its answer. */
  predicate AtRest(chat: Chat) {
    chat.mark.Some? && (chat.phase.Ready? || Transcript.Over(chat))
  }

  lemma OwnPartAnswered(chat: Chat, i: nat)
    requires AtRest(chat) && Transcript.ShapeInv(chat)
    requires chat.mark.value <= i < |chat.history| && ToolUses(chat.history[i].content) != []
    ensures i + 1 < |chat.history| && Transcript.Answers(chat.history[i + 1], chat.history[i])
  {
    var own, k := Transcript.OwnPart(chat), i - chat.mark.value;
    assert own[k] == chat.history[i];
    if k % 2 == 0 {
      assert k + 1 < |own|;
      assert Transcript.Answers(own[k + 1], own[k + 1 - 1]);
      assert own[k + 1] == chat.history[i + 1];
    } else {
      assert Transcript.Answers(own[k], own[k - 1]);
      ToolMessagesUseNothing(own[k], own[k - 1]);
    }
  }

  lemma ToolMessagesUseNothing(tool: ChatMessage, asked: ChatMessage)
    requires Transcript.Answers(tool, asked)
    ensures ToolUses(tool.content) == []
  {
    forall k | 0 <= k < |tool.content| ensures tool.content[k].ToolResult? {
      assert AnswersUse(tool.content[k], ToolUses(asked.content)[k]);
    }
    ResultsUseNothing(tool.content);
  }

  /** Exactly when the whole list is answered, for every chat that is about to ask the provider or has
      its answer: when in the part it cloned every message with tool uses is followed by a message of
      the same chat, and those from request bodies bring their answer along. Then every message with
      tool uses of the list is followed by a tool message whose results match its ids in order. */
  lemma WholeListAnsweredIff(cfg: Config, steps: seq<Step>, c: nat)
    requires After(cfg, steps).Some?
    ensures var s := After(cfg, steps).value;
      c in s.chats && AtRest(s.chats[c]) ==>
        && var chat := s.chats[c];
        && chat.sid in s.sessions
        && chat.mark.value <= |s.sessions[chat.sid].messages| == |Authors(s, chat.sid)|
        && (ListAnswered(s, c) <==> CloneKept(s, c))
        && (ListAnswered(s, c) ==>
              forall i :: 0 <= i < |chat.history| && ToolUses(chat.history[i].content) != [] ==>
                i + 1 < |chat.history| && Transcript.Answers(chat.history[i + 1], chat.history[i]))
  {
    SignedHolds(cfg, steps);
    Transcript.TranscriptHolds(cfg, steps);
    var s := After(cfg, steps).value;
    if c in s.chats && AtRest(s.chats[c]) {
      ListIff(s, c);
      ListFollows(s, c);
    }
  }

  lemma ListIff(s: State, c: nat)
    requires SignedInv(s) && c in s.chats && AtRest(s.chats[c])
    requires Transcript.ViewInv(s, c) && Transcript.ShapeInv(s.chats[c])
    ensures ListAnswered(s, c) <==> CloneKept(s, c)
  {
    var chat := s.chats[c];
    var messages, authors, mark := s.sessions[chat.sid].messages, Authors(s, chat.sid), chat.mark.value;
    forall i | 0 <= i < mark && ToolUses(messages[i].content) != []
      ensures AnsweredInList(s, c, i) <==> Kept(s.chats, authors, mark, i)
    {
      AnsweredIffKept(s.chats, s.log, chat.sid, messages, authors, mark, i);
    }
    forall i | mark <= i < |chat.history| && ToolUses(chat.history[i].content) != [] ensures AnsweredInList(s, c, i) {
      OwnPartAnswered(chat, i);
    }
    assert forall i :: 0 <= i < mark ==> chat.history[i] == messages[i];
  }

  lemma ListFollows(s: State, c: nat)
    requires c in s.chats && AtRest(s.chats[c]) && Transcript.ViewInv(s, c)
    ensures ListAnswered(s, c) ==>
      var chat := s.chats[c];
      forall i :: 0 <= i < |chat.history| && ToolUses(chat.history[i].content) != [] ==>
        i + 1 < |chat.history| && Transcript.Answers(chat.history[i + 1], chat.history[i])
  {
    var chat := s.chats[c];
    assert forall i :: 0 <= i < chat.mark.value ==> chat.history[i] == s.sessions[chat.sid].messages[i];
  }
}
