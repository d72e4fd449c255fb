/** The stored transcript while several chats extend it, and the shape of one chat's part of it. */
module Transcript {
  import opened Wrappers
  import opened Types
  import opened Dispatch
  import opened Engine
  import Budget
  import Tools
  import TrustWindows

  // ---- One chat's messages in a shared transcript -----------------------------------------------

  /** The messages from position `mark` on that chat `c` appended. */
  function Own(messages: seq<ChatMessage>, authors: seq<Signature>, mark: nat, c: nat): seq<ChatMessage>
    requires |authors| == |messages|
    decreases |messages|
  {
    if |messages| <= mark then []
    else
      var n := |messages| - 1;
      var earlier := Own(messages[..n], authors[..n], mark, c);
      if authors[n].chat == c then earlier + [messages[n]] else earlier
  }

  lemma {:induction false} OwnExtends(messages: seq<ChatMessage>, authors: seq<Signature>, more: seq<ChatMessage>,
                                      signed: seq<Signature>, who: nat, mark: nat, c: nat)
    requires |authors| == |messages| && mark <= |messages|
    requires |signed| == |more| && forall k :: 0 <= k < |signed| ==> signed[k].chat == who
    ensures Own(messages + more, authors + signed, mark, c)
         == Own(messages, authors, mark, c) + (if who == c then more else [])
  {
    var n := |more| - 1;
    if more == [] {
      assert messages + more == messages && authors + signed == authors;
    } else {
      OwnExtends(messages, authors, more[..n], signed[..n], who, mark, c);
      assert (messages + more)[..|messages + more| - 1] == messages + more[..n];
      assert (authors + signed)[..|messages + more| - 1] == authors + signed[..n];
      if who == c {
        assert Own(messages, authors, mark, c) + more[..n] + [more[n]] == Own(messages, authors, mark, c) + more;
      }
    }
  }

  /** `a` can be obtained from `b` by leaving messages out. */
  ghost predicate IsSubsequence(a: seq<ChatMessage>, b: seq<ChatMessage>)
    decreases |b|
  {
    if a == [] then true
    else if b == [] then false
    else
      var n, m := |a| - 1, |b| - 1;
      (a[n] == b[m] && IsSubsequence(a[..n], b[..m])) || IsSubsequence(a, b[..m])
  }

  lemma {:induction false} SubsequenceOfItself(a: seq<ChatMessage>)
    ensures IsSubsequence(a, a)
  {
    if a != [] {
      SubsequenceOfItself(a[..|a| - 1]);
    }
  }

  lemma SubsequenceGrows(a: seq<ChatMessage>, b: seq<ChatMessage>, m: ChatMessage)
    requires IsSubsequence(a, b)
    ensures IsSubsequence(a, b + [m]) && IsSubsequence(a + [m], b + [m])
  {
    assert (a + [m])[..|a|] == a && (b + [m])[..|b|] == b;
  }

  lemma {:induction false} OwnIsSubsequence(messages: seq<ChatMessage>, authors: seq<Signature>, mark: nat, c: nat)
    requires |authors| == |messages| && mark <= |messages|
    ensures IsSubsequence(messages[..mark] + Own(messages, authors, mark, c), messages)
    decreases |messages|
  {
    var n := |messages| - 1;
    if |messages| == mark {
      assert messages[..mark] + [] == messages;
      SubsequenceOfItself(messages);
    } else {
      OwnIsSubsequence(messages[..n], authors[..n], mark, c);
      var earlier := messages[..mark] + Own(messages[..n], authors[..n], mark, c);
      assert messages[..n][..mark] == messages[..mark] && messages == messages[..n] + [messages[n]];
      SubsequenceGrows(earlier, messages[..n], messages[n]);
      if authors[n].chat == c {
        assert messages[..mark] + Own(messages, authors, mark, c) == earlier + [messages[n]];
      }
    }
  }

  lemma {:induction false} OwnWhenAlone(messages: seq<ChatMessage>, authors: seq<Signature>, mark: nat, c: nat)
    requires |authors| == |messages| && mark <= |messages|
    requires forall i :: mark <= i < |authors| ==> authors[i].chat == c
    ensures messages[..mark] + Own(messages, authors, mark, c) == messages
    decreases |messages|
  {
    var n := |messages| - 1;
    if |messages| > mark {
      OwnWhenAlone(messages[..n], authors[..n], mark, c);
      assert messages[..n][..mark] == messages[..mark];
      assert messages == messages[..n] + [messages[n]];
    }
  }

  // ---- The stored transcripts -------------------------------------------------------------------

  /** Every stored message is signed, and a chat that cloned its session still has it. */
  ghost predicate StoreInv(s: State) {
    && (forall sid :: sid in s.sessions ==> |Authors(s, sid)| == |s.sessions[sid].messages|)
    && (forall c :: c in s.chats && (s.chats[c].session.Some? || s.chats[c].mark.Some?) ==>
        s.chats[c].sid in s.sessions)
  }

  /** What a chat sees locally: the transcript as it cloned it, then its own messages only. */
  ghost predicate ViewInv(s: State, c: nat)
    requires c in s.chats
  {
    var chat := s.chats[c];
    chat.mark.Some? ==>
      && chat.sid in s.sessions
      && var messages, authors := s.sessions[chat.sid].messages, Authors(s, chat.sid);
      && |authors| == |messages| && chat.mark.value <= |messages|
      && chat.history == messages[..chat.mark.value] + Own(messages, authors, chat.mark.value, c)
  }

  ghost predicate TranscriptInv(s: State) {
    && StoreInv(s)
    && forall c :: c in s.chats ==> ViewInv(s, c)
  }

  /** A move clones the session's transcript, or appends to it what it appends locally. */
  lemma MoveSaysWhatItKeeps(cfg: Config, s: State, c: nat, chat: Chat, move: Move)
    requires MoveEnabled(chat, move)
    ensures var m := MoveOf(cfg, s, c, chat, move);
      && m.chat.sid == chat.sid
      && (m.effect.Say? ==> chat.sid in s.sessions)
      && (m.chat.session.Some? ==> chat.session.Some? || chat.sid in s.sessions)
      && (m.chat.mark.Some? ==> chat.mark.Some? || chat.sid in s.sessions)
      && (if move.Snapshot? && chat.sid in s.sessions then
            && m.effect.Quiet? && m.chat.history == s.sessions[chat.sid].messages
               && m.chat.mark == Some(|m.chat.history|)
          else
            && m.chat.mark == chat.mark
            && (!move.StoreUser? ==> m.chat.history == chat.history + (if m.effect.Say? then m.effect.messages else []))
            && (move.StoreUser? ==> m.chat.history == chat.history))
  {
  }

  /** The clone is taken once, after the user's messages went in. */
  predicate PhaseInv(chat: Chat) {
    match chat.phase
    case Admitted => chat.mark.None?
    case Found => chat.mark.None?
    case Stored => chat.mark.None?
    case Finished(_) => true
    case _ => chat.mark.Some?
  }

  lemma OtherViewsKept(s: State, c: nat, m: Moved, d: nat)
    requires d in s.chats && d != c && ViewInv(s, d)
    ensures ViewInv(Commit(s, c, m), d)
  {
    var t, chat := Commit(s, c, m), s.chats[d];
    assert t.chats[d] == chat;
    if chat.mark.Some? && m.effect.Say? && m.chat.sid == chat.sid {
      var messages := s.sessions[chat.sid].messages;
      OwnExtends(messages, Authors(s, chat.sid), m.effect.messages,
                 Signatures(c, m.effect.origin, |m.effect.messages|), c,
                 chat.mark.value, d);
      assert (messages + m.effect.messages)[..chat.mark.value] == messages[..chat.mark.value];
      assert Own(messages, Authors(s, chat.sid), chat.mark.value, d) + []
          == Own(messages, Authors(s, chat.sid), chat.mark.value, d);
    }
  }

  lemma OwnViewKept(cfg: Config, s: State, c: nat, move: Move)
    requires StoreInv(s) && c in s.chats && ViewInv(s, c) && PhaseInv(s.chats[c])
    requires MoveEnabled(s.chats[c], move)
    ensures ViewInv(Commit(s, c, MoveOf(cfg, s, c, s.chats[c], move)), c)
  {
    var chat, m := s.chats[c], MoveOf(cfg, s, c, s.chats[c], move);
    MoveSaysWhatItKeeps(cfg, s, c, chat, move);
    if move.Snapshot? && chat.sid in s.sessions {
      ClonedViewKept(s, c, m);
    } else if m.chat.mark.Some? {
      assert !move.StoreUser?;
      SaidViewKept(s, c, chat, m);
    }
  }

  lemma ClonedViewKept(s: State, c: nat, m: Moved)
    requires StoreInv(s) && m.effect.Quiet? && m.chat.sid in s.sessions
    requires m.chat.history == s.sessions[m.chat.sid].messages && m.chat.mark == Some(|m.chat.history|)
    ensures ViewInv(Commit(s, c, m), c)
  {
    var messages, authors := s.sessions[m.chat.sid].messages, Authors(s, m.chat.sid);
    assert messages[..|messages|] + Own(messages, authors, |messages|, c) == messages;
  }

  lemma Assoc(a: seq<ChatMessage>, b: seq<ChatMessage>, c: seq<ChatMessage>)
    ensures (a + b) + c == a + (b + c)
  {
  }

  lemma SaidViewKept(s: State, c: nat, chat: Chat, m: Moved)
    requires c in s.chats && chat == s.chats[c] && ViewInv(s, c) && chat.mark.Some?
    requires m.chat.sid == chat.sid && m.chat.mark == chat.mark
    requires m.chat.history == chat.history + (if m.effect.Say? then m.effect.messages else [])
    ensures ViewInv(Commit(s, c, m), c)
  {
    var mark := chat.mark.value;
    var messages, authors := s.sessions[chat.sid].messages, Authors(s, chat.sid);
    if m.effect.Say? {
      OwnExtends(messages, authors, m.effect.messages, Signatures(c, m.effect.origin, |m.effect.messages|), c, mark, c);
      assert (messages + m.effect.messages)[..mark] == messages[..mark];
      Assoc(messages[..mark], Own(messages, authors, mark, c), m.effect.messages);
    } else {
      assert chat.history + [] == chat.history;
    }
  }

  lemma MoveKeepsTranscript(cfg: Config, s: State, c: nat, move: Move)
    requires TranscriptInv(s) && c in s.chats && PhaseInv(s.chats[c]) && MoveEnabled(s.chats[c], move)
    ensures TranscriptInv(Commit(s, c, MoveOf(cfg, s, c, s.chats[c], move)))
  {
    var m := MoveOf(cfg, s, c, s.chats[c], move);
    var t := Commit(s, c, m);
    OwnViewKept(cfg, s, c, move);
    forall d | d in t.chats && d != c ensures ViewInv(t, d) {
      OtherViewsKept(s, c, m, d);
    }
    MoveSaysWhatItKeeps(cfg, s, c, s.chats[c], move);
    CommitKeepsStore(s, c, m);
  }

  lemma CommitKeepsStore(s: State, c: nat, m: Moved)
    requires StoreInv(s)
    requires m.chat.session.Some? || m.chat.mark.Some? ==> m.chat.sid in s.sessions
    ensures StoreInv(Commit(s, c, m))
  {
  }

  // ---- The shape of one chat's own part -----------------------------------------------------------

  /** `tool` carries one result per tool use of `asked`, in order, under the same ids. */
  predicate Answers(tool: ChatMessage, asked: ChatMessage) {
    tool.role == Tool && Matches(tool.content, ToolUses(asked.content)) && |tool.content| == |ToolUses(asked.content)|
  }

  /** Every second message is a tool message that answers the one before it. */
  predicate Alternates(own: seq<ChatMessage>) {
    forall i :: 0 <= i < |own| && i % 2 == 1 ==> ToolUses(own[i - 1].content) != [] && Answers(own[i], own[i - 1])
  }

  predicate AtTurn(own: seq<ChatMessage>, turns: nat, turn: ProviderTurn) {
    own != [] && |own| == 2 * turns - 1 && own[|own| - 1] == turn.message
  }

  predicate MidTurn(own: seq<ChatMessage>, turns: nat, turn: ProviderTurn, results: seq<ContentBlock>) {
    AtTurn(own, turns, turn) && Uses(turn) != [] && Matches(results, Uses(turn))
  }

  /** The request got its answer, a reply or an error. */
  predicate Over(chat: Chat) {
    chat.phase.Finished? && !chat.phase.outcome.Dropped?
  }

  predicate AllAnswered(own: seq<ChatMessage>) {
    forall i :: 0 <= i < |own| && i % 2 == 0 && ToolUses(own[i].content) != [] ==>
      i + 1 < |own| && Answers(own[i + 1], own[i])
  }

  /** How a chat ends: with a turn that asks for no tool, after the eighth turn with an empty message
      and every tool use answered, or with an error between two turns. Each turn has been recorded
      once. */
  predicate EndsWell(own: seq<ChatMessage>, chat: Chat)
    requires Over(chat)
  {
    chat.records == chat.turns &&
    match chat.phase.outcome
    case Replied(r) =>
      if |own| == 2 * chat.turns then chat.turns == MAX_TURNS && r.message == EMPTY_REPLY
      else
        && own != [] && |own| == 2 * chat.turns - 1
        && ToolUses(own[|own| - 1].content) == [] && r.message == own[|own| - 1]
    case _ => |own| == 2 * chat.turns
  }

  predicate ShapeAt(own: seq<ChatMessage>, chat: Chat) {
    && Alternates(own)
    && match chat.phase
       case Ready => |own| == 2 * chat.turns
       case Recording(turn) => AtTurn(own, chat.turns, turn)
       case Dispatching(turn, results) => MidTurn(own, chat.turns, turn, results)
       case Asking(turn, results) => MidTurn(own, chat.turns, turn, results)
       case Passed(turn, results, _, _) => MidTurn(own, chat.turns, turn, results)
       case Finished(_) => Over(chat) ==> EndsWell(own, chat)
       case _ => true
  }

  function OwnPart(chat: Chat): seq<ChatMessage> {
    if chat.mark.Some? && chat.mark.value <= |chat.history| then chat.history[chat.mark.value..] else []
  }

  predicate ShapeInv(chat: Chat) {
    && Budget.TurnInv(chat) && PhaseInv(chat)
    && (chat.mark.Some? ==> chat.mark.value <= |chat.history| && ShapeAt(OwnPart(chat), chat))
    && (chat.mark.None? && chat.phase.Finished? ==> !chat.phase.outcome.Replied?)
    && (chat.mark.None? && chat.phase.Finished? && chat.phase.outcome.Failed? ==> chat.turns == chat.records == 0)
  }

  lemma AppendKeepsAlternation(own: seq<ChatMessage>, m: ChatMessage)
    requires Alternates(own)
    requires |own| % 2 == 1 ==> ToolUses(own[|own| - 1].content) != [] && Answers(m, own[|own| - 1])
    ensures Alternates(own + [m])
  {
    forall i | 0 <= i < |own + [m]| && i % 2 == 1
      ensures ToolUses((own + [m])[i - 1].content) != [] && Answers((own + [m])[i], (own + [m])[i - 1])
    {
    }
  }

  lemma ProviderKeepsShape(s: State, chat: Chat, answer: Result<ProviderTurn, ProviderError>)
    requires chat.phase.Ready? && ShapeInv(chat) && chat.sid in s.sessions
    ensures ShapeInv(ProviderMove(s, chat, answer).chat)
  {
    if answer.Ok? {
      var m := answer.value.message;
      AppendKeepsAlternation(OwnPart(chat), m);
      assert (chat.history + [m])[chat.mark.value..] == OwnPart(chat) + [m];
    }
  }

  lemma StoreResultsKeepsShape(s: State, chat: Chat)
    requires chat.phase.Dispatching? && |chat.phase.results| == |Uses(chat.phase.turn)| && ShapeInv(chat)
    requires chat.sid in s.sessions
    ensures ShapeInv(StoreResultsMove(s, chat).chat)
  {
    var m := ChatMessage(Tool, None, chat.phase.results);
    AppendKeepsAlternation(OwnPart(chat), m);
    assert (chat.history + [m])[chat.mark.value..] == OwnPart(chat) + [m];
  }

  lemma ResultMatches(results: seq<ContentBlock>, uses: seq<ContentBlock>, outcome: Result<Value, ApiError>,
                      via: ApprovedVia)
    requires Matches(results, uses) && |results| < |uses| && uses[|results|].ToolUse?
    ensures Matches(results + [ResultBlock(uses[|results|].id, outcome, via)], uses)
  {
  }

  lemma PassGateKeepsShape(s: State, chat: Chat)
    requires chat.phase.Dispatching? && UseLeft(chat, chat.phase.turn, chat.phase.results) && ShapeInv(chat)
    ensures ShapeInv(PassGateMove(s, chat).chat)
  {
    var phase := PassGateMove(s, chat).chat.phase;
    if phase.Dispatching? {
      var results, uses := chat.phase.results, Uses(chat.phase.turn);
      var covered := TrustWindows.Covered(s.windows, chat.session.value.id, uses[|results|].name, s.nowMs);
      var gate := GateOf(chat.session.value.granted, chat.planOnly, uses[|results|].name, covered);
      ResultMatches(results, uses, Err(gate.err), Auto);
    }
  }

  lemma AnswerKeepsShape(s: State, c: nat, chat: Chat, approved: bool)
    requires chat.phase.Asking? && UseLeft(chat, chat.phase.turn, chat.phase.results) && ShapeInv(chat)
    ensures ShapeInv(AnswerMove(s, c, chat, approved).chat)
  {
    ResultMatches(chat.phase.results, Uses(chat.phase.turn), Err(AiConsentDenied), Auto);
  }

  lemma RunItKeepsShape(cfg: Config, c: nat, chat: Chat, worker: Result<Value, ApiError>)
    requires chat.phase.Passed? && UseLeft(chat, chat.phase.turn, chat.phase.results) && ShapeInv(chat)
    requires Tools.Find(CurrentUse(chat.phase.turn, chat.phase.results).name).Some?
    ensures ShapeInv(RunItMove(cfg, c, chat, worker).chat)
  {
    var use := CurrentUse(chat.phase.turn, chat.phase.results);
    var out := RunTool(cfg.fs, chat.session.value.fsRoots, Tools.Find(use.name).value, use.input, worker);
    ResultMatches(chat.phase.results, Uses(chat.phase.turn), out, chat.phase.via);
  }

  lemma RecordKeepsShape(s: State, chat: Chat)
    requires chat.phase.Recording? && chat.session.Some? && ShapeInv(chat)
    ensures ShapeInv(RecordMove(s, chat).chat)
  {
  }

  lemma MoveKeepsShape(cfg: Config, s: State, c: nat, chat: Chat, move: Move)
    requires MoveEnabled(chat, move) && ShapeInv(chat)
    requires chat.mark.Some? ==> chat.sid in s.sessions
    ensures ShapeInv(MoveOf(cfg, s, c, chat, move).chat)
  {
    match move
    case Provider(answer) => ProviderKeepsShape(s, chat, answer);
    case Record => RecordKeepsShape(s, chat);
    case PassGate => PassGateKeepsShape(s, chat);
    case Answer(approved) => AnswerKeepsShape(s, c, chat, approved);
    case RunIt(worker) => RunItKeepsShape(cfg, c, chat, worker);
    case StoreResults => StoreResultsKeepsShape(s, chat);
    case _ =>
  }

  // ---- Whole runs ---------------------------------------------------------------------------------

  ghost predicate AllShaped(s: State) {
    forall c :: c in s.chats ==> ShapeInv(s.chats[c])
  }

  lemma OtherStepsKeepTranscript(cfg: Config, s: State, step: Step)
    requires Enabled(s, step) && !step.Advance? && TranscriptInv(s) && AllShaped(s)
    ensures TranscriptInv(OtherStep(cfg, s, step)) && AllShaped(OtherStep(cfg, s, step))
  {
    if step.Admit? {
      AdmitKeepsTranscript(s, step.c, NewChat(cfg, s, step.bearer, step.sid, step.user, step.planOnly),
                           OtherStep(cfg, s, step));
    } else if step.OpenSession? {
      OpenSessionKeepsTranscript(s, step.bearer, step.sid, step.provider, step.model);
    } else {
      OtherStepsKeepChats(cfg, s, step);
      SameTranscripts(s, OtherStep(cfg, s, step));
    }
  }

  lemma SameTranscripts(s: State, t: State)
    requires TranscriptInv(s) && t.sessions == s.sessions && t.authors == s.authors && t.chats == s.chats
    ensures TranscriptInv(t)
  {
    forall c | c in t.chats ensures ViewInv(t, c) {
      assert ViewInv(s, c);
    }
  }

  lemma AdmitKeepsTranscript(s: State, c: nat, chat: Chat, t: State)
    requires TranscriptInv(s) && c !in s.chats && chat.mark.None? && chat.session.None?
    requires t.sessions == s.sessions && t.authors == s.authors && t.chats == s.chats[c := chat]
    ensures TranscriptInv(t)
  {
    forall d | d in t.chats ensures ViewInv(t, d) {
      assert d != c ==> ViewInv(s, d);
    }
  }

  lemma OpenSessionKeepsTranscript(s: State, bearer: string, sid: Uuid, provider: string, model: string)
    requires bearer in s.tokens && sid !in s.sessions && TranscriptInv(s)
    ensures TranscriptInv(OpenSessionStep(s, bearer, sid, provider, model))
  {
    var t := OpenSessionStep(s, bearer, sid, provider, model);
    forall c | c in t.chats ensures ViewInv(t, c) {
      assert ViewInv(s, c);
    }
  }

  lemma {:induction false} TranscriptHolds(cfg: Config, steps: seq<Step>)
    requires After(cfg, steps).Some?
    ensures TranscriptInv(After(cfg, steps).value) && AllShaped(After(cfg, steps).value)
  {
    if steps != [] {
      TranscriptHolds(cfg, steps[..|steps| - 1]);
      StepKeepsTranscript(cfg, After(cfg, steps[..|steps| - 1]).value, steps[|steps| - 1]);
    }
  }

  lemma StepKeepsTranscript(cfg: Config, s: State, step: Step)
    requires Enabled(s, step) && TranscriptInv(s) && AllShaped(s)
    ensures TranscriptInv(Apply(cfg, s, step)) && AllShaped(Apply(cfg, s, step))
  {
    if step.Advance? {
      MoveKeepsTranscript(cfg, s, step.c, step.move);
      MoveKeepsShape(cfg, s, step.c, s.chats[step.c], step.move);
    } else {
      OtherStepsKeepTranscript(cfg, s, step);
    }
  }

  /** In every interleaving, a chat's local history is a subsequence of the stored transcript:
      the transcript as it was cloned, then exactly the chat's own messages, in order. When nobody
      else appended to the session since, the two are equal. */
  lemma LocalHistoryIsSubsequence(cfg: Config, steps: seq<Step>, c: nat)
    requires After(cfg, steps).Some?
    ensures var s := After(cfg, steps).value;
      c in s.chats && s.chats[c].mark.Some? ==>
        var chat := s.chats[c];
        && chat.sid in s.sessions
        && var messages, authors := s.sessions[chat.sid].messages, Authors(s, chat.sid);
        && |authors| == |messages| && chat.mark.value <= |messages|
        && IsSubsequence(chat.history, messages)
        && ((forall i :: chat.mark.value <= i < |authors| ==> authors[i].chat == c) ==> chat.history == messages)
  {
    TranscriptHolds(cfg, steps);
    var s := After(cfg, steps).value;
    if c in s.chats && s.chats[c].mark.Some? {
      ViewMeansSubsequence(s, c);
    }
  }

  lemma ViewMeansSubsequence(s: State, c: nat)
    requires c in s.chats && s.chats[c].mark.Some? && ViewInv(s, c)
    ensures var chat := s.chats[c];
      var messages, authors := s.sessions[chat.sid].messages, Authors(s, chat.sid);
      && IsSubsequence(chat.history, messages)
      && ((forall i :: chat.mark.value <= i < |authors| ==> authors[i].chat == c) ==> chat.history == messages)
  {
    var chat := s.chats[c];
    var messages, authors, mark := s.sessions[chat.sid].messages, Authors(s, chat.sid), chat.mark.value;
    OwnIsSubsequence(messages, authors, mark, c);
    if forall i :: mark <= i < |authors| ==> authors[i].chat == c {
      OwnWhenAlone(messages, authors, mark, c);
    }
  }

  /** In every interleaving, a chat makes at most eight provider turns and records each of them
      once; in its own part of the transcript every message with tool uses is followed by one tool
      message whose results carry the same ids in the same order, except possibly the last message
      of a chat that is still working or whose client went away. A chat that failed did so between two
      turns. Of the part it cloned `Provenance.WholeListAnsweredIff` says when this holds too. */
  lemma ToolUsesAreAnswered(cfg: Config, steps: seq<Step>, c: nat)
    requires After(cfg, steps).Some?
    ensures var s := After(cfg, steps).value;
      c in s.chats ==>
        var chat := s.chats[c];
        var own := OwnPart(chat);
        && chat.records <= chat.turns <= 8 && chat.turns <= chat.records + 1
        && Alternates(own)
        && (Over(chat) ==> EndsWell(own, chat) && AllAnswered(own))
  {
    TranscriptHolds(cfg, steps);
    var s := After(cfg, steps).value;
    if c in s.chats {
      ShapeMeansAnswered(s.chats[c]);
    }
  }

  lemma ShapeMeansAnswered(chat: Chat)
    requires ShapeInv(chat)
    ensures var own := OwnPart(chat);
      && chat.records <= chat.turns <= 8
      && Alternates(own)
      && (Over(chat) ==> EndsWell(own, chat) && AllAnswered(own))
  {
    var own := OwnPart(chat);
    if Over(chat) {
      assert EndsWell(own, chat);
      forall i | 0 <= i < |own| && i % 2 == 0 && ToolUses(own[i].content) != []
        ensures i + 1 < |own| && Answers(own[i + 1], own[i])
      {
        assert i + 1 < |own|;
        assert (i + 1) % 2 == 1;
        assert Answers(own[i + 1], own[i + 1 - 1]);
      }
    }
  }
}
