/** Consent over whole runs: why every tool that ran was allowed to. */
module Consent {
  import opened Wrappers
  import opened Types
  import opened Dispatch
  import opened Tools
  import opened Engine
  import Transcript
  import TrustWindows

  // ---- Justifications, all among the first `n` events of a log ------------------------------------

  ghost predicate WindowApproved(log: seq<Event>, n: nat, r: WindowRequest) {
    exists j :: 0 <= j < n && j < |log| && log[j] == WindowDialog(r, true)
  }

  ghost predicate CallApproved(log: seq<Event>, n: nat, c: nat, turn: nat, index: nat, sid: Uuid, tool: string) {
    exists j :: 0 <= j < n && j < |log| && log[j] == CallDialog(c, turn, index, sid, tool, true)
  }

  /** Event `i` opened a window after its dialog was approved. */
  ghost predicate OpenedWithConsent(log: seq<Event>, i: int) {
    0 <= i < |log| && log[i].WindowOpened? && WindowApproved(log, i, log[i].request)
  }

  function Lifetime(secs: nat): nat {
    1000 * (if secs < 3600 then secs else 3600)
  }

  /** Some consented window for this session and tool was open at `gateMs`. */
  ghost predicate WindowOpenAt(log: seq<Event>, n: nat, sid: Uuid, tool: string, gateMs: nat) {
    exists i :: i < n && OpenedWithConsent(log, i) && log[i].request.sid == sid && tool in log[i].request.tools
      && log[i].atMs <= gateMs < log[i].atMs + Lifetime(log[i].request.secs)
  }

  /** The label `via` names the approval this use of a tool really had. */
  ghost predicate Justified(log: seq<Event>, n: nat, c: nat, turn: nat, index: nat, sid: Uuid, tool: string,
                            planOnly: bool, via: ApprovedVia, gateMs: nat) {
    Find(tool).Some? &&
    if !Find(tool).value.mutates then via == Auto
    else
      !planOnly &&
      match via
      case Auto => false
      case Dialog => CallApproved(log, n, c, turn, index, sid, tool)
      case TrustWindow => WindowOpenAt(log, n, sid, tool, gateMs)
  }

  ghost predicate RanWithConsent(log: seq<Event>, i: int) {
    0 <= i < |log| && log[i].Ran? ==>
      var e := log[i];
      Justified(log, i, e.chat, e.turn, e.index, e.sid, e.tool, e.planOnly, e.via, e.gateMs)
  }

  lemma WindowApprovedGrows(log: seq<Event>, more: seq<Event>, n: nat, m: nat, r: WindowRequest)
    requires WindowApproved(log, n, r) && n <= m
    ensures WindowApproved(log + more, m, r)
  {
    var j :| 0 <= j < n && j < |log| && log[j] == WindowDialog(r, true);
    assert (log + more)[j] == log[j];
  }

  lemma OpenedGrows(log: seq<Event>, more: seq<Event>, i: int)
    requires OpenedWithConsent(log, i)
    ensures OpenedWithConsent(log + more, i) && (log + more)[i] == log[i]
  {
    WindowApprovedGrows(log, more, i, i, log[i].request);
  }

  lemma JustifiedGrows(log: seq<Event>, more: seq<Event>, n: nat, m: nat, c: nat, turn: nat, index: nat, sid: Uuid,
                       tool: string, planOnly: bool, via: ApprovedVia, gateMs: nat)
    requires Justified(log, n, c, turn, index, sid, tool, planOnly, via, gateMs) && n <= m
    ensures Justified(log + more, m, c, turn, index, sid, tool, planOnly, via, gateMs)
  {
    if Find(tool).value.mutates {
      if via == Dialog {
        var j :| 0 <= j < n && j < |log| && log[j] == CallDialog(c, turn, index, sid, tool, true);
        assert (log + more)[j] == log[j];
      } else {
        var i :| i < n && OpenedWithConsent(log, i) && log[i].request.sid == sid && tool in log[i].request.tools
          && log[i].atMs <= gateMs < log[i].atMs + Lifetime(log[i].request.secs);
        OpenedGrows(log, more, i);
      }
    }
  }

  // ---- The invariant ------------------------------------------------------------------------------

  function WindowOf(e: Event): TrustWindows.Window
    requires e.WindowOpened?
  {
    TrustWindows.NewWindow(e.wid, e.request.sid, e.request.tools, e.request.secs, e.atMs)
  }

  /** The window in the store was opened by a consented event, not in the future. */
  ghost predicate WindowInv(log: seq<Event>, w: TrustWindows.Window, nowMs: nat) {
    exists i :: OpenedWithConsent(log, i) && log[i].atMs <= nowMs
      && w == WindowOf(log[i])
  }

  /** The tool result at position `index` of turn `turn` is labelled only if the tool ran under
      that label. */
  ghost predicate Labelled(log: seq<Event>, c: nat, turn: nat, index: nat, result: ContentBlock) {
    result.ToolResult? && result.approvedVia.Some? ==>
      exists i :: 0 <= i < |log| && log[i].Ran? && log[i].chat == c && log[i].turn == turn && log[i].index == index
        && log[i].via == result.approvedVia.value
  }

  ghost predicate AllLabelled(log: seq<Event>, c: nat, turn: nat, results: seq<ContentBlock>) {
    forall k :: 0 <= k < |results| ==> Labelled(log, c, turn, k, results[k])
  }

  /** Message `i` of the chat's own part, if a tool message, belongs to turn (i + 1) / 2. */
  ghost predicate OwnLabelled(log: seq<Event>, c: nat, own: seq<ChatMessage>) {
    forall i :: 0 <= i < |own| && i % 2 == 1 ==> AllLabelled(log, c, (i + 1) / 2, own[i].content)
  }

  /** The chat in its current phase: nothing asks or passes without cause. */
  ghost predicate ChatInv(log: seq<Event>, c: nat, chat: Chat, nowMs: nat) {
    && OwnLabelled(log, c, Transcript.OwnPart(chat))
    && (chat.session.Some? ==> chat.session.value.id == chat.sid)
    && match chat.phase
       case Dispatching(turn, results) => AllLabelled(log, c, chat.turns, results)
       case Asking(turn, results) =>
         && AllLabelled(log, c, chat.turns, results) && UseLeft(chat, turn, results)
         && !chat.planOnly && Find(CurrentUse(turn, results).name).Some?
            && Find(CurrentUse(turn, results).name).value.mutates
       case Passed(turn, results, via, gateMs) =>
         && AllLabelled(log, c, chat.turns, results) && UseLeft(chat, turn, results) && gateMs <= nowMs
         && Justified(log, |log|, c, chat.turns, |results|, chat.sid, CurrentUse(turn, results).name, chat.planOnly,
                      via, gateMs)
       case _ => true
  }

  ghost predicate ConsentInv(s: State) {
    && (forall i :: 0 <= i < |s.log| ==> RanWithConsent(s.log, i))
    && (forall i :: 0 <= i < |s.approvals| ==> WindowApproved(s.log, |s.log|, s.approvals[i]))
    && (forall w :: w in s.windows ==> WindowInv(s.log, s.windows[w], s.nowMs))
    && (forall k :: k in s.sessions ==> s.sessions[k].id == k)
    && (forall c :: c in s.chats ==> ChatInv(s.log, c, s.chats[c], s.nowMs))
  }

  // ---- The log only grows -------------------------------------------------------------------------

  lemma LabelledGrows(log: seq<Event>, more: seq<Event>, c: nat, turn: nat, results: seq<ContentBlock>)
    requires AllLabelled(log, c, turn, results)
    ensures AllLabelled(log + more, c, turn, results)
  {
    forall k | 0 <= k < |results| ensures Labelled(log + more, c, turn, k, results[k]) {
      assert Labelled(log, c, turn, k, results[k]);
      if results[k].ToolResult? && results[k].approvedVia.Some? {
        var i :| 0 <= i < |log| && log[i].Ran? && log[i].chat == c && log[i].turn == turn && log[i].index == k
          && log[i].via == results[k].approvedVia.value;
        assert (log + more)[i] == log[i];
      }
    }
  }

  lemma OwnLabelledGrows(log: seq<Event>, more: seq<Event>, c: nat, own: seq<ChatMessage>)
    requires OwnLabelled(log, c, own)
    ensures OwnLabelled(log + more, c, own)
  {
    forall i | 0 <= i < |own| && i % 2 == 1 ensures AllLabelled(log + more, c, (i + 1) / 2, own[i].content) {
      LabelledGrows(log, more, c, (i + 1) / 2, own[i].content);
    }
  }

  lemma ChatInvGrows(log: seq<Event>, more: seq<Event>, c: nat, chat: Chat, nowMs: nat, later: nat)
    requires ChatInv(log, c, chat, nowMs) && nowMs <= later
    ensures ChatInv(log + more, c, chat, later)
  {
    OwnLabelledGrows(log, more, c, Transcript.OwnPart(chat));
    match chat.phase
    case Dispatching(turn, results) => LabelledGrows(log, more, c, chat.turns, results);
    case Asking(turn, results) => LabelledGrows(log, more, c, chat.turns, results);
    case Passed(turn, results, via, gateMs) =>
      LabelledGrows(log, more, c, chat.turns, results);
      JustifiedGrows(log, more, |log|, |log + more|, c, chat.turns, |results|, chat.sid,
                     CurrentUse(turn, results).name, chat.planOnly, via, gateMs);
    case _ =>
  }

  lemma WindowInvGrows(log: seq<Event>, more: seq<Event>, w: TrustWindows.Window, nowMs: nat, later: nat)
    requires WindowInv(log, w, nowMs) && nowMs <= later
    ensures WindowInv(log + more, w, later)
  {
    var i :| OpenedWithConsent(log, i) && log[i].atMs <= nowMs
      && w == WindowOf(log[i]);
    OpenedGrows(log, more, i);
  }

  lemma RanGrows(log: seq<Event>, e: Event, i: int)
    requires 0 <= i < |log| && RanWithConsent(log, i)
    ensures RanWithConsent(log + [e], i)
  {
    if log[i].Ran? {
      var r := log[i];
      JustifiedGrows(log, [e], i, i, r.chat, r.turn, r.index, r.sid, r.tool, r.planOnly, r.via, r.gateMs);
    }
  }

  /** Adding one event, and letting time pass, keeps every old justification. */
  lemma OldKept(s: State, e: Event, later: nat)
    requires ConsentInv(s) && s.nowMs <= later
    ensures var log := s.log + [e];
      && (forall i :: 0 <= i < |s.log| ==> RanWithConsent(log, i))
      && (forall i :: 0 <= i < |s.approvals| ==> WindowApproved(log, |log|, s.approvals[i]))
      && (forall w :: w in s.windows ==> WindowInv(log, s.windows[w], later))
      && (forall c :: c in s.chats ==> ChatInv(log, c, s.chats[c], later))
  {
    var log := s.log + [e];
    forall i | 0 <= i < |s.log| ensures RanWithConsent(log, i) { RanGrows(s.log, e, i); }
    forall i | 0 <= i < |s.approvals| ensures WindowApproved(log, |log|, s.approvals[i]) {
      WindowApprovedGrows(s.log, [e], |s.log|, |log|, s.approvals[i]);
    }
    forall w | w in s.windows ensures WindowInv(log, s.windows[w], later) {
      WindowInvGrows(s.log, [e], s.windows[w], s.nowMs, later);
    }
    forall c | c in s.chats ensures ChatInv(log, c, s.chats[c], later) {
      ChatInvGrows(s.log, [e], c, s.chats[c], s.nowMs, later);
    }
  }

  // ---- Moves --------------------------------------------------------------------------------------

  lemma OwnLabelledSnoc(log: seq<Event>, c: nat, own: seq<ChatMessage>, m: ChatMessage)
    requires OwnLabelled(log, c, own)
    requires |own| % 2 == 1 ==> AllLabelled(log, c, (|own| + 1) / 2, m.content)
    ensures OwnLabelled(log, c, own + [m])
  {
    forall i | 0 <= i < |own + [m]| && i % 2 == 1 ensures AllLabelled(log, c, (i + 1) / 2, (own + [m])[i].content) {
    }
  }

  lemma LabelledSnoc(log: seq<Event>, c: nat, turn: nat, results: seq<ContentBlock>, r: ContentBlock)
    requires AllLabelled(log, c, turn, results) && Labelled(log, c, turn, |results|, r)
    ensures AllLabelled(log, c, turn, results + [r])
  {
  }

  /** A window that covers the tool now was opened by consent, at most an hour ago. */
  lemma CoveredIsConsented(s: State, sid: Uuid, tool: string)
    requires ConsentInv(s) && TrustWindows.Covered(s.windows, sid, tool, s.nowMs)
    ensures WindowOpenAt(s.log, |s.log|, sid, tool, s.nowMs)
  {
    var w :| w in s.windows && s.windows[w].sessionId == sid && s.windows[w].Covers(tool, s.nowMs);
    var i :| OpenedWithConsent(s.log, i) && s.log[i].atMs <= s.nowMs
      && s.windows[w] == WindowOf(s.log[i]);
    assert Lifetime(s.log[i].request.secs) == TrustWindows.Bounded(s.log[i].request.secs) * 1000;
  }

  lemma PassGateKeepsConsent(s: State, c: nat, chat: Chat)
    requires ConsentInv(s) && ChatInv(s.log, c, chat, s.nowMs)
    requires chat.phase.Dispatching? && UseLeft(chat, chat.phase.turn, chat.phase.results)
    ensures ChatInv(s.log, c, PassGateMove(s, chat).chat, s.nowMs)
  {
    var turn, results := chat.phase.turn, chat.phase.results;
    var use := CurrentUse(turn, results);
    var covered := TrustWindows.Covered(s.windows, chat.session.value.id, use.name, s.nowMs);
    var gate := GateOf(chat.session.value.granted, chat.planOnly, use.name, covered);
    GateIff(chat.session.value.granted, chat.planOnly, use.name, covered);
    match gate
    case Refused(err) =>
      LabelledSnoc(s.log, c, chat.turns, results, ResultBlock(use.id, Err(err), Auto));
    case NeedsDialog =>
    case Cleared(via) =>
      if via == TrustWindow {
        CoveredIsConsented(s, chat.sid, use.name);
      }
  }

  lemma AnswerKeepsConsent(s: State, c: nat, chat: Chat, approved: bool)
    requires ChatInv(s.log, c, chat, s.nowMs)
    requires chat.phase.Asking? && UseLeft(chat, chat.phase.turn, chat.phase.results)
    ensures var m := AnswerMove(s, c, chat, approved); ChatInv(s.log + [m.effect.event], c, m.chat, s.nowMs)
  {
    var m := AnswerMove(s, c, chat, approved);
    var log := s.log + [m.effect.event];
    var results, use := chat.phase.results, CurrentUse(chat.phase.turn, chat.phase.results);
    ChatInvGrows(s.log, [m.effect.event], c, chat, s.nowMs, s.nowMs);
    if approved {
      assert log[|s.log|] == CallDialog(c, chat.turns, |results|, chat.sid, use.name, true);
      assert CallApproved(log, |log|, c, chat.turns, |results|, chat.sid, use.name);
    } else {
      LabelledSnoc(log, c, chat.turns, results, ResultBlock(use.id, Err(AiConsentDenied), Auto));
    }
  }

  lemma RunItKeepsConsent(cfg: Config, s: State, c: nat, chat: Chat, worker: Result<Value, ApiError>)
    requires ChatInv(s.log, c, chat, s.nowMs)
    requires chat.phase.Passed? && UseLeft(chat, chat.phase.turn, chat.phase.results)
    requires Find(CurrentUse(chat.phase.turn, chat.phase.results).name).Some?
    ensures var m := RunItMove(cfg, c, chat, worker);
      var log := s.log + [m.effect.event];
      ChatInv(log, c, m.chat, s.nowMs) && RanWithConsent(log, |s.log|)
  {
    var m := RunItMove(cfg, c, chat, worker);
    var e := m.effect.event;
    var log := s.log + [e];
    var results := chat.phase.results;
    ChatInvGrows(s.log, [e], c, chat, s.nowMs, s.nowMs);
    JustifiedGrows(s.log, [e], |s.log|, |s.log|, c, chat.turns, |results|, chat.sid, e.tool, chat.planOnly, e.via,
                   e.gateMs);
    assert log[|s.log|] == e;
    var r := m.chat.phase.results[|results|];
    assert r.approvedVia.Some? ==> r.approvedVia == Some(e.via);
    LabelledSnoc(log, c, chat.turns, results, r);
  }

  lemma StoreResultsKeepsConsent(s: State, c: nat, chat: Chat)
    requires ChatInv(s.log, c, chat, s.nowMs) && Transcript.ShapeInv(chat)
    requires chat.phase.Dispatching? && |chat.phase.results| == |Uses(chat.phase.turn)|
    ensures ChatInv(s.log, c, StoreResultsMove(s, chat).chat, s.nowMs)
  {
    if chat.sid in s.sessions {
      var own, m := Transcript.OwnPart(chat), ChatMessage(Tool, None, chat.phase.results);
      assert (chat.history + [m])[chat.mark.value..] == own + [m];
      OwnLabelledSnoc(s.log, c, own, m);
    }
  }

  lemma ProviderKeepsConsent(s: State, c: nat, chat: Chat, answer: Result<ProviderTurn, ProviderError>)
    requires ChatInv(s.log, c, chat, s.nowMs) && Transcript.ShapeInv(chat) && chat.phase.Ready?
    ensures ChatInv(s.log, c, ProviderMove(s, chat, answer).chat, s.nowMs)
  {
    if answer.Ok? && chat.sid in s.sessions {
      var own, m := Transcript.OwnPart(chat), answer.value.message;
      assert (chat.history + [m])[chat.mark.value..] == own + [m];
      OwnLabelledSnoc(s.log, c, own, m);
    }
  }

  /** The moves that show or run nothing keep the chat's justifications. */
  lemma QuietMoveKeepsConsent(cfg: Config, s: State, c: nat, chat: Chat, move: Move)
    requires ConsentInv(s) && ChatInv(s.log, c, chat, s.nowMs) && Transcript.ShapeInv(chat)
    requires MoveEnabled(chat, move) && !move.Answer? && !move.RunIt?
    ensures ChatInv(s.log, c, MoveOf(cfg, s, c, chat, move).chat, s.nowMs)
  {
    match move
    case Provider(answer) => ProviderKeepsConsent(s, c, chat, answer);
    case PassGate => PassGateKeepsConsent(s, c, chat);
    case StoreResults => StoreResultsKeepsConsent(s, c, chat);
    case _ =>
  }

  lemma QuietMovesAreQuiet(cfg: Config, s: State, c: nat, chat: Chat, move: Move)
    requires MoveEnabled(chat, move)
    ensures MoveOf(cfg, s, c, chat, move).effect.Note? <==> move.Answer? || move.RunIt?
  {
  }

  lemma MoveKeepsConsent(cfg: Config, s: State, c: nat, move: Move)
    requires ConsentInv(s) && c in s.chats && Transcript.ShapeInv(s.chats[c]) && MoveEnabled(s.chats[c], move)
    ensures ConsentInv(Commit(s, c, MoveOf(cfg, s, c, s.chats[c], move)))
  {
    var chat, m := s.chats[c], MoveOf(cfg, s, c, s.chats[c], move);
    QuietMovesAreQuiet(cfg, s, c, chat, move);
    if m.effect.Note? {
      OldKept(s, m.effect.event, s.nowMs);
      if move.Answer? {
        AnswerKeepsConsent(s, c, chat, move.approved);
      } else {
        RunItKeepsConsent(cfg, s, c, chat, move.worker);
      }
      NotedKeeps(s, c, m);
    } else {
      QuietMoveKeepsConsent(cfg, s, c, chat, move);
      QuietKeeps(s, c, m);
    }
  }

  lemma NotedKeeps(s: State, c: nat, m: Moved)
    requires ConsentInv(s) && m.effect.Note?
    requires var log := s.log + [m.effect.event];
      && (forall i :: 0 <= i < |s.log| ==> RanWithConsent(log, i)) && RanWithConsent(log, |s.log|)
      && (forall i :: 0 <= i < |s.approvals| ==> WindowApproved(log, |log|, s.approvals[i]))
      && (forall w :: w in s.windows ==> WindowInv(log, s.windows[w], s.nowMs))
      && (forall d :: d in s.chats ==> ChatInv(log, d, s.chats[d], s.nowMs))
      && ChatInv(log, c, m.chat, s.nowMs)
    ensures ConsentInv(Commit(s, c, m))
  {
  }

  lemma QuietKeeps(s: State, c: nat, m: Moved)
    requires ConsentInv(s) && !m.effect.Note? && ChatInv(s.log, c, m.chat, s.nowMs)
    ensures ConsentInv(Commit(s, c, m))
  {
  }

  // ---- Other steps --------------------------------------------------------------------------------

  lemma TickKeepsConsent(s: State, t: State)
    requires ConsentInv(s) && s.nowMs <= t.nowMs
    requires t.log == s.log && t.approvals == s.approvals && t.windows == s.windows && t.sessions == s.sessions
      && t.chats == s.chats
    ensures ConsentInv(t)
  {
    assert s.log + [] == s.log;
    forall w | w in t.windows ensures WindowInv(t.log, t.windows[w], t.nowMs) {
      WindowInvGrows(s.log, [], s.windows[w], s.nowMs, t.nowMs);
    }
    forall c | c in t.chats ensures ChatInv(t.log, c, t.chats[c], t.nowMs) {
      ChatInvGrows(s.log, [], c, s.chats[c], s.nowMs, t.nowMs);
    }
  }

  /** A new event that runs nothing, with new approvals and windows justified by the longer log. */
  lemma NewsKeepsConsent(s: State, t: State, e: Event)
    requires ConsentInv(s) && !e.Ran? && t.log == s.log + [e]
    requires t.nowMs == s.nowMs && t.sessions == s.sessions && t.chats == s.chats
    requires forall i :: 0 <= i < |t.approvals| ==>
      t.approvals[i] in s.approvals || WindowApproved(t.log, |t.log|, t.approvals[i])
    requires forall w :: w in t.windows ==>
      (w in s.windows && t.windows[w] == s.windows[w]) || WindowInv(t.log, t.windows[w], t.nowMs)
    ensures ConsentInv(t)
  {
    OldKept(s, e, s.nowMs);
    assert RanWithConsent(t.log, |s.log|);
  }

  lemma AskWindowKeepsConsent(s: State, r: WindowRequest, approved: bool)
    requires ConsentInv(s)
    ensures ConsentInv(AskWindowStep(s, r, approved))
  {
    var t := AskWindowStep(s, r, approved);
    assert t.log[|s.log|] == WindowDialog(r, approved);
    assert approved ==> WindowApproved(t.log, |t.log|, r);
    NewsKeepsConsent(s, t, WindowDialog(r, approved));
  }

  lemma OpenWindowKeepsConsent(s: State, k: nat, wid: Uuid)
    requires ConsentInv(s) && k < |s.approvals|
    ensures ConsentInv(OpenWindowStep(s, k, wid))
  {
    var r, t := s.approvals[k], OpenWindowStep(s, k, wid);
    var e := WindowOpened(wid, r, s.nowMs);
    assert t.log[|s.log|] == e;
    WindowApprovedGrows(s.log, [e], |s.log|, |s.log|, r);
    assert OpenedWithConsent(t.log, |s.log|);
    NewsKeepsConsent(s, t, e);
  }

  lemma AdmitKeepsConsent(s: State, t: State, c: nat, chat: Chat)
    requires ConsentInv(s) && chat.session.None? && chat.mark.None? && (chat.phase.Admitted? || chat.phase.Finished?)
    requires t == s.(chats := s.chats[c := chat])
    ensures ConsentInv(t)
  {
  }

  lemma SessionsAndTokensAside(s: State, t: State)
    requires ConsentInv(s) && t.nowMs == s.nowMs && t.log == s.log && t.approvals == s.approvals
      && t.windows == s.windows
    requires t.chats == s.chats && forall k :: k in t.sessions ==> t.sessions[k].id == k
    ensures ConsentInv(t)
  {
  }

  lemma OtherStepsKeepConsent(cfg: Config, s: State, step: Step)
    requires Enabled(s, step) && !step.Advance? && ConsentInv(s)
    ensures ConsentInv(OtherStep(cfg, s, step))
  {
    if step.AskWindow? {
      AskWindowKeepsConsent(s, step.request, step.approved);
    } else if step.OpenWindow? {
      OpenWindowKeepsConsent(s, step.index, step.wid);
    } else if step.Admit? {
      AdmissionKeepsConsent(cfg, s, step);
    } else if step.DoHandshake? {
      HandshakeKeepsConsent(cfg, s, step.token, step.requested, step.rawRoots, step.approved);
    } else if step.Tick? {
      TickKeepsConsent(s, OtherStep(cfg, s, step));
    } else {
      SessionsAndTokensAside(s, OtherStep(cfg, s, step));
    }
  }

  lemma AdmissionKeepsConsent(cfg: Config, s: State, step: Step)
    requires Enabled(s, step) && ConsentInv(s) && step.Admit?
    ensures ConsentInv(OtherStep(cfg, s, step))
  {
    var chat := NewChat(cfg, s, step.bearer, step.sid, step.user, step.planOnly);
    AdmitKeepsConsent(s, OtherStep(cfg, s, step), step.c, chat);
  }

  lemma TokensAside(s: State, tokens: Auth.Tokens)
    requires ConsentInv(s)
    ensures ConsentInv(s.(tokens := tokens))
  {
  }

  lemma HandshakeKeepsConsent(cfg: Config, s: State, token: string, requested: seq<Scope>, rawRoots: seq<string>,
                              approved: bool)
    requires ConsentInv(s)
    ensures ConsentInv(HandshakeStep(cfg, s, token, requested, rawRoots, approved))
  {
    TokensAside(s, HandshakeStep(cfg, s, token, requested, rawRoots, approved).tokens);
  }

  lemma StepKeepsConsent(cfg: Config, s: State, step: Step)
    requires Enabled(s, step) && ConsentInv(s) && Transcript.AllShaped(s)
    ensures ConsentInv(Apply(cfg, s, step))
  {
    if step.Advance? {
      MoveKeepsConsent(cfg, s, step.c, step.move);
    } else {
      OtherStepsKeepConsent(cfg, s, step);
    }
  }

  lemma {:induction false} ConsentHolds(cfg: Config, steps: seq<Step>)
    requires After(cfg, steps).Some?
    ensures ConsentInv(After(cfg, steps).value)
  {
    if steps != [] {
      ConsentHolds(cfg, steps[..|steps| - 1]);
      Transcript.TranscriptHolds(cfg, steps[..|steps| - 1]);
      StepKeepsConsent(cfg, After(cfg, steps[..|steps| - 1]).value, steps[|steps| - 1]);
    }
  }

  // ---- The theorems -------------------------------------------------------------------------------

  /** In every run, every mutating tool that ran was not part of a plan-only chat, and it had either
      its own approved dialog, or a window for its session and tool that was opened after an
      approved dialog at most 3,600,000 ms before the gate let the call through. The label names
      which of the two. */
  lemma MutationsHadConsent(cfg: Config, steps: seq<Step>, i: nat)
    requires After(cfg, steps).Some?
    ensures var log := After(cfg, steps).value.log;
      i < |log| && log[i].Ran? && Find(log[i].tool).Some? && Find(log[i].tool).value.mutates ==>
        var e := log[i];
        && !e.planOnly
        && (e.via == Dialog || e.via == TrustWindow)
        && (e.via == Dialog ==> CallApproved(log, i, e.chat, e.turn, e.index, e.sid, e.tool))
        && (e.via == TrustWindow ==>
              exists k :: 0 <= k < i && OpenedWithConsent(log, k) && log[k].request.sid == e.sid
                && e.tool in log[k].request.tools
                && log[k].atMs <= e.gateMs < log[k].atMs + 3_600_000)
  {
    ConsentHolds(cfg, steps);
    var log := After(cfg, steps).value.log;
    if i < |log| && log[i].Ran? {
      assert RanWithConsent(log, i);
      WindowWithinTheHour(log, i);
    }
  }

  /** By name: `run_python` is the only tool that needs consent, and it had it; every other tool that ran is
      one of the three that read, and ran unasked. */
  lemma PythonHadConsent(cfg: Config, steps: seq<Step>, i: nat)
    requires After(cfg, steps).Some?
    ensures var log := After(cfg, steps).value.log;
      i < |log| && log[i].Ran? ==>
        var e := log[i];
        if e.tool == "run_python" then
          && !e.planOnly
          && (e.via == Dialog || e.via == TrustWindow)
          && (e.via == Dialog ==>
                exists j :: 0 <= j < i && log[j] == CallDialog(e.chat, e.turn, e.index, e.sid, "run_python", true))
          && (e.via == TrustWindow ==>
                exists k :: 0 <= k < i && OpenedWithConsent(log, k) && log[k].request.sid == e.sid
                  && "run_python" in log[k].request.tools
                  && log[k].atMs <= e.gateMs < log[k].atMs + 3_600_000)
        else e.tool in {"fs_read", "excel_workbooks", "excel_range_read"} && e.via == Auto
  {
    MutationsHadConsent(cfg, steps, i);
    ConsentHolds(cfg, steps);
    var log := After(cfg, steps).value.log;
    if i < |log| && log[i].Ran? {
      assert RanWithConsent(log, i);
      RegistryIs(log[i].tool);
    }
  }

  lemma WindowWithinTheHour(log: seq<Event>, i: nat)
    requires i < |log| && log[i].Ran? && RanWithConsent(log, i)
    ensures var e := log[i];
      Find(e.tool).value.mutates && e.via == TrustWindow ==>
        exists k :: 0 <= k < i && OpenedWithConsent(log, k) && log[k].request.sid == e.sid
          && e.tool in log[k].request.tools
          && log[k].atMs <= e.gateMs < log[k].atMs + 3_600_000
  {
    var e := log[i];
    if Find(e.tool).value.mutates && e.via == TrustWindow {
      var k :| k < i && OpenedWithConsent(log, k) && log[k].request.sid == e.sid && e.tool in log[k].request.tools
        && log[k].atMs <= e.gateMs < log[k].atMs + Lifetime(log[k].request.secs);
      assert Lifetime(log[k].request.secs) <= 3_600_000;
    }
  }

  /** In every run, a label in a tool message of a chat's own part is the label under which that very
      tool use ran: message 2t - 1 of that part holds the results of its turn t. Of the part the chat
      cloned `Provenance.LabelsOfToolMessagesAreTruthful` says which labels are backed by a run. */
  lemma LabelsAreTruthful(cfg: Config, steps: seq<Step>, c: nat, t: nat, k: nat)
    requires After(cfg, steps).Some? && t > 0
    ensures var s := After(cfg, steps).value;
      c in s.chats ==>
        var own := Transcript.OwnPart(s.chats[c]);
        2 * t - 1 < |own| && k < |own[2 * t - 1].content| ==>
          Labelled(s.log, c, t, k, own[2 * t - 1].content[k])
  {
    ConsentHolds(cfg, steps);
    var s := After(cfg, steps).value;
    if c in s.chats {
      assert ChatInv(s.log, c, s.chats[c], s.nowMs);
      LabelAt(s.log, c, Transcript.OwnPart(s.chats[c]), t, k);
    }
  }

  lemma LabelAt(log: seq<Event>, c: nat, own: seq<ChatMessage>, t: nat, k: nat)
    requires OwnLabelled(log, c, own) && t > 0
    ensures 2 * t - 1 < |own| && k < |own[2 * t - 1].content| ==> Labelled(log, c, t, k, own[2 * t - 1].content[k])
  {
    assert (2 * t - 1) % 2 == 1 && (2 * t - 1 + 1) / 2 == t;
  }
}
