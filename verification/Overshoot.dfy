/** Runs that overshoot the daily cap as far as `Budget.OvershootBound` allows. */
module Overshoot {
  import opened Wrappers
  import opened Types
  import opened Sums
  import opened Tools
  import opened Auth
  import opened Engine
  import opened Budget
  import Cost

  /** A state a modest run reaches. */
  ghost predicate Reach(cfg: Config, s: State, n: nat, most: nat) {
    exists steps :: ModestRun(cfg, steps, n, most) && After(cfg, steps) == Some(s)
  }

  lemma Further(cfg: Config, s: State, step: Step, n: nat, most: nat)
    requires Reach(cfg, s, n, most) && Enabled(s, step) && Modest(Apply(cfg, s, step), n, most)
    ensures Reach(cfg, Apply(cfg, s, step), n, most)
  {
    var steps :| ModestRun(cfg, steps, n, most) && After(cfg, steps) == Some(s);
    var more := steps + [step];
    assert more[..|more| - 1] == steps;
    assert ModestRun(cfg, more, n, most);
  }

  // ---- The scene ----------------------------------------------------------------------------------

  const TOKEN := "t"
  const USE: ContentBlock := ToolUse("", "", Null)

  /** A turn that asks for a tool nobody has and uses `k` input tokens. */
  function TurnOf(k: nat): ProviderTurn {
    ProviderTurn(ChatMessage(Assistant, None, [USE]), EndTurn, Cost.Usage(k, 0))
  }

  /** A turn that asks for no tool and uses `k` input tokens. */
  function LastOf(k: nat): ProviderTurn {
    ProviderTurn(ChatMessage(Assistant, None, []), EndTurn, Cost.Usage(k, 0))
  }

  lemma TurnHasOneUse(k: nat)
    ensures Uses(TurnOf(k)) == [USE] && Find("").None?
  {
    assert [USE][1..] == [] && ToolUses([]) == [];
    FindInReturnsRegistered(BUILTIN_TOOLS, "");
    assert forall i :: 0 <= i < |BUILTIN_TOOLS| ==> |BUILTIN_TOOLS[i].name| > 0;
  }

  /** A token for chats, one session with a priced provider, and nobody about to record. */
  ghost predicate Set(s: State) {
    && Authorized(s, TOKEN)
    && 0 in s.sessions && s.sessions[0].provider == "anthropic" && s.sessions[0].model == ""
    && forall c :: c in s.chats ==> !s.chats[c].phase.Recording?
  }

  /** Chat `c` is about to make turn `turns + 1`. */
  ghost predicate Poised(s: State, c: nat, turns: nat) {
    && c in s.chats && s.chats[c].phase.Ready? && s.chats[c].turns == turns && s.chats[c].sid == 0
    && s.chats[c].session.Some? && s.chats[c].session.value.provider == "anthropic"
       && s.chats[c].session.value.model == ""
  }

  /** What a move of chat `c` leaves alone. */
  ghost predicate OnlyMoved(s: State, t: State, c: nat) {
    && c in s.chats && c in t.chats && t.chats - {c} == s.chats - {c}
    && t.tokens == s.tokens && t.nowMs == s.nowMs && t.sessions.Keys == s.sessions.Keys
    && (forall sid :: sid in s.sessions ==>
          t.sessions[sid].provider == s.sessions[sid].provider && t.sessions[sid].model == s.sessions[sid].model)
  }

  lemma CommitOnlyMoves(s: State, c: nat, m: Moved)
    requires c in s.chats
    ensures OnlyMoved(s, Commit(s, c, m), c)
    ensures Commit(s, c, m).chats[c] == m.chat && Commit(s, c, m).rows == RowsWith(s.rows, m.effect)
  {
  }

  lemma StillSet(s: State, t: State, c: nat)
    requires Set(s) && OnlyMoved(s, t, c) && !t.chats[c].phase.Recording?
    ensures Set(t)
  {
    forall d | d in t.chats ensures !t.chats[d].phase.Recording? {
      if d != c {
        assert d in t.chats - {c};
        assert (t.chats - {c})[d] == (s.chats - {c})[d];
      }
    }
  }

  lemma StillModest(s: State, t: State, c: nat, n: nat, most: nat)
    requires OnlyMoved(s, t, c) && |InFlight(s)| <= n && c in InFlight(s)
    requires forall d :: d in s.chats && d != c ==> !s.chats[d].phase.Recording?
    requires t.chats[c].phase.Recording? && t.chats[c].session.Some? ==>
      EntryFor(t.chats[c].session.value, t.chats[c].phase.turn, t.nowMs).usd <= most
    ensures Modest(t, n, most)
  {
    forall d | d in t.chats && d != c ensures d in s.chats && t.chats[d] == s.chats[d] {
      assert d in t.chats - {c};
      assert (t.chats - {c})[d] == (s.chats - {c})[d];
    }
    assert InFlight(t) <= InFlight(s);
    CardinalityOfSubset(InFlight(t), InFlight(s));
  }

  lemma CardinalityOfSubset(a: set<nat>, b: set<nat>)
    requires a <= b
    ensures |a| <= |b|
  {
    assert b == a + (b - a);
  }

  lemma PriceOf(k: nat)
    requires k * 3_000_000 <= U64_MAX
    ensures Cost.CostFor("anthropic", "", Cost.Usage(k, 0)) == 3 * k
  {
    Cost.BuiltinIsExact("anthropic", "", Cost.Usage(k, 0));
  }

  // ---- One turn, move by move ---------------------------------------------------------------------

  lemma Answers(cfg: Config, s: State, c: nat, turn: ProviderTurn, n: nat, most: nat) returns (t: State)
    requires Reach(cfg, s, n, most) && Set(s) && |InFlight(s)| <= n
    requires c in s.chats && Poised(s, c, s.chats[c].turns)
    requires turn.usage.input * 3_000_000 <= U64_MAX && 3 * turn.usage.input <= most && turn.usage.output == 0
    ensures Reach(cfg, t, n, most) && OnlyMoved(s, t, c) && t.rows == s.rows
    ensures t.chats[c].phase == Recording(turn) && t.chats[c].turns == s.chats[c].turns + 1
    ensures t.chats[c].sid == 0 && t.chats[c].session == s.chats[c].session
    ensures forall d :: d in s.chats && d != c ==> !s.chats[d].phase.Recording?
  {
    var move := Provider(Ok(turn));
    var m := ProviderMove(s, s.chats[c], Ok(turn));
    t := Commit(s, c, m);
    CommitOnlyMoves(s, c, m);
    PriceOf(turn.usage.input);
    assert c in InFlight(s);
    StillModest(s, t, c, n, most);
    Further(cfg, s, Advance(c, move), n, most);
  }

  lemma Records(cfg: Config, s: State, c: nat, turn: ProviderTurn, n: nat, most: nat) returns (t: State)
    requires Reach(cfg, s, n, most) && c in s.chats && |InFlight(s)| <= n
    requires s.chats[c].phase == Recording(turn) && s.chats[c].session.Some?
    requires s.chats[c].session.value.provider == "anthropic" && s.chats[c].session.value.model == ""
    requires forall d :: d in s.chats && d != c ==> !s.chats[d].phase.Recording?
    requires turn.usage.input * 3_000_000 <= U64_MAX && turn.usage.output == 0
    requires Cost.Total(s.rows) + 3 * turn.usage.input <= U64_MAX
    ensures Reach(cfg, t, n, most) && OnlyMoved(s, t, c)
    ensures Cost.Total(t.rows) == Cost.Total(s.rows) + 3 * turn.usage.input
    ensures if Uses(turn) == [] then t.chats[c].phase.Finished? else t.chats[c].phase == Dispatching(turn, [])
    ensures t.chats[c].turns == s.chats[c].turns
    ensures t.chats[c].sid == s.chats[c].sid && t.chats[c].session == s.chats[c].session
  {
    var m := RecordMove(s, s.chats[c]);
    t := Commit(s, c, m);
    CommitOnlyMoves(s, c, m);
    PriceOf(turn.usage.input);
    Cost.RecordAddsCost(s.rows, m.effect.entry);
    assert c in InFlight(s);
    StillModest(s, t, c, n, most);
    Further(cfg, s, Advance(c, Record), n, most);
  }

  lemma IsRefused(cfg: Config, s: State, c: nat, k: nat, n: nat, most: nat) returns (t: State)
    requires Reach(cfg, s, n, most) && c in s.chats && |InFlight(s)| <= n
    requires s.chats[c].phase == Dispatching(TurnOf(k), []) && s.chats[c].session.Some?
    requires forall d :: d in s.chats && d != c ==> !s.chats[d].phase.Recording?
    ensures Reach(cfg, t, n, most) && OnlyMoved(s, t, c) && t.rows == s.rows
    ensures t.chats[c].phase.Dispatching? && t.chats[c].phase.turn == TurnOf(k) && |t.chats[c].phase.results| == 1
    ensures t.chats[c].turns == s.chats[c].turns && t.chats[c].sid == s.chats[c].sid
      && t.chats[c].session == s.chats[c].session
  {
    TurnHasOneUse(k);
    var m := PassGateMove(s, s.chats[c]);
    t := Commit(s, c, m);
    CommitOnlyMoves(s, c, m);
    assert c in InFlight(s);
    StillModest(s, t, c, n, most);
    Further(cfg, s, Advance(c, PassGate), n, most);
  }

  lemma GoesOn(cfg: Config, s: State, c: nat, k: nat, n: nat, most: nat) returns (t: State)
    requires Reach(cfg, s, n, most) && c in s.chats && |InFlight(s)| <= n && 0 in s.sessions && s.chats[c].sid == 0
    requires s.chats[c].phase.Dispatching? && s.chats[c].phase.turn == TurnOf(k) && |s.chats[c].phase.results| == 1
    requires forall d :: d in s.chats && d != c ==> !s.chats[d].phase.Recording?
    ensures Reach(cfg, t, n, most) && OnlyMoved(s, t, c) && t.rows == s.rows
    ensures t.chats[c].turns == s.chats[c].turns && t.chats[c].sid == 0 && t.chats[c].session == s.chats[c].session
    ensures if s.chats[c].turns == MAX_TURNS then t.chats[c].phase.Finished? else t.chats[c].phase.Ready?
  {
    TurnHasOneUse(k);
    var m := StoreResultsMove(s, s.chats[c]);
    t := Commit(s, c, m);
    CommitOnlyMoves(s, c, m);
    assert c in InFlight(s);
    StillModest(s, t, c, n, most);
    Further(cfg, s, Advance(c, StoreResults), n, most);
  }

  lemma ReachIsModest(cfg: Config, s: State, n: nat, most: nat)
    requires Reach(cfg, s, n, most)
    ensures |InFlight(s)| <= n
  {
  }

  lemma OnlyMovedTwice(s: State, t: State, u: State, c: nat)
    requires OnlyMoved(s, t, c) && OnlyMoved(t, u, c)
    ensures OnlyMoved(s, u, c)
  {
  }

  /** Only the moved chat can have begun to record. */
  lemma OthersDoNotRecord(s: State, t: State, c: nat)
    requires OnlyMoved(s, t, c) && forall d :: d in s.chats && d != c ==> !s.chats[d].phase.Recording?
    ensures forall d :: d in t.chats && d != c ==> !t.chats[d].phase.Recording?
  {
    forall d | d in t.chats && d != c ensures !t.chats[d].phase.Recording? {
      assert d in t.chats - {c};
      assert (t.chats - {c})[d] == (s.chats - {c})[d];
    }
  }

  /** A whole turn: one price more, and nobody else was touched. */
  lemma OneTurn(cfg: Config, s: State, c: nat, turns: nat, k: nat, n: nat, most: nat) returns (t: State)
    requires Reach(cfg, s, n, most) && Set(s) && Poised(s, c, turns) && turns < MAX_TURNS
    requires k * 3_000_000 <= U64_MAX && most == 3 * k && Cost.Total(s.rows) + 3 * k <= U64_MAX
    ensures Reach(cfg, t, n, most) && Set(t) && OnlyMoved(s, t, c) && Cost.Total(t.rows) == Cost.Total(s.rows) + 3 * k
    ensures if turns + 1 == MAX_TURNS then t.chats[c].phase.Finished? else Poised(t, c, turns + 1)
  {
    ReachIsModest(cfg, s, n, most);
    TurnHasOneUse(k);
    var t1 := Answers(cfg, s, c, TurnOf(k), n, most);
    ReachIsModest(cfg, t1, n, most);
    OthersDoNotRecord(s, t1, c);
    var t2 := Records(cfg, t1, c, TurnOf(k), n, most);
    ReachIsModest(cfg, t2, n, most);
    OthersDoNotRecord(t1, t2, c);
    var t3 := IsRefused(cfg, t2, c, k, n, most);
    ReachIsModest(cfg, t3, n, most);
    OthersDoNotRecord(t2, t3, c);
    t := GoesOn(cfg, t3, c, k, n, most);
    OnlyMovedTwice(s, t1, t2, c);
    OnlyMovedTwice(s, t2, t3, c);
    OnlyMovedTwice(s, t3, t, c);
    StillSet(s, t, c);
  }

  lemma {:induction false} LastTurns(cfg: Config, s: State, c: nat, turns: nat, k: nat, n: nat, most: nat)
    returns (t: State)
    requires Reach(cfg, s, n, most) && Set(s) && Poised(s, c, turns) && turns < MAX_TURNS
    requires k * 3_000_000 <= U64_MAX && most == 3 * k && Cost.Total(s.rows) + 24 * k <= U64_MAX + 3 * k * turns
    ensures Reach(cfg, t, n, most) && Set(t) && OnlyMoved(s, t, c) && t.chats[c].phase.Finished?
    ensures Cost.Total(t.rows) + 3 * k * turns == Cost.Total(s.rows) + 24 * k
    decreases MAX_TURNS - turns
  {
    Steps(k, turns);
    t := OneTurn(cfg, s, c, turns, k, n, most);
    if turns + 1 < MAX_TURNS {
      var u := LastTurns(cfg, t, c, turns + 1, k, n, most);
      OnlyMovedTwice(s, t, u, c);
      t := u;
    }
  }

  lemma Steps(k: nat, turns: nat)
    ensures 3 * k * (turns + 1) == 3 * k * turns + 3 * k
    ensures turns < MAX_TURNS ==> 3 * k * turns + 3 * k <= 24 * k
    ensures turns + 1 == MAX_TURNS ==> 3 * k * turns + 3 * k == 24 * k
  {
    if turns < MAX_TURNS {
      Cost.MulMonotone(turns + 1, MAX_TURNS, 3 * k);
    }
  }

  // ---- All chats, admitted before the first one spends --------------------------------------------

  /** Chat `c` is new and goes as far as its first question. */
  lemma Joins(cfg: Config, s: State, c: nat, n: nat, most: nat) returns (t: State)
    requires Reach(cfg, s, n, most) && Set(s) && c !in s.chats && |InFlight(s)| < n
    requires Cost.Total(s.rows) < cfg.cap && "anthropic" in cfg.providers
    ensures Reach(cfg, t, n, most) && Set(t) && t.rows == s.rows && Poised(t, c, 0)
    ensures t.chats - {c} == s.chats
  {
    t := Enters(cfg, s, c, n, most);
    var t1 := Gets(cfg, t, c, n, most);
    var t2 := Stores(cfg, t1, c, n, most);
    var t3 := Clones(cfg, t2, c, n, most);
    OnlyMovedTwice(t, t1, t2, c);
    OnlyMovedTwice(t, t2, t3, c);
    StillSet(t, t3, c);
    t := t3;
  }

  const NEWCOMER: Chat := Chat(TOKEN, 0, [], false, None, [], None, 0, 0, Admitted)

  lemma Shrinks(total: nat)
    ensures total % Cost.U64 <= total
  {
  }

  lemma AdmittedBelowTheCap(cfg: Config, s: State, c: nat)
    requires Authorized(s, TOKEN) && c !in s.chats && Cost.Total(s.rows) < cfg.cap
    ensures Apply(cfg, s, Admit(c, TOKEN, 0, [], false)) == s.(chats := s.chats[c := NEWCOMER])
  {
    Shrinks(Cost.Total(s.rows));
    assert !Cost.Over(s.rows, cfg.cap);
  }

  lemma OneMoreInFlight(s: State, c: nat, n: nat, most: nat)
    requires Set(s) && c !in s.chats && |InFlight(s)| < n
    ensures var t := s.(chats := s.chats[c := NEWCOMER]); Modest(t, n, most) && Set(t) && t.chats - {c} == s.chats
  {
    var t := s.(chats := s.chats[c := NEWCOMER]);
    assert t.chats - {c} == s.chats;
    assert InFlight(t) == InFlight(s) + {c};
  }

  lemma Enters(cfg: Config, s: State, c: nat, n: nat, most: nat) returns (t: State)
    requires Reach(cfg, s, n, most) && Set(s) && c !in s.chats && |InFlight(s)| < n
    requires Cost.Total(s.rows) < cfg.cap
    ensures Reach(cfg, t, n, most) && Set(t) && t.rows == s.rows && |InFlight(t)| <= n
    ensures c in t.chats && t.chats - {c} == s.chats && t.chats[c] == NEWCOMER
  {
    t := s.(chats := s.chats[c := NEWCOMER]);
    AdmittedBelowTheCap(cfg, s, c);
    OneMoreInFlight(s, c, n, most);
    Further(cfg, s, Admit(c, TOKEN, 0, [], false), n, most);
  }

  lemma Gets(cfg: Config, s: State, c: nat, n: nat, most: nat) returns (t: State)
    requires Reach(cfg, s, n, most) && Set(s) && |InFlight(s)| <= n && "anthropic" in cfg.providers
    requires c in s.chats && s.chats[c].phase == Admitted && s.chats[c].sid == 0 && s.chats[c].turns == 0
    ensures Reach(cfg, t, n, most) && Set(t) && OnlyMoved(s, t, c) && t.rows == s.rows && |InFlight(t)| <= n
    ensures t.chats[c].phase == Found && t.chats[c].sid == 0 && t.chats[c].turns == 0
    ensures t.chats[c].session == Some(s.sessions[0])
  {
    var m := GetMove(cfg, s, s.chats[c]);
    t := Commit(s, c, m);
    CommitOnlyMoves(s, c, m);
    assert c in InFlight(s);
    StillModest(s, t, c, n, most);
    Further(cfg, s, Advance(c, Get), n, most);
    StillSet(s, t, c);
  }

  lemma Stores(cfg: Config, s: State, c: nat, n: nat, most: nat) returns (t: State)
    requires Reach(cfg, s, n, most) && Set(s) && |InFlight(s)| <= n
    requires c in s.chats && s.chats[c].phase == Found && s.chats[c].sid == 0
    ensures Reach(cfg, t, n, most) && Set(t) && OnlyMoved(s, t, c) && t.rows == s.rows && |InFlight(t)| <= n
    ensures t.chats[c].phase == Stored && t.chats[c].sid == 0 && t.chats[c].turns == s.chats[c].turns
    ensures t.chats[c].session == s.chats[c].session
  {
    var m := StoreUserMove(s, s.chats[c]);
    t := Commit(s, c, m);
    CommitOnlyMoves(s, c, m);
    assert c in InFlight(s);
    StillModest(s, t, c, n, most);
    Further(cfg, s, Advance(c, StoreUser), n, most);
    StillSet(s, t, c);
  }

  lemma Clones(cfg: Config, s: State, c: nat, n: nat, most: nat) returns (t: State)
    requires Reach(cfg, s, n, most) && Set(s) && |InFlight(s)| <= n
    requires c in s.chats && s.chats[c].phase == Stored && s.chats[c].sid == 0
    ensures Reach(cfg, t, n, most) && Set(t) && OnlyMoved(s, t, c) && t.rows == s.rows
    ensures t.chats[c].phase == Ready && t.chats[c].sid == 0 && t.chats[c].turns == s.chats[c].turns
    ensures t.chats[c].session == s.chats[c].session
  {
    var m := SnapshotMove(s, s.chats[c]);
    t := Commit(s, c, m);
    CommitOnlyMoves(s, c, m);
    assert c in InFlight(s);
    StillModest(s, t, c, n, most);
    Further(cfg, s, Advance(c, Snapshot), n, most);
    StillSet(s, t, c);
  }

  /** Chats up to `n` and no others, those from `from` on poised for their first turn. */
  ghost predicate Waiting(s: State, from: nat, n: nat) {
    && (forall c :: c in s.chats ==> c < n)
    && (forall c :: from <= c < n ==> Poised(s, c, 0))
  }

  /** The chats before `first` are over. */
  ghost predicate OverBefore(s: State, first: nat) {
    forall c :: c in s.chats && c < first ==> s.chats[c].phase.Finished?
  }

  lemma PoisedElsewhere(s: State, t: State, c: nat, d: nat)
    requires c != d && t.chats - {c} == s.chats - {c} && Poised(s, d, 0)
    ensures Poised(t, d, 0)
  {
    assert d in s.chats - {c};
    assert (t.chats - {c})[d] == (s.chats - {c})[d];
  }

  lemma FewInFlight(s: State, first: nat, i: nat)
    requires OverBefore(s, first) && forall c :: c in s.chats ==> c < first + i
    ensures |InFlight(s)| <= i
  {
    RangeHas(first, i);
    CardinalityOfSubset(InFlight(s), Range(first, i));
  }

  function Range(first: nat, i: nat): set<nat> {
    if i == 0 then {} else Range(first, i - 1) + {first + i - 1}
  }

  lemma {:induction false} RangeHas(first: nat, i: nat)
    ensures |Range(first, i)| == i && forall c: nat :: c in Range(first, i) <==> first <= c < first + i
  {
    if i > 0 {
      RangeHas(first, i - 1);
      assert Range(first, i - 1) * {first + i - 1} == {};
    }
  }

  /** `i` new chats, from number `first` on. */
  lemma {:induction false} AllJoin(cfg: Config, s: State, first: nat, i: nat, n: nat, most: nat) returns (t: State)
    requires i <= n && Reach(cfg, s, n, most) && Set(s) && Waiting(s, first, first) && OverBefore(s, first)
    requires Cost.Total(s.rows) < cfg.cap && "anthropic" in cfg.providers
    ensures Reach(cfg, t, n, most) && Set(t) && t.rows == s.rows
    ensures Waiting(t, first, first + i) && OverBefore(t, first)
  {
    if i == 0 {
      t := s;
    } else {
      var c := first + i - 1;
      var before := AllJoin(cfg, s, first, i - 1, n, most);
      FewInFlight(before, first, i - 1);
      t := Joins(cfg, before, c, n, most);
      OneMoreWaits(before, t, first, c);
    }
  }

  lemma OneMoreWaits(s: State, t: State, first: nat, c: nat)
    requires first <= c && Waiting(s, first, c) && OverBefore(s, first)
    requires t.chats - {c} == s.chats && Poised(t, c, 0)
    ensures Waiting(t, first, c + 1) && OverBefore(t, first)
  {
    assert c !in s.chats && s.chats - {c} == s.chats;
    forall d | first <= d < c ensures Poised(t, d, 0) {
      PoisedElsewhere(s, t, c, d);
    }
    forall d | d in t.chats ensures d <= c && (d < first ==> t.chats[d].phase.Finished?) {
      assert d != c ==> d in t.chats - {c} && (t.chats - {c})[d] == s.chats[d];
    }
  }

  /** The handshake and the session. */
  lemma Opens(cfg: Config, n: nat, most: nat) returns (s: State)
    ensures Reach(cfg, s, n, most) && Set(s) && Waiting(s, 0, 0) && OverBefore(s, 0) && Cost.Total(s.rows) == 0
  {
    assert ModestRun(cfg, [], n, most) by {
      assert InFlight(INIT) == {};
    }
    assert Reach(cfg, INIT, n, most);
    var first := DoHandshake(TOKEN, [AiProviderCall], [], true);
    s := Apply(cfg, INIT, first);
    assert s.tokens == map[TOKEN := NewRecord([AiProviderCall], [], 0)];
    assert InFlight(s) == {};
    Further(cfg, INIT, first, n, most);
    var second := OpenSession(TOKEN, 0, "anthropic", "");
    var t := Apply(cfg, s, second);
    assert InFlight(t) == {};
    Further(cfg, s, second, n, most);
    s := t;
    assert Cost.UsdOf(s.rows) == map[];
  }

  lemma StillWaiting(s: State, t: State, i: nat, n: nat)
    requires Waiting(s, i, n) && OnlyMoved(s, t, i)
    ensures Waiting(t, i + 1, n)
  {
    forall c | i + 1 <= c < n ensures Poised(t, c, 0) {
      PoisedElsewhere(s, t, i, c);
    }
    forall c | c in t.chats ensures c < n {
      assert c != i ==> c in t.chats - {i} && c in s.chats;
    }
  }

  /** A chat's eight turns, from the first. */
  lemma EightTurns(cfg: Config, s: State, c: nat, k: nat, each: nat, n: nat, most: nat) returns (t: State)
    requires Reach(cfg, s, n, most) && Set(s) && Poised(s, c, 0)
    requires k * 3_000_000 <= U64_MAX && most == 3 * k && each == 24 * k && Cost.Total(s.rows) + each <= U64_MAX
    ensures Reach(cfg, t, n, most) && Set(t) && OnlyMoved(s, t, c) && Cost.Total(t.rows) == Cost.Total(s.rows) + each
  {
    t := LastTurns(cfg, s, c, 0, k, n, most);
  }

  lemma {:induction false} AllSpend(cfg: Config, s: State, i: nat, end: nat, k: nat, each: nat, n: nat, most: nat)
    returns (t: State)
    requires i <= end && Reach(cfg, s, n, most) && Set(s) && Waiting(s, i, end)
    requires k * 3_000_000 <= U64_MAX && most == 3 * k && each == 24 * k
      && Cost.Total(s.rows) + each * (end - i) <= U64_MAX
    ensures Reach(cfg, t, n, most) && Cost.Total(t.rows) == Cost.Total(s.rows) + each * (end - i)
    decreases end - i
  {
    if i == end {
      t := s;
    } else {
      Times(each, end - i - 1);
      NonNegative(each, end - i - 1);
      var next := EightTurns(cfg, s, i, k, each, n, most);
      StillWaiting(s, next, i, end);
      t := AllSpend(cfg, next, i + 1, end, k, each, n, most);
    }
  }

  // ---- Up to the cap ------------------------------------------------------------------------------

  /** A new chat has one turn of `j` input tokens and is over. */
  lemma SpendsOnce(cfg: Config, s: State, c: nat, j: nat, n: nat, most: nat) returns (t: State)
    requires n > 0 && Reach(cfg, s, n, most) && Set(s) && Waiting(s, c, c) && OverBefore(s, c)
    requires Cost.Total(s.rows) < cfg.cap && "anthropic" in cfg.providers
    requires j * 3_000_000 <= U64_MAX && 3 * j <= most && Cost.Total(s.rows) + 3 * j <= U64_MAX
    ensures Reach(cfg, t, n, most) && Set(t) && Waiting(t, c + 1, c + 1) && OverBefore(t, c + 1)
    ensures Cost.Total(t.rows) == Cost.Total(s.rows) + 3 * j
  {
    FewInFlight(s, c, 0);
    var t1 := Joins(cfg, s, c, n, most);
    OneMoreWaits(s, t1, c, c);
    ReachIsModest(cfg, t1, n, most);
    var t2 := Answers(cfg, t1, c, LastOf(j), n, most);
    OthersDoNotRecord(t1, t2, c);
    ReachIsModest(cfg, t2, n, most);
    t := Records(cfg, t2, c, LastOf(j), n, most);
    OnlyMovedTwice(t1, t2, t, c);
    StillSet(t1, t, c);
    forall d | d in t.chats ensures d <= c && t.chats[d].phase.Finished? {
      assert d != c ==> d in t.chats - {c} && (t.chats - {c})[d] == (t1.chats - {c})[d];
    }
  }

  /** Chats one after the other spend `3 * units`. */
  lemma {:induction false} SpendUpTo(cfg: Config, s: State, c: nat, units: nat, k: nat, n: nat, most: nat)
    returns (t: State, end: nat)
    requires Reach(cfg, s, n, most) && Set(s) && Waiting(s, c, c) && OverBefore(s, c)
    requires units > 0 ==> n > 0 && k > 0
    requires "anthropic" in cfg.providers && Cost.Total(s.rows) + 3 * units < cfg.cap <= U64_MAX + 1
    requires k * 3_000_000 <= U64_MAX && most == 3 * k
    ensures Reach(cfg, t, n, most) && Set(t) && Waiting(t, end, end) && OverBefore(t, end)
    ensures Cost.Total(t.rows) == Cost.Total(s.rows) + 3 * units
    decreases units
  {
    if units == 0 {
      t, end := s, c;
    } else {
      var j := if units < k then units else k;
      var next := SpendsOnce(cfg, s, c, j, n, most);
      t, end := SpendUpTo(cfg, next, c + 1, units - j, k, n, most);
    }
  }

  /** How close a run can come to the cap before `n` chats are admitted and then have all their turns.
      Built-in prices of input tokens are multiples of three, so the spending before stops at the last
      multiple of three below the cap: at caps that are one more than such a multiple the total is the
      bound of `Budget.OvershootBound`, at the others at most two below it. */
  lemma BoundIsMet(cfg: Config, n: nat, k: nat) returns (steps: seq<Step>)
    requires cfg.cap > 0 && "anthropic" in cfg.providers && (cfg.cap > 3 ==> n > 0 && k > 0)
    requires k * 3_000_000 <= U64_MAX && cfg.cap - 1 + 24 * k * n <= U64_MAX
    ensures ModestRun(cfg, steps, n, 3 * k)
    ensures Cost.Total(After(cfg, steps).value.rows) == cfg.cap - 1 - (cfg.cap - 1) % 3 + 8 * n * (3 * k)
  {
    Product(n, k);
    NonNegative(24 * k, n);
    var units := (cfg.cap - 1) / 3;
    var s := Opens(cfg, n, 3 * k);
    var t, first := SpendUpTo(cfg, s, 0, units, k, n, 3 * k);
    var u := AllJoin(cfg, t, first, n, n, 3 * k);
    var v := AllSpend(cfg, u, first, first + n, k, 24 * k, n, 3 * k);
    steps :| ModestRun(cfg, steps, n, 3 * k) && After(cfg, steps) == Some(v);
  }

  lemma Product(n: nat, k: nat)
    ensures 8 * n * (3 * k) == 24 * k * n
  {
  }
}
