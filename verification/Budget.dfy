/** How far concurrent chats can overshoot the daily cap.

    The cap is only compared with the rollup when a chat is admitted. A chat already admitted can
    make up to eight provider turns, each recorded only after it happened, and other chats may be
    admitted meanwhile. */
module Budget {
  import opened Types
  import opened Sums
  import opened Engine
  import Cost

  // ---- Turns and records of one chat ----------------------------------------------------------

  /** At most eight turns, each recorded once, right after it. */
  predicate TurnInv(chat: Chat) {
    && chat.records <= chat.turns <= MAX_TURNS && chat.turns <= chat.records + 1
    && match chat.phase
       case Admitted => chat.turns == 0
       case Found => chat.turns == 0
       case Stored => chat.turns == 0
       case Ready => chat.turns == chat.records < MAX_TURNS
       case Recording(_) => chat.turns == chat.records + 1
       case Dispatching(_, _) => chat.turns == chat.records
       case Asking(_, _) => chat.turns == chat.records
       case Passed(_, _, _, _) => chat.turns == chat.records
       case Finished(_) => true
  }

  lemma MoveKeepsTurnInv(cfg: Config, s: State, c: nat, chat: Chat, move: Move)
    requires MoveEnabled(chat, move) && TurnInv(chat)
    ensures TurnInv(MoveOf(cfg, s, c, chat, move).chat)
  {
  }

  /** Provider turns the chat may still record. */
  function Remaining(chat: Chat): nat {
    if chat.phase.Finished? || chat.records >= MAX_TURNS then 0 else MAX_TURNS - chat.records
  }

  /** A move never gives a chat more turns; recording one uses one up. */
  lemma MoveSpendsTurns(cfg: Config, s: State, c: nat, chat: Chat, move: Move)
    requires MoveEnabled(chat, move) && TurnInv(chat)
    ensures var m := MoveOf(cfg, s, c, chat, move);
      && Remaining(m.chat) <= Remaining(chat)
      && (m.effect.Spend? <==> move.Record?)
      && (move.Record? ==> Remaining(m.chat) + 1 <= Remaining(chat))
  {
  }

  // ---- The bound ------------------------------------------------------------------------------

  ghost function Pending(chats: map<nat, Chat>): map<nat, nat> {
    map c | c in chats :: Remaining(chats[c])
  }

  /** Turns all chats together may still record. */
  ghost function Potential(s: State): nat {
    MapSum(Pending(s.chats))
  }

  ghost function InFlight(s: State): set<nat> {
    set c | c in s.chats && !s.chats[c].phase.Finished?
  }

  /** At most `n` chats in flight, and no turn about to be recorded costs more than `most`. */
  ghost predicate Modest(s: State, n: nat, most: nat) {
    && |InFlight(s)| <= n
    && forall c :: c in s.chats && s.chats[c].phase.Recording? && s.chats[c].session.Some? ==>
         EntryFor(s.chats[c].session.value, s.chats[c].phase.turn, s.nowMs).usd <= most
  }

  /** Every state of the run is modest. */
  ghost predicate ModestRun(cfg: Config, steps: seq<Step>, n: nat, most: nat) {
    && After(cfg, steps).Some?
    && Modest(After(cfg, steps).value, n, most)
    && (steps != [] ==> ModestRun(cfg, steps[..|steps| - 1], n, most))
  }

  /** The spending already made plus the most that can still come stays under the bound. */
  ghost predicate BudgetInv(s: State, bound: nat, most: nat) {
    && (forall c :: c in s.chats ==> TurnInv(s.chats[c]))
    && Cost.Total(s.rows) + most * Potential(s) <= bound
  }

  lemma PotentialOf(s: State, t: State, c: nat)
    requires c in t.chats && t.chats == s.chats[c := t.chats[c]]
    ensures Potential(t) == Potential(s) + Remaining(t.chats[c]) - (if c in s.chats then Remaining(s.chats[c]) else 0)
  {
    MapSumUpdate(Pending(s.chats), c, Remaining(t.chats[c]));
    assert Pending(t.chats) == Pending(s.chats)[c := Remaining(t.chats[c])];
  }

  lemma PotentialBound(s: State, n: nat)
    requires |InFlight(s)| <= n
    ensures Potential(s) <= MAX_TURNS * n
  {
    MapSumBound(Pending(s.chats), InFlight(s), |InFlight(s)|, MAX_TURNS);
  }

  lemma Scale(c: nat, a: nat, b: nat)
    ensures a <= b ==> c * a <= c * b
    ensures a + 1 <= b ==> c * a + c <= c * b
  {
    if a + 1 <= b {
      Times(c, a);
      ScaleLe(c, a + 1, b);
    }
  }

  lemma ScaleLe(c: nat, a: nat, b: nat)
    requires a <= b
    ensures c * a <= c * b
  {
  }

  lemma MoveKeepsBudget(cfg: Config, s: State, c: nat, move: Move, bound: nat, most: nat)
    requires BudgetInv(s, bound, most) && bound <= U64_MAX
    requires c in s.chats && MoveEnabled(s.chats[c], move)
    requires s.chats[c].phase.Recording? && s.chats[c].session.Some? ==>
      EntryFor(s.chats[c].session.value, s.chats[c].phase.turn, s.nowMs).usd <= most
    ensures BudgetInv(Commit(s, c, MoveOf(cfg, s, c, s.chats[c], move)), bound, most)
  {
    var m := MoveOf(cfg, s, c, s.chats[c], move);
    var t := Commit(s, c, m);
    MoveKeepsTurnInv(cfg, s, c, s.chats[c], move);
    MoveSpendsTurns(cfg, s, c, s.chats[c], move);
    PotentialOf(s, t, c);
    Scale(most, Potential(t), Potential(s));
    if move.Record? {
      Cost.RecordAddsCost(s.rows, m.effect.entry);
    }
  }

  /** An admission happens below the cap; whatever is in flight then fits in `n` times eight turns. */
  lemma AdmissionKeepsBudget(cfg: Config, s: State, c: nat, chat: Chat, t: State, n: nat, most: nat)
    requires cfg.cap > 0 && c !in s.chats
    requires var bound := cfg.cap - 1 + most * (MAX_TURNS * n); bound <= U64_MAX && BudgetInv(s, bound, most)
    requires t == s.(chats := s.chats[c := chat]) && |InFlight(t)| <= n
    requires chat.turns == chat.records == 0
    requires chat.phase == if Cost.Over(s.rows, cfg.cap) then Finished(Failed(AiBudgetExceeded)) else Admitted
    ensures BudgetInv(t, cfg.cap - 1 + most * (MAX_TURNS * n), most)
  {
    PotentialOf(s, t, c);
    if !Cost.Over(s.rows, cfg.cap) {
      NonNegative(most, Potential(s));
      PotentialBound(t, n);
      ScaleLe(most, Potential(t), MAX_TURNS * n);
    }
  }

  lemma {:induction false} BudgetHolds(cfg: Config, steps: seq<Step>, n: nat, most: nat)
    requires cfg.cap > 0 && cfg.cap - 1 + most * (MAX_TURNS * n) <= U64_MAX
    requires ModestRun(cfg, steps, n, most)
    ensures BudgetInv(After(cfg, steps).value, cfg.cap - 1 + most * (MAX_TURNS * n), most)
  {
    var bound := cfg.cap - 1 + most * (MAX_TURNS * n);
    if steps == [] {
      assert Pending(INIT.chats) == map[];
      assert Cost.UsdOf(INIT.rows) == map[];
      NonNegative(most, MAX_TURNS * n);
    } else {
      var step := steps[|steps| - 1];
      var s := After(cfg, steps[..|steps| - 1]).value;
      BudgetHolds(cfg, steps[..|steps| - 1], n, most);
      StepKeepsBudget(cfg, s, step, n, most);
    }
  }

  lemma OtherStepKeepsBudget(cfg: Config, s: State, step: Step, n: nat, most: nat)
    requires cfg.cap > 0 && cfg.cap - 1 + most * (MAX_TURNS * n) <= U64_MAX
    requires Enabled(s, step) && !step.Advance? && |InFlight(OtherStep(cfg, s, step))| <= n
    requires BudgetInv(s, cfg.cap - 1 + most * (MAX_TURNS * n), most)
    ensures BudgetInv(OtherStep(cfg, s, step), cfg.cap - 1 + most * (MAX_TURNS * n), most)
  {
    if step.Admit? {
      var chat := NewChat(cfg, s, step.bearer, step.sid, step.user, step.planOnly);
      AdmissionKeepsBudget(cfg, s, step.c, chat, OtherStep(cfg, s, step), n, most);
    } else {
      OtherStepsKeepChats(cfg, s, step);
      SameSpending(s, OtherStep(cfg, s, step), cfg.cap - 1 + most * (MAX_TURNS * n), most);
    }
  }

  lemma StepKeepsBudget(cfg: Config, s: State, step: Step, n: nat, most: nat)
    requires cfg.cap > 0 && cfg.cap - 1 + most * (MAX_TURNS * n) <= U64_MAX
    requires Enabled(s, step) && Modest(s, n, most) && Modest(Apply(cfg, s, step), n, most)
    requires BudgetInv(s, cfg.cap - 1 + most * (MAX_TURNS * n), most)
    ensures BudgetInv(Apply(cfg, s, step), cfg.cap - 1 + most * (MAX_TURNS * n), most)
  {
    if step.Advance? {
      MoveKeepsBudget(cfg, s, step.c, step.move, cfg.cap - 1 + most * (MAX_TURNS * n), most);
    } else {
      OtherStepKeepsBudget(cfg, s, step, n, most);
    }
  }

  lemma SameSpending(s: State, t: State, bound: nat, most: nat)
    requires BudgetInv(s, bound, most) && t.chats == s.chats && t.rows == s.rows
    ensures BudgetInv(t, bound, most)
  {
  }

  /** For every interleaving of admissions, turns and records: with a nonzero cap, at most `n`
      chats in flight at a time and at most `most` micro-USD per turn, the recorded total never
      exceeds cap - 1 + 8*n*most. While that is below 2^64 the rollup's unchecked sum is exact, so
      the admission check compares the true total. */
  lemma OvershootBound(cfg: Config, steps: seq<Step>, n: nat, most: nat)
    requires cfg.cap > 0 && cfg.cap - 1 + most * (MAX_TURNS * n) <= U64_MAX
    requires ModestRun(cfg, steps, n, most)
    ensures var total := Cost.Total(After(cfg, steps).value.rows);
      && total <= cfg.cap - 1 + 8 * n * most
      && total % Cost.U64 == total
  {
    BudgetHolds(cfg, steps, n, most);
    BoundedTotal(After(cfg, steps).value, cfg.cap, n, most);
  }

  lemma BoundedTotal(s: State, cap: nat, n: nat, most: nat)
    requires cap > 0 && cap - 1 + most * (MAX_TURNS * n) <= U64_MAX
    requires BudgetInv(s, cap - 1 + most * (MAX_TURNS * n), most)
    ensures Cost.Total(s.rows) <= cap - 1 + 8 * n * most
    ensures Cost.Total(s.rows) % Cost.U64 == Cost.Total(s.rows)
  {
    NonNegative(most, Potential(s));
    Commute(most, n);
    Unwrapped(Cost.Total(s.rows));
  }

  lemma Unwrapped(total: nat)
    requires total <= U64_MAX
    ensures total % Cost.U64 == total
  {
  }

  lemma Commute(most: nat, n: nat)
    ensures most * (MAX_TURNS * n) == 8 * n * most
  {
    assert most * (MAX_TURNS * n) == (MAX_TURNS * n) * most;
  }
}
