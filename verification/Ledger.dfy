/** The ledger file and the rollup while several records are under way. */
module Ledger {
  import opened Sums
  import opened Wrappers
  import opened Cost

  /** `record` in flight: file append and map update are separate critical sections, so records
      of concurrent chats may apply them in different orders. A failed append is ignored, and a
      record whose request goes away stops where it is. */
  datatype Ledger = Ledger(
    file: seq<CostEntry>,
    rows: Rows,
    writing: multiset<CostEntry>,   // begun, file not yet appended
    written: multiset<CostEntry>,   // append done or failed, row not yet updated
    applied: seq<CostEntry>,        // history: row updates in order
    lost: seq<CostEntry>,           // history: appends that failed
    skipped: seq<CostEntry>)        // history: appended or lost, but the request went away before the row update

  datatype Step =
    | Begin(e: CostEntry)
    | Append(e: CostEntry)
    | Lose(e: CostEntry)
    | Update(e: CostEntry)
    | Quit(e: CostEntry)            // dropped before the append
    | Skip(e: CostEntry)            // dropped after the append

  predicate Enabled(s: Ledger, step: Step) {
    match step
    case Begin(_) => true
    case Append(e) => e in s.writing
    case Lose(e) => e in s.writing
    case Update(e) => e in s.written
    case Quit(e) => e in s.writing
    case Skip(e) => e in s.written
  }

  function Apply(s: Ledger, step: Step): Ledger
    requires Enabled(s, step)
  {
    var one := multiset{step.e};
    match step
    case Begin(e) => Ledger(s.file, s.rows, s.writing + one, s.written, s.applied, s.lost, s.skipped)
    case Append(e) => Ledger(s.file + [e], s.rows, s.writing - one, s.written + one, s.applied, s.lost, s.skipped)
    case Lose(e) => Ledger(s.file, s.rows, s.writing - one, s.written + one, s.applied, s.lost + [e], s.skipped)
    case Update(e) =>
      Ledger(s.file, RecordRow(s.rows, e), s.writing, s.written - one, s.applied + [e], s.lost, s.skipped)
    case Quit(e) => Ledger(s.file, s.rows, s.writing - one, s.written, s.applied, s.lost, s.skipped)
    case Skip(e) => Ledger(s.file, s.rows, s.writing, s.written - one, s.applied, s.lost, s.skipped + [e])
  }

  const EMPTY: Ledger := Ledger([], map[], multiset{}, multiset{}, [], [], [])

  /** The state after a run of steps, if every one of them was enabled. */
  function After(steps: seq<Step>): (r: Option<Ledger>) {
    if steps == [] then Some(EMPTY)
    else
      match After(steps[..|steps| - 1])
      case None => None
      case Some(s) => if Enabled(s, steps[|steps| - 1]) then Some(Apply(s, steps[|steps| - 1])) else None
  }

  // ---- Nothing is forgotten -----------------------------------------------------------------------

  /** Every record that reached the file, or should have, has been applied, skipped or is on its way. */
  ghost predicate Balanced(s: Ledger) {
    multiset(s.file) + multiset(s.lost) == multiset(s.applied) + multiset(s.skipped) + s.written
  }

  ghost predicate LedgerInv(s: Ledger) {
    s.rows == RowsAfter(s.applied) && Balanced(s)
  }

  lemma UpdateKeepsRows(s: Ledger, e: CostEntry)
    requires s.rows == RowsAfter(s.applied)
    ensures RecordRow(s.rows, e) == RowsAfter(s.applied + [e])
  {
    assert (s.applied + [e])[..|s.applied + [e]| - 1] == s.applied;
  }

  /** One element more on the left is one more under way. */
  lemma OneOnItsWay(f: multiset<CostEntry>, l: multiset<CostEntry>, rest: multiset<CostEntry>, w: multiset<CostEntry>,
                    e: CostEntry)
    requires f + l == rest + w
    ensures (f + multiset{e}) + l == rest + (w + multiset{e})
    ensures f + (l + multiset{e}) == rest + (w + multiset{e})
  {
    assert (f + multiset{e}) + l == (f + l) + multiset{e};
    assert f + (l + multiset{e}) == (f + l) + multiset{e};
    assert rest + (w + multiset{e}) == (rest + w) + multiset{e};
  }

  /** An element under way arrives. */
  lemma OneArrives(a: multiset<CostEntry>, k: multiset<CostEntry>, w: multiset<CostEntry>, e: CostEntry)
    requires e in w
    ensures (a + multiset{e}) + k + (w - multiset{e}) == a + k + w
    ensures a + (k + multiset{e}) + (w - multiset{e}) == a + k + w
  {
    var v := w - multiset{e};
    assert w == v + multiset{e};
    assert (a + multiset{e}) + k + v == a + k + (v + multiset{e});
    assert a + (k + multiset{e}) + v == a + k + (v + multiset{e});
  }

  lemma Snoc(lines: seq<CostEntry>, e: CostEntry)
    ensures multiset(lines + [e]) == multiset(lines) + multiset{e}
  {
  }

  lemma StepKeepsBalance(s: Ledger, step: Step)
    requires Balanced(s) && Enabled(s, step)
    ensures Balanced(Apply(s, step))
  {
    if step.Append? || step.Lose? {
      Snoc(s.file, step.e);
      Snoc(s.lost, step.e);
      OneOnItsWay(multiset(s.file), multiset(s.lost), multiset(s.applied) + multiset(s.skipped), s.written, step.e);
    } else if step.Update? || step.Skip? {
      Snoc(s.applied, step.e);
      Snoc(s.skipped, step.e);
      OneArrives(multiset(s.applied), multiset(s.skipped), s.written, step.e);
    }
  }

  lemma {:induction false} RunKeepsInv(steps: seq<Step>)
    requires After(steps).Some?
    ensures LedgerInv(After(steps).value)
  {
    if steps != [] {
      var s, step := After(steps[..|steps| - 1]).value, steps[|steps| - 1];
      RunKeepsInv(steps[..|steps| - 1]);
      StepKeepsBalance(s, step);
      UpdateKeepsRows(s, step.e);
    }
  }

  // ---- Row and file -------------------------------------------------------------------------------

  predicate Settled(s: Ledger) {
    s.writing == multiset{} && s.written == multiset{}
  }

  /** One field of a row against the same field of the file's lines: nothing is missing on balance,
      or both sums are past the clamp. */
  predicate SameField(file: nat, lost: nat, skipped: nat) {
    lost == skipped || (file >= U64_MAX && file + lost >= U64_MAX + skipped)
  }

  /** In every settled state, whatever was lost or skipped: file and lost lines together are, field by
      field, what was applied and what was skipped. */
  lemma BooksBalance(s: Ledger, key: Key)
    requires LedgerInv(s) && Settled(s)
    ensures var file, lost := LineTotals(s.file, key), LineTotals(s.lost, key);
      var applied, skipped := LineTotals(s.applied, key), LineTotals(s.skipped, key);
      && file.input + lost.input == applied.input + skipped.input
      && file.output + lost.output == applied.output + skipped.output
      && file.usd + lost.usd == applied.usd + skipped.usd
      && TotalUsd(s.file) + TotalUsd(s.lost) == TotalUsd(s.applied) + TotalUsd(s.skipped)
  {
    assert multiset(s.file + s.lost) == multiset(s.applied + s.skipped);
    OrderDoesNotMatter(s.file + s.lost, s.applied + s.skipped, key);
    LineTotalsConcat(s.file, s.lost, key);
    LineTotalsConcat(s.applied, s.skipped, key);
  }

  /** What is left of file and lost lines together without the skipped ones. */
  function Net(file: Totals, lost: Totals, skipped: Totals): Totals {
    Totals(Less(file.input + lost.input, skipped.input), Less(file.output + lost.output, skipped.output),
           Less(file.usd + lost.usd, skipped.usd))
  }

  function Less(a: nat, b: nat): nat {
    if a >= b then a - b else 0
  }

  lemma NetIs(file: Totals, lost: Totals, applied: Totals, skipped: Totals)
    requires file.input + lost.input == applied.input + skipped.input
    requires file.output + lost.output == applied.output + skipped.output
    requires file.usd + lost.usd == applied.usd + skipped.usd
    ensures Net(file, lost, skipped) == applied
  {
  }

  /** In any interleaving, once every record has finished or gone away: a row is the per-field sum of
      its ledger lines plus the lost ones less the skipped ones, clamped at 2^64 - 1, and while the
      total of these fits in 64 bits, it is the rollup's total. */
  lemma RowIsFileAndLost(steps: seq<Step>, key: Key)
    requires After(steps).Some?
    ensures var s := After(steps).value;
      Settled(s) ==>
        && RowTotals(s.rows, key)
           == Net(LineTotals(s.file, key), LineTotals(s.lost, key), LineTotals(s.skipped, key)).Clamped()
        && var total := TotalUsd(s.file) + TotalUsd(s.lost) - TotalUsd(s.skipped);
        && 0 <= total && (total <= U64_MAX ==> Total(s.rows) == total)
  {
    RunKeepsInv(steps);
    var s := After(steps).value;
    if Settled(s) {
      RowOfSettled(s, key);
    }
  }

  lemma RowOfSettled(s: Ledger, key: Key)
    requires LedgerInv(s) && Settled(s)
    ensures RowTotals(s.rows, key)
      == Net(LineTotals(s.file, key), LineTotals(s.lost, key), LineTotals(s.skipped, key)).Clamped()
    ensures var total := TotalUsd(s.file) + TotalUsd(s.lost) - TotalUsd(s.skipped);
      0 <= total && (total <= U64_MAX ==> Total(s.rows) == total)
    ensures var file, lost, skipped := LineTotals(s.file, key), LineTotals(s.lost, key), LineTotals(s.skipped, key);
      file.input + lost.input >= skipped.input && file.output + lost.output >= skipped.output
        && file.usd + lost.usd >= skipped.usd
  {
    BooksBalance(s, key);
    NetIs(LineTotals(s.file, key), LineTotals(s.lost, key), LineTotals(s.applied, key), LineTotals(s.skipped, key));
    RowIsClampedSum(s.applied, key);
    if TotalUsd(s.applied) <= U64_MAX {
      RollupTotal(s.applied);
    }
  }

  /** One field against another: the same once clamped exactly if nothing is missing on balance, or
      both are past the clamp. */
  lemma SameFieldIff(file: nat, lost: nat, skipped: nat)
    requires file + lost >= skipped
    ensures Clamp(Less(file + lost, skipped)) == Clamp(file) <==> SameField(file, lost, skipped)
  {
  }

  /** So a row agrees with its ledger lines if and only if, in each field, as much was lost as was
      skipped, or the sums are past the clamp with and without them. */
  lemma RollupAgreesWithFile(steps: seq<Step>, key: Key)
    requires After(steps).Some?
    ensures var s := After(steps).value;
      Settled(s) ==>
        var file, lost, skipped := LineTotals(s.file, key), LineTotals(s.lost, key), LineTotals(s.skipped, key);
        RowTotals(s.rows, key) == file.Clamped() <==>
          && SameField(file.input, lost.input, skipped.input)
          && SameField(file.output, lost.output, skipped.output)
          && SameField(file.usd, lost.usd, skipped.usd)
  {
    RunKeepsInv(steps);
    var s := After(steps).value;
    if Settled(s) {
      var file, lost, skipped := LineTotals(s.file, key), LineTotals(s.lost, key), LineTotals(s.skipped, key);
      RowOfSettled(s, key);
      SameFieldIff(file.input, lost.input, skipped.input);
      SameFieldIff(file.output, lost.output, skipped.output);
      SameFieldIff(file.usd, lost.usd, skipped.usd);
    }
  }

  /** A run without failures or drops keeps the file and the rollup in step. */
  lemma NothingLost(steps: seq<Step>, key: Key)
    requires After(steps).Some?
    ensures var s := After(steps).value;
      Settled(s) && s.lost == [] && s.skipped == [] ==>
        && RowTotals(s.rows, key) == LineTotals(s.file, key).Clamped()
        && (TotalUsd(s.file) <= U64_MAX ==> Total(s.rows) == TotalUsd(s.file))
  {
    RollupAgreesWithFile(steps, key);
    RowIsFileAndLost(steps, key);
    assert LineTotals([], key) == Totals(0, 0, 0) && TotalUsd([]) == 0;
  }

  /** A failed append is silent: the row then counts spend the file does not show. */
  lemma LostAppendDiverges(e: CostEntry)
    requires 0 < e.usd <= U64_MAX
    ensures var r := After([Begin(e), Lose(e), Update(e)]);
      r.Some? && Settled(r.value) && RowTotals(r.value.rows, e.Key()).usd > LineTotals(r.value.file, e.Key()).usd
  {
    var steps := [Begin(e), Lose(e), Update(e)];
    assert steps[..2][..1] == [Begin(e)] && [Begin(e)][..0] == [] && steps[..2] == [Begin(e), Lose(e)];
    assert After([Begin(e)]) == Some(Apply(EMPTY, Begin(e)));
    assert After(steps[..2]) == Some(Apply(Apply(EMPTY, Begin(e)), Lose(e)));
  }
}
