/** Pricing in integer micro-USD, the append-only ledger and its in-memory rollup. */
module Cost {
  import opened Sums

  datatype Usage = Usage(input: nat, output: nat)

  datatype PriceTable = PriceTable(inputPerMtok: nat, outputPerMtok: nat)

  const PER_MTOK: nat := 1_000_000

  // ---- Prices -------------------------------------------------------------------------------

  function PriceFor(provider: string, model: string): PriceTable {
    if provider != "anthropic" then PriceTable(0, 0)
    else if "claude-opus-4" <= model then PriceTable(15_000_000, 75_000_000)
    else PriceTable(3_000_000, 15_000_000)
  }

  function CostOf(p: PriceTable, u: Usage): nat {
    SatAdd(SatMul(u.input, p.inputPerMtok) / PER_MTOK, SatMul(u.output, p.outputPerMtok) / PER_MTOK)
  }

  function CostFor(provider: string, model: string, u: Usage): nat {
    CostOf(PriceFor(provider, model), u)
  }

  lemma MulMonotone(a: nat, b: nat, p: nat)
    requires a <= b
    ensures a * p <= b * p
  {
  }

  lemma DivMonotone(a: nat, b: nat)
    requires a <= b
    ensures a / PER_MTOK <= b / PER_MTOK
  {
  }

  /** More tokens never cost less, saturated or not. */
  lemma CostMonotone(p: PriceTable, u: Usage, v: Usage)
    requires u.input <= v.input && u.output <= v.output
    ensures CostOf(p, u) <= CostOf(p, v)
  {
    MulMonotone(u.input, v.input, p.inputPerMtok);
    MulMonotone(u.output, v.output, p.outputPerMtok);
    DivMonotone(SatMul(u.input, p.inputPerMtok), SatMul(v.input, p.inputPerMtok));
    DivMonotone(SatMul(u.output, p.outputPerMtok), SatMul(v.output, p.outputPerMtok));
  }

  // ---- Rounding -----------------------------------------------------------------------------

  /** The exact cost of a call, in millionths of a micro-USD. */
  function Exact(p: PriceTable, u: Usage): nat {
    u.input * p.inputPerMtok + u.output * p.outputPerMtok
  }

  predicate Unsaturated(p: PriceTable, u: Usage) {
    && u.input * p.inputPerMtok <= U64_MAX
    && u.output * p.outputPerMtok <= U64_MAX
  }

  datatype Call = Call(price: PriceTable, usage: Usage)

  function TotalExact(calls: seq<Call>): nat {
    if calls == [] then 0
    else TotalExact(calls[..|calls| - 1]) + Exact(calls[|calls| - 1].price, calls[|calls| - 1].usage)
  }

  function TotalCost(calls: seq<Call>): nat {
    if calls == [] then 0
    else TotalCost(calls[..|calls| - 1]) + CostOf(calls[|calls| - 1].price, calls[|calls| - 1].usage)
  }

  lemma RoundOne(p: PriceTable, u: Usage)
    requires Unsaturated(p, u)
    ensures 0 <= Exact(p, u) - PER_MTOK * CostOf(p, u) < 2 * PER_MTOK
  {
    var a, b := u.input * p.inputPerMtok, u.output * p.outputPerMtok;
    assert 0 <= a - PER_MTOK * (a / PER_MTOK) < PER_MTOK;
    assert 0 <= b - PER_MTOK * (b / PER_MTOK) < PER_MTOK;
    DivMonotone(a, U64_MAX);
    DivMonotone(b, U64_MAX);
    assert CostOf(p, u) == a / PER_MTOK + b / PER_MTOK;
  }

  /** For any price tables, `n` calls are under-charged by less than 2n micro-USD in all, and
      never over-charged. */
  lemma {:induction false} RoundingBound(calls: seq<Call>)
    requires forall i :: 0 <= i < |calls| ==> Unsaturated(calls[i].price, calls[i].usage)
    ensures 0 <= TotalExact(calls) - PER_MTOK * TotalCost(calls)
    ensures calls != [] ==> TotalExact(calls) - PER_MTOK * TotalCost(calls) < 2 * |calls| * PER_MTOK
  {
    if calls != [] {
      RoundingBound(calls[..|calls| - 1]);
      RoundOne(calls[|calls| - 1].price, calls[|calls| - 1].usage);
    }
  }

  /** Every built-in price is a whole number of micro-USD per token: no rounding at all. */
  lemma BuiltinIsExact(provider: string, model: string, u: Usage)
    requires Unsaturated(PriceFor(provider, model), u)
    ensures PER_MTOK * CostFor(provider, model, u) == Exact(PriceFor(provider, model), u)
  {
    var p := PriceFor(provider, model);
    var i, o := p.inputPerMtok / PER_MTOK, p.outputPerMtok / PER_MTOK;
    assert p.inputPerMtok == PER_MTOK * i && p.outputPerMtok == PER_MTOK * o;
    WholeTokens(u.input, i);
    WholeTokens(u.output, o);
    RoundOne(p, u);
  }

  /** What a call costs, in micro-USD, as long as the products fit in 64 bits: Opus 15 per input and 75 per
      output token, other models of that provider 3 and 15, other providers nothing. */
  lemma Prices(provider: string, model: string, u: Usage)
    ensures provider == "anthropic" ==>
      var usd, opus := CostFor(provider, model, u), "claude-opus-4" <= model;
      && (opus && Unsaturated(PriceTable(15_000_000, 75_000_000), u) ==> usd == 15 * u.input + 75 * u.output)
      && (!opus && Unsaturated(PriceTable(3_000_000, 15_000_000), u) ==> usd == 3 * u.input + 15 * u.output)
    ensures provider != "anthropic" ==> CostFor(provider, model, u) == 0
  {
    var p := PriceFor(provider, model);
    if Unsaturated(p, u) {
      BuiltinIsExact(provider, model, u);
    }
  }

  lemma WholeTokens(n: nat, perToken: nat)
    ensures n * (PER_MTOK * perToken) == PER_MTOK * (n * perToken)
    ensures n * (PER_MTOK * perToken) / PER_MTOK == n * perToken
  {
    assert n * (PER_MTOK * perToken) == PER_MTOK * (n * perToken);
  }

  // ---- Rows -----------------------------------------------------------------------------------

  type Key = (string, string)

  datatype CostEntry = CostEntry(tsMs: nat, provider: string, model: string, input: nat, output: nat, usd: nat) {
    function Key(): Key { (provider, model) }
  }

  type Rows = map<Key, CostEntry>

  /** One record's update of the rollup. */
  function RecordRow(rows: Rows, e: CostEntry): Rows {
    var row := if e.Key() in rows then rows[e.Key()] else CostEntry(e.tsMs, e.provider, e.model, 0, 0, 0);
    rows[e.Key() := row.(input := SatAdd(row.input, e.input),
                         output := SatAdd(row.output, e.output),
                         usd := SatAdd(row.usd, e.usd))]
  }

  function RowsAfter(lines: seq<CostEntry>): Rows {
    if lines == [] then map[] else RecordRow(RowsAfter(lines[..|lines| - 1]), lines[|lines| - 1])
  }

  ghost function UsdOf(rows: Rows): map<Key, nat> {
    map k | k in rows :: rows[k].usd
  }

  /** The exact sum of the rows' costs. */
  ghost function Total(rows: Rows): nat {
    MapSum(UsdOf(rows))
  }

  const U64: nat := U64_MAX + 1

  class CostLedger {
    var file: seq<CostEntry>
    var today: Rows
    const cap: nat

    constructor (cap: nat)
      ensures file == [] && today == map[] && this.cap == cap
    {
      file, today := [], map[];
      this.cap := cap;
    }

    /** `written` is whether the append reached the file; its failure is ignored. */
    method Record(provider: string, model: string, usage: Usage, nowMs: nat, written: bool) returns (usd: nat)
      modifies this
      ensures usd == CostFor(provider, model, usage)
      ensures var e := CostEntry(nowMs, provider, model, usage.input, usage.output, usd);
              && today == RecordRow(old(today), e)
              && file == if written then old(file) + [e] else old(file)
      ensures provider == "anthropic" ==>
        var opus := "claude-opus-4" <= model;
        && (opus && Unsaturated(PriceTable(15_000_000, 75_000_000), usage) ==>
              usd == 15 * usage.input + 75 * usage.output)
        && (!opus && Unsaturated(PriceTable(3_000_000, 15_000_000), usage) ==>
              usd == 3 * usage.input + 15 * usage.output)
      ensures provider != "anthropic" ==> usd == 0
      ensures var was := RowTotals(old(today), (provider, model));
        && today.Keys == old(today).Keys + {(provider, model)}
        && today - {(provider, model)} == old(today) - {(provider, model)}
        && today[(provider, model)].input == Clamp(was.input + usage.input)
        && today[(provider, model)].output == Clamp(was.output + usage.output)
        && today[(provider, model)].usd == Clamp(was.usd + usd)
    {
      Prices(provider, model, usage);
      usd := CostFor(provider, model, usage);
      var entry := CostEntry(nowMs, provider, model, usage.input, usage.output, usd);
      if written {
        file := file + [entry];
      }
      var row := CostEntry(nowMs, provider, model, 0, 0, 0);
      if entry.Key() in today {
        row := today[entry.Key()];
      }
      row := row.(input := SatAdd(row.input, usage.input));
      row := row.(output := SatAdd(row.output, usage.output));
      row := row.(usd := SatAdd(row.usd, usd));
      today := today[entry.Key() := row];
    }

    /** The unchecked `sum()` over the rows, in whatever order the map yields them: in a release
        build it is exact modulo 2^64. */
    method TodayTotalMicros() returns (total: nat)
      ensures total == Total(today) % U64
    {
      total := 0;
      ghost var exact: nat := 0;
      var rest := today;
      while rest != map[]
        invariant exact + Total(rest) == Total(today)
        invariant total == exact % U64
        decreases |rest|
      {
        var k :| k in rest;
        TakeRow(rest, k);
        WrapAdd(exact, rest[k].usd);
        total := (total + rest[k].usd) % U64;
        exact := exact + rest[k].usd;
        rest := rest - {k};
      }
      assert UsdOf(rest) == map[];
    }

    method OverBudget() returns (over: bool)
      ensures over == Over(today, cap)
    {
      if cap > 0 {
        var total := TodayTotalMicros();
        return total >= cap;
      }
      return false;
    }
  }

  lemma TakeRow(rows: Rows, k: Key)
    requires k in rows
    ensures Total(rows) == rows[k].usd + Total(rows - {k})
  {
    MapSumSplit(UsdOf(rows), k);
    assert UsdOf(rows) - {k} == UsdOf(rows - {k});
  }

  lemma WrapAdd(a: nat, b: nat)
    ensures (a % U64 + b) % U64 == (a + b) % U64
  {
  }

  /** The admission check of a chat. A cap of zero means no cap. */
  ghost predicate Over(rows: Rows, cap: nat) {
    cap > 0 && Total(rows) % U64 >= cap
  }

  /** One record adds at most its own cost to the total, and exactly that unless a row saturates. */
  lemma RecordAddsCost(rows: Rows, e: CostEntry)
    ensures Total(RecordRow(rows, e)) <= Total(rows) + e.usd
    ensures Total(rows) + e.usd <= U64_MAX ==> Total(RecordRow(rows, e)) == Total(rows) + e.usd
  {
    var k := e.Key();
    var after := RecordRow(rows, e);
    MapSumUpdate(UsdOf(rows), k, after[k].usd);
    assert UsdOf(after) == UsdOf(rows)[k := after[k].usd];
    if k in rows {
      MapSumSplit(UsdOf(rows), k);
    }
  }

  // ---- The rollup against the ledger ----------------------------------------------------------

  datatype Totals = Totals(input: nat, output: nat, usd: nat) {
    function Plus(e: CostEntry): Totals {
      Totals(input + e.input, output + e.output, usd + e.usd)
    }

    function Clamped(): Totals {
      Totals(Clamp(input), Clamp(output), Clamp(usd))
    }
  }

  /** The exact per-field sums of the ledger lines under one key. */
  function LineTotals(lines: seq<CostEntry>, key: Key): Totals {
    if lines == [] then Totals(0, 0, 0)
    else
      var sums, e := LineTotals(lines[..|lines| - 1], key), lines[|lines| - 1];
      if e.Key() == key then sums.Plus(e) else sums
  }

  function RowTotals(rows: Rows, key: Key): Totals {
    if key in rows then Totals(rows[key].input, rows[key].output, rows[key].usd) else Totals(0, 0, 0)
  }

  function TotalUsd(lines: seq<CostEntry>): nat {
    if lines == [] then 0 else TotalUsd(lines[..|lines| - 1]) + lines[|lines| - 1].usd
  }

  /** One record's effect on the rollup: its own row, field by field, and no other. */
  lemma RecordAddsTokens(rows: Rows, e: CostEntry)
    ensures RecordRow(rows, e) - {e.Key()} == rows - {e.Key()}
    ensures RowTotals(RecordRow(rows, e), e.Key()) == RowTotals(rows, e.Key()).Plus(e).Clamped()
  {
  }

  /** A saturating running sum is the clamp of the exact sum, field by field. */
  lemma {:induction false} RowIsClampedSum(lines: seq<CostEntry>, key: Key)
    ensures RowTotals(RowsAfter(lines), key) == LineTotals(lines, key).Clamped()
  {
    if lines != [] {
      RowIsClampedSum(lines[..|lines| - 1], key);
    }
  }

  lemma {:induction false} RollupTotal(lines: seq<CostEntry>)
    requires TotalUsd(lines) <= U64_MAX
    ensures Total(RowsAfter(lines)) == TotalUsd(lines)
  {
    if lines == [] {
      assert UsdOf(map[]) == map[];
    } else {
      RollupTotal(lines[..|lines| - 1]);
      RecordAddsCost(RowsAfter(lines[..|lines| - 1]), lines[|lines| - 1]);
    }
  }

  lemma {:induction false} LineTotalsConcat(a: seq<CostEntry>, b: seq<CostEntry>, key: Key)
    ensures LineTotals(a + b, key).usd == LineTotals(a, key).usd + LineTotals(b, key).usd
    ensures LineTotals(a + b, key).input == LineTotals(a, key).input + LineTotals(b, key).input
    ensures LineTotals(a + b, key).output == LineTotals(a, key).output + LineTotals(b, key).output
    ensures TotalUsd(a + b) == TotalUsd(a) + TotalUsd(b)
  {
    if b == [] {
      assert a + b == a;
    } else {
      assert (a + b)[..|a + b| - 1] == a + b[..|b| - 1];
      LineTotalsConcat(a, b[..|b| - 1], key);
    }
  }

  lemma WithoutOne(rest: seq<CostEntry>, before: seq<CostEntry>, x: CostEntry, after: seq<CostEntry>)
    requires multiset(rest + [x]) == multiset(before + [x] + after)
    ensures multiset(rest) == multiset(before + after)
  {
    assert multiset(rest) == multiset(rest + [x]) - multiset{x};
    assert multiset(before + after) == multiset(before + [x] + after) - multiset{x};
  }

  /** Sums do not depend on the order of the lines. */
  lemma {:induction false} OrderDoesNotMatter(a: seq<CostEntry>, b: seq<CostEntry>, key: Key)
    requires multiset(a) == multiset(b)
    ensures LineTotals(a, key) == LineTotals(b, key) && TotalUsd(a) == TotalUsd(b)
  {
    assert |a| == |multiset(a)| == |multiset(b)| == |b|;
    if a != [] {
      var x, rest := a[|a| - 1], a[..|a| - 1];
      assert a == rest + [x] && x in multiset(a);
      var i :| 0 <= i < |b| && b[i] == x;
      var before, after := b[..i], b[i + 1..];
      assert b == before + [x] + after;
      assert a == rest + [x];
      WithoutOne(rest, before, x, after);
      OrderDoesNotMatter(rest, before + after, key);
      MoveLine(rest, before, x, after, key);
    }
  }

  lemma MoveLine(rest: seq<CostEntry>, before: seq<CostEntry>, x: CostEntry, after: seq<CostEntry>, key: Key)
    requires LineTotals(rest, key) == LineTotals(before + after, key)
    requires TotalUsd(rest) == TotalUsd(before + after)
    ensures LineTotals(rest + [x], key) == LineTotals(before + [x] + after, key)
    ensures TotalUsd(rest + [x]) == TotalUsd(before + [x] + after)
  {
    LineTotalsConcat(rest, [x], key);
    LineTotalsConcat(before, after, key);
    LineTotalsConcat(before + [x], after, key);
    LineTotalsConcat(before, [x], key);
  }

  /** Every line carries the price of its own tokens. */
  predicate Genuine(lines: seq<CostEntry>) {
    forall i :: 0 <= i < |lines| ==>
      lines[i].usd == CostFor(lines[i].provider, lines[i].model, Usage(lines[i].input, lines[i].output))
  }

  /** With the built-in prices summed costs are the price of the summed tokens. */
  lemma {:induction false} LinesPriceTheirTokens(lines: seq<CostEntry>, key: Key)
    requires Genuine(lines)
    requires var t := LineTotals(lines, key); Unsaturated(PriceFor(key.0, key.1), Usage(t.input, t.output))
    ensures var t := LineTotals(lines, key);
            t.usd == CostFor(key.0, key.1, Usage(t.input, t.output))
  {
    var p := PriceFor(key.0, key.1);
    if lines == [] {
      assert 0 * p.inputPerMtok == 0 && 0 * p.outputPerMtok == 0;
    } else {
      var e := lines[|lines| - 1];
      var s, t := LineTotals(lines[..|lines| - 1], key), LineTotals(lines, key);
      if e.Key() == key {
        MulMonotone(s.input, t.input, p.inputPerMtok);
        MulMonotone(s.output, t.output, p.outputPerMtok);
        MulMonotone(e.input, t.input, p.inputPerMtok);
        MulMonotone(e.output, t.output, p.outputPerMtok);
        LinesPriceTheirTokens(lines[..|lines| - 1], key);
        PriceAdds(key.0, key.1, Usage(s.input, s.output), Usage(e.input, e.output));
      } else {
        LinesPriceTheirTokens(lines[..|lines| - 1], key);
      }
    }
  }

  /** So the cost stored in a row is the price of the tokens stored in it, as long as pricing those
      does not saturate. */
  lemma RowPricesItsTokens(lines: seq<CostEntry>, key: Key)
    requires Genuine(lines) && key in RowsAfter(lines)
    requires var row := RowsAfter(lines)[key]; Unsaturated(PriceFor(key.0, key.1), Usage(row.input, row.output))
    ensures var row := RowsAfter(lines)[key];
            row.usd == CostFor(key.0, key.1, Usage(row.input, row.output))
  {
    var p, row, t := PriceFor(key.0, key.1), RowsAfter(lines)[key], LineTotals(lines, key);
    RowIsClampedSum(lines, key);
    if p.inputPerMtok == 0 {
      assert t.input * 0 == 0 && row.input * 0 == 0;
    } else {
      ClampedSaturates(p.inputPerMtok);
      ClampedSaturates(p.outputPerMtok);
    }
    LinesPriceTheirTokens(lines, key);
  }

  /** Pricing a clamped count saturates. */
  lemma ClampedSaturates(price: nat)
    requires price >= 2
    ensures U64_MAX * price > U64_MAX
  {
    MulMonotone(2, price, U64_MAX);
  }

  lemma PriceAdds(provider: string, model: string, u: Usage, v: Usage)
    requires var p := PriceFor(provider, model);
             Unsaturated(p, u) && Unsaturated(p, v) && Unsaturated(p, Usage(u.input + v.input, u.output + v.output))
    ensures CostFor(provider, model, Usage(u.input + v.input, u.output + v.output))
         == CostFor(provider, model, u) + CostFor(provider, model, v)
  {
    var p := PriceFor(provider, model);
    BuiltinIsExact(provider, model, u);
    BuiltinIsExact(provider, model, v);
    BuiltinIsExact(provider, model, Usage(u.input + v.input, u.output + v.output));
    Distribute(u.input, v.input, p.inputPerMtok);
    Distribute(u.output, v.output, p.outputPerMtok);
  }

  lemma Distribute(a: nat, b: nat, c: nat)
    ensures (a + b) * c == a * c + b * c
  {
  }
}
