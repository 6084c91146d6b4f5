/** The wheel's symbol table and the weighted draw over it.

    The table keeps the insertion order of the source's `symbols` object: the
    draw walks it in that order, so the order decides which draw value lands
    on which symbol. */
module Symbols {

  datatype Option<T> = None | Some(value: T)

  /** What a symbol does when it is drawn. A multiplier factor is kept in
      tenths (0.3 is `Multiplier(3)`), so that every payout is an integer. */
  datatype Kind = Gold | Diamond | Money(value: nat) | Multiplier(tenths: nat) | Empty

  /** One entry of the table: its key, its kind and its share of the draw. */
  datatype SymbolDef = SymbolDef(id: string, kind: Kind, weight: nat)

  const Table: seq<SymbolDef> := [
    SymbolDef("😇", Gold, 18),
    SymbolDef("😈", Diamond, 15),
    SymbolDef("💰", Money(20), 8),
    SymbolDef("💵", Money(50), 6),
    SymbolDef("💸", Money(100), 4),
    SymbolDef("🏆", Money(250), 2),
    SymbolDef("⚡", Multiplier(3), 5),
    SymbolDef("✨", Multiplier(6), 4),
    SymbolDef("⭐", Multiplier(12), 3),
    SymbolDef("🌟", Multiplier(23), 2),
    SymbolDef("❌", Empty, 33)
  ]

  /** The symbol the draw falls back to when no running total exceeds it. */
  const Fallback: string := "❌"

  /** The running total of the weights of the first `n` symbols. */
  function Cumulative(t: seq<SymbolDef>, n: nat): nat
    requires n <= |t|
  {
    if n == 0 then 0 else Cumulative(t, n - 1) + t[n - 1].weight
  }

  /** `totalWeight`: the weights summed in table order. */
  function TotalWeight(t: seq<SymbolDef>): nat {
    Cumulative(t, |t|)
  }

  /** The total is the sum of the weights: nothing for no symbols, a symbol's
      weight for one, and additive over any split of the table. */
  lemma TotalWeightSum(t: seq<SymbolDef>, u: seq<SymbolDef>, d: SymbolDef)
    ensures TotalWeight([]) == 0
    ensures TotalWeight([d]) == d.weight
    ensures TotalWeight(t + u) == TotalWeight(t) + TotalWeight(u)
  {
    CumulativeConcat(t, u, |u|);
    assert Cumulative([d], 1) == Cumulative([d], 0) + d.weight;
  }

  /** Past the end of `t`, the running totals of `t + u` are the total of `t`
      plus those of `u`. */
  lemma {:induction false} CumulativeConcat(t: seq<SymbolDef>, u: seq<SymbolDef>, n: nat)
    requires n <= |u|
    ensures Cumulative(t + u, |t| + n) == TotalWeight(t) + Cumulative(u, n)
    decreases n
  {
    if n == 0 {
      CumulativePrefix(t, u, |t|);
    } else {
      CumulativeConcat(t, u, n - 1);
      assert (t + u)[|t| + n - 1] == u[n - 1];
    }
  }

  /** Within `t`, the running totals of `t + u` are those of `t`. */
  lemma {:induction false} CumulativePrefix(t: seq<SymbolDef>, u: seq<SymbolDef>, m: nat)
    requires m <= |t|
    ensures Cumulative(t + u, m) == Cumulative(t, m)
    decreases m
  {
    if m > 0 {
      CumulativePrefix(t, u, m - 1);
      assert (t + u)[m - 1] == t[m - 1];
    }
  }

  lemma {:induction false} CumulativeMonotone(t: seq<SymbolDef>, i: nat, j: nat)
    requires i <= j <= |t|
    ensures Cumulative(t, i) <= Cumulative(t, j)
    decreases j
  {
    if i < j {
      CumulativeMonotone(t, i, j - 1);
    }
  }

  /** The first position at or after `i` whose running total exceeds `r`,
      or `|t|` when there is none. */
  function Scan(t: seq<SymbolDef>, r: nat, i: nat): (k: nat)
    requires i <= |t|
    ensures i <= k <= |t|
    decreases |t| - i
  {
    if i == |t| then |t|
    else if r < Cumulative(t, i + 1) then i
    else Scan(t, r, i + 1)
  }

  /** The scan stops at a running total above `r` and passes only totals at
      or below it. */
  lemma {:induction false} ScanSpec(t: seq<SymbolDef>, r: nat, i: nat)
    requires i <= |t|
    ensures Scan(t, r, i) < |t| ==> r < Cumulative(t, Scan(t, r, i) + 1)
    ensures forall j :: i < j <= Scan(t, r, i) ==> Cumulative(t, j) <= r
    decreases |t| - i
  {
    if i < |t| && Cumulative(t, i + 1) <= r {
      ScanSpec(t, r, i + 1);
    }
  }

  /** The position the draw `r` selects: the first symbol whose running total
      exceeds `r`; `|t|` stands for "none does". */
  function DrawIndex(t: seq<SymbolDef>, r: nat): (k: nat)
    ensures k <= |t|
  {
    Scan(t, r, 0)
  }

  /** The selected position is the first whose running total exceeds the
      draw, and a draw below the total weight never reaches the fallback. */
  lemma DrawIndexSpec(t: seq<SymbolDef>, r: nat)
    ensures DrawIndex(t, r) < |t| ==> r < Cumulative(t, DrawIndex(t, r) + 1)
    ensures forall j :: 0 < j <= DrawIndex(t, r) ==> Cumulative(t, j) <= r
    ensures r < TotalWeight(t) ==> DrawIndex(t, r) < |t|
  {
    ScanSpec(t, r, 0);
  }

  /** The key the draw `r` returns. */
  function DrawnId(t: seq<SymbolDef>, r: nat): string {
    var k := DrawIndex(t, r);
    if k < |t| then t[k].id else Fallback
  }

  /** The source's weighted draw over the table `t`: walk it accumulating
      weights and return the first key whose running total exceeds the draw.
      `r` is `Math.floor(Math.random() * totalWeight)`; since every running
      total is an integer, comparing it with `r` decides exactly as comparing
      it with the unfloored product does. */
  method GetRandomSymbol(t: seq<SymbolDef>, r: nat) returns (symbol: string)
    ensures symbol == DrawnId(t, r)
  {
    var cumulative := 0;
    for i := 0 to |t|
      invariant cumulative == Cumulative(t, i)
      invariant forall j :: 0 < j <= i ==> Cumulative(t, j) <= r
    {
      cumulative := cumulative + t[i].weight;
      assert cumulative == Cumulative(t, i + 1);
      if r < cumulative {
        assert i > 0 ==> Cumulative(t, i) <= r;
        DrawIndexIff(t, r, i);
        return t[i].id;
      }
    }
    assert |t| > 0 ==> Cumulative(t, |t|) <= r;
    DrawPastTotal(t, r);
    return Fallback;
  }

  /** What the draw returns: the key of the selected entry below the total
      weight, the fallback key at or past it. */
  lemma DrawnIdCases(t: seq<SymbolDef>, r: nat)
    ensures r < TotalWeight(t) ==> DrawIndex(t, r) < |t| && DrawnId(t, r) == t[DrawIndex(t, r)].id
    ensures TotalWeight(t) <= r ==> DrawnId(t, r) == Fallback
  {
    DrawIndexSpec(t, r);
    if TotalWeight(t) <= r {
      DrawPastTotal(t, r);
    }
  }

  /** No running total exceeds a draw at or past the total weight. */
  lemma DrawPastTotal(t: seq<SymbolDef>, r: nat)
    requires TotalWeight(t) <= r
    ensures DrawIndex(t, r) == |t|
  {
    DrawIndexSpec(t, r);
    var k := DrawIndex(t, r);
    if k < |t| {
      CumulativeMonotone(t, k + 1, |t|);
    }
  }

  /** The draw selects position `k` exactly when `r` lies in the interval
      between the running totals before and after `k`. */
  lemma DrawIndexIff(t: seq<SymbolDef>, r: nat, k: nat)
    requires k < |t|
    ensures DrawIndex(t, r) == k <==> Cumulative(t, k) <= r < Cumulative(t, k + 1)
  {
    DrawIndexSpec(t, r);
    var d := DrawIndex(t, r);
    if Cumulative(t, k) <= r < Cumulative(t, k + 1) {
      if d < k {
        CumulativeMonotone(t, d + 1, k);
      }
    }
  }

  /** The draw values from `lo` up to, not including, `hi`. */
  function Interval(lo: nat, hi: nat): (s: set<nat>)
    ensures forall r :: r in s <==> lo <= r < hi
    decreases hi
  {
    if hi <= lo then {} else Interval(lo, hi - 1) + {hi - 1}
  }

  lemma {:induction false} IntervalSize(lo: nat, hi: nat)
    requires lo <= hi
    ensures |Interval(lo, hi)| == hi - lo
    decreases hi - lo
  {
    if lo < hi {
      IntervalSize(lo, hi - 1);
    }
  }

  /** Out of the `TotalWeight(t)` equally likely draw values, exactly
      `t[k].weight` select symbol `k`: the draw gives each symbol the
      probability weight / total weight. */
  lemma DrawMass(t: seq<SymbolDef>, k: nat)
    requires k < |t|
    ensures |set r: nat | r < TotalWeight(t) && DrawIndex(t, r) == k| == t[k].weight
  {
    var lo, hi := Cumulative(t, k), Cumulative(t, k + 1);
    CumulativeMonotone(t, k + 1, |t|);
    var drawn := set r: nat | r < TotalWeight(t) && DrawIndex(t, r) == k;
    forall r: nat
      ensures r in drawn <==> r in Interval(lo, hi)
    {
      DrawIndexIff(t, r, k);
    }
    assert drawn == Interval(lo, hi);
    IntervalSize(lo, hi);
  }

  /** `symbols[key]`: the first entry with that key, if any. */
  function Lookup(t: seq<SymbolDef>, id: string): (d: Option<SymbolDef>)
    ensures d.Some? ==> d.value.id == id
  {
    if t == [] then None
    else if t[0].id == id then Some(t[0])
    else Lookup(t[1..], id)
  }

  /** A lookup finds an entry of the table exactly when the table holds an
      entry with that key. */
  lemma {:induction false} LookupFinds(t: seq<SymbolDef>, id: string)
    ensures Lookup(t, id).Some? ==> Lookup(t, id).value in t
    ensures Lookup(t, id).None? <==> forall i :: 0 <= i < |t| ==> t[i].id != id
  {
    if t != [] && t[0].id != id {
      LookupFinds(t[1..], id);
      assert forall i :: 1 <= i < |t| ==> t[i] == t[1..][i - 1];
    }
  }

  predicate UniqueIds(t: seq<SymbolDef>) {
    forall i, j :: 0 <= i < j < |t| ==> t[i].id != t[j].id
  }

  /** With distinct keys, looking up an entry's key finds that entry. */
  lemma {:induction false} LookupUnique(t: seq<SymbolDef>, k: nat)
    requires UniqueIds(t) && k < |t|
    ensures Lookup(t, t[k].id) == Some(t[k])
  {
    if k > 0 {
      assert t[0].id != t[k].id;
      assert t[1..][k - 1] == t[k];
      LookupUnique(t[1..], k - 1);
    }
  }

  /** The running totals of the table, symbol by symbol. */
  lemma TableCumulative()
    ensures Cumulative(Table, 1) == 18 && Cumulative(Table, 2) == 33
    ensures Cumulative(Table, 3) == 41 && Cumulative(Table, 4) == 47
    ensures Cumulative(Table, 5) == 51 && Cumulative(Table, 6) == 53
    ensures Cumulative(Table, 7) == 58 && Cumulative(Table, 8) == 62
    ensures Cumulative(Table, 9) == 65 && Cumulative(Table, 10) == 67
    ensures Cumulative(Table, 11) == 100
  {
    assert Cumulative(Table, 0) == 0;
    assert Cumulative(Table, 1) == 18;
    assert Cumulative(Table, 2) == 33;
    assert Cumulative(Table, 3) == 41;
    assert Cumulative(Table, 4) == 47;
    assert Cumulative(Table, 5) == 51;
    assert Cumulative(Table, 6) == 53;
    assert Cumulative(Table, 7) == 58;
    assert Cumulative(Table, 8) == 62;
    assert Cumulative(Table, 9) == 65;
    assert Cumulative(Table, 10) == 67;
  }

  /** The table's shape: eleven distinct keys, weights summing to 100, and the
      fallback key is the last, empty, symbol. */
  lemma TableFacts()
    ensures |Table| == 11 && TotalWeight(Table) == 100
    ensures UniqueIds(Table)
    ensures Table[10] == SymbolDef(Fallback, Empty, 33)
  {
    TableCumulative();
  }

  /** Every key the draw can return is a key of the table. */
  lemma DrawnInTable(r: nat)
    ensures Lookup(Table, DrawnId(Table, r)).Some?
  {
    var k := DrawIndex(Table, r);
    if k < |Table| {
      TableLookup(k);
    } else {
      TableLookup(10);
    }
  }

  /** Looking up the key of table entry `k` finds that entry. */
  lemma TableLookup(k: nat)
    requires k < |Table|
    ensures Lookup(Table, Table[k].id) == Some(Table[k])
  {
    TableFacts();
    LookupUnique(Table, k);
  }

  /** The kind of the entry a key lookup finds: `symbols[key].type`. */
  function KindOf(id: string): Kind
    requires Lookup(Table, id).Some?
  {
    Lookup(Table, id).value.kind
  }

  /** A draw in the interval of table position `k` yields the kind of `k`. */
  lemma DrawOfPosition(r: nat, k: nat)
    requires k < |Table|
    requires Cumulative(Table, k) <= r < Cumulative(Table, k + 1)
    ensures DrawnId(Table, r) == Table[k].id
    ensures Lookup(Table, DrawnId(Table, r)).Some?
    ensures KindOf(DrawnId(Table, r)) == Table[k].kind
  {
    DrawIndexIff(Table, r, k);
    TableLookup(k);
  }

  /** An independent statement of which kind each range of draw values
      selects: the table's running totals 18, 33, 41, 47, 51, 53, 58, 62, 65,
      67 and 100 written out; every draw of 67 or more, the fallback
      included, selects the empty symbol. */
  function KindByDraw(r: nat): Kind {
    if r < 18 then Gold
    else if r < 33 then Diamond
    else if r < 41 then Money(20)
    else if r < 47 then Money(50)
    else if r < 51 then Money(100)
    else if r < 53 then Money(250)
    else if r < 58 then Multiplier(3)
    else if r < 62 then Multiplier(6)
    else if r < 65 then Multiplier(12)
    else if r < 67 then Multiplier(23)
    else Empty
  }

  /** The draw over the table selects the kind `KindByDraw` names. */
  lemma DrawKinds(r: nat)
    ensures Lookup(Table, DrawnId(Table, r)).Some?
    ensures KindOf(DrawnId(Table, r)) == KindByDraw(r)
  {
    TableCumulative();
    if r < 18 { DrawOfPosition(r, 0); }
    else if r < 33 { DrawOfPosition(r, 1); }
    else if r < 41 { DrawOfPosition(r, 2); }
    else if r < 47 { DrawOfPosition(r, 3); }
    else if r < 51 { DrawOfPosition(r, 4); }
    else if r < 53 { DrawOfPosition(r, 5); }
    else if r < 58 { DrawOfPosition(r, 6); }
    else if r < 62 { DrawOfPosition(r, 7); }
    else if r < 65 { DrawOfPosition(r, 8); }
    else if r < 67 { DrawOfPosition(r, 9); }
    else if r < 100 { DrawOfPosition(r, 10); }
    else { DrawFallback(r); }
  }

  /** A draw at or past the total weight falls back to the empty symbol. */
  lemma DrawFallback(r: nat)
    requires TotalWeight(Table) <= r
    ensures DrawnId(Table, r) == Fallback
    ensures Lookup(Table, Fallback) == Some(Table[10])
  {
    TableCumulative();
    DrawPastTotal(Table, r);
    TableLookup(10);
  }
}
