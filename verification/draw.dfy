/**
 The weighted prize draw. The random number is a parameter `r`, so the draw
 is a pure function of it: the catalog is walked in declared order while the
 probabilities are summed, and the first entry whose running sum reaches `r`
 is the prize; when no entry reaches `r`, the first entry is returned.
 */
module PrizeDraw {
  import opened Options
  import opened Catalog

  /** Sum of the probabilities of the first `n` entries of `table`. */
  function Cumulative(table: seq<PrizeConfig>, n: nat): real
    requires n <= |table|
  {
    if n == 0 then 0.0 else Cumulative(table, n - 1) + table[n - 1].probability
  }

  /** The running sum through entry `j`, that entry included. */
  function Through(table: seq<PrizeConfig>, j: nat): real
    requires j < |table|
  {
    Cumulative(table, j + 1)
  }

  /** Entry `k` is the first, in declared order, whose running sum reaches `r`. */
  predicate FirstReaching(table: seq<PrizeConfig>, r: real, k: nat)
  {
    && k < |table|
    && r <= Through(table, k)
    && forall j :: 0 <= j < k ==> Through(table, j) < r
  }

  /** No running sum of `table` reaches `r`. */
  predicate NoneReaching(table: seq<PrizeConfig>, r: real)
  {
    forall j :: 0 <= j < |table| ==> Through(table, j) < r
  }

  /**
   The loop of the draw from entry `i` on, with `acc` the running sum of the
   entries before `i`: the index of the entry at which the loop returns, or
   None when it runs off the end of the table.
   */
  function Scan(table: seq<PrizeConfig>, r: real, i: nat, acc: real): (k: Option<nat>)
    requires i <= |table| && acc == Cumulative(table, i)
    requires forall j :: 0 <= j < i ==> Through(table, j) < r
    ensures k.Some? ==> FirstReaching(table, r, k.value)
    ensures k.None? ==> NoneReaching(table, r)
    decreases |table| - i
  {
    if i == |table| then None
    else
      var acc' := acc + table[i].probability;
      if r <= acc' then Some(i) else Scan(table, r, i + 1, acc')
  }

  /** The draw over any non-empty table. */
  function SelectIn(table: seq<PrizeConfig>, r: real): (p: Prize)
    requires |table| > 0
    ensures exists k :: 0 <= k < |table| && table[k].name == p
    ensures forall k: nat :: FirstReaching(table, r, k) ==> p == table[k].name
    ensures NoneReaching(table, r) ==> p == table[0].name
  {
    match Scan(table, r, 0, 0.0)
    case Some(k) => table[k].name
    case None => table[0].name
  }

  /** The draw over the prize catalog, for the random number `r`. */
  function SelectPrize(r: real): (p: Prize)
    ensures r <= Cumulative(Prizes, |Prizes|) ==> exists k: nat :: FirstReaching(Prizes, r, k) && p == Prizes[k].name
  {
    SelectIn(Prizes, r)
  }

  /** All probabilities of `table` are non-negative. */
  predicate NonNegative(table: seq<PrizeConfig>)
  {
    forall i :: 0 <= i < |table| ==> table[i].probability >= 0.0
  }

  /** With non-negative probabilities the running sums never decrease. */
  lemma {:induction false} CumulativeMonotone(table: seq<PrizeConfig>, m: nat, n: nat)
    requires NonNegative(table)
    requires m <= n <= |table|
    ensures Cumulative(table, m) <= Cumulative(table, n)
    decreases n - m
  {
    if m < n {
      CumulativeMonotone(table, m, n - 1);
    }
  }

  /**
   With non-negative probabilities, a random number above the total falls
   through the loop and draws the first entry, never the last.
   */
  lemma FallbackIsFirstEntry(table: seq<PrizeConfig>, r: real)
    requires |table| > 0 && NonNegative(table)
    requires r > Cumulative(table, |table|)
    ensures NoneReaching(table, r)
    ensures SelectIn(table, r) == table[0].name
  {
    forall j | 0 <= j < |table|
      ensures Through(table, j) < r
    {
      CumulativeMonotone(table, j + 1, |table|);
    }
  }

  /** The catalog's probabilities are positive and the running sums are 0.8, 0.9, 0.98 and 1. */
  lemma CatalogSums()
    ensures NonNegative(Prizes)
    ensures Cumulative(Prizes, 1) == 0.80
    ensures Cumulative(Prizes, 2) == 0.90
    ensures Cumulative(Prizes, 3) == 0.98
    ensures Cumulative(Prizes, 4) == 1.0
  {
    assert Cumulative(Prizes, 1) == 0.80;
    assert Cumulative(Prizes, 2) == 0.90;
    assert Cumulative(Prizes, 3) == 0.98;
  }

  /** The prize for `r`, band by band, as the catalog's probabilities lay them out. */
  function Band(r: real): Prize
  {
    if r <= 0.80 then Bonus58
    else if r <= 0.90 then Bonus168
    else if r <= 0.98 then Autograph
    else if r <= 1.0 then Bonus666
    else Bonus58
  }

  /** For every `r` the draw agrees with the band layout, including the fallback above 1. */
  lemma SelectPrizeBands(r: real)
    ensures SelectPrize(r) == Band(r)
    ensures r <= 0.80 ==> SelectPrize(r) == Bonus58
    ensures 0.80 < r <= 0.90 ==> SelectPrize(r) == Bonus168
    ensures 0.90 < r <= 0.98 ==> SelectPrize(r) == Autograph
    ensures 0.98 < r <= 1.0 ==> SelectPrize(r) == Bonus666
    ensures r > 1.0 ==> SelectPrize(r) == Bonus58
  {
    CatalogSums();
    if r <= 0.80 {
      assert FirstReaching(Prizes, r, 0);
    } else if r <= 0.90 {
      assert FirstReaching(Prizes, r, 1);
    } else if r <= 0.98 {
      assert FirstReaching(Prizes, r, 2);
    } else if r <= 1.0 {
      assert FirstReaching(Prizes, r, 3);
    } else {
      FallbackIsFirstEntry(Prizes, r);
    }
  }

  /**
   The draw over the unit interval of `Math.random()`: zero gives the first
   entry, and every `r` above 0.98 gives the last entry; the fallback is not
   reached for any `r` in [0, 1).
   */
  lemma SelectPrizeUnitInterval(r: real)
    requires 0.0 <= r < 1.0
    ensures r == 0.0 ==> SelectPrize(r) == Prizes[0].name
    ensures r > 0.98 ==> SelectPrize(r) == Prizes[3].name
    ensures !NoneReaching(Prizes, r)
  {
    SelectPrizeBands(r);
    CatalogSums();
    assert Through(Prizes, 3) >= r;
  }

  /**
   Each prize is drawn exactly on its own band of the unit interval: for `r`
   in (0, 1], entry `k` is drawn iff `r` lies strictly above the running sum
   before it and at most the running sum through it, an interval whose width
   is the entry's probability. This is the exact-arithmetic counterpart of the
   draw frequencies converging to the configured probabilities.
   */
  lemma DrawBandsMatchProbabilities(r: real, k: nat)
    requires 0.0 < r <= 1.0 && k < |Prizes|
    ensures SelectPrize(r) == Prizes[k].name <==> Cumulative(Prizes, k) < r <= Through(Prizes, k)
    ensures Through(Prizes, k) - Cumulative(Prizes, k) == Prizes[k].probability
  {
    SelectPrizeBands(r);
    CatalogSums();
  }
}
