/**
 The prize catalog of the slot machine: the four prizes, their configured
 draw probabilities, the by-name lookup with its first-entry fallback, and the
 confetti intensity that each prize triggers when it is won.
 */
module Catalog {
  import opened Options

  /** The closed set of prizes. */
  datatype Prize = Bonus58 | Bonus168 | Autograph | Bonus666

  /** The label the widget shows for each prize. */
  function Label(p: Prize): string
  {
    match p
    case Bonus58 => "58獎金"
    case Bonus168 => "168獎金"
    case Autograph => "馬逼簽名"
    case Bonus666 => "666獎金"
  }

  /** One catalog entry; `emoji` and `color` are presentation data only. */
  datatype PrizeConfig = PrizeConfig(name: Prize, probability: real, emoji: string, color: string)

  /** The catalog, in its declared order. */
  const Prizes: seq<PrizeConfig> := [
    PrizeConfig(Bonus58, 0.80, "💰", "#fbbf24"),
    PrizeConfig(Bonus168, 0.10, "💎", "#60a5fa"),
    PrizeConfig(Autograph, 0.08, "✍️", "#a78bfa"),
    PrizeConfig(Bonus666, 0.02, "🎰", "#f87171")
  ]

  /** Distinct prizes carry distinct labels. */
  lemma LabelsDistinct(p: Prize, q: Prize)
    ensures Label(p) == Label(q) <==> p == q
  {
  }

  /** Every prize has an entry in the catalog, and the names are pairwise distinct. */
  lemma CatalogListsEachPrizeOnce(p: Prize)
    ensures exists i :: 0 <= i < |Prizes| && Prizes[i].name == p
    ensures forall i, j :: 0 <= i < j < |Prizes| ==> Prizes[i].name != Prizes[j].name
  {
    match p
    case Bonus58 => assert Prizes[0].name == p;
    case Bonus168 => assert Prizes[1].name == p;
    case Autograph => assert Prizes[2].name == p;
    case Bonus666 => assert Prizes[3].name == p;
  }

  /**
   Index of the first entry of `table`, at or after `from`, whose name is `name`
   (the search `Array.prototype.find` performs), or None when no entry matches.
   */
  function FindIndex(table: seq<PrizeConfig>, name: Prize, from: nat): (k: Option<nat>)
    requires from <= |table|
    ensures k.Some? ==> from <= k.value < |table| && table[k.value].name == name
    ensures k.Some? ==> forall j :: from <= j < k.value ==> table[j].name != name
    ensures k.None? <==> forall j :: from <= j < |table| ==> table[j].name != name
    decreases |table| - from
  {
    if from == |table| then None
    else if table[from].name == name then Some(from)
    else FindIndex(table, name, from + 1)
  }

  /** Entry `k` is named `name` and no entry before it is. */
  predicate FirstNamed(table: seq<PrizeConfig>, name: Prize, k: nat)
  {
    && k < |table|
    && table[k].name == name
    && forall j :: 0 <= j < k ==> table[j].name != name
  }

  /**
   The entry of a non-empty `table` named `name`, falling back to the first
   entry when no entry matches.
   */
  function ConfigIn(table: seq<PrizeConfig>, name: Prize): (c: PrizeConfig)
    requires |table| > 0
    ensures c in table
    ensures (exists i :: 0 <= i < |table| && table[i].name == name) ==> c.name == name
    ensures (forall i :: 0 <= i < |table| ==> table[i].name != name) ==> c == table[0]
    ensures (exists i :: 0 <= i < |table| && table[i].name == name) ==>
              exists k :: 0 <= k < |table| && c == table[k] && FirstNamed(table, name, k)
  {
    match FindIndex(table, name, 0)
    case Some(k) => table[k]
    case None => table[0]
  }

  /** The catalog entry of a prize; the fallback is never taken for the catalog. */
  function GetPrizeConfig(name: Prize): (c: PrizeConfig)
    ensures c in Prizes && c.name == name
    ensures c.probability > 0.0
  {
    CatalogListsEachPrizeOnce(name);
    ConfigIn(Prizes, name)
  }

  /** Number of confetti particles fired when `p` is won. */
  function ConfettiCount(p: Prize): (n: nat)
    ensures 20 <= n <= 50
    ensures p != Bonus58 <==> n > 20
  {
    match p
    case Bonus666 => 50
    case Autograph => 40
    case Bonus168 => 30
    case Bonus58 => 20
  }

  /**
   Rarer prizes never get fewer particles: a strictly lower configured
   probability gives strictly more particles, an equal one the same number.
   */
  lemma ConfettiMonotoneInRarity(a: Prize, b: Prize)
    ensures GetPrizeConfig(a).probability < GetPrizeConfig(b).probability ==>
              ConfettiCount(a) > ConfettiCount(b)
    ensures GetPrizeConfig(a).probability <= GetPrizeConfig(b).probability ==>
              ConfettiCount(a) >= ConfettiCount(b)
    ensures 20 <= ConfettiCount(a) <= 50
  {
  }

  /** The reels as first displayed: the labels of the first three catalog entries. */
  function InitialReels(): (reels: seq<Prize>)
    ensures |reels| == 3
    ensures forall i :: 0 <= i < 3 ==> reels[i] == Prizes[i].name
  {
    [Prizes[0].name, Prizes[1].name, Prizes[2].name]
  }

  /** The three initial reels show three different prizes, none of them the rarest. */
  lemma InitialReelsDistinct()
    ensures forall i, j :: 0 <= i < j < |InitialReels()| ==> InitialReels()[i] != InitialReels()[j]
    ensures Bonus666 !in InitialReels()
  {
  }
}
