/** One company ("stonk"): its share ledger, its timed conditions and the
    integer part of its price update (src/stonk.rs). */
module Stonk {
  import opened Common

  datatype StonkClass = Media | War | Commodity | Technology

  /** A timed effect on a stonk. The `f64` payloads are exact reals here.
      `SetShockProbability` is the variant the market applies on a crash. */
  datatype StonkCondition =
    | Bump(amount: real)
    | IncreasedShockProbability
    | SetShockProbability(value: real, previousShockProbability: real)

  /** An entry of `conditions`: it survives a tick while `untilTick` is beyond it. */
  datatype TimedCondition = TimedCondition(untilTick: nat, condition: StonkCondition)

  /** An entry of `shareholders`: a username and the shares recorded for it. */
  datatype Holder = Holder(name: string, amount: nat)

  /** The part of a stonk that a market tick rewrites. */
  datatype PriceState = PriceState(
    price: nat,
    drift: real,
    historicalPrices: seq<nat>,
    conditions: seq<TimedCondition>)

  const MAX_PRICE_DRIFT: real := 0.2

  // ---------------------------------------------------------------------------
  // The shareholder list
  // ---------------------------------------------------------------------------

  ghost predicate SortedDesc(hs: seq<Holder>) {
    forall i, j :: 0 <= i < j < |hs| ==> hs[i].amount >= hs[j].amount
  }

  ghost predicate NoZeros(hs: seq<Holder>) {
    forall i :: 0 <= i < |hs| ==> hs[i].amount > 0
  }

  ghost predicate DistinctNames(hs: seq<Holder>) {
    forall i, j :: 0 <= i < j < |hs| ==> hs[i].name != hs[j].name
  }

  /** What the ledger promises of `shareholders`: biggest holder first, no
      empty entry, one entry per user. */
  ghost predicate WellFormedLedger(hs: seq<Holder>) {
    SortedDesc(hs) && NoZeros(hs) && DistinctNames(hs)
  }

  /** The shares `h` contributes to `name`. */
  function Part(h: Holder, name: string): nat {
    if h.name == name then h.amount else 0
  }

  /** All shares recorded for `name`, over every entry. */
  function HeldBy(hs: seq<Holder>, name: string): nat {
    if hs == [] then 0 else Part(hs[0], name) + HeldBy(hs[1..], name)
  }

  /** The entry `iter_mut().find(|(holder, _)| holder == name)` stops at. */
  function FirstIndex(hs: seq<Holder>, name: string): (r: Option<nat>)
    ensures r.Some? ==> r.value < |hs| && hs[r.value].name == name
    ensures r.Some? ==> forall j :: 0 <= j < r.value ==> hs[j].name != name
    ensures r.None? ==> forall j :: 0 <= j < |hs| ==> hs[j].name != name
  {
    if hs == [] then None
    else if hs[0].name == name then Some(0)
    else match FirstIndex(hs[1..], name)
      case None => None
      case Some(i) => Some(i + 1)
  }

  /** `retain(|(_, amount)| *amount > 0)`: the positive entries, in order. */
  function RetainPositive(hs: seq<Holder>): (r: seq<Holder>)
    ensures NoZeros(r)
    ensures forall h :: h in r <==> h in hs && h.amount > 0
  {
    if hs == [] then []
    else if hs[0].amount > 0 then [hs[0]] + RetainPositive(hs[1..])
    else RetainPositive(hs[1..])
  }

  /** Places `h` before the first entry that is not bigger than it. */
  function Insert(h: Holder, hs: seq<Holder>): seq<Holder> {
    if hs == [] || h.amount >= hs[0].amount then [h] + hs
    else [hs[0]] + Insert(h, hs[1..])
  }

  /** `sort_by(|(_, a), (_, b)| b.cmp(a))`: a stable sort, biggest amount first. */
  function SortDesc(hs: seq<Holder>): seq<Holder> {
    if hs == [] then [] else Insert(hs[0], SortDesc(hs[1..]))
  }

  /** `sort_shareholders`: drop the empty entries, then sort biggest first. */
  function Normalize(hs: seq<Holder>): seq<Holder> {
    SortDesc(RetainPositive(hs))
  }

  /** The list after crediting `amount` to `name`, before it is normalised:
      the first entry of `name` grows, or a new entry is appended. */
  function Credit(hs: seq<Holder>, name: string, amount: nat): seq<Holder> {
    match FirstIndex(hs, name)
    case Some(i) => hs[i := Holder(name, hs[i].amount + amount)]
    case None => hs + [Holder(name, amount)]
  }

  lemma {:induction false} InsertContents(h: Holder, hs: seq<Holder>)
    ensures multiset(Insert(h, hs)) == multiset{h} + multiset(hs)
  {
    if hs == [] || h.amount >= hs[0].amount {
    } else {
      InsertContents(h, hs[1..]);
      assert hs == [hs[0]] + hs[1..];
    }
  }

  lemma {:induction false} SortContents(hs: seq<Holder>)
    ensures multiset(SortDesc(hs)) == multiset(hs)
  {
    if hs != [] {
      SortContents(hs[1..]);
      InsertContents(hs[0], SortDesc(hs[1..]));
      assert hs == [hs[0]] + hs[1..];
    }
  }

  lemma {:induction false} InsertSorted(h: Holder, hs: seq<Holder>)
    requires SortedDesc(hs)
    ensures SortedDesc(Insert(h, hs))
  {
    if hs == [] || h.amount >= hs[0].amount {
      var r := [h] + hs;
      forall i, j | 0 <= i < j < |r| ensures r[i].amount >= r[j].amount {
        if i == 0 {
          assert r[j] == hs[j - 1];
        } else {
          assert r[i] == hs[i - 1] && r[j] == hs[j - 1];
        }
      }
    } else {
      var t := Insert(h, hs[1..]);
      InsertSorted(h, hs[1..]);
      InsertAtMost(h, hs[1..], hs[0].amount);
      var r := [hs[0]] + t;
      forall i, j | 0 <= i < j < |r| ensures r[i].amount >= r[j].amount {
        assert r[j] == t[j - 1];
        if i > 0 {
          assert r[i] == t[i - 1];
        }
      }
    }
  }

  /** Inserting keeps every amount under a common bound. */
  lemma {:induction false} InsertAtMost(h: Holder, hs: seq<Holder>, bound: nat)
    requires h.amount <= bound
    requires forall i :: 0 <= i < |hs| ==> hs[i].amount <= bound
    ensures forall i :: 0 <= i < |Insert(h, hs)| ==> Insert(h, hs)[i].amount <= bound
  {
    if hs == [] || h.amount >= hs[0].amount {
      var r := [h] + hs;
      assert forall i :: 0 < i < |r| ==> r[i] == hs[i - 1];
    } else {
      InsertAtMost(h, hs[1..], bound);
      var r := [hs[0]] + Insert(h, hs[1..]);
      assert forall i :: 0 < i < |r| ==> r[i] == Insert(h, hs[1..])[i - 1];
    }
  }

  lemma {:induction false} SortSorted(hs: seq<Holder>)
    ensures SortedDesc(SortDesc(hs))
  {
    if hs != [] {
      SortSorted(hs[1..]);
      InsertSorted(hs[0], SortDesc(hs[1..]));
    }
  }

  /** Inserting adds `h` and loses nothing. */
  lemma {:induction false} InsertMembers(h: Holder, hs: seq<Holder>)
    ensures forall x :: x in Insert(h, hs) <==> x == h || x in hs
  {
    if hs != [] && h.amount < hs[0].amount {
      InsertMembers(h, hs[1..]);
      assert hs == [hs[0]] + hs[1..];
    }
  }

  lemma {:induction false} InsertDistinct(h: Holder, hs: seq<Holder>)
    requires DistinctNames(hs)
    requires forall x :: x in hs ==> x.name != h.name
    ensures DistinctNames(Insert(h, hs))
  {
    if hs == [] || h.amount >= hs[0].amount {
      var r := [h] + hs;
      forall i, j | 0 <= i < j < |r| ensures r[i].name != r[j].name {
        assert r[j] == hs[j - 1] && r[j] in hs;
        if i > 0 {
          assert r[i] == hs[i - 1];
        }
      }
    } else {
      var t := Insert(h, hs[1..]);
      assert forall x :: x in hs[1..] ==> x in hs;
      InsertDistinct(h, hs[1..]);
      InsertMembers(h, hs[1..]);
      forall x | x in t ensures x.name != hs[0].name {
        if x != h {
          var k :| 0 <= k < |hs[1..]| && hs[1..][k] == x;
          assert hs[k + 1] == x;
        }
      }
      var r := [hs[0]] + t;
      forall i, j | 0 <= i < j < |r| ensures r[i].name != r[j].name {
        assert r[j] == t[j - 1] && r[j] in t;
        if i > 0 {
          assert r[i] == t[i - 1];
        }
      }
    }
  }

  lemma {:induction false} SortDistinct(hs: seq<Holder>)
    requires DistinctNames(hs)
    ensures DistinctNames(SortDesc(hs))
  {
    if hs != [] {
      var t := SortDesc(hs[1..]);
      SortDistinct(hs[1..]);
      SortContents(hs[1..]);
      forall x | x in t ensures x.name != hs[0].name {
        assert x in multiset(t);
        assert x in multiset(hs[1..]);
        var k :| 0 <= k < |hs[1..]| && hs[1..][k] == x;
        assert hs[k + 1] == x;
      }
      InsertDistinct(hs[0], t);
    }
  }

  lemma {:induction false} RetainDistinct(hs: seq<Holder>)
    requires DistinctNames(hs)
    ensures DistinctNames(RetainPositive(hs))
  {
    if hs != [] {
      RetainDistinct(hs[1..]);
      var t := RetainPositive(hs[1..]);
      if hs[0].amount > 0 {
        forall x | x in t ensures x.name != hs[0].name {
          var k :| 0 <= k < |hs[1..]| && hs[1..][k] == x;
          assert hs[k + 1] == x;
        }
        var r := [hs[0]] + t;
        forall i, j | 0 <= i < j < |r| ensures r[i].name != r[j].name {
          assert r[j] == t[j - 1] && r[j] in t;
          if i > 0 {
            assert r[i] == t[i - 1];
          }
        }
      }
    }
  }

  lemma {:induction false} HeldByInsert(h: Holder, hs: seq<Holder>, name: string)
    ensures HeldBy(Insert(h, hs), name) == Part(h, name) + HeldBy(hs, name)
  {
    if hs == [] || h.amount >= hs[0].amount {
      assert ([h] + hs)[1..] == hs;
    } else {
      HeldByInsert(h, hs[1..], name);
      assert ([hs[0]] + Insert(h, hs[1..]))[1..] == Insert(h, hs[1..]);
    }
  }

  lemma {:induction false} HeldBySort(hs: seq<Holder>, name: string)
    ensures HeldBy(SortDesc(hs), name) == HeldBy(hs, name)
  {
    if hs != [] {
      HeldBySort(hs[1..], name);
      HeldByInsert(hs[0], SortDesc(hs[1..]), name);
    }
  }

  lemma {:induction false} HeldByRetain(hs: seq<Holder>, name: string)
    ensures HeldBy(RetainPositive(hs), name) == HeldBy(hs, name)
  {
    if hs != [] {
      HeldByRetain(hs[1..], name);
      if hs[0].amount > 0 {
        assert ([hs[0]] + RetainPositive(hs[1..]))[1..] == RetainPositive(hs[1..]);
      }
    }
  }

  lemma {:induction false} HeldByUpdate(hs: seq<Holder>, i: nat, x: Holder, name: string)
    requires i < |hs|
    ensures HeldBy(hs[i := x], name) + Part(hs[i], name) == HeldBy(hs, name) + Part(x, name)
  {
    if i > 0 {
      HeldByUpdate(hs[1..], i - 1, x, name);
      assert hs[i := x][1..] == hs[1..][i - 1 := x];
    } else {
      assert hs[i := x][1..] == hs[1..];
    }
  }

  lemma {:induction false} HeldByAppend(hs: seq<Holder>, x: Holder, name: string)
    ensures HeldBy(hs + [x], name) == HeldBy(hs, name) + Part(x, name)
  {
    if hs != [] {
      HeldByAppend(hs[1..], x, name);
      assert (hs + [x])[1..] == hs[1..] + [x];
    } else {
      assert ([x])[1..] == [];
    }
  }

  /** Normalising keeps every user's total and establishes the ledger order;
      it keeps one entry per user when the input had one. */
  lemma NormalizeFacts(hs: seq<Holder>)
    ensures SortedDesc(Normalize(hs)) && NoZeros(Normalize(hs))
    ensures forall name :: HeldBy(Normalize(hs), name) == HeldBy(hs, name)
    ensures DistinctNames(hs) ==> DistinctNames(Normalize(hs))
  {
    var r := RetainPositive(hs);
    SortSorted(r);
    SortContents(r);
    forall x | x in SortDesc(r) ensures x.amount > 0 {
      assert x in multiset(SortDesc(r));
    }
    forall name ensures HeldBy(Normalize(hs), name) == HeldBy(hs, name) {
      HeldByRetain(hs, name);
      HeldBySort(r, name);
    }
    if DistinctNames(hs) {
      RetainDistinct(hs);
      SortDistinct(r);
    }
  }

  /** A ledger that is already in order is left as it is by the normalisation. */
  lemma {:induction false} NormalizeIdentity(hs: seq<Holder>)
    requires SortedDesc(hs) && NoZeros(hs)
    ensures Normalize(hs) == hs
  {
    RetainAllPositive(hs);
    SortIdentity(hs);
  }

  lemma {:induction false} RetainAllPositive(hs: seq<Holder>)
    requires NoZeros(hs)
    ensures RetainPositive(hs) == hs
  {
    if hs != [] {
      RetainAllPositive(hs[1..]);
    }
  }

  lemma {:induction false} SortIdentity(hs: seq<Holder>)
    requires SortedDesc(hs)
    ensures SortDesc(hs) == hs
  {
    if hs != [] {
      SortIdentity(hs[1..]);
      assert hs == [hs[0]] + hs[1..];
    }
  }

  /** Crediting raises the user's total by exactly `amount` and leaves every
      other user's total alone. */
  lemma CreditTotals(hs: seq<Holder>, name: string, amount: nat, other: string)
    ensures HeldBy(Credit(hs, name, amount), name) == HeldBy(hs, name) + amount
    ensures other != name ==> HeldBy(Credit(hs, name, amount), other) == HeldBy(hs, other)
  {
    match FirstIndex(hs, name)
    case Some(i) =>
      HeldByUpdate(hs, i, Holder(name, hs[i].amount + amount), name);
      HeldByUpdate(hs, i, Holder(name, hs[i].amount + amount), other);
    case None =>
      HeldByAppend(hs, Holder(name, amount), name);
      HeldByAppend(hs, Holder(name, amount), other);
  }

  /** Crediting never creates a second entry for a user. */
  lemma CreditDistinct(hs: seq<Holder>, name: string, amount: nat)
    requires DistinctNames(hs)
    ensures DistinctNames(Credit(hs, name, amount))
  {
    match FirstIndex(hs, name)
    case Some(i) =>
    case None =>
      var r := hs + [Holder(name, amount)];
      forall i, j | 0 <= i < j < |r| ensures r[i].name != r[j].name {
        if j == |hs| {
          assert r[i] == hs[i];
        } else {
          assert r[i] == hs[i] && r[j] == hs[j];
        }
      }
  }

  /** Crediting a well-formed ledger and normalising it gives a well-formed
      ledger in which only the credited user's total moved, by `amount`. */
  lemma CreditLedger(hs: seq<Holder>, name: string, amount: nat)
    requires WellFormedLedger(hs)
    ensures WellFormedLedger(Normalize(Credit(hs, name, amount)))
    ensures HeldBy(Normalize(Credit(hs, name, amount)), name) == HeldBy(hs, name) + amount
    ensures forall other :: other != name ==> HeldBy(Normalize(Credit(hs, name, amount)), other) == HeldBy(hs, other)
  {
    var c := Credit(hs, name, amount);
    CreditDistinct(hs, name, amount);
    NormalizeFacts(c);
    CreditTotals(hs, name, amount, name);
    forall other | other != name ensures HeldBy(Normalize(c), other) == HeldBy(hs, other) {
      CreditTotals(hs, name, amount, other);
    }
  }

  /** Taking `amount` from entry `i` of a well-formed ledger and normalising
      gives a well-formed ledger in which only that user's total moved. */
  lemma DebitLedger(hs: seq<Holder>, i: nat, amount: nat)
    requires WellFormedLedger(hs)
    requires i < |hs| && amount <= hs[i].amount
    ensures WellFormedLedger(Normalize(hs[i := Holder(hs[i].name, hs[i].amount - amount)]))
    ensures HeldBy(Normalize(hs[i := Holder(hs[i].name, hs[i].amount - amount)]), hs[i].name) == HeldBy(hs, hs[i].name) - amount
    ensures forall other :: other != hs[i].name ==>
      HeldBy(Normalize(hs[i := Holder(hs[i].name, hs[i].amount - amount)]), other) == HeldBy(hs, other)
  {
    var updated := Holder(hs[i].name, hs[i].amount - amount);
    var d := hs[i := updated];
    assert DistinctNames(d) by {
      forall j, k | 0 <= j < k < |d| ensures d[j].name != d[k].name {
        assert d[j].name == hs[j].name && d[k].name == hs[k].name;
      }
    }
    NormalizeFacts(d);
    HeldByUpdate(hs, i, updated, hs[i].name);
    forall other | other != hs[i].name ensures HeldBy(Normalize(d), other) == HeldBy(hs, other) {
      HeldByUpdate(hs, i, updated, other);
    }
  }

  /** An entry in a list with one entry per user carries that user's whole total. */
  lemma {:induction false} FirstIndexHoldsAll(hs: seq<Holder>, name: string)
    requires DistinctNames(hs)
    ensures FirstIndex(hs, name).Some? ==> HeldBy(hs, name) == hs[FirstIndex(hs, name).value].amount
    ensures FirstIndex(hs, name).None? ==> HeldBy(hs, name) == 0
  {
    if hs != [] {
      assert DistinctNames(hs[1..]) by {
        forall i, j | 0 <= i < j < |hs[1..]| ensures hs[1..][i].name != hs[1..][j].name {
          assert hs[1..][i] == hs[i + 1] && hs[1..][j] == hs[j + 1];
        }
      }
      FirstIndexHoldsAll(hs[1..], name);
      if hs[0].name == name {
        NoOtherEntry(hs[1..], name);
      }
    }
  }

  lemma {:induction false} NoOtherEntry(hs: seq<Holder>, name: string)
    requires forall j :: 0 <= j < |hs| ==> hs[j].name != name
    ensures HeldBy(hs, name) == 0
  {
    if hs != [] {
      NoOtherEntry(hs[1..], name);
    }
  }

  // ---------------------------------------------------------------------------
  // Timed conditions and the price step
  // ---------------------------------------------------------------------------

  /** `retain(|(until_tick, _)| *until_tick > current_tick)`. */
  function Retained(cs: seq<TimedCondition>, currentTick: nat): (r: seq<TimedCondition>)
    ensures forall c :: c in r <==> c in cs && c.untilTick > currentTick
    ensures |r| <= |cs|
  {
    if cs == [] then []
    else if cs[0].untilTick > currentTick then [cs[0]] + Retained(cs[1..], currentTick)
    else Retained(cs[1..], currentTick)
  }

  /** What one condition adds to the drift when it is applied. */
  function DriftGainOf(c: TimedCondition, driftVolatility: real): real {
    match c.condition
    case Bump(amount) => amount * driftVolatility
    case _ => 0.0
  }

  /** What applying the conditions adds to the drift, in list order. */
  function DriftGain(cs: seq<TimedCondition>, driftVolatility: real): real {
    if cs == [] then 0.0
    else DriftGain(cs[..|cs| - 1], driftVolatility) + DriftGainOf(cs[|cs| - 1], driftVolatility)
  }

  function MinReal(a: real, b: real): real { if a <= b then a else b }
  function MaxReal(a: real, b: real): real { if a >= b then a else b }

  /** `.min(MAX_PRICE_DRIFT).max(-MAX_PRICE_DRIFT)`. */
  function ClampDrift(x: real): (r: real)
    ensures -MAX_PRICE_DRIFT <= r <= MAX_PRICE_DRIFT
    ensures -MAX_PRICE_DRIFT <= x <= MAX_PRICE_DRIFT ==> r == x
  {
    MaxReal(MinReal(x, MAX_PRICE_DRIFT), -MAX_PRICE_DRIFT)
  }

  /** Rust's `f as u32`: saturating, and truncating toward zero. */
  function SaturatingU32(x: real): (r: nat)
    ensures r <= U32_MAX
  {
    if x < 0.0 then 0 else if x.Floor > U32_MAX then U32_MAX else x.Floor
  }

  /** The cast truncates values in range and saturates at both ends. */
  lemma SaturatingU32Cases(x: real)
    ensures 0.0 <= x < U32_MAX as real ==> SaturatingU32(x) == x.Floor
    ensures x < 0.0 ==> SaturatingU32(x) == 0
    ensures x >= U32_MAX as real ==> SaturatingU32(x) == U32_MAX
  {
  }

  /** The new price: the drifted price cast to `u32`, never below one hundredth
      of the starting price. */
  function NextPrice(price: nat, startingPrice: nat, priceDrift: real): (r: nat)
    requires startingPrice <= U32_MAX
    ensures r >= startingPrice / 100
    ensures r <= U32_MAX
  {
    Max(SaturatingU32(price as real * (1.0 + priceDrift)), startingPrice / 100)
  }

  /** The conditions a tick appends: the drift just drawn, and a push back
      toward the starting price when the price is outside [start/8, start*8]. */
  function TickConditions(price: nat, startingPrice: nat, priceDrift: real, currentTick: nat): seq<TimedCondition> {
    [TimedCondition(currentTick + 1, Bump(priceDrift))] +
    if 8 * price < startingPrice then
      [TimedCondition(currentTick + 1, Bump(1.0)), TimedCondition(currentTick + 1, IncreasedShockProbability)]
    else if price > 8 * startingPrice then
      [TimedCondition(currentTick + 1, Bump(-1.0)), TimedCondition(currentTick + 1, IncreasedShockProbability)]
    else []
  }

  /** The tick of one stonk with `sample` the random draw (Cauchy or normal);
      the floating-point work is exact real arithmetic here. */
  function TickPrice(ps: PriceState, startingPrice: nat, driftVolatility: real, currentTick: nat, sample: real): PriceState
    requires startingPrice <= U32_MAX
  {
    var priceDrift := ClampDrift(sample);
    var price := NextPrice(ps.price, startingPrice, priceDrift);
    PriceState(
      price,
      (ps.drift + DriftGain(ps.conditions, driftVolatility)) / 2.0,
      ps.historicalPrices + [price],
      Retained(ps.conditions, currentTick) + TickConditions(price, startingPrice, priceDrift, currentTick))
  }

  /** Whatever the draw, the new price is at least a hundredth of the
      starting price and fits `u32`, the history grows by exactly that price,
      and the conditions kept are exactly the live ones plus the new ones,
      which all outlive the tick. */
  lemma TickPriceFacts(ps: PriceState, startingPrice: nat, driftVolatility: real, currentTick: nat, sample: real)
    requires startingPrice <= U32_MAX
    ensures var r := TickPrice(ps, startingPrice, driftVolatility, currentTick, sample);
      r.price >= startingPrice / 100 && r.price <= U32_MAX &&
      r.historicalPrices == ps.historicalPrices + [r.price] &&
      (forall c :: c in r.conditions ==> c.untilTick > currentTick) &&
      (forall c :: c in ps.conditions && c.untilTick > currentTick ==> c in r.conditions)
  {
  }

  lemma MulBound(a: nat, b: nat, bound: nat)
    requires a <= bound && b <= bound
    ensures a * b <= bound * bound
  {
    calc {
      a * b;
    <= { assert a * b <= bound * b; }
      bound * b;
    <= { assert bound * b <= bound * bound; }
      bound * bound;
    }
  }

  // ---------------------------------------------------------------------------
  // The stonk object
  // ---------------------------------------------------------------------------

  class Stonk {
    const id: nat
    const stonkClass: StonkClass
    var pricePerShareInCents: nat
    const numberOfShares: nat
    var allocatedShares: nat
    var shareholders: seq<Holder>
    var drift: real
    const driftVolatility: real
    const volatility: real
    const shockProbability: real
    const startingPrice: nat
    var historicalPrices: seq<nat>
    var conditions: seq<TimedCondition>

    /** The `u32` fields fit, no more shares are allocated than exist, and the
        shareholder list is in ledger order. */
    ghost predicate Valid()
      reads this`pricePerShareInCents, this`allocatedShares, this`shareholders
    {
      pricePerShareInCents <= U32_MAX && numberOfShares <= U32_MAX && startingPrice <= U32_MAX &&
      allocatedShares <= numberOfShares &&
      WellFormedLedger(shareholders)
    }

    function PriceView(): PriceState
      reads this`pricePerShareInCents, this`drift, this`historicalPrices, this`conditions
    {
      PriceState(pricePerShareInCents, drift, historicalPrices, conditions)
    }

    /** A fresh stonk as `set_test_values` leaves it: the starting price is the
        price, nothing is allocated and no history or condition exists. */
    constructor (id: nat, stonkClass: StonkClass, price: nat, numberOfShares: nat,
                 drift: real, driftVolatility: real, volatility: real, shockProbability: real)
      requires price <= U32_MAX && numberOfShares <= U32_MAX
      ensures Valid()
      ensures this.id == id && this.stonkClass == stonkClass
      ensures pricePerShareInCents == price && startingPrice == price
      ensures this.numberOfShares == numberOfShares && allocatedShares == 0 && shareholders == []
      ensures this.drift == drift && this.driftVolatility == driftVolatility
      ensures this.volatility == volatility && this.shockProbability == shockProbability
      ensures historicalPrices == [] && conditions == []
    {
      this.id := id;
      this.stonkClass := stonkClass;
      pricePerShareInCents := price;
      startingPrice := price;
      this.numberOfShares := numberOfShares;
      allocatedShares := 0;
      shareholders := [];
      this.drift := drift;
      this.driftVolatility := driftVolatility;
      this.volatility := volatility;
      this.shockProbability := shockProbability;
      historicalPrices := [];
      conditions := [];
    }

    /** The shares still on offer; the subtraction never underflows. */
    function AvailableAmount(): (r: nat)
      reads this
      requires Valid()
      ensures r <= numberOfShares
      ensures allocatedShares + r == numberOfShares
    {
      numberOfShares - allocatedShares
    }

    /** The capitalisation in cents, computed in `u64`: it cannot overflow. */
    function MarketCapCents(): (r: nat)
      reads this
      requires Valid()
      ensures r <= U64_MAX
      ensures r == 0 <==> pricePerShareInCents == 0 || numberOfShares == 0
    {
      MulBound(pricePerShareInCents, numberOfShares, U32_MAX);
      pricePerShareInCents * numberOfShares
    }

    /** `sort_shareholders`. */
    method SortShareholders()
      modifies this`shareholders
      ensures shareholders == Normalize(old(shareholders))
      ensures DistinctNames(old(shareholders)) ==> WellFormedLedger(shareholders)
    {
      NormalizeFacts(shareholders);
      shareholders := Normalize(shareholders);
    }

    /** `allocate_shares`: fails, changing nothing, when more than the
        available shares are asked for. */
    method AllocateShares(amount: nat) returns (r: Outcome)
      requires Valid()
      modifies this`allocatedShares
      ensures Valid()
      ensures r.Err? <==> amount > old(AvailableAmount())
      ensures r.Err? ==> allocatedShares == old(allocatedShares)
      ensures r.Ok? ==> allocatedShares == old(allocatedShares) + amount
    {
      if amount > AvailableAmount() {
        return Err("Amount is greater than number of available shares.");
      }
      if amount == 0 {
        return Ok;
      }
      allocatedShares := allocatedShares + amount;
      return Ok;
    }

    /** `allocate_shares_to_agent`: allocates, then credits the user's entry
        (or appends one) and restores the ledger order. */
    method AllocateSharesToAgent(username: string, amount: nat) returns (r: Outcome)
      requires Valid()
      modifies this`allocatedShares, this`shareholders
      ensures Valid()
      ensures r.Err? <==> amount > old(AvailableAmount())
      ensures r.Err? ==> allocatedShares == old(allocatedShares) && shareholders == old(shareholders)
      ensures r.Ok? ==> allocatedShares == old(allocatedShares) + amount
      ensures r.Ok? ==> shareholders == Normalize(Credit(old(shareholders), username, amount))
      ensures r.Ok? ==> HeldBy(shareholders, username) == old(HeldBy(shareholders, username)) + amount
      ensures forall other :: other != username ==> HeldBy(shareholders, other) == old(HeldBy(shareholders, other))
    {
      r := AllocateShares(amount);
      if r.Err? {
        return;
      }
      CreditLedger(shareholders, username, amount);
      ghost var credited := Credit(shareholders, username, amount);
      match FirstIndex(shareholders, username) {
        case Some(i) =>
          shareholders := shareholders[i := Holder(username, shareholders[i].amount + amount)];
        case None =>
          shareholders := shareholders + [Holder(username, amount)];
      }
      assert shareholders == credited;
      SortShareholders();
    }

    /** `deallocate_shares`: fails, changing nothing, when more than the
        allocated shares are returned. */
    method DeallocateShares(amount: nat) returns (r: Outcome)
      requires Valid()
      modifies this`allocatedShares
      ensures Valid()
      ensures r.Err? <==> amount > old(allocatedShares)
      ensures r.Err? ==> allocatedShares == old(allocatedShares)
      ensures r.Ok? ==> allocatedShares == old(allocatedShares) - amount
    {
      if amount > allocatedShares {
        return Err("Amount is greater than number of allocated shares.");
      }
      if amount == 0 {
        return Ok;
      }
      allocatedShares := allocatedShares - amount;
      return Ok;
    }

    /** `deallocate_shares_to_agent`. Not atomic: the allocated count is
        reduced before the user's entry is looked up, and stays reduced when
        the user turns out not to hold enough. */
    method DeallocateSharesToAgent(username: string, amount: nat) returns (r: Outcome)
      requires Valid()
      modifies this`allocatedShares, this`shareholders
      ensures Valid()
      ensures amount > old(allocatedShares) ==> r.Err? && allocatedShares == old(allocatedShares)
      ensures amount <= old(allocatedShares) ==> allocatedShares == old(allocatedShares) - amount
      ensures amount <= old(allocatedShares) ==>
        (r.Err? <==> old(FirstIndex(shareholders, username)).None? ||
                     old(HeldBy(shareholders, username)) < amount)
      ensures r.Err? ==> shareholders == old(shareholders)
      ensures r.Ok? ==> HeldBy(shareholders, username) == old(HeldBy(shareholders, username)) - amount
      ensures forall other :: other != username ==> HeldBy(shareholders, other) == old(HeldBy(shareholders, other))
    {
      r := DeallocateShares(amount);
      if r.Err? {
        return;
      }
      FirstIndexHoldsAll(shareholders, username);
      match FirstIndex(shareholders, username)
      case None =>
        return Err("Agent is not a shareholder");
      case Some(i) =>
        if amount > shareholders[i].amount {
          return Err("Amount is greater than number of shares owned by agent.");
        }
        DebitLedger(shareholders, i, amount);
        shareholders := shareholders[i := Holder(username, shareholders[i].amount - amount)];
        SortShareholders();
    }

    /** `add_condition`: appends exactly one entry. */
    method AddCondition(condition: StonkCondition, untilTick: nat)
      modifies this`conditions
      ensures conditions == old(conditions) + [TimedCondition(untilTick, condition)]
    {
      conditions := conditions + [TimedCondition(untilTick, condition)];
    }

    /** `apply_conditions`: every `Bump` feeds the drift, then only the
        conditions that outlive `currentTick` are kept. */
    method ApplyConditions(currentTick: nat)
      modifies this`drift, this`conditions
      ensures drift == old(drift) + DriftGain(old(conditions), driftVolatility)
      ensures conditions == Retained(old(conditions), currentTick)
    {
      ghost var drift0 := drift;
      var cs := conditions;
      var i := 0;
      while i < |cs|
        invariant 0 <= i <= |cs|
        invariant conditions == cs
        invariant drift == drift0 + DriftGain(cs[..i], driftVolatility)
      {
        assert cs[..i + 1][..i] == cs[..i];
        match cs[i].condition {
          case Bump(amount) =>
            drift := drift + amount * driftVolatility;
          case IncreasedShockProbability =>
            // read by the tick itself, not here
          case SetShockProbability(_, _) =>
        }
        i := i + 1;
      }
      assert cs[..i] == cs;
      conditions := Retained(conditions, currentTick);
    }

    /** The conditions the tick appends after moving the price: the drift
        just drawn, and the push back when the price left its band. */
    method AddTickConditions(priceDrift: real, currentTick: nat)
      modifies this`conditions
      ensures conditions == old(conditions) + TickConditions(pricePerShareInCents, startingPrice, priceDrift, currentTick)
    {
      AddCondition(Bump(priceDrift), currentTick + 1);
      if 8 * pricePerShareInCents < startingPrice {
        AddCondition(Bump(1.0), currentTick + 1);
        AddCondition(IncreasedShockProbability, currentTick + 1);
      } else if pricePerShareInCents > 8 * startingPrice {
        AddCondition(Bump(-1.0), currentTick + 1);
        AddCondition(IncreasedShockProbability, currentTick + 1);
      }
    }

    /** `tick` with the random draw `sample` as input: conditions applied, the
        price moved and recorded, the drift halved, new conditions added. */
    method Tick(currentTick: nat, sample: real)
      requires Valid()
      modifies this`pricePerShareInCents, this`drift, this`historicalPrices, this`conditions
      ensures Valid()
      ensures PriceView() == TickPrice(old(PriceView()), startingPrice, driftVolatility, currentTick, sample)
    {
      ApplyConditions(currentTick);
      var priceDrift := ClampDrift(sample);
      var price := NextPrice(pricePerShareInCents, startingPrice, priceDrift);
      pricePerShareInCents := price;
      historicalPrices := historicalPrices + [price];
      drift := drift / 2.0;
      AddTickConditions(priceDrift, currentTick);
    }
  }
}
