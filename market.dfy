/** The market: the day/night clock, the per-tick update of the eight stonks
    and the application of a player's pending action (src/market.rs). */
module Market {
  import opened Common
  import opened Stonk
  import opened Agent

  const DAY_STARTING_HOUR: nat := 6
  const DAY_LENGTH_HOURS: nat := 16
  const NIGHT_LENGTH_HOURS: nat := 24 - DAY_LENGTH_HOURS
  const TICKS_PER_HOUR: nat := 4
  /** Sixty-four ticks of fifteen minutes. */
  const DAY_LENGTH: nat := TICKS_PER_HOUR * DAY_LENGTH_HOURS
  /** Thirty-two ticks of fifteen minutes. */
  const NIGHT_LENGTH: nat := TICKS_PER_HOUR * NIGHT_LENGTH_HOURS
  /** Twelve weeks of day ticks. */
  const HISTORICAL_SIZE: nat := DAY_LENGTH * 7 * 12
  const NUMBER_OF_STONKS: nat := 8
  const BRIBE_AMOUNT: nat := 10_000 * 100

  datatype Season = Spring | Summer | Fall | Winter

  datatype GamePhase = Day(cycle: nat, counter: nat) | Night(cycle: nat, counter: nat)

  // ---------------------------------------------------------------------------
  // The calendar
  // ---------------------------------------------------------------------------

  /** The phase's counter stays inside its half of the cycle. */
  ghost predicate PhaseValid(p: GamePhase) {
    match p
    case Day(_, counter) => counter < DAY_LENGTH
    case Night(_, counter) => counter < NIGHT_LENGTH
  }

  /** `time`: hour and minute of the clock. */
  function Time(p: GamePhase): (r: (nat, nat))
    ensures r.0 < 24
    ensures r.1 == 0 || r.1 == 15 || r.1 == 30 || r.1 == 45
  {
    match p
    case Day(_, counter) =>
      ((DAY_STARTING_HOUR + counter / TICKS_PER_HOUR) % 24, (counter % TICKS_PER_HOUR) * 15)
    case Night(_, counter) =>
      ((DAY_STARTING_HOUR + DAY_LENGTH_HOURS + counter / TICKS_PER_HOUR) % 24, (counter % TICKS_PER_HOUR) * 15)
  }

  /** `day`: the day of the year. */
  function DayOfYear(p: GamePhase): (r: nat)
    ensures 1 <= r <= 365
  {
    p.cycle % 365 + 1
  }

  /** `season`: ninety cycles per season. */
  function SeasonOf(p: GamePhase): Season {
    [Spring, Summer, Fall, Winter][(p.cycle / 90) % 4]
  }

  /** `year`: the first year is 2025, a new one every four seasons. */
  function Year(p: GamePhase): (r: nat)
    ensures r >= 2025
  {
    2024 + (p.cycle / 90 / 4 + 1)
  }

  /** The phase after one `Market::tick`. */
  function NextPhase(p: GamePhase): (r: GamePhase)
    ensures PhaseValid(p) ==> PhaseValid(r)
    ensures r.cycle == (if p.Night? && p.counter >= NIGHT_LENGTH - 1 then p.cycle + 1 else p.cycle)
  {
    match p
    case Day(cycle, counter) =>
      if counter < DAY_LENGTH - 1 then Day(cycle, counter + 1) else Night(cycle, 0)
    case Night(cycle, counter) =>
      if counter < NIGHT_LENGTH - 1 then Night(cycle, counter + 1) else Day(cycle + 1, 0)
  }

  /** `n` ticks of the clock. */
  function Advance(p: GamePhase, n: nat): GamePhase
    decreases n
  {
    if n == 0 then p else Advance(NextPhase(p), n - 1)
  }

  /** Minutes since midnight shown by the clock. */
  function MinuteOfDay(p: GamePhase): nat {
    Time(p).0 * 60 + Time(p).1
  }

  /** During the day the clock reads six in the morning plus fifteen minutes
      per tick. */
  lemma DayMinute(c: nat, k: nat)
    requires k < DAY_LENGTH
    ensures MinuteOfDay(Day(c, k)) == 360 + 15 * k
  {
    var q, r := k / 4, k % 4;
    assert k == 4 * q + r && q < 16;
    assert Time(Day(c, k)) == (6 + q, r * 15);
  }

  /** At night the clock starts at ten in the evening and passes midnight
      after eight ticks. */
  lemma NightMinute(c: nat, k: nat)
    requires k < NIGHT_LENGTH
    ensures MinuteOfDay(Night(c, k)) == if k < 8 then 1320 + 15 * k else 15 * k - 120
  {
    var q, r := k / 4, k % 4;
    assert k == 4 * q + r && q < 8;
    if q < 2 {
      assert Time(Night(c, k)) == (22 + q, r * 15);
    } else {
      assert Time(Night(c, k)) == (q - 2, r * 15);
    }
  }

  lemma ModDay(x: int)
    requires 0 <= x < 2 * 1440
    ensures x % 1440 == if x < 1440 then x else x - 1440
  {
  }

  /** Every tick moves the clock on by exactly fifteen minutes, midnight
      included. */
  lemma ClockAdvances(p: GamePhase)
    requires PhaseValid(p)
    ensures MinuteOfDay(NextPhase(p)) == (MinuteOfDay(p) + 15) % 1440
  {
    var m := MinuteOfDay(p);
    match p {
      case Day(c, k) =>
        DayMinute(c, k);
        if k < DAY_LENGTH - 1 {
          DayMinute(c, k + 1);
        } else {
          NightMinute(c, 0);
        }
      case Night(c, k) =>
        NightMinute(c, k);
        if k < NIGHT_LENGTH - 1 {
          NightMinute(c, k + 1);
        } else {
          DayMinute(c + 1, 0);
        }
    }
    ModDay(m + 15);
  }

  /** `k` ticks inside a day only move the counter. */
  lemma {:induction false} AdvanceWithinDay(c: nat, k: nat, n: nat)
    requires k + n <= DAY_LENGTH - 1
    ensures Advance(Day(c, k), n) == Day(c, k + n)
    decreases n
  {
    if n > 0 {
      AdvanceWithinDay(c, k + 1, n - 1);
    }
  }

  /** `k` ticks inside a night only move the counter. */
  lemma {:induction false} AdvanceWithinNight(c: nat, k: nat, n: nat)
    requires k + n <= NIGHT_LENGTH - 1
    ensures Advance(Night(c, k), n) == Night(c, k + n)
    decreases n
  {
    if n > 0 {
      AdvanceWithinNight(c, k + 1, n - 1);
    }
  }

  lemma {:induction false} AdvanceAdd(p: GamePhase, a: nat, b: nat)
    ensures Advance(p, a + b) == Advance(Advance(p, a), b)
    decreases a
  {
    if a > 0 {
      AdvanceAdd(NextPhase(p), a - 1, b);
    }
  }

  /** A whole cycle is 96 ticks: 64 of day, then 32 of night, ending at the
      next cycle's dawn. */
  lemma FullCycle(c: nat)
    ensures Advance(Day(c, 0), DAY_LENGTH) == Night(c, 0)
    ensures Advance(Day(c, 0), DAY_LENGTH + NIGHT_LENGTH) == Day(c + 1, 0)
  {
    AdvanceWithinDay(c, 0, DAY_LENGTH - 1);
    AdvanceAdd(Day(c, 0), DAY_LENGTH - 1, 1);
    AdvanceWithinNight(c, 0, NIGHT_LENGTH - 1);
    AdvanceAdd(Night(c, 0), NIGHT_LENGTH - 1, 1);
    AdvanceAdd(Day(c, 0), DAY_LENGTH, NIGHT_LENGTH);
  }

  // ---------------------------------------------------------------------------
  // One day tick of one stonk
  // ---------------------------------------------------------------------------

  /** `while len > HISTORICAL_SIZE { remove(0) }`: the newest entries. */
  function KeepNewest(h: seq<nat>, size: nat): (r: seq<nat>)
    ensures |r| == Min(|h|, size)
    ensures r == h[|h| - |r|..]
  {
    if |h| > size then h[|h| - size..] else h
  }

  /** At the first tick of each trading day every stonk gets the day's
      global drift as a bump lasting one day. */
  function WithGlobalDrift(ps: PriceState, lastTick: nat, globalDrift: real): (r: PriceState)
    ensures r.price == ps.price && r.drift == ps.drift && r.historicalPrices == ps.historicalPrices
    ensures lastTick % DAY_LENGTH != 0 ==> r.conditions == ps.conditions
    ensures lastTick % DAY_LENGTH == 0 ==>
      r.conditions == ps.conditions + [TimedCondition(lastTick + DAY_LENGTH, Bump(globalDrift))]
  {
    if lastTick % DAY_LENGTH == 0
    then ps.(conditions := ps.conditions + [TimedCondition(lastTick + DAY_LENGTH, Bump(globalDrift))])
    else ps
  }

  /** What `tick_day` does to one stonk: the day's global drift at dawn of
      the trading day, the stonk's own tick, then the history trimmed. */
  function DayTick(ps: PriceState, startingPrice: nat, driftVolatility: real, lastTick: nat,
                   globalDrift: real, sample: real): PriceState
    requires startingPrice <= U32_MAX
  {
    var ticked := TickPrice(WithGlobalDrift(ps, lastTick, globalDrift), startingPrice, driftVolatility, lastTick, sample);
    ticked.(historicalPrices := KeepNewest(ticked.historicalPrices, HISTORICAL_SIZE))
  }

  /** After a day tick the history holds at most twelve weeks of prices and
      ends with the new price, which respects the floor. */
  lemma DayTickFacts(ps: PriceState, startingPrice: nat, driftVolatility: real, lastTick: nat,
                     globalDrift: real, sample: real)
    requires startingPrice <= U32_MAX
    ensures var r := DayTick(ps, startingPrice, driftVolatility, lastTick, globalDrift, sample);
      |r.historicalPrices| <= HISTORICAL_SIZE &&
      |r.historicalPrices| >= 1 && r.historicalPrices[|r.historicalPrices| - 1] == r.price &&
      r.price >= startingPrice / 100
  {
    TickPriceFacts(WithGlobalDrift(ps, lastTick, globalDrift), startingPrice, driftVolatility, lastTick, sample);
  }

  /** The price state of each stonk, in order. */
  ghost function Views(ss: seq<Stonk>): (r: seq<PriceState>)
    reads set s | s in ss
    ensures |r| == |ss|
    ensures forall k :: 0 <= k < |ss| ==> r[k] == ss[k].PriceView()
  {
    if ss == [] then [] else Views(ss[..|ss| - 1]) + [ss[|ss| - 1].PriceView()]
  }

  /** `DayTick` of every stonk, in order. */
  ghost function DayTicks(ss: seq<Stonk>, views: seq<PriceState>, lastTick: nat, globalDrift: real, samples: seq<real>): seq<PriceState>
    requires |views| == |ss| == |samples|
    requires forall k :: 0 <= k < |ss| ==> ss[k].startingPrice <= U32_MAX
  {
    seq(|ss|, k requires 0 <= k < |ss| =>
      DayTick(views[k], ss[k].startingPrice, ss[k].driftVolatility, lastTick, globalDrift, samples[k]))
  }

  /** The parts of a stonk a player's action can change. */
  datatype Book = Book(allocatedShares: nat, shareholders: seq<Holder>, conditions: seq<TimedCondition>)

  function BookOf(s: Stonk): Book
    reads s`allocatedShares, s`shareholders, s`conditions
  {
    Book(s.allocatedShares, s.shareholders, s.conditions)
  }

  /** The book of each stonk, in order. */
  ghost function Books(ss: seq<Stonk>): seq<Book>
    reads set s | s in ss
  {
    seq(|ss|, k requires 0 <= k < |ss| reads ss => BookOf(ss[k]))
  }

  /** The parts of a player's wallet an action can change. */
  datatype Wallet = Wallet(cash: nat, owned: seq<nat>)

  function WalletOf(a: UserAgent): Wallet
    reads a`cash, a`ownedStonks
  {
    Wallet(a.cash, a.ownedStonks)
  }

  /** A purchase turned away before anything moves: too few shares on
      offer, or too little cash. */
  predicate BuyRefused(ss: seq<Stonk>, i: nat, n: nat, unitPrice: nat, w0: Wallet, b0: seq<Book>)
    requires i < |ss| == |b0|
  {
    b0[i].allocatedShares + n > ss[i].numberOfShares || w0.cash < OrderCost(unitPrice, n)
  }

  /** The `Buy` arm, from wallet `w0` and books `b0` to `w1` and `b1`: it
      fails when too few shares are on offer, the cash is short or the
      holding would overflow, and only the stonk bought and the buyer's
      wallet move. A failing `add_stonk` keeps the cash already taken. */
  ghost predicate BuyApplied(ss: seq<Stonk>, username: string, lastTick: nat, i: nat, n: nat, unitPrice: nat, stake: real,
                       w0: Wallet, b0: seq<Book>, w1: Wallet, b1: seq<Book>, r: Outcome)
    requires i < |ss| == |b0| == |b1| && i < |w0.owned|
  {
    (r.Err? <==> BuyRefused(ss, i, n, unitPrice, w0, b0) || w0.owned[i] + n > U32_MAX) &&
    (r.Err? ==>
       w1 == Wallet(if BuyRefused(ss, i, n, unitPrice, w0, b0) then w0.cash else w0.cash - OrderCost(unitPrice, n), w0.owned) &&
       b1 == b0) &&
    (r.Ok? ==>
       w1 == Wallet(w0.cash - OrderCost(unitPrice, n), w0.owned[i := w0.owned[i] + n]) &&
       b1 == b0[i := Allocated(b0[i], username, n, stake, lastTick + 1)])
  }

  /** `BuyApplied` from the buyer's and the stonk's sides taken apart. */
  lemma BuyAppliedFrom(ss: seq<Stonk>, username: string, lastTick: nat, i: nat, n: nat, unitPrice: nat, stake: real,
                       w0: Wallet, b0: seq<Book>, w1: Wallet, x: Book, r: Outcome)
    requires i < |ss| == |b0| && i < |w0.owned|
    requires r.Err? <==> BuyRefused(ss, i, n, unitPrice, w0, b0) || w0.owned[i] + n > U32_MAX
    requires r.Err? ==>
      w1 == Wallet(if BuyRefused(ss, i, n, unitPrice, w0, b0) then w0.cash else w0.cash - OrderCost(unitPrice, n), w0.owned) &&
      x == b0[i]
    requires r.Ok? ==>
      w1 == Wallet(w0.cash - OrderCost(unitPrice, n), w0.owned[i := w0.owned[i] + n]) &&
      x == Allocated(b0[i], username, n, stake, lastTick + 1)
    ensures BuyApplied(ss, username, lastTick, i, n, unitPrice, stake, w0, b0, w1, b0[i := x], r)
  {
    if r.Err? {
      assert b0[i := x] == b0;
    }
  }

  /** `SellApplied` from the seller's and the stonk's sides taken apart. */
  lemma SellAppliedFrom(ss: seq<Stonk>, username: string, lastTick: nat, i: nat, n: nat, unitPrice: nat, stake: real,
                        w0: Wallet, b0: seq<Book>, w1: Wallet, x: Book, r: Outcome)
    requires i < |ss| == |b0| && i < |w0.owned|
    requires w0.owned[i] < n ==> r.Err? && w1 == w0 && x == b0[i]
    requires w0.owned[i] >= n ==>
      w1 == Wallet(w0.cash + OrderCost(unitPrice, n), w0.owned[i := w0.owned[i] - n]) &&
      SharesReturned(b0[i], x, username, n, stake, lastTick + 1, r)
    ensures SellApplied(ss, username, lastTick, i, n, unitPrice, stake, w0, b0, w1, b0[i := x], r)
  {
    if w0.owned[i] < n {
      assert b0[i := x] == b0;
    }
  }

  /** A stonk's book after `n` of its shares go to `username`, with a bump
      of `stake` until `tick`. */
  function Allocated(b: Book, username: string, n: nat, stake: real, tick: nat): Book
  {
    Book(b.allocatedShares + n, Normalize(Credit(b.shareholders, username, n)),
         b.conditions + [TimedCondition(tick, Bump(stake))])
  }

  /** The `Sell` arm: a short holding fails without effect; otherwise the
      holding falls and the cash rises, and then the stonk takes the shares
      back, which fails when fewer are allocated or the seller holds fewer
      in its ledger. Only the stonk sold and the seller's wallet move. */
  ghost predicate SellApplied(ss: seq<Stonk>, username: string, lastTick: nat, i: nat, n: nat, unitPrice: nat, stake: real,
                        w0: Wallet, b0: seq<Book>, w1: Wallet, b1: seq<Book>, r: Outcome)
    requires i < |ss| == |b0| == |b1| && i < |w0.owned|
  {
    (w0.owned[i] < n ==> r.Err? && w1 == w0 && b1 == b0) &&
    (w0.owned[i] >= n ==>
       w1 == Wallet(w0.cash + OrderCost(unitPrice, n), w0.owned[i := w0.owned[i] - n]) &&
       (forall k :: 0 <= k < |ss| && k != i ==> b1[k] == b0[k]) &&
       SharesReturned(b0[i], b1[i], username, n, stake, lastTick + 1, r))
  }

  /** The stonk's side of a sale, from book `b0` to `b1`: it fails when
      fewer than `n` shares are allocated or the seller's ledger entry is
      missing or short; the allocation falls whenever it can, the ledger
      and conditions move only on success, and no other holder's total
      changes. */
  ghost predicate SharesReturned(b0: Book, b1: Book, username: string, n: nat, stake: real, tick: nat, r: Outcome)
  {
    (r.Err? <==> n > b0.allocatedShares || FirstIndex(b0.shareholders, username).None? ||
                 HeldBy(b0.shareholders, username) < n) &&
    b1.allocatedShares == (if n <= b0.allocatedShares then b0.allocatedShares - n else b0.allocatedShares) &&
    (r.Err? ==> b1.shareholders == b0.shareholders && b1.conditions == b0.conditions) &&
    (forall other :: other != username ==> HeldBy(b1.shareholders, other) == HeldBy(b0.shareholders, other)) &&
    (r.Ok? ==>
       HeldBy(b1.shareholders, username) == HeldBy(b0.shareholders, username) - n &&
       b1.conditions == b0.conditions + [TimedCondition(tick, Bump(-stake))])
  }

  /** Every stonk of class `c` gains a day-long bump of 5 and nothing else
      moves. */
  ghost predicate ClassBumped(ss: seq<Stonk>, c: StonkClass, lastTick: nat, b0: seq<Book>, b1: seq<Book>)
    requires |b0| == |ss| && |b1| == |ss|
  {
    forall k :: 0 <= k < |ss| ==>
      b1[k] == b0[k].(conditions := b0[k].conditions +
        (if ss[k].stonkClass == c then [TimedCondition(lastTick + DAY_LENGTH, Bump(5.0))] else []))
  }

  /** Every stonk gains its two crash conditions and nothing else moves. */
  ghost predicate AllCrashed(ss: seq<Stonk>, lastTick: nat, b0: seq<Book>, b1: seq<Book>)
    requires |b0| == |ss| && |b1| == |ss|
  {
    forall k :: 0 <= k < |ss| ==> b1[k] == b0[k].(conditions := b0[k].conditions + CrashConditions(ss[k], lastTick))
  }

  /** What applying `action` does, arm by arm of `apply_agent_action`, from
      the wallet `w0` and the stonks' books `b0` to `w1` and `b1`, with `r`
      the outcome. */
  ghost predicate ActionApplied(ss: seq<Stonk>, username: string, lastTick: nat, action: AgentAction, unitPrice: nat,
                          stake: real, w0: Wallet, b0: seq<Book>, w1: Wallet, b1: seq<Book>, r: Outcome)
  {
    |b0| == |ss| && |b1| == |ss| &&
    match action
    case Buy(i, n) =>
      i < |ss| && i < |w0.owned| && BuyApplied(ss, username, lastTick, i, n, unitPrice, stake, w0, b0, w1, b1, r)
    case Sell(i, n) =>
      i < |ss| && i < |w0.owned| && SellApplied(ss, username, lastTick, i, n, unitPrice, stake, w0, b0, w1, b1, r)
    case BumpStonkClass(c) => r.Ok? && w1 == w0 && ClassBumped(ss, c, lastTick, b0, b1)
    case CrashAll => r.Ok? && w1 == w0 && AllCrashed(ss, lastTick, b0, b1)
    case AddCash(n) => r.Ok? && w1 == w0.(cash := w0.cash + n) && b1 == b0
    case AcceptBribe => r.Ok? && w1 == w0.(cash := w0.cash + BRIBE_AMOUNT) && b1 == b0
    case OneDayUltraVision => r.Ok? && w1 == w0 && b1 == b0
    case CrashAgentStonks(_) => r.Ok? && w1 == w0 && b1 == b0
  }

  /**
   * What `amount` shares cost at `unitPrice` cents each, as the `u32`
   * product of a release build computes it: the exact product while it
   * fits in 32 bits, and that product wrapped modulo 2^32 past `u32::MAX`.
   */
  function OrderCost(unitPrice: nat, amount: nat): (r: nat)
    ensures r <= U32_MAX
    ensures unitPrice * amount <= U32_MAX ==> r == unitPrice * amount
    ensures unitPrice * amount > U32_MAX ==> r < unitPrice * amount
  {
    (unitPrice * amount) % (U32_MAX + 1)
  }

  class Market {
    /** `[Stonk; NUMBER_OF_STONKS]`: the array itself is never replaced. */
    const stonks: seq<Stonk>
    var lastTick: nat
    var phase: GamePhase

    ghost predicate Valid()
      reads this, stonks
    {
      |stonks| == NUMBER_OF_STONKS &&
      (forall i, j :: 0 <= i < j < |stonks| ==> stonks[i] != stonks[j]) &&
      (forall i :: 0 <= i < |stonks| ==> stonks[i].Valid()) &&
      PhaseValid(phase)
    }

    /** `Market::new` over already loaded stonks. */
    constructor (stonks: seq<Stonk>)
      requires |stonks| == NUMBER_OF_STONKS
      requires forall i, j :: 0 <= i < j < |stonks| ==> stonks[i] != stonks[j]
      requires forall i :: 0 <= i < |stonks| ==> stonks[i].Valid()
      ensures Valid()
      ensures this.stonks == stonks && lastTick == 0 && phase == Day(0, 0)
    {
      this.stonks := stonks;
      lastTick := 0;
      phase := Day(0, 0);
    }

    /** `trim` one stonk's history to its newest `HISTORICAL_SIZE` prices. */
    static method TrimHistory(s: Stonk)
      modifies s`historicalPrices
      ensures s.historicalPrices == KeepNewest(old(s.historicalPrices), HISTORICAL_SIZE)
    {
      ghost var h0 := s.historicalPrices;
      while |s.historicalPrices| > HISTORICAL_SIZE
        invariant |s.historicalPrices| >= Min(|h0|, HISTORICAL_SIZE)
        invariant s.historicalPrices == h0[|h0| - |s.historicalPrices|..]
        decreases |s.historicalPrices|
      {
        s.historicalPrices := s.historicalPrices[1..];
      }
    }

    /** One stonk's share of `tick_day`. */
    static method DayTickStonk(s: Stonk, lastTick: nat, globalDrift: real, sample: real, ghost expected: PriceState)
      requires s.Valid()
      requires expected == DayTick(s.PriceView(), s.startingPrice, s.driftVolatility, lastTick, globalDrift, sample)
      modifies s`pricePerShareInCents, s`drift, s`historicalPrices, s`conditions
      ensures s.Valid()
      ensures s.PriceView() == expected
    {
      ghost var ps0 := s.PriceView();
      if lastTick % DAY_LENGTH == 0 {
        s.AddCondition(Bump(globalDrift), lastTick + DAY_LENGTH);
      }
      assert s.PriceView() == WithGlobalDrift(ps0, lastTick, globalDrift);
      s.Tick(lastTick, sample);
      ghost var ticked := s.PriceView();
      TrimHistory(s);
      assert s.PriceView() == ticked.(historicalPrices := KeepNewest(ticked.historicalPrices, HISTORICAL_SIZE));
    }

    /** Every stonk takes its day tick, in array order. */
    method TickStonks(globalDrift: real, samples: seq<real>, ghost before: seq<PriceState>, ghost want: seq<PriceState>)
      requires Valid() && |samples| == NUMBER_OF_STONKS && |want| == NUMBER_OF_STONKS && |before| == NUMBER_OF_STONKS
      requires forall k :: 0 <= k < |stonks| ==> stonks[k].PriceView() == before[k]
      requires forall k {:trigger DayTick(before[k], stonks[k].startingPrice, stonks[k].driftVolatility, lastTick, globalDrift, samples[k])} ::
        0 <= k < |stonks| ==>
        want[k] == DayTick(before[k], stonks[k].startingPrice, stonks[k].driftVolatility,
                           lastTick, globalDrift, samples[k])
      modifies stonks`pricePerShareInCents, stonks`drift, stonks`historicalPrices, stonks`conditions
      ensures Valid()
      ensures forall k :: 0 <= k < |stonks| ==> stonks[k].PriceView() == want[k]
    {
      var i := 0;
      while i < |stonks|
        invariant 0 <= i <= |stonks|
        invariant forall k :: 0 <= k < |stonks| ==> stonks[k].Valid()
        invariant forall k :: 0 <= k < i ==> stonks[k].PriceView() == want[k]
        invariant forall k :: i <= k < |stonks| ==> stonks[k].PriceView() == before[k]
      {
        assert forall k :: 0 <= k < |stonks| && k != i ==> stonks[k] != stonks[i];
        assert want[i] == DayTick(before[i], stonks[i].startingPrice, stonks[i].driftVolatility,
                                  lastTick, globalDrift, samples[i]);
        DayTickStonk(stonks[i], lastTick, globalDrift, samples[i], want[i]);
        i := i + 1;
      }
    }

    /** `tick_day` with the global drift draw and each stonk's price draw as
        inputs: every stonk moves as `DayTick` says and `last_tick` grows by
        one. */
    method TickDay(globalDrift: real, samples: seq<real>)
      requires Valid() && |samples| == NUMBER_OF_STONKS
      modifies this`lastTick, stonks`pricePerShareInCents, stonks`drift, stonks`historicalPrices, stonks`conditions
      ensures Valid()
      ensures lastTick == old(lastTick) + 1
      ensures forall k :: 0 <= k < |stonks| ==>
        stonks[k].PriceView() ==
          DayTick(old(stonks[k].PriceView()), stonks[k].startingPrice, stonks[k].driftVolatility,
                  old(lastTick), globalDrift, samples[k])
    {
      ghost var before := Views(stonks);
      ghost var want := DayTicks(stonks, before, lastTick, globalDrift, samples);
      TickStonks(globalDrift, samples, before, want);
      lastTick := lastTick + 1;
    }

    /** `Market::tick`: a day tick moves the stonks, a night tick does
        nothing; then the clock moves on. */
    method Tick(globalDrift: real, samples: seq<real>)
      requires Valid() && |samples| == NUMBER_OF_STONKS
      modifies this`lastTick, this`phase
      modifies stonks`pricePerShareInCents, stonks`drift, stonks`historicalPrices, stonks`conditions
      ensures Valid()
      ensures phase == NextPhase(old(phase))
      ensures old(phase).Day? ==> lastTick == old(lastTick) + 1
      ensures old(phase).Day? ==> forall k :: 0 <= k < |stonks| ==>
        stonks[k].PriceView() ==
          DayTick(old(stonks[k].PriceView()), stonks[k].startingPrice, stonks[k].driftVolatility,
                  old(lastTick), globalDrift, samples[k])
      ensures old(phase).Night? ==> lastTick == old(lastTick) && unchanged(stonks)
    {
      match phase {
        case Day(cycle, counter) =>
          TickDay(globalDrift, samples);
          if counter < DAY_LENGTH - 1 {
            phase := Day(cycle, counter + 1);
          } else {
            phase := Night(cycle, 0);
          }
        case Night(cycle, counter) =>
          if counter < NIGHT_LENGTH - 1 {
            phase := Night(cycle, counter + 1);
          } else {
            phase := Day(cycle + 1, 0);
          }
      }
    }

    /** The stonk side of a purchase: the shares are allocated to the buyer
        and the stonk is bumped by `stake` until the next tick. */
    static method TakeShares(stonk: Stonk, username: string, amount: nat, stake: real, tick: nat) returns (r: Outcome)
      requires stonk.Valid()
      modifies stonk`allocatedShares, stonk`shareholders, stonk`conditions
      ensures stonk.Valid()
      ensures r.Err? <==> amount > old(stonk.AvailableAmount())
      ensures r.Err? ==> unchanged(stonk)
      ensures r.Ok? ==>
        BookOf(stonk) == Allocated(old(BookOf(stonk)), username, amount, stake, tick)
    {
      r := stonk.AllocateSharesToAgent(username, amount);
      if r.Err? {
        return;
      }
      stonk.AddCondition(Bump(stake), tick);
    }

    /** The stonk side of a sale: the shares are returned by the seller and
        the stonk is bumped by minus `stake` until the next tick. */
    static method ReturnShares(stonk: Stonk, username: string, amount: nat, stake: real, tick: nat) returns (r: Outcome)
      requires stonk.Valid()
      modifies stonk`allocatedShares, stonk`shareholders, stonk`conditions
      ensures stonk.Valid()
      ensures SharesReturned(old(BookOf(stonk)), BookOf(stonk), username, amount, stake, tick, r)
    {
      r := stonk.DeallocateSharesToAgent(username, amount);
      if r.Err? {
        return;
      }
      stonk.AddCondition(Bump(-stake), tick);
    }

    /** The buyer's side of a purchase, the `?`s of `sub_cash` and
        `add_stonk` in turn: a failing `add_stonk` keeps the cash taken. */
    static method Charge(agent: UserAgent, stonkId: nat, amount: nat, cost: nat) returns (r: Outcome)
      requires agent.Valid() && stonkId < NUMBER_OF_HOLDINGS
      modifies agent`cash, agent`ownedStonks
      ensures agent.Valid()
      ensures r.Err? <==> old(agent.cash) < cost || old(agent.ownedStonks[stonkId]) + amount > U32_MAX
      ensures r.Err? ==>
        WalletOf(agent) == Wallet(if old(agent.cash) < cost then old(agent.cash) else old(agent.cash) - cost, old(agent.ownedStonks))
      ensures r.Ok? ==>
        WalletOf(agent) == Wallet(old(agent.cash) - cost, old(agent.ownedStonks)[stonkId := old(agent.ownedStonks[stonkId]) + amount])
    {
      var paid := agent.SubCash(cost);
      if paid.Failure? {
        return Err(paid.message);
      }
      var added := agent.AddStonk(stonkId, amount);
      if added.Failure? {
        return Err(added.message);
      }
      return Ok;
    }

    /** Only `stonk`, the `i`th stonk, moved since the books were `b0`. */
    lemma BooksAfter(b0: seq<Book>, i: nat, stonk: Stonk)
      requires i < |stonks| && stonks[i] == stonk && |b0| == |stonks|
      requires forall k :: 0 <= k < |stonks| && k != i ==> b0[k] == BookOf(stonks[k])
      ensures Books(stonks) == b0[i := BookOf(stonk)]
    {
      assert forall k :: 0 <= k < |stonks| ==> Books(stonks)[k] == b0[i := BookOf(stonk)][k];
    }

    /** The seller's side of a sale, `sub_stonk?` then `add_cash`: a short
        holding fails and changes nothing. */
    static method Pay(agent: UserAgent, stonkId: nat, amount: nat, cost: nat) returns (r: Outcome)
      requires agent.Valid() && stonkId < NUMBER_OF_HOLDINGS
      modifies agent`cash, agent`ownedStonks
      ensures agent.Valid()
      ensures r.Err? <==> old(agent.ownedStonks[stonkId]) < amount
      ensures r.Err? ==> WalletOf(agent) == old(WalletOf(agent))
      ensures r.Ok? ==>
        WalletOf(agent) == Wallet(old(agent.cash) + cost, old(agent.ownedStonks)[stonkId := old(agent.ownedStonks[stonkId]) - amount])
    {
      var removed := agent.SubStonk(stonkId, amount);
      if removed.Failure? {
        return Err(removed.message);
      }
      var _ := agent.AddCash(cost);
      return Ok;
    }

    /** One stonk's purchase, both sides: the shares must be on offer,
        then the buyer is charged, then the shares are allocated and the
        stonk bumped. */
    static method Purchase(agent: UserAgent, stonk: Stonk, stonkId: nat, amount: nat, cost: nat, stake: real, tick: nat)
      returns (r: Outcome)
      requires agent.Valid() && stonkId < NUMBER_OF_HOLDINGS && stonk.Valid()
      modifies agent`cash, agent`ownedStonks, stonk`allocatedShares, stonk`shareholders, stonk`conditions
      ensures agent.Valid() && stonk.Valid()
      ensures r.Err? <==>
        old(stonk.allocatedShares) + amount > stonk.numberOfShares || old(agent.cash) < cost ||
        old(agent.ownedStonks[stonkId]) + amount > U32_MAX
      ensures r.Err? ==>
        WalletOf(agent) ==
          Wallet(if old(stonk.allocatedShares) + amount > stonk.numberOfShares || old(agent.cash) < cost
                 then old(agent.cash) else old(agent.cash) - cost,
                 old(agent.ownedStonks)) &&
        BookOf(stonk) == old(BookOf(stonk))
      ensures r.Ok? ==>
        WalletOf(agent) == Wallet(old(agent.cash) - cost, old(agent.ownedStonks)[stonkId := old(agent.ownedStonks[stonkId]) + amount]) &&
        BookOf(stonk) == Allocated(old(BookOf(stonk)), agent.username, amount, stake, tick)
    {
      var maxAmount := stonk.AvailableAmount();
      if maxAmount < amount {
        return Err("Not enough shares available");
      }
      r := Charge(agent, stonkId, amount, cost);
      if r.Ok? {
        r := TakeShares(stonk, agent.username, amount, stake, tick);
      }
    }

    /** Both sides of a sale: the seller is paid for a holding large
        enough, then the stonk takes the shares back. */
    static method Sale(agent: UserAgent, stonk: Stonk, stonkId: nat, amount: nat, cost: nat, stake: real, tick: nat)
      returns (r: Outcome)
      requires agent.Valid() && stonkId < NUMBER_OF_HOLDINGS && stonk.Valid()
      modifies agent`cash, agent`ownedStonks, stonk`allocatedShares, stonk`shareholders, stonk`conditions
      ensures agent.Valid() && stonk.Valid()
      ensures old(agent.ownedStonks[stonkId]) < amount ==>
        r.Err? && WalletOf(agent) == old(WalletOf(agent)) && BookOf(stonk) == old(BookOf(stonk))
      ensures old(agent.ownedStonks[stonkId]) >= amount ==>
        WalletOf(agent) == Wallet(old(agent.cash) + cost, old(agent.ownedStonks)[stonkId := old(agent.ownedStonks[stonkId]) - amount]) &&
        SharesReturned(old(BookOf(stonk)), BookOf(stonk), agent.username, amount, stake, tick, r)
    {
      r := Pay(agent, stonkId, amount, cost);
      if r.Ok? {
        r := ReturnShares(stonk, agent.username, amount, stake, tick);
      }
    }

    /** The `Buy` arm: checks availability, takes the cash, adds the
        holding, allocates the shares and bumps the stonk by `stake` (the
        buyer's new stake, a float input here). Not atomic: a failing
        `add_stonk` leaves the cash already taken. */
    method Buy(agent: UserAgent, stonkId: nat, amount: nat, unitPrice: nat, stake: real) returns (r: Outcome)
      requires Valid() && agent.Valid() && stonkId < NUMBER_OF_STONKS
      modifies agent`cash, agent`ownedStonks
      modifies stonks[stonkId..stonkId + 1]`allocatedShares, stonks[stonkId..stonkId + 1]`shareholders
      modifies stonks[stonkId..stonkId + 1]`conditions
      ensures Valid() && agent.Valid()
      ensures BuyApplied(stonks, agent.username, lastTick, stonkId, amount, unitPrice, stake,
                         old(WalletOf(agent)), old(Books(stonks)), WalletOf(agent), Books(stonks), r)
    {
      ghost var b0, w0 := Books(stonks), WalletOf(agent);
      var stonk := stonks[stonkId];
      assert b0[stonkId] == BookOf(stonk);
      r := Purchase(agent, stonk, stonkId, amount, OrderCost(unitPrice, amount), stake, lastTick + 1);
      BooksAfter(b0, stonkId, stonk);
      BuyAppliedFrom(stonks, agent.username, lastTick, stonkId, amount, unitPrice, stake, w0, b0, WalletOf(agent), BookOf(stonk), r);
    }

    /** The `Sell` arm: removes the holding, pays the cash, deallocates the
        shares and bumps the stonk by minus `stake`. Not atomic: a failing
        deallocation leaves the holding removed and the cash paid. */
    method Sell(agent: UserAgent, stonkId: nat, amount: nat, unitPrice: nat, stake: real) returns (r: Outcome)
      requires Valid() && agent.Valid() && stonkId < NUMBER_OF_STONKS
      modifies agent`cash, agent`ownedStonks
      modifies stonks[stonkId..stonkId + 1]`allocatedShares, stonks[stonkId..stonkId + 1]`shareholders
      modifies stonks[stonkId..stonkId + 1]`conditions
      ensures Valid() && agent.Valid()
      ensures SellApplied(stonks, agent.username, lastTick, stonkId, amount, unitPrice, stake,
                          old(WalletOf(agent)), old(Books(stonks)), WalletOf(agent), Books(stonks), r)
    {
      ghost var b0 := Books(stonks);
      var stonk := stonks[stonkId];
      ghost var w0 := WalletOf(agent);
      assert b0[stonkId] == BookOf(stonk);
      r := Sale(agent, stonk, stonkId, amount, OrderCost(unitPrice, amount), stake, lastTick + 1);
      BooksAfter(b0, stonkId, stonk);
      SellAppliedFrom(stonks, agent.username, lastTick, stonkId, amount, unitPrice, stake, w0, b0, WalletOf(agent), BookOf(stonk), r);
    }

    /** The `BumpStonkClass` arm: a day-long bump of 5 on every stonk of
        the class, and nothing on the others. */
    method BumpStonkClass(c: StonkClass)
      requires Valid()
      modifies stonks`conditions
      ensures Valid()
      ensures forall k :: 0 <= k < |stonks| ==>
        stonks[k].conditions == old(stonks[k].conditions) +
          (if stonks[k].stonkClass == c then [TimedCondition(lastTick + DAY_LENGTH, Bump(5.0))] else [])
      ensures ClassBumped(stonks, c, lastTick, old(Books(stonks)), Books(stonks))
    {
      var i := 0;
      while i < |stonks|
        invariant 0 <= i <= |stonks|
        invariant forall k :: 0 <= k < i ==>
          stonks[k].conditions == old(stonks[k].conditions) +
            (if stonks[k].stonkClass == c then [TimedCondition(lastTick + DAY_LENGTH, Bump(5.0))] else [])
        invariant forall k :: i <= k < |stonks| ==> stonks[k].conditions == old(stonks[k].conditions)
      {
        if stonks[i].stonkClass == c {
          stonks[i].AddCondition(Bump(5.0), lastTick + DAY_LENGTH);
        }
        i := i + 1;
      }
    }

    /** The `CrashAll` arm: every stonk gets a day-long bump of -5 and a
        shock probability of 0.25 that remembers the previous one. */
    method CrashAll()
      requires Valid()
      modifies stonks`conditions
      ensures Valid()
      ensures forall k :: 0 <= k < |stonks| ==>
        stonks[k].conditions == old(stonks[k].conditions) + CrashConditions(stonks[k], lastTick)
      ensures AllCrashed(stonks, lastTick, old(Books(stonks)), Books(stonks))
    {
      var i := 0;
      while i < |stonks|
        invariant 0 <= i <= |stonks|
        invariant forall k :: 0 <= k < i ==>
          stonks[k].conditions == old(stonks[k].conditions) + CrashConditions(stonks[k], lastTick)
        invariant forall k :: i <= k < |stonks| ==> stonks[k].conditions == old(stonks[k].conditions)
      {
        var s := stonks[i];
        s.AddCondition(Bump(-5.0), lastTick + DAY_LENGTH);
        s.AddCondition(SetShockProbability(0.25, s.shockProbability), lastTick + DAY_LENGTH);
        i := i + 1;
      }
    }

    /** The `match` of `apply_agent_action`: one action, with the unit price
        of the traded stonk and the agent's resulting stake as inputs. */
    method Apply(agent: UserAgent, action: AgentAction, unitPrice: nat, stake: real) returns (r: Outcome)
      requires Valid() && agent.Valid()
      requires (action.Buy? || action.Sell?) ==> action.stonkId < NUMBER_OF_STONKS
      modifies agent`cash, agent`ownedStonks
      modifies stonks`allocatedShares, stonks`shareholders, stonks`conditions
      ensures Valid() && agent.Valid()
      ensures ActionApplied(stonks, agent.username, lastTick, action, unitPrice, stake,
                            old(WalletOf(agent)), old(Books(stonks)), WalletOf(agent), Books(stonks), r)
    {
      match action {
        case Buy(stonkId, amount) =>
          r := Buy(agent, stonkId, amount, unitPrice, stake);
        case Sell(stonkId, amount) =>
          r := Sell(agent, stonkId, amount, unitPrice, stake);
        case BumpStonkClass(c) =>
          BumpStonkClass(c);
          r := Ok;
        case CrashAll =>
          CrashAll();
          r := Ok;
        case AddCash(amount) =>
          var _ := agent.AddCash(amount);
          r := Ok;
        case AcceptBribe =>
          var _ := agent.AddCash(BRIBE_AMOUNT);
          r := Ok;
        case OneDayUltraVision =>
          r := Ok;
        case CrashAgentStonks(_) =>
          r := Ok;
      }
    }

    /** `apply_agent_action`: the pending action is consumed before it is
        applied, so a failing action is still used up; with no pending
        action nothing changes. What the action itself does is `Apply`. */
    method ApplyAgentAction(agent: UserAgent, unitPrice: nat, stake: real) returns (r: Outcome)
      requires Valid() && agent.Valid()
      requires agent.pendingAction.Some? && (agent.pendingAction.value.Buy? || agent.pendingAction.value.Sell?) ==>
        agent.pendingAction.value.stonkId < NUMBER_OF_STONKS
      modifies agent`cash, agent`ownedStonks, agent`lastActions, agent`pendingAction
      modifies stonks`allocatedShares, stonks`shareholders, stonks`conditions
      ensures Valid() && agent.Valid()
      ensures agent.pendingAction == None
      ensures agent.lastActions == old(agent.lastActions) +
        (if old(agent.pendingAction).Some? then [old(agent.pendingAction).value] else [])
      ensures old(agent.pendingAction).None? ==>
        r.Ok? && agent.cash == old(agent.cash) && agent.ownedStonks == old(agent.ownedStonks) && unchanged(stonks)
      ensures old(agent.pendingAction).Some? ==>
        ActionApplied(stonks, agent.username, lastTick, old(agent.pendingAction).value, unitPrice, stake,
                      old(WalletOf(agent)), old(Books(stonks)), WalletOf(agent), Books(stonks), r)
    {
      var action := agent.SelectedAction();
      if action.None? {
        return Ok;
      }
      ghost var w0, b0 := WalletOf(agent), Books(stonks);
      agent.ClearAction();
      assert WalletOf(agent) == w0 && Books(stonks) == b0;
      r := Apply(agent, action.value, unitPrice, stake);
    }
  }

  /** The two conditions `CrashAll` adds to one stonk. */
  function CrashConditions(s: Stonk, lastTick: nat): (r: seq<TimedCondition>)
    ensures |r| == 2
    ensures forall c :: c in r ==> c.untilTick == lastTick + DAY_LENGTH
  {
    [TimedCondition(lastTick + DAY_LENGTH, Bump(-5.0)),
     TimedCondition(lastTick + DAY_LENGTH, SetShockProbability(0.25, s.shockProbability))]
  }
}
