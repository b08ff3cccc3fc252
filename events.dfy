/** The night-event catalogue: names, card texts, unlock rules and the
    action each event turns into (src/events.rs). */
module Events {
  import opened Common
  import opened Stonk
  import opened Agent

  datatype NightEvent =
    | War
    | ColdWinter
    | RoyalScandal
    | PurpleBlockchain
    | MarketCrash
    | UltraVision
    | CharacterAssassination(username: string)
    | AGoodOffer

  /** The cash, in cents, from which a market crash can be bought. */
  const MARKET_CRASH_CASH: nat := 100_000 * 100
  /** The cash, in cents, below which a good offer can come. */
  const GOOD_OFFER_CASH: nat := 1000 * 100
  const UNLOCK_HEADER: string := "Unlock Condition:"

  /** `Display`: the card title. */
  function Name(e: NightEvent): string {
    match e
    case War => "War"
    case ColdWinter => "Cold winter"
    case RoyalScandal => "Royal scandal"
    case PurpleBlockchain => "Purple blockchain"
    case MarketCrash => "Market crash"
    case UltraVision => "UltraVision"
    case CharacterAssassination(_) => "Character assassination"
    case AGoodOffer => "A good offer"
  }

  /** The story lines of a card, before the unlock rule. */
  function Lines(e: NightEvent): seq<string> {
    match e
    case War => ["It's war time!", "Chance for all war stonks", "to get a big bump."]
    case ColdWinter =>
      ["Apparently next winter", "is gonna be very cold,", "better prepare soon. So", "much for global warming!"]
    case RoyalScandal =>
      ["A juicy scandal will hit", "every frontpage tomorrow.", "Media stonks will surely", "sell some extra!"]
    case PurpleBlockchain =>
      ["Didn't you hear?", "Blockchains are gonna ruin", "the broken financial", "system. Just put it on",
       "chain, and make it purple."]
    case MarketCrash => ["It's 1929 all over again,", "or was it 1987?", "Or 2001? Or 2008?", "Or..."]
    case UltraVision =>
      ["You woke up differently", "this morning, with a sense", "of prescience about", "something incoming..."]
    case CharacterAssassination(u) => ["That fucker " + u, "better pay attention", "to their stonks tomorrow."]
    case AGoodOffer => ["An offer you can't refuse", "they say. Get $10000,", "pay later (maybe)."]
  }

  /** `unlock_condition_description`. */
  function UnlockConditionDescription(e: NightEvent): seq<string> {
    match e
    case War => ["Average share in", "War stonks >= 1%"]
    case ColdWinter => ["Average share in", "Commodity stonks >= 1%"]
    case RoyalScandal => ["Average share in", "Media stonks >= 1%"]
    case PurpleBlockchain => ["Average share in", "Technology stonks >= 1%"]
    case MarketCrash => ["Total cash >= $100000"]
    case UltraVision => ["Riccardino share >= 10%"]
    case CharacterAssassination(u) => [u + " took a special offer", "in the past and got too", "greedy now."]
    case AGoodOffer => ["Random chance,", "happens only once"]
  }

  /** The card as `description` assembles it. */
  function DescriptionOf(e: NightEvent): seq<string> {
    Lines(e) + ["", UNLOCK_HEADER] + UnlockConditionDescription(e)
  }

  /** `description`: the story lines, a blank line, the header, then each
      unlock line pushed in turn. */
  method Description(e: NightEvent) returns (d: seq<string>)
    ensures d == DescriptionOf(e)
  {
    d := Lines(e);
    d := d + [""];
    d := d + [UNLOCK_HEADER];
    var unlock := UnlockConditionDescription(e);
    for i := 0 to |unlock|
      invariant d == Lines(e) + ["", UNLOCK_HEADER] + unlock[..i]
    {
      d := d + [unlock[i]];
    }
    assert unlock[..|unlock|] == unlock;
  }

  /** The index of the first `marker` line, or `|d|` when there is none. */
  function FirstLine(d: seq<string>, marker: string): (r: nat)
    ensures r <= |d|
    ensures r < |d| ==> d[r] == marker
    ensures forall j :: 0 <= j < r ==> d[j] != marker
  {
    if d == [] then 0
    else if d[0] == marker then 0
    else 1 + FirstLine(d[1..], marker)
  }

  /** What a reader of a card finds after its first unlock header. */
  function UnlockPart(d: seq<string>): seq<string> {
    var k := FirstLine(d, UNLOCK_HEADER);
    if k < |d| then d[k + 1..] else []
  }

  /** What a reader of a card finds before the blank line that precedes the
      first unlock header. */
  function StoryPart(d: seq<string>): seq<string> {
    var k := FirstLine(d, UNLOCK_HEADER);
    if 0 < k < |d| then d[..k - 1] else d
  }

  /** No story line is the unlock header, so the header `description`
      pushes is the first one. */
  lemma StoryAvoidsHeader(e: NightEvent)
    ensures forall j :: 0 <= j < |Lines(e)| ==> Lines(e)[j] != UNLOCK_HEADER
  {
    if e.CharacterAssassination? {
      var first := "That fucker " + e.username;
      assert first[0] == 'T' != UNLOCK_HEADER[0];
    }
  }

  /** `description` round trip: the story and the unlock rule can be read
      back from the assembled card. */
  lemma DescriptionSplits(e: NightEvent)
    ensures StoryPart(DescriptionOf(e)) == Lines(e)
    ensures UnlockPart(DescriptionOf(e)) == UnlockConditionDescription(e)
  {
    StoryAvoidsHeader(e);
    CardSplits(Lines(e), UnlockConditionDescription(e));
  }

  /** A card whose story never uses the header splits back into its parts. */
  lemma CardSplits(story: seq<string>, unlock: seq<string>)
    requires forall j :: 0 <= j < |story| ==> story[j] != UNLOCK_HEADER
    ensures StoryPart(story + ["", UNLOCK_HEADER] + unlock) == story
    ensures UnlockPart(story + ["", UNLOCK_HEADER] + unlock) == unlock
  {
    var d := story + ["", UNLOCK_HEADER] + unlock;
    var n := |story|;
    forall j | 0 <= j < n + 1
      ensures d[j] != UNLOCK_HEADER
    {
      if j < n {
        assert d[j] == story[j];
      } else {
        assert d[j] == "";
      }
    }
    FirstLineAt(d, UNLOCK_HEADER, n + 1);
    assert d[..n] == story;
    assert d[n + 2..] == unlock;
  }

  /** `FirstLine` finds a marker that no earlier line equals. */
  lemma {:induction false} FirstLineAt(d: seq<string>, marker: string, k: nat)
    requires k < |d| && d[k] == marker
    requires forall j :: 0 <= j < k ==> d[j] != marker
    ensures FirstLine(d, marker) == k
  {
    if k > 0 {
      FirstLineAt(d[1..], marker, k - 1);
    }
  }

  /** `action`: the event's effect once it is chosen at night. */
  function Action(e: NightEvent): AgentAction {
    match e
    case War => BumpStonkClass(StonkClass.War)
    case ColdWinter => BumpStonkClass(Commodity)
    case RoyalScandal => BumpStonkClass(Media)
    case PurpleBlockchain => BumpStonkClass(Technology)
    case MarketCrash => CrashAll
    case UltraVision => OneDayUltraVision
    case CharacterAssassination(u) => CrashAgentStonks(u)
    case AGoodOffer => AcceptBribe
  }

  /** The event an action comes from, when it comes from one. */
  function EventOf(a: AgentAction): Option<NightEvent> {
    match a
    case BumpStonkClass(c) =>
      Some(match c
           case War => NightEvent.War
           case Commodity => ColdWinter
           case Media => RoyalScandal
           case Technology => PurpleBlockchain)
    case CrashAll => Some(MarketCrash)
    case OneDayUltraVision => Some(UltraVision)
    case CrashAgentStonks(u) => Some(CharacterAssassination(u))
    case AcceptBribe => Some(AGoodOffer)
    case _ => None
  }

  /** Every event's action leads back to the event, so no two events share
      an action, and none of them is a trade or a cash grant. */
  lemma ActionRoundTrip(e: NightEvent)
    ensures EventOf(Action(e)) == Some(e)
    ensures !Action(e).Buy? && !Action(e).Sell? && !Action(e).AddCash?
  {
  }

  lemma ActionInjective(e1: NightEvent, e2: NightEvent)
    requires Action(e1) == Action(e2)
    ensures e1 == e2
  {
    ActionRoundTrip(e1);
    ActionRoundTrip(e2);
  }

  /** Only the four sector events bump a class, each a different one. */
  lemma SectorEvents(e: NightEvent)
    ensures Action(e).BumpStonkClass? <==> e in {NightEvent.War, ColdWinter, RoyalScandal, PurpleBlockchain}
  {
  }

  /** Titles tell events apart, except that every character assassination
      has the same title whoever it targets. */
  lemma NamesDistinct(e1: NightEvent, e2: NightEvent)
    ensures Name(e1) == Name(e2) <==> e1 == e2 || (e1.CharacterAssassination? && e2.CharacterAssassination?)
  {
    if Name(e1) == Name(e2) && !(e1.CharacterAssassination? && e2.CharacterAssassination?) {
      NameFirstLetters(e1);
      NameFirstLetters(e2);
    }
  }

  /** The first three characters of each title, which already differ.
      A proof helper that serves only `NamesDistinct`. */
  lemma NameFirstLetters(e: NightEvent)
    ensures |Name(e)| >= 3
    ensures Name(e)[..3] ==
      match e
      case War => "War"
      case ColdWinter => "Col"
      case RoyalScandal => "Roy"
      case PurpleBlockchain => "Pur"
      case MarketCrash => "Mar"
      case UltraVision => "Ult"
      case CharacterAssassination(_) => "Cha"
      case AGoodOffer => "A g"
  {
  }

  /** What the unlock rules look at. The stake averages of the sector events
      and of UltraVision are floating-point, so each arrives as the verdict
      `stakeRule`; `luck` is the draw of AGoodOffer. */
  datatype UnlockInputs = UnlockInputs(
    cash: nat,
    username: string,
    bribeTaken: bool,
    stakeRule: bool,
    luck: bool)

  /** `unlock_condition` applied to an agent. */
  function Unlocked(e: NightEvent, x: UnlockInputs): bool {
    match e
    case MarketCrash => x.cash >= MARKET_CRASH_CASH
    case CharacterAssassination(u) => u != x.username
    case AGoodOffer => !x.bribeTaken && x.cash < GOOD_OFFER_CASH && x.luck
    case _ => x.stakeRule
  }

  /** The integer and string unlock rules. */
  lemma UnlockRules(e: NightEvent, x: UnlockInputs)
    ensures e == MarketCrash ==> (Unlocked(e, x) <==> x.cash >= 10_000_000)
    ensures e.CharacterAssassination? ==> (Unlocked(e, x) <==> e.username != x.username)
    ensures e == AGoodOffer && Unlocked(e, x) ==> !x.bribeTaken && x.cash < 100_000
    ensures e == AGoodOffer && x.bribeTaken ==> !Unlocked(e, x)
  {
  }

  /** Nobody can target themselves with a character assassination. */
  lemma NoSelfAssassination(x: UnlockInputs)
    ensures !Unlocked(CharacterAssassination(x.username), x)
  {
  }

  /** More cash never locks a market crash, and never unlocks a good offer;
      no agent qualifies for both at once. */
  lemma CashMonotone(x: UnlockInputs, richer: nat)
    requires richer >= x.cash
    ensures Unlocked(MarketCrash, x) ==> Unlocked(MarketCrash, x.(cash := richer))
    ensures Unlocked(AGoodOffer, x.(cash := richer)) ==> Unlocked(AGoodOffer, x)
    ensures !(Unlocked(MarketCrash, x) && Unlocked(AGoodOffer, x))
  {
  }
}
