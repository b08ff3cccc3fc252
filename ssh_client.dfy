/** A connected player's client: the keys that pick trades and night
    actions, the render counter, and the password check (src/ssh_client.rs). */
module Client {
  import opened Common
  import opened Agent
  import opened Events
  import opened Input
  import opened Ui
  import M = Market

  /** The stonk a trade key acts on: the focused one, else the selected one. */
  function Target(s: UiState): (r: nat)
    ensures IndicesInRange(s) ==> r < NUMBER_OF_STONKS
  {
    if s.focusOnStonk.Some? then s.focusOnStonk.value else s.selectedStonkIndex
  }

  /** The lot size of `b` and `s`: 100 with exactly Shift held, else 1. */
  function Lot(modifiers: set<Modifier>): nat {
    if modifiers == {Shift} then 100 else 1
  }

  /** `max_buy_amount`: as many shares as the cash pays for at the unit
      price, capped by the shares on offer, and none at a zero price. */
  function MaxBuy(cash: nat, price: nat, available: nat): nat {
    if price > 0 then Min(cash / price, available) else 0
  }

  /** The UI fields and the agent's pending slot after a key. */
  datatype ClientState = ClientState(ui: UiState, pending: Option<AgentAction>)

  /** Enter and Backspace: by day they toggle the focus; by night they pick
      the highlighted event card when nothing is pending yet. */
  function ConfirmKey(s: UiState, pending: Option<AgentAction>, isDay: bool, events: seq<NightEvent>): ClientState {
    if isDay then
      ClientState(if s.focusOnStonk.Some? then AfterReset(s) else AfterSelectStonk(s), pending)
    else if pending.None? && s.selectedEventCardIndex < |events| then
      ClientState(s, Some(Action(events[s.selectedEventCardIndex])))
    else
      ClientState(s, pending)
  }

  /** What `Client::handle_key_events` does with a key. `price` is the unit
      buy price and `available` the shares on offer of the target stonk;
      `owned` is the agent's holdings. */
  function HandleClientKey(s: UiState, pending: Option<AgentAction>, key: KeyEvent, isDay: bool, cash: nat,
                           owned: seq<nat>, price: nat, available: nat, events: seq<NightEvent>): ClientState
    requires IndicesInRange(s) && |owned| == NUMBER_OF_HOLDINGS
  {
    var t := Target(s);
    match key.code
    case Enter => ConfirmKey(s, pending, isDay, events)
    case Backspace => ConfirmKey(s, pending, isDay, events)
    case Char(c) =>
      if c == 'b' then ClientState(s, Some(Buy(t, Min(Lot(key.modifiers), MaxBuy(cash, price, available)))))
      else if c == 'm' then ClientState(s, Some(Buy(t, MaxBuy(cash, price, available))))
      else if c == 's' then ClientState(s, Some(Sell(t, Lot(key.modifiers))))
      else if c == 'd' then ClientState(s, Some(Sell(t, owned[t])))
      else ClientState(HandleKey(s, key.code, pending.Some?, |events|), pending)
    case _ => ClientState(HandleKey(s, key.code, pending.Some?, |events|), pending)
  }

  /** Below a positive price, `n` shares are affordable exactly when `n` is
      at most `cash / price`. */
  lemma AffordableBelowQuotient(cash: nat, price: nat, n: nat)
    requires price > 0
    ensures n * price <= cash <==> n <= cash / price
  {
    var q, r := cash / price, cash % price;
    assert cash == q * price + r && r < price;
    if n <= q {
      MulLeq(n, q, price);
    } else {
      MulLeq(q + 1, n, price);
      assert (q + 1) * price == q * price + price;
    }
  }

  lemma MulLeq(a: nat, b: nat, c: nat)
    requires a <= b
    ensures a * c <= b * c
  {
  }

  /** `max_buy_amount` is the largest number of shares that is both on
      offer and paid for by the cash. */
  lemma MaxBuyIsLargest(cash: nat, price: nat, available: nat, n: nat)
    ensures MaxBuy(cash, price, available) * price <= cash
    ensures MaxBuy(cash, price, available) <= available
    ensures price > 0 && n * price <= cash && n <= available ==> n <= MaxBuy(cash, price, available)
    ensures price == 0 ==> MaxBuy(cash, price, available) == 0
  {
    if price > 0 {
      var m := MaxBuy(cash, price, available);
      AffordableBelowQuotient(cash, price, m);
      AffordableBelowQuotient(cash, price, n);
    }
  }

  /** `b` and `m` pick a buy of the target stonk that the cash pays for and
      the offer covers; `m` buys the most such shares, `b` at most a lot, and
      a full lot whenever one is affordable. */
  lemma BuyKeys(s: UiState, pending: Option<AgentAction>, key: KeyEvent, isDay: bool, cash: nat,
                owned: seq<nat>, price: nat, available: nat, events: seq<NightEvent>)
    requires IndicesInRange(s) && |owned| == NUMBER_OF_HOLDINGS
    requires key.code == Char('b') || key.code == Char('m')
    ensures var r := HandleClientKey(s, pending, key, isDay, cash, owned, price, available, events);
      r.ui == s && r.pending.Some? && r.pending.value.Buy? &&
      r.pending.value.stonkId == Target(s) < NUMBER_OF_STONKS &&
      r.pending.value.amount * price <= cash && r.pending.value.amount <= available &&
      (key.code == Char('m') ==> r.pending.value.amount == MaxBuy(cash, price, available)) &&
      (key.code == Char('b') ==>
         r.pending.value.amount <= Lot(key.modifiers) &&
         (Lot(key.modifiers) * price <= cash && Lot(key.modifiers) <= available && price > 0 ==>
            r.pending.value.amount == Lot(key.modifiers)))
  {
    var m := MaxBuy(cash, price, available);
    MaxBuyIsLargest(cash, price, available, Lot(key.modifiers));
    if key.code == Char('b') {
      MulLeq(Min(Lot(key.modifiers), m), m, price);
    }
  }

  /** `s` sells one share or a lot of 100; `d` sells the whole holding of
      the target, which `sub_stonk` can always take. */
  lemma SellKeys(s: UiState, pending: Option<AgentAction>, key: KeyEvent, isDay: bool, cash: nat,
                 owned: seq<nat>, price: nat, available: nat, events: seq<NightEvent>)
    requires IndicesInRange(s) && |owned| == NUMBER_OF_HOLDINGS
    requires key.code == Char('s') || key.code == Char('d')
    ensures var r := HandleClientKey(s, pending, key, isDay, cash, owned, price, available, events);
      r.ui == s && r.pending.Some? && r.pending.value.Sell? &&
      r.pending.value.stonkId == Target(s) < NUMBER_OF_STONKS &&
      (key.code == Char('s') ==> r.pending.value.amount == (if key.modifiers == {Shift} then 100 else 1)) &&
      (key.code == Char('d') ==> r.pending.value.amount == owned[Target(s)])
  {
  }

  /** By day, Enter focuses the selected stonk and a second Enter clears the
      focus again, leaving the state of a reset. */
  lemma EnterByDay(s: UiState, pending: Option<AgentAction>, cash: nat, owned: seq<nat>, price: nat,
                   available: nat, events: seq<NightEvent>)
    requires IndicesInRange(s) && |owned| == NUMBER_OF_HOLDINGS && s.focusOnStonk.None?
    ensures var once := HandleClientKey(s, pending, KeyEvent(Enter, {}), true, cash, owned, price, available, events);
      once.ui.focusOnStonk == Some(s.selectedStonkIndex) && once.pending == pending &&
      IndicesInRange(once.ui) &&
      HandleClientKey(once.ui, pending, KeyEvent(Enter, {}), true, cash, owned, price, available, events).ui ==
        AfterReset(s)
  {
    SelectStonkFocuses(s);
  }

  /** By night, Enter picks the action of the highlighted card exactly when
      nothing is pending and the card exists; the UI does not move, and the
      picked action is never a trade. */
  lemma EnterByNight(s: UiState, pending: Option<AgentAction>, key: KeyEvent, cash: nat, owned: seq<nat>,
                     price: nat, available: nat, events: seq<NightEvent>)
    requires IndicesInRange(s) && |owned| == NUMBER_OF_HOLDINGS
    requires key.code == Enter || key.code == Backspace
    ensures var r := HandleClientKey(s, pending, key, false, cash, owned, price, available, events);
      r.ui == s &&
      (r.pending != pending <==> pending.None? && s.selectedEventCardIndex < |events|) &&
      (r.pending != pending ==>
         r.pending.Some? && EventOf(r.pending.value) == Some(events[s.selectedEventCardIndex]) &&
         !r.pending.value.Buy? && !r.pending.value.Sell?)
  {
    if pending.None? && s.selectedEventCardIndex < |events| {
      ActionRoundTrip(events[s.selectedEventCardIndex]);
    }
  }

  /** Any other key is the UI's: it leaves the pending slot alone and keeps
      the indices in range. */
  lemma OtherKeys(s: UiState, pending: Option<AgentAction>, key: KeyEvent, isDay: bool, cash: nat,
                  owned: seq<nat>, price: nat, available: nat, events: seq<NightEvent>)
    requires IndicesInRange(s) && |owned| == NUMBER_OF_HOLDINGS
    requires key.code !in {Enter, Backspace, Char('b'), Char('m'), Char('s'), Char('d')}
    ensures var r := HandleClientKey(s, pending, key, isDay, cash, owned, price, available, events);
      r.pending == pending && r.ui == HandleKey(s, key.code, pending.Some?, |events|) && IndicesInRange(r.ui)
  {
    HandleKeyInRange(s, key.code, pending.Some?, |events|);
  }

  /** Every key keeps the UI indices in range, so the next trade key indexes
      a stonk that exists. */
  lemma ClientKeyInRange(s: UiState, pending: Option<AgentAction>, key: KeyEvent, isDay: bool, cash: nat,
                         owned: seq<nat>, price: nat, available: nat, events: seq<NightEvent>)
    requires IndicesInRange(s) && |owned| == NUMBER_OF_HOLDINGS
    ensures IndicesInRange(HandleClientKey(s, pending, key, isDay, cash, owned, price, available, events).ui)
  {
    HandleKeyInRange(s, key.code, pending.Some?, |events|);
    SelectStonkFocuses(s);
  }

  /** `Password`: a 32-byte hash. */
  type Password = p: seq<byte> | |p| == 32 witness seq(32, i => 0 as byte)

  /** `SessionAuth`; the last-active time is not modelled. */
  datatype SessionAuth = SessionAuth(username: string, hashedPassword: Password)

  /** `check_password`: the stored hash and the offered one are equal. */
  function CheckPassword(auth: SessionAuth, password: Password): bool
  {
    auth.hashedPassword == password
  }

  /** What a returning player relies on: the hash stored with the session
      lets it back in, a hash off in any one byte does not, the check reads
      the same either way round, and the name on the session plays no part. */
  lemma PasswordCheckRules(name: string, other: string, stored: Password, offered: Password)
    ensures CheckPassword(SessionAuth(name, stored), stored)
    ensures (exists i :: 0 <= i < 32 && stored[i] != offered[i]) ==> !CheckPassword(SessionAuth(name, stored), offered)
    ensures CheckPassword(SessionAuth(name, stored), offered) == CheckPassword(SessionAuth(name, offered), stored)
    ensures CheckPassword(SessionAuth(name, stored), offered) == CheckPassword(SessionAuth(other, stored), offered)
  {
  }

  class Client {
    const username: string
    const ui: UiOptions

    constructor (username: string)
      ensures this.username == username && fresh(ui) && ui.View() == DEFAULT_STATE
    {
      this.username := username;
      ui := new UiOptions();
    }

    /** `tick_render_counter`: one more frame drawn. */
    method TickRenderCounter()
      modifies ui`renderCounter
      ensures ui.View() == old(ui.View()).(renderCounter := old(ui.renderCounter) + 1)
    {
      ui.renderCounter := ui.renderCounter + 1;
    }

    /** `clear_ui_options`: the animation restarts from the first card. */
    method ClearUiOptions()
      modifies ui`renderCounter, ui`selectedEventCardIndex
      ensures ui.View() == old(ui.View()).(renderCounter := 0, selectedEventCardIndex := 0)
    {
      ui.renderCounter := 0;
      ui.selectedEventCardIndex := 0;
    }

    /** `handle_key_events`: the UI and the agent's pending slot move as
        `HandleClientKey` says; `unitPrices` are the stonks' buy prices. */
    method HandleKeyEvents(key: KeyEvent, market: M.Market, agent: UserAgent, unitPrices: seq<nat>,
                           nightEvents: seq<NightEvent>)
      requires market.Valid() && agent.Valid() && IndicesInRange(ui.View()) && |unitPrices| == NUMBER_OF_STONKS
      modifies ui, agent`pendingAction
      ensures var t := Target(old(ui.View()));
        ClientState(ui.View(), agent.pendingAction) ==
          HandleClientKey(old(ui.View()), old(agent.pendingAction), key, market.phase.Day?, agent.cash,
                          agent.ownedStonks, unitPrices[t], market.stonks[t].AvailableAmount(), nightEvents)
    {
      var t := if ui.focusOnStonk.Some? then ui.focusOnStonk.value else ui.selectedStonkIndex;
      match key.code {
        case Enter =>
          Confirm(market.phase.Day?, agent, nightEvents);
        case Backspace =>
          Confirm(market.phase.Day?, agent, nightEvents);
        case Char(c) =>
          if c == 'b' || c == 'm' {
            var stonk := market.stonks[t];
            var maxBuyAmount := if unitPrices[t] > 0 then Min(agent.cash / unitPrices[t], stonk.AvailableAmount()) else 0;
            var amount := if c == 'm' then maxBuyAmount else Min(if key.modifiers == {Shift} then 100 else 1, maxBuyAmount);
            agent.SelectAction(Buy(t, amount));
          } else if c == 's' {
            var amount := if key.modifiers == {Shift} then 100 else 1;
            agent.SelectAction(Sell(t, amount));
          } else if c == 'd' {
            var amount := agent.ownedStonks[t];
            agent.SelectAction(Sell(t, amount));
          } else {
            var pending := agent.SelectedAction();
            ui.HandleKeyEvents(key.code, pending.Some?, |nightEvents|);
          }
        case _ =>
          var pending := agent.SelectedAction();
          ui.HandleKeyEvents(key.code, pending.Some?, |nightEvents|);
      }
    }

    /** The Enter/Backspace arm. */
    method Confirm(isDay: bool, agent: UserAgent, nightEvents: seq<NightEvent>)
      modifies ui`focusOnStonk, ui`zoomLevel, ui`selectedStonkIndex, agent`pendingAction
      ensures ClientState(ui.View(), agent.pendingAction) ==
        ConfirmKey(old(ui.View()), old(agent.pendingAction), isDay, nightEvents)
    {
      if isDay {
        if ui.focusOnStonk.Some? {
          ui.Reset();
        } else {
          ui.SelectStonk();
        }
      } else {
        var pending := agent.SelectedAction();
        if pending.None? {
          var idx := ui.selectedEventCardIndex;
          if idx < |nightEvents| {
            var event := nightEvents[idx];
            agent.SelectAction(Action(event));
          }
        }
      }
    }
  }
}
