# stonks, modelled in Dafny

stonks is a multiplayer stock-market game served over SSH. Every player
connects with a terminal, buys and sells shares ("stonks") of eight
companies during the day, and at night picks one event card whose action
moves the whole market. This project models the game's core and proves
properties of the model:

- `stonk.dfy` (module `Stonk`): one company. It models the shareholder
  ledger (allocate and deallocate shares, sorted biggest holder first), the
  timed conditions, and the integer part of the per-tick price update.
  Random draws are parameters. Floating-point values are exact reals.
- `agent.dfy` (module `Agent`): a player's wallet. It holds cash, one holding
  per stonk, and the slot for the pending action.
- `market.dfy` (module `Market`): the day/night clock and calendar, the day
  tick of all eight stonks, and applying a player's pending action.
- `events.dfy` (module `Events`): the night-event catalogue. It covers card
  titles, card texts, unlock rules and the action each event turns into.
- `ssh_server.dfy` (module `Input`): how raw SSH bytes become key and mouse
  events, including the xterm SGR mouse-report decoder and its UTF-8 guard
  (RFC 3629, section 4). It also covers the username-length rule and the
  admission step for a new session.
- `ui.dfy` (module `Ui`): the UI's navigation state and how keys move it.
- `ssh_client.dfy` (module `Client`): a connected player's keys that pick
  trades and night actions, the render counter, and the password check.
- `ssh_backend.dfy` (module `Backend`): how a frame of cells becomes
  terminal commands. The model includes the attribute diff between two
  cells and a small terminal semantics that gives the commands their
  meaning.
- `utils.dfy` (module `Utils`): turning an RGBA picture into half-block
  text lines, two pixel rows per line.
- `common.dfy` (module `Common`): `Option`, `Result`, bytes and the
  unsigned bounds.

Objects the source updates in place are classes:

- `Stonk`, `UserAgent`, `Market`, `UiOptions`, `Client` and `SshBackend`.
- Each has methods with `modifies` frames.
- Each is proved against specification functions on values (`Normalize`,
  `Credit`, `TickPrice`, `DayTick`, `HandleKey`, `HandleClientKey`,
  `DrawCommands`, `ImageLines`).
- Lemmas state what the source promises about those functions.

Loops in the source are loops here, each with its invariants: the walk
over a stonk's conditions that feeds the drift, the history trim, the
per-stonk day tick, the class bump and the crash over all stonks, the card
text, the digit keys, the draw loop and the image loops. The ledger lookup
(`position`) and the condition `retain` are iterator calls in the source
and are the recursive functions `Stonk.FirstIndex` and `Stonk.Retained`
here.

A player's action is specified on values. `Market.Book` is the part of a
stonk an action can change (allocated shares, ledger, conditions) and
`Market.Wallet` the part of a player (cash, holdings).
`Market.ActionApplied` states, arm by arm, how an action takes the wallet
and the eight books from their old values to their new ones.

## Model

| member | source | states |
|---|---|---|
| Stonk.FirstIndex | src/stonk.rs:120-124 | the entry the `find` stops at holds the name, and no earlier entry does; `None` exactly when no entry holds it |
| Stonk.Insert | src/stonk.rs:45-48 | one step of the stable descending sort; its properties are the `Insert*` lemmas |
| Stonk.SortDesc | src/stonk.rs:45-48 | `sort_by` biggest amount first, stable; its properties are the `Sort*` lemmas |
| Stonk.Normalize | src/stonk.rs:45-48 | `sort_shareholders`: drop empty entries, then sort; its properties are `NormalizeFacts` and `NormalizeIdentity` |
| Stonk.Credit | src/stonk.rs:120-127 | the ledger update of `allocate_shares_to_agent` before the sort; its properties are `CreditTotals`, `CreditDistinct` and `CreditLedger` |
| Stonk.RetainPositive | src/stonk.rs:45-48 | the kept entries are exactly the positive ones |
| Stonk.InsertContents | src/stonk.rs:45-48 | inserting into the sorted list adds exactly the one entry (as a multiset) |
| Stonk.SortContents | src/stonk.rs:45-48 | the descending sort is a permutation of its input |
| Stonk.InsertSorted | src/stonk.rs:45-48 | inserting into a list sorted biggest-first keeps it sorted |
| Stonk.SortSorted | src/stonk.rs:45-48 | the sort's result is sorted biggest amount first |
| Stonk.InsertAtMost | src/stonk.rs:45-48 | inserting keeps every amount below a common bound |
| Stonk.InsertMembers | src/stonk.rs:45-48 | the inserted list holds exactly the new entry and the old ones |
| Stonk.InsertDistinct | src/stonk.rs:45-48 | inserting a new user keeps one entry per user |
| Stonk.SortDistinct | src/stonk.rs:45-48 | sorting keeps one entry per user |
| Stonk.RetainDistinct | src/stonk.rs:45-48 | dropping empty entries keeps one entry per user |
| Stonk.HeldByInsert | src/stonk.rs:45-48 | a user's total after an insert is the old total plus the new entry's share |
| Stonk.HeldBySort | src/stonk.rs:45-48 | sorting keeps every user's total |
| Stonk.HeldByRetain | src/stonk.rs:45-48 | dropping empty entries keeps every user's total |
| Stonk.HeldByUpdate | src/stonk.rs:120-125 | changing one entry changes a user's total by the difference of that entry's shares |
| Stonk.HeldByAppend | src/stonk.rs:127 | appending an entry adds its share to the user's total |
| Stonk.NormalizeFacts | src/stonk.rs:45-48 | `sort_shareholders` gives a sorted list without empty entries, keeps every user's total and keeps one entry per user |
| Stonk.NormalizeIdentity | src/stonk.rs:45-48 | a list already sorted without empty entries is left as it is |
| Stonk.RetainAllPositive | src/stonk.rs:45-48 | a list without empty entries is kept whole |
| Stonk.SortIdentity | src/stonk.rs:45-48 | a sorted list is a fixed point of the stable sort |
| Stonk.CreditTotals | src/stonk.rs:120-127 | crediting raises the user's total by exactly the amount and leaves every other user's total alone |
| Stonk.CreditDistinct | src/stonk.rs:120-127 | crediting never creates a second entry for a user |
| Stonk.CreditLedger | src/stonk.rs:117-134 | credit then sort keeps the ledger well formed, and only the credited user's total moves |
| Stonk.DebitLedger | src/stonk.rs:149-168 | debit then sort keeps the ledger well formed, and only the debited user's total moves |
| Stonk.FirstIndexHoldsAll | src/stonk.rs:152-157 | in a list with one entry per user, the found entry carries the user's whole total, and a missing user holds nothing |
| Stonk.NoOtherEntry | src/stonk.rs:159-161 | a user with no entry holds no shares |
| Stonk.Retained | src/stonk.rs:180-181 | the kept conditions are exactly those that outlive the current tick |
| Stonk.ClampDrift | src/stonk.rs:212-213 | the clamped drift lies within ±`MAX_PRICE_DRIFT` (0.2) and equals the drift when already in range |
| Stonk.SaturatingU32 | src/stonk.rs:215-217 | the cast result fits `u32` |
| Stonk.SaturatingU32Cases | src/stonk.rs:215-217 | the cast truncates in range, gives 0 below zero and `u32::MAX` above |
| Stonk.TickConditions | src/stonk.rs:219-247 | the two conditions a tick adds; `AddTickConditions` and `TickPriceFacts` state them |
| Stonk.TickPrice | src/stonk.rs:188-248 | the price state after one tick; its properties are `TickPriceFacts` |
| Stonk.NextPrice | src/stonk.rs:215-217 | the new price is at least a hundredth of the starting price and fits `u32` |
| Stonk.TickPriceFacts | src/stonk.rs:188-248 | for every draw: price floor and `u32` bound, the history grows by exactly the new price, every kept or added condition outlives the tick, and every live condition is kept |
| Stonk.Stonk.constructor | src/stonk.rs:51-67 | a fresh stonk starts from its price with nothing allocated, no holders, no history and no conditions |
| Stonk.Stonk.AvailableAmount | src/stonk.rs:100-102 | allocated plus available equals the number of shares, so the subtraction never underflows |
| Stonk.Stonk.MarketCapCents | src/stonk.rs:96-98 | the capitalisation fits `u64` and is zero exactly when the price or the share count is |
| Stonk.Stonk.SortShareholders | src/stonk.rs:45-48 | the new list is the normalised old one, a well-formed ledger |
| Stonk.Stonk.AllocateShares | src/stonk.rs:104-115 | fails, changing nothing, exactly when more than the available shares are asked for; otherwise allocates them |
| Stonk.Stonk.AllocateSharesToAgent | src/stonk.rs:117-134 | on success the user's total rises by the amount and the ledger stays well formed; on failure nothing changes; no other user's total moves |
| Stonk.Stonk.DeallocateShares | src/stonk.rs:136-147 | fails, changing nothing, exactly when more than the allocated shares are returned |
| Stonk.Stonk.DeallocateSharesToAgent | src/stonk.rs:149-168 | the allocated count drops before the holder check; on success the user's total falls by the amount; no other total moves |
| Stonk.Stonk.AddCondition | src/stonk.rs:184-186 | appends exactly one timed condition |
| Stonk.Stonk.ApplyConditions | src/stonk.rs:170-182 | every bump feeds the drift, then exactly the conditions outliving the tick remain |
| Stonk.Stonk.AddTickConditions | src/stonk.rs:219-247 | appends the drawn drift and the push back toward the starting price |
| Stonk.Stonk.Tick | src/stonk.rs:188-248 | the price state becomes `TickPrice` of the old one, and the stonk stays valid |
| Agent.UserAgent.constructor | src/agent.rs:34-40 | a new agent has $10,000 in cents, eight empty holdings and nothing pending |
| Agent.UserAgent.AddCash | src/agent.rs:51-54 | the balance grows by the amount and is returned |
| Agent.UserAgent.SubCash | src/agent.rs:56-62 | fails, changing nothing, exactly when the balance is too small; otherwise subtracts and returns the balance |
| Agent.UserAgent.AddStonk | src/agent.rs:68-77 | fails, changing nothing, exactly when the holding would overflow `u32`; otherwise only that holding grows |
| Agent.UserAgent.SubStonk | src/agent.rs:79-87 | fails, changing nothing, exactly when the holding is too small; otherwise only that holding shrinks |
| Agent.UserAgent.SelectAction | src/agent.rs:93-95 | the action waits in the pending slot |
| Agent.UserAgent.SelectedAction | src/agent.rs:97-99 | returns the pending action and changes nothing |
| Agent.UserAgent.ClearAction | src/agent.rs:101-106 | the pending action moves to the history and the slot ends empty |
| Market.Time | src/market.rs:44-55 | the hour is below 24 and the minute a quarter |
| Market.DayOfYear | src/market.rs:57-62 | the day lies in 1..365 |
| Market.Year | src/market.rs:72-77 | the year is at least 2025 |
| Market.SeasonOf | src/market.rs:64-70 | the season is the quarter of the cycle counted in 90-day steps, read from the phase |
| Market.NextPhase | src/market.rs:161-174 | a tick keeps the phase counter in its range, and the cycle advances exactly after the last night tick |
| Market.DayMinute | src/market.rs:44-55 | by day the clock reads 6:00 plus fifteen minutes per tick |
| Market.NightMinute | src/market.rs:44-55 | by night the clock starts at 22:00 and passes midnight after eight ticks |
| Market.ClockAdvances | src/market.rs:146-176 | every tick moves the clock on by exactly fifteen minutes, midnight and dawn included |
| Market.AdvanceWithinDay | src/market.rs:150-160 | ticks inside a day only move the counter |
| Market.AdvanceWithinNight | src/market.rs:161-174 | ticks inside a night only move the counter |
| Market.AdvanceAdd | src/market.rs:146-176 | advancing by a then b is advancing by a + b |
| Market.FullCycle | src/market.rs:146-176 | 64 day ticks reach the night, and 32 more reach the next cycle's dawn |
| Market.KeepNewest | src/market.rs:137-139 | the trimmed history is the newest `min(len, size)` prices |
| Market.DayTick | src/market.rs:123-142 | one stonk's price state after a day tick; its properties are `WithGlobalDrift` and `DayTickFacts` |
| Market.WithGlobalDrift | src/market.rs:124-135 | only the conditions change, by one day-long bump and only at a trading day's first tick |
| Market.DayTickFacts | src/market.rs:123-142 | after a day tick the history is at most twelve weeks long and ends with the new price, which respects the floor |
| Market.Views | src/market.rs:136 | the price states of the stonks, one per stonk in order |
| Market.Market.constructor | src/market.rs:106-121 | a new market holds the eight stonks at tick 0, day 0 |
| Market.Market.TrimHistory | src/market.rs:137-139 | the history becomes its newest `HISTORICAL_SIZE` prices |
| Market.Market.DayTickStonk | src/market.rs:124-139 | one stonk's price state becomes its `DayTick` |
| Market.Market.TickStonks | src/market.rs:136-139 | every stonk takes its day tick, in array order |
| Market.Market.TickDay | src/market.rs:123-142 | the tick count grows by one and every stonk takes its day tick |
| Market.Market.Tick | src/market.rs:146-176 | the phase moves on; a day tick moves the stonks and the tick count; a night tick changes no stonk |
| Market.Market.TakeShares | src/market.rs:193-201 | fails exactly when too few shares are on offer, changing nothing; otherwise the book becomes `Allocated`: shares allocated, ledger credited and sorted, a bump until the next tick |
| Market.Market.ReturnShares | src/market.rs:207-216 | `SharesReturned`: fails exactly on too few allocated shares or a missing or short ledger entry; the allocation falls whenever it can; ledger and bump move only on success; no other holder's total moves |
| Market.Market.Charge | src/market.rs:190-192 | fails exactly on too little cash or a holding overflow; a failing `add_stonk` keeps the cash already taken; the holding grows only on success |
| Market.Market.Purchase | src/market.rs:184-202 | one stonk's purchase: fails exactly on too few shares on offer, too little cash or a holding overflow, with the cash kept taken on an overflow; on success wallet and book move as bought |
| Market.Market.Pay | src/market.rs:205-207 | `sub_stonk` then `add_cash`: fails, changing nothing, exactly on a short holding; otherwise the holding falls and the cash rises by the price |
| Market.Market.Sale | src/market.rs:203-217 | one stonk's sale: a short holding fails without effect; otherwise the seller is paid and the stonk takes the shares back as `SharesReturned` says |
| Market.OrderCost | src/market.rs:190 | the order cost fits in 32 bits; it is the exact product of unit price and amount while that fits, and less than the product once it wraps (also market.rs:205) |
| Market.Market.Buy | src/market.rs:184-202 | `BuyApplied`: fails exactly on too few shares on offer, too little cash or a holding overflow, with the cash kept taken on an overflow; on success cash, holding, allocation, ledger and bump move; no other stonk changes |
| Market.Market.Sell | src/market.rs:203-217 | `SellApplied`: a short holding fails without effect; otherwise holding and cash move, and the failure cases, allocation, ledger, other holders and bump are those of `SharesReturned`; no other stonk changes |
| Market.Market.BumpStonkClass | src/market.rs:218-225 | a day-long bump of 5 on every stonk of the class and nothing on the others, with no other book field moving (`ClassBumped`) |
| Market.Market.CrashAll | src/market.rs:226-240 | every stonk gets a day-long bump of -5 and a shock probability of 0.25 remembering the old one, with no other book field moving (`AllCrashed`) |
| Market.Market.Apply | src/market.rs:183-268 | `ActionApplied`: each arm moves the wallet and the eight books exactly as that arm of the source does, cash grants add their amount, and the remaining arms change nothing |
| Market.Market.ApplyAgentAction | src/market.rs:178-273 | the pending action is consumed into the history, then has exactly the effect `ActionApplied` gives it, measured from the state before the call; with none pending nothing changes |
| Market.CrashConditions | src/market.rs:226-240 | a crash adds two conditions, both lasting one day |
| Events.Description | src/events.rs:42-101 | the card text is its story lines, a blank line, the unlock header and the unlock lines |
| Events.Lines | src/events.rs:42-93 | the story lines of each card; `StoryAvoidsHeader` and `DescriptionSplits` state what the card text relies on |
| Events.UnlockConditionDescription | src/events.rs:193-223 | the unlock lines of each card; `DescriptionSplits` reads them back |
| Events.FirstLine | src/events.rs:94-95 | the index found is the first line equal to the marker |
| Events.StoryAvoidsHeader | src/events.rs:42-93 | no story line is the unlock header |
| Events.DescriptionSplits | src/events.rs:42-101 | the story and the unlock rule can be read back from the assembled card |
| Events.CardSplits | src/events.rs:94-98 | any card whose story avoids the header splits back into story and unlock lines |
| Events.FirstLineAt | src/events.rs:94-95 | a marker with no earlier equal line is the first found |
| Events.ActionRoundTrip | src/events.rs:225-247 | every event's action leads back to the event, and none is a trade or a cash grant |
| Events.Action | src/events.rs:225-247 | the action each event turns into; `ActionRoundTrip`, `ActionInjective` and `SectorEvents` state its properties |
| Events.ActionInjective | src/events.rs:225-247 | two events with the same action are the same event |
| Events.SectorEvents | src/events.rs:225-238 | exactly the four sector events bump a stonk class |
| Events.NamesDistinct | src/events.rs:26-39 | titles tell events apart, except the character assassinations of different users |
| Events.Name | src/events.rs:26-39 | the card titles; `NamesDistinct` states that they tell events apart |
| Events.UnlockRules | src/events.rs:161-190 | a market crash unlocks exactly from $100,000; an assassination exactly for another user; a good offer only below $1,000 and never after a bribe |
| Events.Unlocked | src/events.rs:103-191 | the unlock rule of each event; `UnlockRules`, `NoSelfAssassination` and `CashMonotone` state its properties |
| Events.NoSelfAssassination | src/events.rs:167-177 | nobody can target themselves |
| Events.CashMonotone | src/events.rs:161-190 | more cash never locks a crash or unlocks a good offer, and no agent qualifies for both |
| Input.KeyRoundTrip | src/ssh_server.rs:656-694 | decoding the bytes of every key gives back that key |
| Input.ConvertDataToKeyEvent | src/ssh_server.rs:656-694 | the key decoder; `KeyRoundTrip`, `KeyDecodeCanonical`, `LetterKeys` and `ThreeBytesByLast` state its properties |
| Input.KeyDecodeCanonical | src/ssh_server.rs:656-694 | a decoded one-byte input is exactly the byte of the key it decodes to; a decoded three-byte input shares its key's ESC [ sequence only in the last byte, since the first two bytes are not checked (`[0, 0, 65]` decodes to Up) |
| Input.LetterKeys | src/ssh_server.rs:672-676 | a byte 'a'..'z' decodes to that letter with no modifier, and a byte 'A'..'Z' decodes to its lower-case letter with SHIFT |
| Input.ThreeBytesByLast | src/ssh_server.rs:680-687 | an ESC [ sequence decodes according to its last byte alone |
| Input.Utf8Lead | src/ssh_server.rs:698 | the well-formed prefix length is at most 4 and is 1 for ASCII |
| Input.AsciiIsUtf8 | src/ssh_server.rs:698 | ASCII input passes the UTF-8 check |
| Input.Split | src/ssh_server.rs:717-721 | a split has at least one piece |
| Input.SplitJoin | src/ssh_server.rs:717-721 | joining the pieces with the separator gives back the input |
| Input.SplitPiecesFree | src/ssh_server.rs:717-721 | no piece holds the separator |
| Input.SplitFree | src/ssh_server.rs:717-721 | a separator-free prefix becomes the first piece |
| Input.JoinSplit | src/ssh_server.rs:717-721 | separator-free pieces split back from their join |
| Input.ShowNat | src/ssh_server.rs:724-733 | the written number is a non-empty digit run |
| Input.ShowNatValue | src/ssh_server.rs:724-733 | the digits read back as the number |
| Input.ParseShow | src/ssh_server.rs:724-733 | `parse` reads a written number back exactly when it fits the type |
| Input.ParseBound | src/ssh_server.rs:724-733 | a parsed value fits the type and the text starts with `+` or a digit |
| Input.DigitsAscii | src/ssh_server.rs:714-721 | digit runs are ASCII and free of separators |
| Input.SgrRoundTrip | src/ssh_server.rs:696-736 | decoding a written report gives back its coordinates, and its button code, shifted by 3 on release |
| Input.DecodeSgrMouseInput | src/ssh_server.rs:696-736 | the SGR mouse-report decoder; `SgrRoundTrip` and `SgrAccepted` state its properties |
| Input.SgrFraming | src/ssh_server.rs:701-721 | a written report is ASCII, framed by prefix and final letter, with separator-free fields |
| Input.SgrAccepted | src/ssh_server.rs:696-736 | a decoded report had the prefix, a final M or m and three fields, and its values fit `u8` and `u16` |
| Input.MouseKindCodes | src/ssh_server.rs:740-756 | exactly ten button codes are accepted, and `KindCode` inverts the match on them |
| Input.MouseRoundTrip | src/ssh_server.rs:738-766 | a written press of a known button decodes to that mouse event |
| Input.ConvertDataToMouseEvent | src/ssh_server.rs:738-766 | the mouse decoder; `MouseKindCodes` and `MouseRoundTrip` state its properties |
| Input.ClassifierRoutes | src/ssh_server.rs:768-780 | input opening like a mouse report is read only as a mouse event; other input only as a key |
| Input.ConvertDataToCrosstermEvent | src/ssh_server.rs:768-780 | the input classifier; `ClassifierRoutes` and `ArrowsAreKeys` state its properties |
| Input.ArrowsAreKeys | src/ssh_server.rs:768-780 | arrow keys never reach the mouse decoder |
| Input.CharWidth | src/ssh_server.rs:459-469 | a character takes 1 to 4 UTF-8 bytes, and 1 exactly for ASCII |
| Input.Utf8LengthBounds | src/ssh_server.rs:459-469 | the byte length lies between one and four times the character count, and equals it exactly for ASCII |
| Input.UsernameRule | src/ssh_server.rs:459-469 | an ASCII name passes iff it has 3 to 16 characters; empty names and names over 16 characters fail |
| Input.UsernameLengthOk | src/ssh_server.rs:459-469 | the username-length rule; `UsernameRule` states it in characters |
| Input.OpenSessionRules | src/ssh_server.rs:447-469 | a stored user is checked only by password, and a new one only by the length rule |
| Input.OpenSession | src/ssh_server.rs:447-469 | the admission step of a session; `OpenSessionRules` states its cases |
| Ui.ZoomCycle | src/ui.rs:209-217 | `next` steps around a cycle of four levels and has no fixed point |
| Ui.ZoomRankInjective | src/ui.rs:209-217 | levels with the same place in the cycle are equal |
| Ui.ZoomLevel.Next | src/ui.rs:209-217 | `next` on zoom levels; `ZoomCycle` and `ZoomRankInjective` state its properties |
| Ui.HandleKey | src/ui.rs:282-336 | the navigation state after one key; `HandleKeyInRange`, `UpDown`, `EventCards` and `DigitKeys` state its properties |
| Ui.HandleKeyInRange | src/ui.rs:282-336 | every key keeps the focus, selection and palette indices in range |
| Ui.UpDown | src/ui.rs:285-299 | Down and Up undo each other, moving the focus when there is one and the selection otherwise |
| Ui.EventCards | src/ui.rs:301-314 | Left and Right move only the card index, only when nothing is pending and cards exist, and land on a card |
| Ui.DigitKeys | src/ui.rs:324-334 | keys 1..8 reset and focus the stonk counted from one; other unbound keys change nothing |
| Ui.ResetKeeps | src/ui.rs:340-344 | `reset` clears the navigation, keeps palette, display and counters, and is idempotent |
| Ui.AfterReset | src/ui.rs:340-344 | the state `reset` leaves; `ResetKeeps` states it |
| Ui.SelectStonkFocuses | src/ui.rs:346-350 | `select_stonk` focuses the stonk selected before the call |
| Ui.AfterSelectStonk | src/ui.rs:346-350 | the state `select_stonk` leaves; `SelectStonkFocuses` states it |
| Ui.UiOptions.constructor | src/ui.rs:278-280 | the new options are the defaults |
| Ui.UiOptions.Reset | src/ui.rs:340-344 | the new state is the reset state |
| Ui.UiOptions.SelectStonk | src/ui.rs:346-350 | the new state focuses the previously selected stonk after a reset |
| Ui.UiOptions.HandleKeyEvents | src/ui.rs:282-336 | the new state is `HandleKey` of the old one |
| Ui.UiOptions.FocusDigit | src/ui.rs:324-334 | the loop over digits 1..8 has the effect of `DigitKey` |
| Client.Target | src/ssh_client.rs:154-158 | the trade target is a stonk index in range |
| Client.Lot | src/ssh_client.rs:166-170 | a lot is 100 shares with Shift and 1 otherwise; `BuyKeys` and `SellKeys` use it |
| Client.AffordableBelowQuotient | src/ssh_client.rs:161-165 | below a positive price, n shares are affordable exactly when n is at most cash / price |
| Client.MaxBuy | src/ssh_client.rs:161-165 | the largest affordable purchase on offer; `MaxBuyIsLargest` states it |
| Client.MaxBuyIsLargest | src/ssh_client.rs:161-165 | the maximum purchase is affordable and on offer, at least any other such amount, and 0 at a zero price |
| Client.BuyKeys | src/ssh_client.rs:153-191 | `b` and `m` pick an affordable buy of the target; `m` buys the most, `b` at most a lot and a full lot when one is affordable |
| Client.SellKeys | src/ssh_client.rs:194-216 | `s` sells one share or a lot of 100; `d` sells the whole holding of the target |
| Client.EnterByDay | src/ssh_client.rs:133-139 | by day Enter focuses the selected stonk, and a second Enter returns to the reset state |
| Client.EnterByNight | src/ssh_client.rs:140-149 | by night Enter picks the highlighted card's action exactly when nothing is pending and the card exists |
| Client.ConfirmKey | src/ssh_client.rs:133-149 | the Enter arm; `EnterByDay` and `EnterByNight` state its cases |
| Client.OtherKeys | src/ssh_client.rs:218-220 | any other key goes to the UI and leaves the pending action alone |
| Client.ClientKeyInRange | src/ssh_client.rs:124-223 | every key keeps the UI indices in range |
| Client.HandleClientKey | src/ssh_client.rs:124-223 | a client's key handling on values; `BuyKeys`, `SellKeys`, `OtherKeys` and `ClientKeyInRange` state its properties |
| Client.CheckPassword | src/ssh_client.rs:258-260 | `check_password`: the stored and the offered hash are equal; its rules are `PasswordCheckRules` |
| Client.PasswordCheckRules | src/ssh_client.rs:245-260 | the hash stored with a session lets it back in, a hash off in any byte does not, the check is symmetric and ignores the username |
| Client.Client.constructor | src/ssh_client.rs:75-94 | a new client has the username and default UI options |
| Client.Client.TickRenderCounter | src/ssh_client.rs:115-117 | only the render counter grows by one |
| Client.Client.ClearUiOptions | src/ssh_client.rs:119-122 | only the render counter and card index return to zero |
| Client.Client.HandleKeyEvents | src/ssh_client.rs:124-223 | the UI and the pending action move as `HandleClientKey` says |
| Client.Client.Confirm | src/ssh_client.rs:133-149 | the Enter arm has the effect of `ConfirmKey` |
| Backend.ColorRoundTrip | src/ssh_backend.rs:303-325 | the colour mapping is a bijection |
| Backend.ColorInjective | src/ssh_backend.rs:303-325 | no two cell colours map to the same terminal colour |
| Backend.CColorFromColor | src/ssh_backend.rs:303-325 | the colour mapping; `ColorRoundTrip` and `ColorInjective` state that it is a bijection |
| Backend.ApplyAttributesAppend | src/ssh_backend.rs:242-299 | running two attribute runs is running their concatenation |
| Backend.WrittenDiffDropsBold | src/ssh_backend.rs:263-265 | as written, removing DIM while BOLD stays leaves neither |
| Backend.WrittenDiffDropsBlink | src/ssh_backend.rs:269-271 | as written, removing slow blink while rapid blink stays leaves neither |
| Backend.WrittenDiffIgnoresHidden | src/ssh_backend.rs:247-298 | as written, adding or removing HIDDEN sends nothing |
| Backend.WrittenDiffIdle | src/ssh_backend.rs:242-299 | the written diff sends nothing between equal sets |
| Backend.WrittenDiff | src/ssh_backend.rs:242-299 | the attribute diff as written; the `WrittenDiff*` lemmas state its behaviour, including the three findings |
| Backend.UndoLeavesKept | src/ssh_backend.rs:247-271 | the corrected undo half leaves exactly the kept flags |
| Backend.IntensityStep | src/ssh_backend.rs:251-265 | normal intensity then re-setting the kept ones clears exactly the removed ones of bold and dim |
| Backend.BlinkStep | src/ssh_backend.rs:269-271 | "no blink" then re-setting the kept ones clears exactly the removed blink kinds |
| Backend.SetAddedAdds | src/ssh_backend.rs:273-297 | the set half as written adds every added flag except HIDDEN |
| Backend.ModifierDiffSound | src/ssh_backend.rs:242-299 | the corrected diff takes a terminal from one flag set to exactly the other, and sends nothing between equal sets |
| Backend.ModifierDiff | src/ssh_backend.rs:242-299 | the corrected attribute diff; `ModifierDiffSound` states it |
| Backend.AttributeCommands | src/ssh_backend.rs:242-299 | one attribute command per attribute, in order |
| Backend.CellStages | src/ssh_backend.rs:131-161 | a cell's commands are move, style, foreground, background and print, in that order |
| Backend.CellCommands | src/ssh_backend.rs:131-161 | one cell's commands; `CellStages`, `CellSound` and `CellPrints` state them |
| Backend.ExecuteAllAppend | src/ssh_backend.rs:120-171 | running two command runs is running their concatenation |
| Backend.ExecuteAttributes | src/ssh_backend.rs:136-143 | attribute commands change only the terminal's flags |
| Backend.CellSound | src/ssh_backend.rs:130-162 | one cell's commands paint that cell and keep the terminal in the state `draw` remembers |
| Backend.EmittedSound | src/ssh_backend.rs:130-162 | the commands for the first n cells paint them in order |
| Backend.DrawPaints | src/ssh_backend.rs:120-171 | `draw` paints every cell with its symbol, colours and flags, later over earlier, and leaves default colours and no flags |
| Backend.DrawCommands | src/ssh_backend.rs:120-171 | all the commands of one draw; `DrawPaints` and `OnePrintPerCell` state what they do |
| Backend.PrintedAppend | src/ssh_backend.rs:161 | the symbols printed by two runs are those of each run in turn |
| Backend.OnePrintPerCell | src/ssh_backend.rs:120-171 | `draw` prints each cell's symbol exactly once, in input order |
| Backend.EmittedPrints | src/ssh_backend.rs:130-162 | the first n cells print their symbols in order |
| Backend.CellPrints | src/ssh_backend.rs:131-161 | a cell's commands print its symbol and nothing else |
| Backend.AttributesPrintNothing | src/ssh_backend.rs:164-170 | attribute commands print nothing |
| Backend.SshBackend.constructor | src/ssh_backend.rs:98-100 | a new backend has an empty command queue and the announced size |
| Backend.SshBackend.Draw | src/ssh_backend.rs:120-171 | queues the draw's commands after those already queued |
| Backend.SshBackend.QueueCells | src/ssh_backend.rs:130-162 | the loop queues every cell's commands, in order |
| Backend.SshBackend.QueueCell | src/ssh_backend.rs:131-161 | one cell's commands are queued, and the loop's state becomes that cell's |
| Backend.SshBackend.Size | src/ssh_backend.rs:214-216 | the size is the announced one at the origin |
| Utils.PairSpanHalves | src/utils.rs:40-64 | a pair glyph shows the top pixel above and the bottom pixel below, and is blank exactly when both are transparent |
| Utils.RowSpanHalves | src/utils.rs:69-82 | a last-row glyph shows its pixel above and nothing below |
| Utils.PairSpan | src/utils.rs:40-64 | one half-block glyph for a pair of pixels; `PairSpanHalves` states it |
| Utils.RowSpan | src/utils.rs:69-82 | one half-block glyph for the last row of an odd picture; `RowSpanHalves` states it |
| Utils.LinesShape | src/utils.rs:30-85 | the picture becomes half its height in lines, rounded up, each as wide as the picture |
| Utils.PictureRoundTrip | src/utils.rs:30-85 | reading the half-cell where any pixel falls gives back its colour, or nothing when it is transparent |
| Utils.LastLineLowerHalfEmpty | src/utils.rs:69-82 | the extra line of an odd-height picture shows nothing in its lower halves |
| Utils.ImageLines | src/utils.rs:30-85 | the lines of a picture; `LinesShape`, `PictureRoundTrip` and `LastLineLowerHalfEmpty` state them |
| Utils.ImgToLines | src/utils.rs:30-85 | the loops build exactly `ImageLines` of the picture |

## Left out

- Random draws are parameters: the price drift sample, the global drift and the good-offer luck. The random number generators and their distributions are not modelled.
- Floating-point arithmetic is exact real arithmetic. Rounding, NaN and infinities are not modelled. The `f64 as u32` cast is modelled with its saturation and its truncation.
- The buy and sell unit prices and each trade's resulting stake (`to_stake`) are inputs. The market file and the stonk file come from different revisions and disagree on their signatures (`buy_price()` against `buy_price(amount)`). The market model follows the market file.
- `Stonk.Stonk.Tick` leaves out the per-tick random shock and the Cauchy/normal sampling. Its draw arrives as `sample`.
- Market.Market.Apply: `OneDayUltraVision` and `CrashAgentStonks` are modelled as changing no market or wallet state. Their effects need agent conditions and per-stonk stakes that the wallet model does not have.
- `insert_past_selected_actions` is not modelled. `ClearAction` keeps the history of actions instead.
- Stonk.Stonk.AllocateSharesToAgent: the `u32` addition to the holder's entry is unbounded here. It can overflow in the source: a failed deallocation lowers the allocated count but not the holder's entry, so later allocations can push one entry past `u32::MAX`.
- Market.OrderCost: the `u32` products `buy_price() * amount` and `sell_price() * amount` wrap modulo 2^32, as in a release build. The debug-build panic is not modelled. So a sale of a large holding credits the wrapped, smaller amount, and a purchase charges it.
- Agent.UserAgent.AddCash: the `u32` addition is unbounded here, so an overflow is not modelled.
- The `username` of `UserAgent` is a constant taken from how the market and server use it.
- Persistence (saving and loading agents and the market as JSON), the SSH session plumbing, the async tasks, locks and timers are not modelled. So are `last_active_time` and the password hashing.
- Rendering of the UI (tables, charts, cards, palettes) is not modelled. Only the navigation state is.
- The key decoder never produces the characters `'1'`..`'8'` as keys; Ui.DigitKeys covers them for other input sources.
- Input.DecodeSgrMouseInput: the `u8` addition of 3 for a release wraps modulo 256, as in a release build. The debug-build panic is not modelled.
- Backend.SshBackend.Draw uses the corrected attribute diff (see Findings). The as-written one is `Backend.WrittenDiff`.
- Backend.SshBackend.Draw: the `u16` overflow of `x + 1` at the right edge is not modelled, because positions are unbounded here. Writer I/O errors are not modelled either. The underline colour is not modelled.
- The other `Backend` trait methods (cursor, clear, append lines, window size, flush) only forward to the terminal and are not modelled.
- Utils.ImgToLines requires a height of at least 1, because the source's `height - 1` underflows on an empty image. Reading and decoding the image file are not modelled.
- The float-average unlock rules of the sector events and of UltraVision arrive as one boolean verdict, because they are floating-point stake averages.

## Findings

| source | as written | input that shows it | evidently intended | confidence | as-written member | corrected member |
|---|---|---|---|---|---|---|
| src/ssh_backend.rs:263-265 | removing DIM sends `NormalIntensity`, which also clears a BOLD that stays | from {BOLD, DIM} to {BOLD}: the terminal ends with no flags | the kept BOLD is set again after normal intensity | high, not executed | Backend.WrittenDiffDropsBold | Backend.ModifierDiffSound |
| src/ssh_backend.rs:269-271 | removing one kind of blinking sends `NoBlink`, which clears both | from {SLOW_BLINK, RAPID_BLINK} to {RAPID_BLINK}: the terminal ends with no flags | the kept kind of blinking is set again | high, not executed | Backend.WrittenDiffDropsBlink | Backend.ModifierDiffSound |
| src/ssh_backend.rs:247-298 | HIDDEN is neither set nor cleared | from {} to {HIDDEN}: nothing is sent and the text stays visible | hidden is set and cleared like the other flags | medium, not executed | Backend.WrittenDiffIgnoresHidden | Backend.ModifierDiffSound |
