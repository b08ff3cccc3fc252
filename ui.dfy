/** The navigation state of the terminal UI and how keys move it
    (src/ui.rs). Rendering is not modelled. */
module Ui {
  import opened Common
  import opened Input

  datatype UiDisplay = Stonks | Portfolio

  datatype ZoomLevel = Short | Medium | Long | Max {
    /** `ZoomLevel::next`. */
    function Next(): ZoomLevel {
      match this
      case Short => Medium
      case Medium => Long
      case Long => Max
      case Max => Short
    }

    /** The position of a level in the cycle. */
    function Rank(): nat {
      match this
      case Short => 0
      case Medium => 1
      case Long => 2
      case Max => 3
    }
  }

  /** `next` steps one place around a cycle of four levels, so it has no
      fixed point and four steps come back. */
  lemma ZoomCycle(z: ZoomLevel)
    ensures z.Next().Rank() == (z.Rank() + 1) % 4
    ensures z.Next() != z
    ensures z.Next().Next().Next().Next() == z
  {
  }

  /** Both ranks agree exactly when the levels do. */
  lemma ZoomRankInjective(a: ZoomLevel, b: ZoomLevel)
    ensures a.Rank() == b.Rank() <==> a == b
  {
  }

  const NUMBER_OF_STONKS: nat := 8
  /** `PALETTES.len()`. */
  const PALETTE_COUNT: nat := 5

  /** The fields of `UiOptions`. */
  datatype UiState = UiState(
    focusOnStonk: Option<nat>,
    display: UiDisplay,
    selectedStonkIndex: nat,
    paletteIndex: nat,
    zoomLevel: ZoomLevel,
    renderCounter: nat,
    selectedEventCardIndex: nat)

  /** `UiOptions::default()`. */
  const DEFAULT_STATE: UiState := UiState(None, Stonks, 0, 0, Short, 0, 0)

  /** The ranges the indices are used in: a stonk index, a palette index. */
  predicate IndicesInRange(s: UiState) {
    (s.focusOnStonk.Some? ==> s.focusOnStonk.value < NUMBER_OF_STONKS) &&
    s.selectedStonkIndex < NUMBER_OF_STONKS &&
    s.paletteIndex < PALETTE_COUNT
  }

  /** `reset`. */
  function AfterReset(s: UiState): UiState {
    s.(focusOnStonk := None, zoomLevel := Short, selectedStonkIndex := 0)
  }

  /** `select_stonk`. */
  function AfterSelectStonk(s: UiState): UiState {
    AfterReset(s).(focusOnStonk := Some(s.selectedStonkIndex))
  }

  /** The digit of a key `'1'`..`'8'`, and 0 for every other key. */
  function DigitOf(key: KeyCode): nat {
    if key.Char? && '1' <= key.c <= '8' then key.c as int - '0' as int else 0
  }

  /** The `_` arm of `handle_key_events`: a digit key focuses its stonk,
      counted from 1, after a reset. */
  function DigitKey(s: UiState, key: KeyCode): UiState {
    if DigitOf(key) > 0 then AfterReset(s).(focusOnStonk := Some(DigitOf(key) - 1)) else s
  }

  /** What `UiOptions::handle_key_events` does with a key, given whether
      the agent has an action pending and how many night events it sees. */
  function HandleKey(s: UiState, key: KeyCode, actionPending: bool, numNightEvents: nat): UiState {
    match key
    case Down =>
      if s.focusOnStonk.Some? then s.(focusOnStonk := Some((s.focusOnStonk.value + 1) % NUMBER_OF_STONKS))
      else s.(selectedStonkIndex := (s.selectedStonkIndex + 1) % NUMBER_OF_STONKS)
    case Up =>
      if s.focusOnStonk.Some? then
        s.(focusOnStonk := Some((s.focusOnStonk.value + NUMBER_OF_STONKS - 1) % NUMBER_OF_STONKS))
      else s.(selectedStonkIndex := (s.selectedStonkIndex + NUMBER_OF_STONKS - 1) % NUMBER_OF_STONKS)
    case Left =>
      if !actionPending && numNightEvents > 0 then
        s.(selectedEventCardIndex := (s.selectedEventCardIndex + numNightEvents - 1) % numNightEvents)
      else s
    case Right =>
      if !actionPending && numNightEvents > 0 then
        s.(selectedEventCardIndex := (s.selectedEventCardIndex + 1) % numNightEvents)
      else s
    case Char(c) =>
      if c == 'z' then s.(zoomLevel := s.zoomLevel.Next())
      else if c == 'c' then s.(paletteIndex := (s.paletteIndex + 1) % PALETTE_COUNT)
      else if c == 'p' then s.(display := Portfolio)
      else if c == 'l' then s.(display := Stonks)
      else DigitKey(s, key)
    case _ => DigitKey(s, key)
  }

  /** Every key keeps the indices in range. */
  lemma HandleKeyInRange(s: UiState, key: KeyCode, actionPending: bool, n: nat)
    requires IndicesInRange(s)
    ensures IndicesInRange(HandleKey(s, key, actionPending, n))
  {
  }

  /** Without focus, Down and Up move the selection around the eight stonks
      and undo each other; with focus they move only the focus. */
  lemma UpDown(s: UiState, pending: bool, n: nat)
    requires IndicesInRange(s)
    ensures HandleKey(HandleKey(s, Down, pending, n), Up, pending, n) == s
    ensures HandleKey(HandleKey(s, Up, pending, n), Down, pending, n) == s
    ensures s.focusOnStonk.Some? ==>
      HandleKey(s, Down, pending, n).selectedStonkIndex == s.selectedStonkIndex &&
      HandleKey(s, Up, pending, n).selectedStonkIndex == s.selectedStonkIndex
    ensures s.focusOnStonk.None? ==>
      HandleKey(s, Down, pending, n).focusOnStonk.None? && HandleKey(s, Up, pending, n).focusOnStonk.None?
  {
  }

  /** Left and Right move the event card only when no action is pending and
      there is an event, and then land on an event. */
  lemma EventCards(s: UiState, key: KeyCode, pending: bool, n: nat)
    requires key == Left || key == Right
    ensures pending || n == 0 ==> HandleKey(s, key, pending, n) == s
    ensures !pending && n > 0 ==>
      HandleKey(s, key, pending, n).selectedEventCardIndex < n &&
      HandleKey(s, key, pending, n) == s.(selectedEventCardIndex := HandleKey(s, key, pending, n).selectedEventCardIndex)
  {
  }

  /** Keys `'1'`..`'8'` reset and focus stonk digit-1; `'9'`, `'0'` and other
      unbound keys change nothing. */
  lemma DigitKeys(s: UiState, c: char, pending: bool, n: nat)
    requires c !in {'z', 'c', 'p', 'l'}
    ensures '1' <= c <= '8' ==>
      HandleKey(s, Char(c), pending, n) == AfterReset(s).(focusOnStonk := Some(c as int - '1' as int))
    ensures !('1' <= c <= '8') ==> HandleKey(s, Char(c), pending, n) == s
  {
  }

  /** `reset` clears the navigation and keeps palette, display and the
      counters. */
  lemma ResetKeeps(s: UiState)
    ensures var r := AfterReset(s);
      r.focusOnStonk.None? && r.zoomLevel == Short && r.selectedStonkIndex == 0 &&
      r.paletteIndex == s.paletteIndex && r.display == s.display &&
      r.renderCounter == s.renderCounter && r.selectedEventCardIndex == s.selectedEventCardIndex
    ensures AfterReset(AfterReset(s)) == AfterReset(s)
  {
  }

  /** `select_stonk` focuses the stonk that was selected before the call. */
  lemma SelectStonkFocuses(s: UiState)
    requires IndicesInRange(s)
    ensures AfterSelectStonk(s).focusOnStonk == Some(s.selectedStonkIndex)
    ensures AfterSelectStonk(s).selectedStonkIndex == 0
    ensures IndicesInRange(AfterSelectStonk(s))
    ensures AfterReset(AfterSelectStonk(s)) == AfterReset(s)
  {
  }

  class UiOptions {
    var focusOnStonk: Option<nat>
    var display: UiDisplay
    var selectedStonkIndex: nat
    var paletteIndex: nat
    var zoomLevel: ZoomLevel
    var renderCounter: nat
    var selectedEventCardIndex: nat

    function View(): UiState
      reads this
    {
      UiState(focusOnStonk, display, selectedStonkIndex, paletteIndex, zoomLevel, renderCounter,
              selectedEventCardIndex)
    }

    /** `UiOptions::new`, the derived default. */
    constructor ()
      ensures View() == DEFAULT_STATE
    {
      focusOnStonk := None;
      display := Stonks;
      selectedStonkIndex := 0;
      paletteIndex := 0;
      zoomLevel := Short;
      renderCounter := 0;
      selectedEventCardIndex := 0;
    }

    method Reset()
      modifies this`focusOnStonk, this`zoomLevel, this`selectedStonkIndex
      ensures View() == AfterReset(old(View()))
    {
      focusOnStonk := None;
      zoomLevel := Short;
      selectedStonkIndex := 0;
    }

    method SelectStonk()
      modifies this`focusOnStonk, this`zoomLevel, this`selectedStonkIndex
      ensures View() == AfterSelectStonk(old(View()))
    {
      var idx := selectedStonkIndex;
      Reset();
      focusOnStonk := Some(idx);
    }

    /** `handle_key_events`: the digit arm tries `'1'`..`'8'` in turn. */
    method HandleKeyEvents(key: KeyCode, actionPending: bool, numNightEvents: nat)
      modifies this
      ensures View() == HandleKey(old(View()), key, actionPending, numNightEvents)
    {
      match key {
        case Down =>
          if focusOnStonk.Some? {
            focusOnStonk := Some((focusOnStonk.value + 1) % NUMBER_OF_STONKS);
          } else {
            selectedStonkIndex := (selectedStonkIndex + 1) % NUMBER_OF_STONKS;
          }
        case Up =>
          if focusOnStonk.Some? {
            focusOnStonk := Some((focusOnStonk.value + NUMBER_OF_STONKS - 1) % NUMBER_OF_STONKS);
          } else {
            selectedStonkIndex := (selectedStonkIndex + NUMBER_OF_STONKS - 1) % NUMBER_OF_STONKS;
          }
        case Left =>
          if !actionPending && numNightEvents > 0 {
            var idx := selectedEventCardIndex;
            selectedEventCardIndex := (idx + numNightEvents - 1) % numNightEvents;
          }
        case Right =>
          if !actionPending && numNightEvents > 0 {
            var idx := selectedEventCardIndex;
            selectedEventCardIndex := (idx + 1) % numNightEvents;
          }
        case Char(c) =>
          if c == 'z' {
            zoomLevel := zoomLevel.Next();
          } else if c == 'c' {
            paletteIndex := (paletteIndex + 1) % PALETTE_COUNT;
          } else if c == 'p' {
            display := Portfolio;
          } else if c == 'l' {
            display := Stonks;
          } else {
            FocusDigit(key);
          }
        case _ =>
          FocusDigit(key);
      }
    }

    /** The `_` arm: each of `'1'`..`'8'` is compared with the key in turn. */
    method FocusDigit(key: KeyCode)
      modifies this`focusOnStonk, this`zoomLevel, this`selectedStonkIndex
      ensures View() == DigitKey(old(View()), key)
    {
      for idx := 1 to 9
        invariant View() ==
          if 0 < DigitOf(key) < idx then AfterReset(old(View())).(focusOnStonk := Some(DigitOf(key) - 1))
          else old(View())
      {
        if key == Char(('0' as int + idx) as char) {
          Reset();
          focusOnStonk := Some(idx - 1);
        }
      }
    }
  }
}
