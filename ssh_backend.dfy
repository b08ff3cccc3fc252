/** The terminal backend: how a stream of cells becomes terminal commands
    (src/ssh_backend.rs). The writer is the sequence of commands queued so
    far; a small terminal semantics gives the commands their meaning. */
module Backend {
  import opened Common

  /** The colours a cell can carry. */
  datatype Color =
    | Reset | Black | Red | Green | Yellow | Blue | Magenta | Cyan | Gray | DarkGray
    | LightRed | LightGreen | LightYellow | LightBlue | LightMagenta | LightCyan | White
    | Indexed(i: byte)
    | Rgb(r: byte, g: byte, b: byte)

  /** The colours the terminal commands name. */
  datatype CColor =
    | Reset | Black | DarkGrey | Red | DarkRed | Green | DarkGreen | Yellow | DarkYellow
    | Blue | DarkBlue | Magenta | DarkMagenta | Cyan | DarkCyan | White | Grey
    | Rgb(r: byte, g: byte, b: byte)
    | AnsiValue(v: byte)

  /** The style flags of a cell. */
  datatype Modifier =
    BOLD | DIM | ITALIC | UNDERLINED | SLOW_BLINK | RAPID_BLINK | REVERSED | HIDDEN | CROSSED_OUT

  /** The text attributes a terminal command sets or clears. */
  datatype Attribute =
    | Reset | Bold | Dim | Italic | Underlined | SlowBlink | RapidBlink | Reverse | Hidden | CrossedOut
    | NormalIntensity | NoItalic | NoUnderline | NoBlink | NoReverse | NoHidden | NotCrossedOut

  datatype Command =
    | MoveTo(x: nat, y: nat)
    | SetAttribute(attribute: Attribute)
    | SetForegroundColor(fg: CColor)
    | SetBackgroundColor(bg: CColor)
    | Print(symbol: string)

  // ---------------------------------------------------------------------------
  // Colours
  // ---------------------------------------------------------------------------

  /** `c_color_from_color`: the plain names are the dark terminal colours,
      the light names the bright ones. */
  function CColorFromColor(c: Color): CColor {
    match c
    case Reset => CColor.Reset
    case Black => CColor.Black
    case Red => DarkRed
    case Green => DarkGreen
    case Yellow => DarkYellow
    case Blue => DarkBlue
    case Magenta => DarkMagenta
    case Cyan => DarkCyan
    case Gray => Grey
    case DarkGray => DarkGrey
    case LightRed => CColor.Red
    case LightGreen => CColor.Green
    case LightBlue => CColor.Blue
    case LightYellow => CColor.Yellow
    case LightMagenta => CColor.Magenta
    case LightCyan => CColor.Cyan
    case White => CColor.White
    case Indexed(i) => AnsiValue(i)
    case Rgb(r, g, b) => CColor.Rgb(r, g, b)
  }

  /** The cell colour a terminal colour stands for. */
  function ColorFromCColor(c: CColor): Color {
    match c
    case Reset => Color.Reset
    case Black => Color.Black
    case DarkRed => Color.Red
    case DarkGreen => Color.Green
    case DarkYellow => Color.Yellow
    case DarkBlue => Color.Blue
    case DarkMagenta => Color.Magenta
    case DarkCyan => Color.Cyan
    case Grey => Gray
    case DarkGrey => DarkGray
    case Red => LightRed
    case Green => LightGreen
    case Blue => LightBlue
    case Yellow => LightYellow
    case Magenta => LightMagenta
    case Cyan => LightCyan
    case White => Color.White
    case AnsiValue(v) => Indexed(v)
    case Rgb(r, g, b) => Color.Rgb(r, g, b)
  }

  /** The colour mapping is a bijection: no two cell colours are sent as the
      same terminal colour, and every terminal colour is reachable. */
  lemma ColorRoundTrip(c: Color, t: CColor)
    ensures ColorFromCColor(CColorFromColor(c)) == c
    ensures CColorFromColor(ColorFromCColor(t)) == t
  {
  }

  lemma ColorInjective(c1: Color, c2: Color)
    requires CColorFromColor(c1) == CColorFromColor(c2)
    ensures c1 == c2
  {
    ColorRoundTrip(c1, CColor.Reset);
    ColorRoundTrip(c2, CColor.Reset);
  }

  // ---------------------------------------------------------------------------
  // Attributes and their meaning
  // ---------------------------------------------------------------------------

  /** What an attribute command does to the set of active flags, following
      ECMA-48: normal intensity clears both bold and dim, and "no blink"
      clears both kinds of blinking. */
  function ApplyAttribute(s: set<Modifier>, a: Attribute): set<Modifier> {
    match a
    case Reset => {}
    case Bold => s + {BOLD}
    case Dim => s + {DIM}
    case Italic => s + {ITALIC}
    case Underlined => s + {UNDERLINED}
    case SlowBlink => s + {SLOW_BLINK}
    case RapidBlink => s + {RAPID_BLINK}
    case Reverse => s + {REVERSED}
    case Hidden => s + {HIDDEN}
    case CrossedOut => s + {CROSSED_OUT}
    case NormalIntensity => s - {BOLD, DIM}
    case NoItalic => s - {ITALIC}
    case NoUnderline => s - {UNDERLINED}
    case NoBlink => s - {SLOW_BLINK, RAPID_BLINK}
    case NoReverse => s - {REVERSED}
    case NoHidden => s - {HIDDEN}
    case NotCrossedOut => s - {CROSSED_OUT}
  }

  function ApplyAttributes(s: set<Modifier>, attrs: seq<Attribute>): set<Modifier>
    decreases |attrs|
  {
    if attrs == [] then s else ApplyAttributes(ApplyAttribute(s, attrs[0]), attrs[1..])
  }

  lemma {:induction false} ApplyAttributesAppend(s: set<Modifier>, a: seq<Attribute>, b: seq<Attribute>)
    ensures ApplyAttributes(s, a + b) == ApplyAttributes(ApplyAttributes(s, a), b)
    decreases |a|
  {
    if a != [] {
      assert (a + b)[0] == a[0];
      assert (a + b)[1..] == a[1..] + b;
      ApplyAttributesAppend(ApplyAttribute(s, a[0]), a[1..], b);
    } else {
      assert a + b == b;
    }
  }

  /** The attribute for `m` if `m` is in `s`. */
  function When(m: Modifier, s: set<Modifier>, a: Attribute): seq<Attribute> {
    if m in s then [a] else []
  }

  /** The undo half of `ModifierDiff::queue` as written. */
  function WrittenUndo(from: set<Modifier>, to: set<Modifier>): seq<Attribute> {
    var removed := from - to;
    When(REVERSED, removed, NoReverse) +
    (if BOLD in removed then [NormalIntensity] + When(DIM, to, Dim) else []) +
    When(ITALIC, removed, NoItalic) +
    When(UNDERLINED, removed, NoUnderline) +
    When(DIM, removed, NormalIntensity) +
    When(CROSSED_OUT, removed, NotCrossedOut) +
    (if SLOW_BLINK in removed || RAPID_BLINK in removed then [NoBlink] else [])
  }

  /** The set half of `ModifierDiff::queue`: one attribute per added flag;
      hidden has none. */
  function SetAdded(from: set<Modifier>, to: set<Modifier>): seq<Attribute> {
    var added := to - from;
    When(REVERSED, added, Reverse) +
    When(BOLD, added, Bold) +
    When(ITALIC, added, Italic) +
    When(UNDERLINED, added, Underlined) +
    When(DIM, added, Dim) +
    When(CROSSED_OUT, added, CrossedOut) +
    When(SLOW_BLINK, added, SlowBlink) +
    When(RAPID_BLINK, added, RapidBlink)
  }

  /** `ModifierDiff::queue` as written: the undo attributes for `from - to`,
      then the set attributes for `to - from`. */
  function WrittenDiff(from: set<Modifier>, to: set<Modifier>): seq<Attribute> {
    WrittenUndo(from, to) + SetAdded(from, to)
  }

  /** Removing DIM while BOLD stays sends normal intensity, which clears
      BOLD too, and nothing sets it again. */
  lemma WrittenDiffDropsBold()
    ensures WrittenDiff({BOLD, DIM}, {BOLD}) == [NormalIntensity]
    ensures ApplyAttributes({BOLD, DIM}, WrittenDiff({BOLD, DIM}, {BOLD})) == {}
  {
    assert ({BOLD, DIM} - {BOLD}) == {DIM};
    assert {BOLD} - {BOLD, DIM} == {};
    assert WrittenUndo({BOLD, DIM}, {BOLD}) == [NormalIntensity];
    assert SetAdded({BOLD, DIM}, {BOLD}) == [];
    assert ApplyAttributes({BOLD, DIM}, [NormalIntensity]) == ApplyAttributes({BOLD, DIM} - {BOLD, DIM}, []);
  }

  /** Removing one kind of blinking while the other stays sends "no blink",
      which clears both, and nothing sets the kept one again. */
  lemma WrittenDiffDropsBlink()
    ensures WrittenDiff({SLOW_BLINK, RAPID_BLINK}, {RAPID_BLINK}) == [NoBlink]
    ensures ApplyAttributes({SLOW_BLINK, RAPID_BLINK}, WrittenDiff({SLOW_BLINK, RAPID_BLINK}, {RAPID_BLINK})) == {}
  {
    assert {SLOW_BLINK, RAPID_BLINK} - {RAPID_BLINK} == {SLOW_BLINK};
    assert {RAPID_BLINK} - {SLOW_BLINK, RAPID_BLINK} == {};
    assert WrittenUndo({SLOW_BLINK, RAPID_BLINK}, {RAPID_BLINK}) == [NoBlink];
    assert SetAdded({SLOW_BLINK, RAPID_BLINK}, {RAPID_BLINK}) == [];
    assert ApplyAttributes({SLOW_BLINK, RAPID_BLINK}, [NoBlink]) ==
      ApplyAttributes({SLOW_BLINK, RAPID_BLINK} - {SLOW_BLINK, RAPID_BLINK}, []);
  }

  /** Hiding a cell emits nothing, so the text stays visible. */
  lemma WrittenDiffIgnoresHidden()
    ensures WrittenDiff({}, {HIDDEN}) == []
    ensures WrittenDiff({HIDDEN}, {}) == []
  {
    assert {HIDDEN} - {} == {HIDDEN};
  }

  /** Normal intensity, then the kept ones of bold and dim set again. */
  function IntensityUndo(removed: set<Modifier>, kept: set<Modifier>): seq<Attribute> {
    if BOLD in removed || DIM in removed then [NormalIntensity] + When(BOLD, kept, Bold) + When(DIM, kept, Dim)
    else []
  }

  /** "No blink", then the kept kinds of blinking set again. */
  function BlinkUndo(removed: set<Modifier>, kept: set<Modifier>): seq<Attribute> {
    if SLOW_BLINK in removed || RAPID_BLINK in removed then
      [NoBlink] + When(SLOW_BLINK, kept, SlowBlink) + When(RAPID_BLINK, kept, RapidBlink)
    else []
  }

  /** The corrected undo half: after normal intensity the kept one of bold
      and dim is set again, after "no blink" the kept kind of blinking, and
      hidden is cleared with its own attribute. */
  function Undo(from: set<Modifier>, to: set<Modifier>): seq<Attribute> {
    var removed := from - to;
    var kept := from * to;
    When(REVERSED, removed, NoReverse) +
    IntensityUndo(removed, kept) +
    When(ITALIC, removed, NoItalic) +
    When(UNDERLINED, removed, NoUnderline) +
    When(CROSSED_OUT, removed, NotCrossedOut) +
    BlinkUndo(removed, kept) +
    When(HIDDEN, removed, NoHidden)
  }

  /** The corrected `ModifierDiff::queue`. */
  function ModifierDiff(from: set<Modifier>, to: set<Modifier>): seq<Attribute> {
    Undo(from, to) + SetAdded(from, to) + When(HIDDEN, to - from, Hidden)
  }

  lemma WhenApply(s: set<Modifier>, m: Modifier, r: set<Modifier>, a: Attribute)
    ensures ApplyAttributes(s, When(m, r, a)) == if m in r then ApplyAttribute(s, a) else s
  {
    if m in r {
      assert When(m, r, a)[1..] == [];
    }
  }

  /** Running `a` then `b` from `s`, given where each step lands. */
  lemma Chain(s: set<Modifier>, a: seq<Attribute>, b: seq<Attribute>, s1: set<Modifier>, s2: set<Modifier>)
    requires ApplyAttributes(s, a) == s1 && ApplyAttributes(s1, b) == s2
    ensures ApplyAttributes(s, a + b) == s2
  {
    ApplyAttributesAppend(s, a, b);
  }

  /** The flags the corrected undo half leaves: exactly the kept ones. */
  lemma UndoLeavesKept(from: set<Modifier>, to: set<Modifier>)
    ensures ApplyAttributes(from, Undo(from, to)) == from * to
  {
    var removed := from - to;
    var kept := from * to;
    var front := When(REVERSED, removed, NoReverse) + IntensityUndo(removed, kept) +
                 When(ITALIC, removed, NoItalic) + When(UNDERLINED, removed, NoUnderline);
    var back := When(CROSSED_OUT, removed, NotCrossedOut) + BlinkUndo(removed, kept) +
                When(HIDDEN, removed, NoHidden);
    assert Undo(from, to) == front + back;
    var mid := from - (removed * {REVERSED, BOLD, DIM, ITALIC, UNDERLINED});
    UndoFront(from, removed, kept);
    UndoBack(mid, removed, kept);
    Chain(from, front, back, mid, mid - (removed * {CROSSED_OUT, SLOW_BLINK, RAPID_BLINK, HIDDEN}));
    forall m
      ensures m in mid - (removed * {CROSSED_OUT, SLOW_BLINK, RAPID_BLINK, HIDDEN}) <==> m in kept
    {
      match m {
        case BOLD =>
        case DIM =>
        case ITALIC =>
        case UNDERLINED =>
        case SLOW_BLINK =>
        case RAPID_BLINK =>
        case REVERSED =>
        case HIDDEN =>
        case CROSSED_OUT =>
      }
    }
  }

  /** Reverse, intensity, italic and underline are undone where removed. */
  lemma UndoFront(s: set<Modifier>, removed: set<Modifier>, kept: set<Modifier>)
    requires s <= removed + kept && kept <= s && removed * kept == {}
    ensures ApplyAttributes(s, When(REVERSED, removed, NoReverse) + IntensityUndo(removed, kept) +
                               When(ITALIC, removed, NoItalic) + When(UNDERLINED, removed, NoUnderline))
            == s - (removed * {REVERSED, BOLD, DIM, ITALIC, UNDERLINED})
  {
    var p1 := When(REVERSED, removed, NoReverse);
    var p2 := IntensityUndo(removed, kept);
    var p3 := When(ITALIC, removed, NoItalic);
    var p4 := When(UNDERLINED, removed, NoUnderline);
    var s1 := s - (removed * {REVERSED});
    WhenApply(s, REVERSED, removed, NoReverse);
    var s2 := s1 - (removed * {BOLD, DIM});
    IntensityStep(s1, removed, kept);
    Chain(s, p1, p2, s1, s2);
    var s3 := s2 - (removed * {ITALIC});
    WhenApply(s2, ITALIC, removed, NoItalic);
    Chain(s, p1 + p2, p3, s2, s3);
    var s4 := s3 - (removed * {UNDERLINED});
    WhenApply(s3, UNDERLINED, removed, NoUnderline);
    Chain(s, p1 + p2 + p3, p4, s3, s4);
    assert s4 == s - (removed * {REVERSED, BOLD, DIM, ITALIC, UNDERLINED});
  }

  /** Crossing out, blinking and hiding are undone where removed. */
  lemma UndoBack(s: set<Modifier>, removed: set<Modifier>, kept: set<Modifier>)
    requires s <= removed + kept && kept <= s && removed * kept == {}
    ensures ApplyAttributes(s, When(CROSSED_OUT, removed, NotCrossedOut) + BlinkUndo(removed, kept) +
                               When(HIDDEN, removed, NoHidden))
            == s - (removed * {CROSSED_OUT, SLOW_BLINK, RAPID_BLINK, HIDDEN})
  {
    var p5 := When(CROSSED_OUT, removed, NotCrossedOut);
    var p6 := BlinkUndo(removed, kept);
    var p7 := When(HIDDEN, removed, NoHidden);
    var s5 := s - (removed * {CROSSED_OUT});
    WhenApply(s, CROSSED_OUT, removed, NotCrossedOut);
    var s6 := s5 - (removed * {SLOW_BLINK, RAPID_BLINK});
    BlinkStep(s5, removed, kept);
    Chain(s, p5, p6, s5, s6);
    var s7 := s6 - (removed * {HIDDEN});
    WhenApply(s6, HIDDEN, removed, NoHidden);
    Chain(s, p5 + p6, p7, s6, s7);
    assert s7 == s - (removed * {CROSSED_OUT, SLOW_BLINK, RAPID_BLINK, HIDDEN});
  }

  /** Normal intensity followed by setting the kept ones of bold and dim
      again clears exactly the removed ones. */
  lemma IntensityStep(s: set<Modifier>, removed: set<Modifier>, kept: set<Modifier>)
    requires s <= removed + kept && kept <= s && removed * kept == {}
    ensures ApplyAttributes(s, IntensityUndo(removed, kept)) == s - (removed * {BOLD, DIM})
  {
    if BOLD in removed || DIM in removed {
      var a := When(BOLD, kept, Bold);
      var b := When(DIM, kept, Dim);
      WhenApply(s - {BOLD, DIM}, BOLD, kept, Bold);
      var t := ApplyAttributes(s - {BOLD, DIM}, a);
      WhenApply(t, DIM, kept, Dim);
      assert ApplyAttributes(s, [NormalIntensity]) == s - {BOLD, DIM};
      Chain(s, [NormalIntensity], a, s - {BOLD, DIM}, t);
      Chain(s, [NormalIntensity] + a, b, t, ApplyAttributes(t, b));
    }
  }

  /** "No blink" followed by setting the kept kinds of blinking again clears
      exactly the removed ones. */
  lemma BlinkStep(s: set<Modifier>, removed: set<Modifier>, kept: set<Modifier>)
    requires s <= removed + kept && kept <= s && removed * kept == {}
    ensures ApplyAttributes(s, BlinkUndo(removed, kept)) == s - (removed * {SLOW_BLINK, RAPID_BLINK})
  {
    if SLOW_BLINK in removed || RAPID_BLINK in removed {
      var a := When(SLOW_BLINK, kept, SlowBlink);
      var b := When(RAPID_BLINK, kept, RapidBlink);
      WhenApply(s - {SLOW_BLINK, RAPID_BLINK}, SLOW_BLINK, kept, SlowBlink);
      var t := ApplyAttributes(s - {SLOW_BLINK, RAPID_BLINK}, a);
      WhenApply(t, RAPID_BLINK, kept, RapidBlink);
      assert ApplyAttributes(s, [NoBlink]) == s - {SLOW_BLINK, RAPID_BLINK};
      Chain(s, [NoBlink], a, s - {SLOW_BLINK, RAPID_BLINK}, t);
      Chain(s, [NoBlink] + a, b, t, ApplyAttributes(t, b));
    }
  }

  /** The flags the set half adds to the kept ones: every added flag except
      hidden, which has no set attribute there. */
  lemma SetAddedAdds(from: set<Modifier>, to: set<Modifier>)
    ensures ApplyAttributes(from * to, SetAdded(from, to)) == from * to + ((to - from) - {HIDDEN})
  {
    var added := to - from;
    var front := When(REVERSED, added, Reverse) + When(BOLD, added, Bold) +
                 When(ITALIC, added, Italic) + When(UNDERLINED, added, Underlined);
    var back := When(DIM, added, Dim) + When(CROSSED_OUT, added, CrossedOut) +
                When(SLOW_BLINK, added, SlowBlink) + When(RAPID_BLINK, added, RapidBlink);
    assert SetAdded(from, to) == front + back;
    var mid := from * to + (added * {REVERSED, BOLD, ITALIC, UNDERLINED});
    SetFront(from * to, added);
    SetBack(mid, added);
    Chain(from * to, front, back, mid, mid + (added * {DIM, CROSSED_OUT, SLOW_BLINK, RAPID_BLINK}));
    forall m
      ensures m in mid + (added * {DIM, CROSSED_OUT, SLOW_BLINK, RAPID_BLINK}) <==> m in from * to + (added - {HIDDEN})
    {
      match m {
        case BOLD =>
        case DIM =>
        case ITALIC =>
        case UNDERLINED =>
        case SLOW_BLINK =>
        case RAPID_BLINK =>
        case REVERSED =>
        case HIDDEN =>
        case CROSSED_OUT =>
      }
    }
  }

  lemma SetFront(s: set<Modifier>, added: set<Modifier>)
    ensures ApplyAttributes(s, When(REVERSED, added, Reverse) + When(BOLD, added, Bold) +
                               When(ITALIC, added, Italic) + When(UNDERLINED, added, Underlined))
            == s + (added * {REVERSED, BOLD, ITALIC, UNDERLINED})
  {
    var p1 := When(REVERSED, added, Reverse);
    var p2 := When(BOLD, added, Bold);
    var p3 := When(ITALIC, added, Italic);
    var p4 := When(UNDERLINED, added, Underlined);
    var s1 := s + (added * {REVERSED});
    WhenApply(s, REVERSED, added, Reverse);
    var s2 := s1 + (added * {BOLD});
    WhenApply(s1, BOLD, added, Bold);
    Chain(s, p1, p2, s1, s2);
    var s3 := s2 + (added * {ITALIC});
    WhenApply(s2, ITALIC, added, Italic);
    Chain(s, p1 + p2, p3, s2, s3);
    var s4 := s3 + (added * {UNDERLINED});
    WhenApply(s3, UNDERLINED, added, Underlined);
    Chain(s, p1 + p2 + p3, p4, s3, s4);
    assert s4 == s + (added * {REVERSED, BOLD, ITALIC, UNDERLINED});
  }

  lemma SetBack(s: set<Modifier>, added: set<Modifier>)
    ensures ApplyAttributes(s, When(DIM, added, Dim) + When(CROSSED_OUT, added, CrossedOut) +
                               When(SLOW_BLINK, added, SlowBlink) + When(RAPID_BLINK, added, RapidBlink))
            == s + (added * {DIM, CROSSED_OUT, SLOW_BLINK, RAPID_BLINK})
  {
    var p1 := When(DIM, added, Dim);
    var p2 := When(CROSSED_OUT, added, CrossedOut);
    var p3 := When(SLOW_BLINK, added, SlowBlink);
    var p4 := When(RAPID_BLINK, added, RapidBlink);
    var s1 := s + (added * {DIM});
    WhenApply(s, DIM, added, Dim);
    var s2 := s1 + (added * {CROSSED_OUT});
    WhenApply(s1, CROSSED_OUT, added, CrossedOut);
    Chain(s, p1, p2, s1, s2);
    var s3 := s2 + (added * {SLOW_BLINK});
    WhenApply(s2, SLOW_BLINK, added, SlowBlink);
    Chain(s, p1 + p2, p3, s2, s3);
    var s4 := s3 + (added * {RAPID_BLINK});
    WhenApply(s3, RAPID_BLINK, added, RapidBlink);
    Chain(s, p1 + p2 + p3, p4, s3, s4);
    assert s4 == s + (added * {DIM, CROSSED_OUT, SLOW_BLINK, RAPID_BLINK});
  }

  /** The corrected diff takes a terminal showing `from` to one showing
      exactly `to`, and sends nothing when the two agree. */
  lemma ModifierDiffSound(from: set<Modifier>, to: set<Modifier>)
    ensures ApplyAttributes(from, ModifierDiff(from, to)) == to
    ensures from == to ==> ModifierDiff(from, to) == []
  {
    UndoLeavesKept(from, to);
    SetAddedAdds(from, to);
    var afterSet := from * to + ((to - from) - {HIDDEN});
    Chain(from, Undo(from, to), SetAdded(from, to), from * to, afterSet);
    WhenApply(afterSet, HIDDEN, to - from, Hidden);
    Chain(from, Undo(from, to) + SetAdded(from, to), When(HIDDEN, to - from, Hidden), afterSet,
          afterSet + ((to - from) * {HIDDEN}));
    assert afterSet + ((to - from) * {HIDDEN}) == to;
    if from == to {
      assert from - to == {} && to - from == {};
    }
  }

  /** The written diff also sends nothing when the two sets agree. */
  lemma WrittenDiffIdle(s: set<Modifier>)
    ensures WrittenDiff(s, s) == []
  {
    assert s - s == {};
  }

  // ---------------------------------------------------------------------------
  // Drawing
  // ---------------------------------------------------------------------------

  /** A buffer cell: its symbol, colours and style flags. */
  datatype Cell = Cell(symbol: string, fg: Color, bg: Color, modifier: set<Modifier>)

  /** One item of the content `draw` receives: a cell and its position. */
  datatype Placed = Placed(x: nat, y: nat, cell: Cell)

  /** What `draw` remembers between cells. */
  datatype DrawState = DrawState(fg: Color, bg: Color, modifier: set<Modifier>, lastPos: Option<(nat, nat)>)

  /** The assumed terminal state at the start of a draw. */
  const START: DrawState := DrawState(Color.Reset, Color.Reset, {}, None)

  /** The commands `draw` queues after the last cell. */
  const FINAL_RESET: seq<Command> :=
    [SetForegroundColor(CColor.Reset), SetBackgroundColor(CColor.Reset), SetAttribute(Attribute.Reset)]

  function AttributeCommands(attrs: seq<Attribute>): (r: seq<Command>)
    ensures |r| == |attrs|
    ensures forall i :: 0 <= i < |attrs| ==> r[i] == SetAttribute(attrs[i])
  {
    if attrs == [] then [] else [SetAttribute(attrs[0])] + AttributeCommands(attrs[1..])
  }

  /** Whether the cursor already sits at `(x, y)` after the previous cell. */
  predicate Adjacent(lastPos: Option<(nat, nat)>, x: nat, y: nat) {
    lastPos.Some? && x == lastPos.value.0 + 1 && y == lastPos.value.1
  }

  /** A move, unless the cursor is already there. */
  function MoveCommands(st: DrawState, p: Placed): seq<Command> {
    if Adjacent(st.lastPos, p.x, p.y) then [] else [MoveTo(p.x, p.y)]
  }

  /** The attribute diff, unless the flags already agree. */
  function StyleCommands(st: DrawState, p: Placed): seq<Command> {
    if p.cell.modifier != st.modifier then AttributeCommands(ModifierDiff(st.modifier, p.cell.modifier)) else []
  }

  /** A foreground change, unless the colour is already set. */
  function FgCommands(st: DrawState, p: Placed): seq<Command> {
    if p.cell.fg != st.fg then [SetForegroundColor(CColorFromColor(p.cell.fg))] else []
  }

  /** A background change, unless the colour is already set. */
  function BgCommands(st: DrawState, p: Placed): seq<Command> {
    if p.cell.bg != st.bg then [SetBackgroundColor(CColorFromColor(p.cell.bg))] else []
  }

  /** Five pieces appended one after another are appended as one. */
  lemma AppendFive<T>(w: seq<T>, a: seq<T>, b: seq<T>, c: seq<T>, d: seq<T>, e: seq<T>)
    ensures w + a + b + c + d + e == w + (a + b + c + d + e)
  {
  }

  /** The commands one cell costs: a move unless adjacent, the attribute,
      foreground and background changes it needs, then its symbol. */
  function CellCommands(st: DrawState, p: Placed): seq<Command> {
    CellStagesLeft(st, p, 5)
  }

  /** The commands of the last `left` of the five stages of one cell, in the
      order the loop body queues them: the move, the attributes, the
      foreground, the background and the symbol. The countdown, rather than
      one five-part concatenation, keeps the verifier from unfolding every
      stage wherever a cell's commands appear in the proofs about the draw
      loop; `CellStages` recovers the concatenation where it is wanted. */
  function CellStagesLeft(st: DrawState, p: Placed, left: nat): seq<Command>
  {
    if left == 0 then []
    else if left == 1 then [Print(p.cell.symbol)]
    else if left == 2 then BgCommands(st, p) + CellStagesLeft(st, p, left - 1)
    else if left == 3 then FgCommands(st, p) + CellStagesLeft(st, p, left - 1)
    else if left == 4 then StyleCommands(st, p) + CellStagesLeft(st, p, left - 1)
    else MoveCommands(st, p) + CellStagesLeft(st, p, left - 1)
  }

  /** A cell's commands are its five stages one after another. */
  lemma CellStages(st: DrawState, p: Placed)
    ensures CellCommands(st, p) ==
      MoveCommands(st, p) + StyleCommands(st, p) + FgCommands(st, p) + BgCommands(st, p) + [Print(p.cell.symbol)]
  {
    assert CellStagesLeft(st, p, 2) == BgCommands(st, p) + [Print(p.cell.symbol)];
    assert CellStagesLeft(st, p, 3) == FgCommands(st, p) + CellStagesLeft(st, p, 2);
    assert CellStagesLeft(st, p, 4) == StyleCommands(st, p) + CellStagesLeft(st, p, 3);
    AppendFive([], MoveCommands(st, p), StyleCommands(st, p), FgCommands(st, p), BgCommands(st, p),
               [Print(p.cell.symbol)]);
  }

  /** The state after drawing `p`. */
  function After(p: Placed): DrawState {
    DrawState(p.cell.fg, p.cell.bg, p.cell.modifier, Some((p.x, p.y)))
  }

  /** The state before the `i`-th cell. */
  function StateBefore(content: seq<Placed>, i: nat): DrawState
    requires i <= |content|
  {
    if i == 0 then START else After(content[i - 1])
  }

  /** The commands queued for the first `n` cells. */
  function Emitted(content: seq<Placed>, n: nat): seq<Command>
    requires n <= |content|
  {
    if n == 0 then [] else Emitted(content, n - 1) + CellCommands(StateBefore(content, n - 1), content[n - 1])
  }

  /** Everything `draw` queues. */
  function DrawCommands(content: seq<Placed>): seq<Command> {
    Emitted(content, |content|) + FINAL_RESET
  }

  // ---------------------------------------------------------------------------
  // What the commands do to a terminal
  // ---------------------------------------------------------------------------

  /** What a screen position shows. */
  datatype Shown = Shown(symbol: string, fg: CColor, bg: CColor, modifiers: set<Modifier>)

  /** A terminal: cursor, current colours and flags, and the screen. */
  datatype Terminal = Terminal(x: nat, y: nat, fg: CColor, bg: CColor, modifiers: set<Modifier>,
                               screen: map<(nat, nat), Shown>)

  /** One command on a terminal; a printed symbol moves the cursor one
      column on, which is what `draw` relies on when it skips a move. */
  function Execute(t: Terminal, c: Command): Terminal {
    match c
    case MoveTo(x, y) => t.(x := x, y := y)
    case SetAttribute(a) => t.(modifiers := ApplyAttribute(t.modifiers, a))
    case SetForegroundColor(fg) => t.(fg := fg)
    case SetBackgroundColor(bg) => t.(bg := bg)
    case Print(sym) => t.(screen := t.screen[(t.x, t.y) := Shown(sym, t.fg, t.bg, t.modifiers)], x := t.x + 1)
  }

  function ExecuteAll(t: Terminal, cs: seq<Command>): Terminal
    decreases |cs|
  {
    if cs == [] then t else ExecuteAll(Execute(t, cs[0]), cs[1..])
  }

  lemma {:induction false} ExecuteAllAppend(t: Terminal, a: seq<Command>, b: seq<Command>)
    ensures ExecuteAll(t, a + b) == ExecuteAll(ExecuteAll(t, a), b)
    decreases |a|
  {
    if a != [] {
      assert (a + b)[0] == a[0];
      assert (a + b)[1..] == a[1..] + b;
      ExecuteAllAppend(Execute(t, a[0]), a[1..], b);
    } else {
      assert a + b == b;
    }
  }

  /** Attribute commands change only the flags, as `ApplyAttributes` says. */
  lemma {:induction false} ExecuteAttributes(t: Terminal, attrs: seq<Attribute>)
    ensures ExecuteAll(t, AttributeCommands(attrs)) == t.(modifiers := ApplyAttributes(t.modifiers, attrs))
    decreases |attrs|
  {
    if attrs != [] {
      var cs := AttributeCommands(attrs);
      assert cs[1..] == AttributeCommands(attrs[1..]);
      ExecuteAttributes(Execute(t, SetAttribute(attrs[0])), attrs[1..]);
    }
  }

  /** How a cell should look on screen. */
  function ShownCell(c: Cell): Shown {
    Shown(c.symbol, CColorFromColor(c.fg), CColorFromColor(c.bg), c.modifier)
  }

  /** The screen with the first `n` cells painted in order, later cells
      over earlier ones at the same position. */
  function Paint(screen: map<(nat, nat), Shown>, content: seq<Placed>, n: nat): map<(nat, nat), Shown>
    requires n <= |content|
  {
    if n == 0 then screen
    else Paint(screen, content, n - 1)[(content[n - 1].x, content[n - 1].y) := ShownCell(content[n - 1].cell)]
  }

  /** The terminal agrees with what `draw` remembers. */
  predicate Coherent(st: DrawState, t: Terminal) {
    t.fg == CColorFromColor(st.fg) && t.bg == CColorFromColor(st.bg) && t.modifiers == st.modifier &&
    (st.lastPos.Some? ==> t.x == st.lastPos.value.0 + 1 && t.y == st.lastPos.value.1)
  }

  /** One cell's commands paint that cell and keep the terminal coherent. */
  lemma CellSound(st: DrawState, t: Terminal, p: Placed)
    requires Coherent(st, t)
    ensures var u := ExecuteAll(t, CellCommands(st, p));
      Coherent(After(p), u) && u.screen == t.screen[(p.x, p.y) := ShownCell(p.cell)]
  {
    var move, attrs, fgc, bgc := MoveCommands(st, p), StyleCommands(st, p), FgCommands(st, p), BgCommands(st, p);
    CellStages(st, p);
    var t1 := t.(x := p.x, y := p.y);
    assert ExecuteAll(t, move) == t1;
    var t2 := t1.(modifiers := p.cell.modifier);
    if p.cell.modifier != st.modifier {
      ExecuteAttributes(t1, ModifierDiff(st.modifier, p.cell.modifier));
      ModifierDiffSound(st.modifier, p.cell.modifier);
    }
    assert ExecuteAll(t1, attrs) == t2;
    var t3 := t2.(fg := CColorFromColor(p.cell.fg));
    assert ExecuteAll(t2, fgc) == t3;
    var t4 := t3.(bg := CColorFromColor(p.cell.bg));
    assert ExecuteAll(t3, bgc) == t4;
    var t5 := Execute(t4, Print(p.cell.symbol));
    assert ExecuteAll(t4, [Print(p.cell.symbol)]) == t5;
    ExecuteAllAppend(t, move, attrs);
    ExecuteAllAppend(t, move + attrs, fgc);
    ExecuteAllAppend(t, move + attrs + fgc, bgc);
    ExecuteAllAppend(t, move + attrs + fgc + bgc, [Print(p.cell.symbol)]);
  }

  /** The cells' commands paint every cell, in order. */
  lemma {:induction false} EmittedSound(t0: Terminal, content: seq<Placed>, n: nat)
    requires n <= |content| && Coherent(START, t0)
    ensures var t := ExecuteAll(t0, Emitted(content, n));
      Coherent(StateBefore(content, n), t) && t.screen == Paint(t0.screen, content, n)
  {
    if n > 0 {
      EmittedSound(t0, content, n - 1);
      var t := ExecuteAll(t0, Emitted(content, n - 1));
      CellSound(StateBefore(content, n - 1), t, content[n - 1]);
      ExecuteAllAppend(t0, Emitted(content, n - 1), CellCommands(StateBefore(content, n - 1), content[n - 1]));
    }
  }

  /** `draw` paints every cell with its symbol, colours and flags, later
      cells over earlier ones, and leaves the terminal with reset colours
      and no flags, as the next draw assumes. */
  lemma DrawPaints(t0: Terminal, content: seq<Placed>)
    requires t0.fg == CColor.Reset && t0.bg == CColor.Reset && t0.modifiers == {}
    ensures var t := ExecuteAll(t0, DrawCommands(content));
      t.screen == Paint(t0.screen, content, |content|) &&
      t.fg == CColor.Reset && t.bg == CColor.Reset && t.modifiers == {}
  {
    EmittedSound(t0, content, |content|);
    var t := ExecuteAll(t0, Emitted(content, |content|));
    ExecuteAllAppend(t0, Emitted(content, |content|), FINAL_RESET);
    assert ExecuteAll(t, FINAL_RESET) == t.(fg := CColor.Reset, bg := CColor.Reset, modifiers := {});
  }

  /** The symbols of the `Print` commands, in order. */
  function Printed(cs: seq<Command>): seq<string>
    decreases |cs|
  {
    if cs == [] then [] else (if cs[0].Print? then [cs[0].symbol] else []) + Printed(cs[1..])
  }

  lemma {:induction false} PrintedAppend(a: seq<Command>, b: seq<Command>)
    ensures Printed(a + b) == Printed(a) + Printed(b)
    decreases |a|
  {
    if a != [] {
      assert (a + b)[0] == a[0];
      assert (a + b)[1..] == a[1..] + b;
      PrintedAppend(a[1..], b);
    } else {
      assert a + b == b;
    }
  }

  function Symbols(content: seq<Placed>): seq<string>
  {
    seq(|content|, i requires 0 <= i < |content| => content[i].cell.symbol)
  }

  /** Each cell yields exactly one `Print` of its symbol, in input order. */
  lemma OnePrintPerCell(content: seq<Placed>)
    ensures Printed(DrawCommands(content)) == Symbols(content)
  {
    PrintedAppend(Emitted(content, |content|), FINAL_RESET);
    EmittedPrints(content, |content|);
    assert content[..|content|] == content;
  }

  lemma {:induction false} EmittedPrints(content: seq<Placed>, n: nat)
    requires n <= |content|
    ensures Printed(Emitted(content, n)) == Symbols(content[..n])
  {
    if n > 0 {
      var cmds := CellCommands(StateBefore(content, n - 1), content[n - 1]);
      EmittedPrints(content, n - 1);
      CellPrints(StateBefore(content, n - 1), content[n - 1]);
      PrintedAppend(Emitted(content, n - 1), cmds);
      SymbolsPrefix(content, n);
    }
  }

  lemma SymbolsPrefix(content: seq<Placed>, n: nat)
    requires 0 < n <= |content|
    ensures Symbols(content[..n]) == Symbols(content[..n - 1]) + [content[n - 1].cell.symbol]
  {
    var longer, shorter := Symbols(content[..n]), Symbols(content[..n - 1]) + [content[n - 1].cell.symbol];
    assert |longer| == |shorter|;
    assert forall i :: 0 <= i < |longer| ==> longer[i] == shorter[i];
  }

  /** A cell's commands print its symbol and nothing else. */
  lemma CellPrints(st: DrawState, p: Placed)
    ensures Printed(CellCommands(st, p)) == [p.cell.symbol]
  {
    var move, attrs, fgc, bgc := MoveCommands(st, p), StyleCommands(st, p), FgCommands(st, p), BgCommands(st, p);
    CellStages(st, p);
    AttributesPrintNothing(attrs);
    assert Printed(move) == [] && Printed(fgc) == [] && Printed(bgc) == [];
    assert Printed([Print(p.cell.symbol)]) == [p.cell.symbol];
    PrintedAppend(move, attrs);
    PrintedAppend(move + attrs, fgc);
    PrintedAppend(move + attrs + fgc, bgc);
    PrintedAppend(move + attrs + fgc + bgc, [Print(p.cell.symbol)]);
  }

  lemma {:induction false} AttributesPrintNothing(cs: seq<Command>)
    requires forall i :: 0 <= i < |cs| ==> cs[i].SetAttribute?
    ensures Printed(cs) == []
    decreases |cs|
  {
    if cs != [] {
      AttributesPrintNothing(cs[1..]);
    }
  }

  /** `Rect`: an origin and a size. */
  datatype Rect = Rect(x: nat, y: nat, width: nat, height: nat)

  class SshBackend {
    /** The commands queued on the terminal handle so far. */
    var writer: seq<Command>
    /** The fixed `(columns, rows)` the client announced. */
    const size: (nat, nat)

    constructor (size: (nat, nat))
      ensures writer == [] && this.size == size
    {
      writer := [];
      this.size := size;
    }

    /** `draw`: the cells' commands, then the final reset, are queued. */
    method Draw(content: seq<Placed>)
      modifies this`writer
      ensures writer == old(writer) + DrawCommands(content)
    {
      QueueCells(content);
      writer := writer + FINAL_RESET;
    }

    /** The loop of `draw`. Its locals `fg`, `bg`, `modifier` and `last_pos`
        travel together as a `DrawState`. */
    method QueueCells(content: seq<Placed>)
      modifies this`writer
      ensures writer == old(writer) + Emitted(content, |content|)
    {
      var st := DrawState(Color.Reset, Color.Reset, {}, None);
      for i := 0 to |content|
        invariant writer == old(writer) + Emitted(content, i)
        invariant st == StateBefore(content, i)
      {
        st := QueueCell(st, content[i]);
      }
    }

    /** The body of the `draw` loop for one cell. */
    method QueueCell(st: DrawState, p: Placed) returns (next: DrawState)
      modifies this`writer
      ensures writer == old(writer) + CellCommands(st, p)
      ensures next == After(p)
    {
      var fg, bg, modifier, lastPos := st.fg, st.bg, st.modifier, st.lastPos;
      var x, y, cell := p.x, p.y, p.cell;
      ghost var start := writer;
      if !(lastPos.Some? && x == lastPos.value.0 + 1 && y == lastPos.value.1) {
        writer := writer + [MoveTo(x, y)];
      }
      lastPos := Some((x, y));
      assert writer == start + MoveCommands(st, p);
      ghost var moved := writer;
      if cell.modifier != modifier {
        writer := writer + AttributeCommands(ModifierDiff(modifier, cell.modifier));
        modifier := cell.modifier;
      }
      assert writer == moved + StyleCommands(st, p);
      ghost var styled := writer;
      if cell.fg != fg {
        writer := writer + [SetForegroundColor(CColorFromColor(cell.fg))];
        fg := cell.fg;
      }
      assert writer == styled + FgCommands(st, p);
      ghost var coloured := writer;
      if cell.bg != bg {
        writer := writer + [SetBackgroundColor(CColorFromColor(cell.bg))];
        bg := cell.bg;
      }
      assert writer == coloured + BgCommands(st, p);
      writer := writer + [Print(cell.symbol)];
      AppendFive(start, MoveCommands(st, p), StyleCommands(st, p), FgCommands(st, p), BgCommands(st, p),
                 [Print(cell.symbol)]);
      CellStages(st, p);
      next := DrawState(fg, bg, modifier, lastPos);
    }

    /** `size`: the announced size at the origin, never the real window's. */
    method Size() returns (r: Rect)
      ensures r.x == 0 && r.y == 0 && r.width == size.0 && r.height == size.1
    {
      r := Rect(0, 0, size.0, size.1);
    }
  }
}
