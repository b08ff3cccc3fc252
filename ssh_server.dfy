/** The byte-level decoders of the SSH server: keys, xterm SGR mouse reports,
    the classifier between them, and the admission of a new username
    (src/ssh_server.rs). */
module Input {
  import opened Common

  // ---------------------------------------------------------------------------
  // Keys
  // ---------------------------------------------------------------------------

  datatype KeyCode =
    | Char(c: char)
    | Enter | Esc | Backspace
    | Home | Insert | Delete | End | PageUp | PageDown
    | Up | Down | Right | Left

  /** The flags of `KeyModifiers`; an event carries a set of them. */
  datatype Modifier = Shift | Control | Alt

  datatype KeyEvent = KeyEvent(code: KeyCode, modifiers: set<Modifier>)

  const ESC: byte := 27
  const LEFT_BRACKET: byte := 91

  predicate IsUpper(b: byte) { 65 <= b <= 90 }
  predicate IsLower(b: byte) { 97 <= b <= 122 }
  predicate IsLowerChar(c: char) { 'a' <= c <= 'z' }

  /** `convert_data_to_key_event`: a single byte is a control key or a
      letter, a three-byte input is a cursor key told apart by its last
      byte only, and anything else is no key. */
  function ConvertDataToKeyEvent(data: seq<byte>): Option<KeyEvent> {
    if |data| == 1 then
      var x := data[0];
      if x == 1 then Some(KeyEvent(Home, {}))
      else if x == 2 then Some(KeyEvent(Insert, {}))
      else if x == 3 then Some(KeyEvent(Delete, {}))
      else if x == 4 then Some(KeyEvent(End, {}))
      else if x == 5 then Some(KeyEvent(PageUp, {}))
      else if x == 6 then Some(KeyEvent(PageDown, {}))
      else if x == 13 then Some(KeyEvent(Enter, {}))
      else if x == 27 then Some(KeyEvent(Esc, {}))
      else if IsUpper(x) then Some(KeyEvent(Char((x as int + 32) as char), {Shift}))
      else if IsLower(x) then Some(KeyEvent(Char(x as int as char), {}))
      else if x == 127 then Some(KeyEvent(Backspace, {}))
      else None
    else if |data| == 3 then
      if data[2] == 65 then Some(KeyEvent(Up, {}))
      else if data[2] == 66 then Some(KeyEvent(Down, {}))
      else if data[2] == 67 then Some(KeyEvent(Right, {}))
      else if data[2] == 68 then Some(KeyEvent(Left, {}))
      else None
    else None
  }

  /** The bytes a terminal sends for a key, for the keys the decoder knows:
      the reference the decoder is checked against. */
  function KeyBytes(ev: KeyEvent): Option<seq<byte>> {
    if ev.modifiers == {} then
      match ev.code
      case Home => Some([1])
      case Insert => Some([2])
      case Delete => Some([3])
      case End => Some([4])
      case PageUp => Some([5])
      case PageDown => Some([6])
      case Enter => Some([13])
      case Esc => Some([27])
      case Backspace => Some([127])
      case Char(c) => if IsLowerChar(c) then Some([c as int as byte]) else None
      case Up => Some([ESC, LEFT_BRACKET, 65])
      case Down => Some([ESC, LEFT_BRACKET, 66])
      case Right => Some([ESC, LEFT_BRACKET, 67])
      case Left => Some([ESC, LEFT_BRACKET, 68])
    else if ev.modifiers == {Shift} && ev.code.Char? && IsLowerChar(ev.code.c) then
      Some([(ev.code.c as int - 32) as byte])
    else None
  }

  /** Every key the terminal can send this way decodes to itself. */
  lemma KeyRoundTrip(ev: KeyEvent)
    requires KeyBytes(ev).Some?
    ensures ConvertDataToKeyEvent(KeyBytes(ev).value) == Some(ev)
  {
    if ev.modifiers == {} {
      match ev.code {
        case Char(c) =>
          var b := c as int as byte;
          assert ConvertDataToKeyEvent([b]) == Some(KeyEvent(Char(b as int as char), {}));
        case _ =>
      }
    } else {
      var b := (ev.code.c as int - 32) as byte;
      assert ConvertDataToKeyEvent([b]) == Some(KeyEvent(Char((b as int + 32) as char), {Shift}));
    }
  }

  /** Conversely, a decoded single byte is the canonical encoding of its key,
      and a decoded three-byte input agrees with it on the last byte. */
  lemma KeyDecodeCanonical(data: seq<byte>)
    requires ConvertDataToKeyEvent(data).Some?
    ensures |data| == 1 ==> KeyBytes(ConvertDataToKeyEvent(data).value) == Some(data)
    ensures |data| == 3 ==> KeyBytes(ConvertDataToKeyEvent(data).value) == Some([ESC, LEFT_BRACKET, data[2]])
  {
    if |data| == 1 {
      var x := data[0];
      assert data == [x];
      if IsUpper(x) {
        var c := (x as int + 32) as char;
        assert [(c as int - 32) as byte] == data;
      } else if IsLower(x) {
        var c := x as int as char;
        assert IsLowerChar(c) && c as int as byte == x;
        assert ConvertDataToKeyEvent(data) == Some(KeyEvent(Char(c), {}));
        assert KeyBytes(KeyEvent(Char(c), {})) == Some([c as int as byte]);
        assert [c as int as byte] == data;
      }
    }
  }

  /** An upper-case byte is its lower-case letter with SHIFT; a lower-case
      byte is itself with no modifier. */
  lemma LetterKeys(x: byte)
    ensures IsUpper(x) ==> ConvertDataToKeyEvent([x]) == Some(KeyEvent(Char((x as int + 32) as char), {Shift}))
    ensures IsUpper(x) ==> IsLowerChar((x as int + 32) as char)
    ensures IsLower(x) ==> ConvertDataToKeyEvent([x]) == Some(KeyEvent(Char(x as int as char), {}))
  {
  }

  /** Only the last byte of a three-byte input matters. */
  lemma ThreeBytesByLast(a: seq<byte>, b: seq<byte>)
    requires |a| == 3 && |b| == 3 && a[2] == b[2]
    ensures ConvertDataToKeyEvent(a) == ConvertDataToKeyEvent(b)
  {
  }

  // ---------------------------------------------------------------------------
  // UTF-8 well-formedness (`String::from_utf8`), after RFC 3629 section 4
  // ---------------------------------------------------------------------------

  predicate InRange(b: byte, lo: int, hi: int) { lo <= b as int <= hi }

  /** The length of the well-formed sequence `s` starts with, or 0. */
  function Utf8Lead(s: seq<byte>): (n: nat)
    ensures n <= |s| && n <= 4
    ensures n > 0 && s[0] < 0x80 ==> n == 1
  {
    if s == [] then 0
    else if s[0] < 0x80 then 1
    else if InRange(s[0], 0xC2, 0xDF) then
      (if |s| >= 2 && InRange(s[1], 0x80, 0xBF) then 2 else 0)
    else if InRange(s[0], 0xE0, 0xEF) then
      var lo := if s[0] == 0xE0 then 0xA0 else 0x80;
      var hi := if s[0] == 0xED then 0x9F else 0xBF;
      (if |s| >= 3 && InRange(s[1], lo, hi) && InRange(s[2], 0x80, 0xBF) then 3 else 0)
    else if InRange(s[0], 0xF0, 0xF4) then
      var lo := if s[0] == 0xF0 then 0x90 else 0x80;
      var hi := if s[0] == 0xF4 then 0x8F else 0xBF;
      (if |s| >= 4 && InRange(s[1], lo, hi) && InRange(s[2], 0x80, 0xBF) && InRange(s[3], 0x80, 0xBF)
       then 4 else 0)
    else 0
  }

  predicate Utf8Valid(s: seq<byte>)
    decreases |s|
  {
    s == [] || (Utf8Lead(s) > 0 && Utf8Valid(s[Utf8Lead(s)..]))
  }

  predicate IsAscii(s: seq<byte>) { forall i :: 0 <= i < |s| ==> s[i] < 0x80 }

  lemma {:induction false} AsciiIsUtf8(s: seq<byte>)
    requires IsAscii(s)
    ensures Utf8Valid(s)
    decreases |s|
  {
    if s != [] {
      AsciiIsUtf8(s[1..]);
    }
  }

  // ---------------------------------------------------------------------------
  // `str::split` and `parse::<uN>`
  // ---------------------------------------------------------------------------

  /** `split(sep)`: the pieces between separators, empty ones included. */
  function Split(s: seq<byte>, sep: byte): (r: seq<seq<byte>>)
    ensures |r| >= 1
  {
    if s == [] then [[]]
    else
      var rest := Split(s[1..], sep);
      if s[0] == sep then [[]] + rest
      else [[s[0]] + rest[0]] + rest[1..]
  }

  /** The inverse of `Split`: the pieces with a separator between each two. */
  function Join(parts: seq<seq<byte>>, sep: byte): seq<byte>
    requires |parts| >= 1
  {
    if |parts| == 1 then parts[0] else parts[0] + [sep] + Join(parts[1..], sep)
  }

  lemma {:induction false} SplitJoin(s: seq<byte>, sep: byte)
    ensures Join(Split(s, sep), sep) == s
  {
    if s != [] {
      var rest := Split(s[1..], sep);
      SplitJoin(s[1..], sep);
      if s[0] != sep {
        if |rest| == 1 {
        } else {
          assert Join(rest, sep) == rest[0] + [sep] + Join(rest[1..], sep);
          assert [s[0]] + rest[0] + [sep] + Join(rest[1..], sep) == s;
        }
      }
    }
  }

  /** No piece of a split holds the separator. */
  lemma {:induction false} SplitPiecesFree(s: seq<byte>, sep: byte)
    ensures forall k :: 0 <= k < |Split(s, sep)| ==> sep !in Split(s, sep)[k]
  {
    if s != [] {
      SplitPiecesFree(s[1..], sep);
    }
  }

  lemma {:induction false} SplitFree(p: seq<byte>, t: seq<byte>, sep: byte)
    requires sep !in p
    ensures Split(p + [sep] + t, sep) == [p] + Split(t, sep)
    ensures Split(p, sep) == [p]
  {
    if p == [] {
      assert [] + [sep] + t == [sep] + t;
    } else {
      SplitFree(p[1..], t, sep);
      assert (p + [sep] + t)[1..] == p[1..] + [sep] + t;
      assert [p[0]] + p[1..] == p;
    }
  }

  lemma {:induction false} JoinSplit(parts: seq<seq<byte>>, sep: byte)
    requires |parts| >= 1
    requires forall k :: 0 <= k < |parts| ==> sep !in parts[k]
    ensures Split(Join(parts, sep), sep) == parts
  {
    if |parts| == 1 {
      SplitFree(parts[0], [], sep);
    } else {
      JoinSplit(parts[1..], sep);
      SplitFree(parts[0], Join(parts[1..], sep), sep);
      assert [parts[0]] + parts[1..] == parts;
    }
  }

  const PLUS: byte := 43
  const SEMICOLON: byte := 59

  predicate IsDigit(b: byte) { 48 <= b <= 57 }
  predicate AllDigits(s: seq<byte>) { forall i :: 0 <= i < |s| ==> IsDigit(s[i]) }

  /** The decimal value of a run of digits. */
  function DigitsValue(s: seq<byte>): nat
    requires AllDigits(s)
  {
    if s == [] then 0 else 10 * DigitsValue(s[..|s| - 1]) + (s[|s| - 1] as int - 48)
  }

  /** `parse::<uN>` with `max` the largest `uN`: an optional `+`, then at
      least one digit, and a value that fits. */
  function ParseUnsigned(s: seq<byte>, max: nat): Option<nat> {
    var digits := if |s| > 0 && s[0] == PLUS then s[1..] else s;
    if digits != [] && AllDigits(digits) && DigitsValue(digits) <= max
    then Some(DigitsValue(digits))
    else None
  }

  /** The decimal digits of `n`, without leading zeros. */
  function ShowNat(n: nat): (r: seq<byte>)
    ensures |r| >= 1 && AllDigits(r)
  {
    if n < 10 then [(48 + n) as byte] else ShowNat(n / 10) + [(48 + n % 10) as byte]
  }

  lemma {:induction false} ShowNatValue(n: nat)
    ensures DigitsValue(ShowNat(n)) == n
  {
    if n >= 10 {
      ShowNatValue(n / 10);
      var s := ShowNat(n);
      assert s[..|s| - 1] == ShowNat(n / 10);
    }
  }

  /** `parse` reads back what `ShowNat` writes, exactly when it fits. */
  lemma ParseShow(n: nat, max: nat)
    ensures ParseUnsigned(ShowNat(n), max) == if n <= max then Some(n) else None
  {
    ShowNatValue(n);
  }

  lemma ParseBound(s: seq<byte>, max: nat)
    ensures ParseUnsigned(s, max).Some? ==> ParseUnsigned(s, max).value <= max
    ensures ParseUnsigned(s, max).Some? ==> s != [] && (s[0] == PLUS || IsDigit(s[0]))
  {
  }

  // ---------------------------------------------------------------------------
  // SGR mouse reports: ESC [ < Cb ; Cx ; Cy (M | m)
  // ---------------------------------------------------------------------------

  const SGR_PREFIX: seq<byte> := [27, 91, 60]
  const PRESS: byte := 77
  const RELEASE: byte := 109

  datatype SgrReport = SgrReport(cb: nat, cx: nat, cy: nat)

  /** The three fields of a report body parsed as `u8`, `u16`, `u16`; the
      `u8` sum of the release offset and Cb wraps, as a release build
      computes it. */
  function DecodeFields(components: seq<seq<byte>>, cbMod: nat): Result<SgrReport> {
    if |components| != 3 then Failure("Invalid SGR ANSI mouse code format")
    else match ParseUnsigned(components[0], U8_MAX)
      case None => Failure("Failed to parse Cb")
      case Some(cb) =>
        match ParseUnsigned(components[1], U16_MAX)
        case None => Failure("Failed to parse Cx")
        case Some(cx) =>
          match ParseUnsigned(components[2], U16_MAX)
          case None => Failure("Failed to parse Cy")
          case Some(cy) => Success(SgrReport((cbMod + cb) % 256, cx, cy))
  }

  /** `decode_sgr_mouse_input`: valid UTF-8, the `ESC [ <` prefix, a final
      `M` (press, offset 0) or `m` (release, offset 3), then the fields. */
  function DecodeSgrMouseInput(data: seq<byte>): Result<SgrReport> {
    if !Utf8Valid(data) then Failure("Invalid UTF-8 sequence")
    else if !(|data| >= 3 && data[..3] == SGR_PREFIX) then Failure("Invalid SGR ANSI mouse code")
    else if data[|data| - 1] != PRESS && data[|data| - 1] != RELEASE then Failure("Invalid SGR ANSI mouse code")
    else DecodeFields(Split(data[3..|data| - 1], SEMICOLON), if data[|data| - 1] == PRESS then 0 else 3)
  }

  /** A report as xterm writes it. */
  function EncodeSgr(cb: nat, cx: nat, cy: nat, release: bool): seq<byte> {
    SGR_PREFIX + Join([ShowNat(cb), ShowNat(cx), ShowNat(cy)], SEMICOLON) + [if release then RELEASE else PRESS]
  }

  lemma DigitsAscii(s: seq<byte>)
    requires AllDigits(s)
    ensures IsAscii(s) && SEMICOLON !in s
  {
  }

  /** Decoding a written report gives back its coordinates, and its button
      code shifted by 3 on release (modulo 256). */
  lemma SgrRoundTrip(cb: nat, cx: nat, cy: nat, release: bool)
    requires cb <= U8_MAX && cx <= U16_MAX && cy <= U16_MAX
    ensures DecodeSgrMouseInput(EncodeSgr(cb, cx, cy, release)) ==
      Success(SgrReport(((if release then 3 else 0) + cb) % 256, cx, cy))
  {
    var parts := [ShowNat(cb), ShowNat(cx), ShowNat(cy)];
    var data := EncodeSgr(cb, cx, cy, release);
    SgrFraming(parts, release);
    JoinSplit(parts, SEMICOLON);
    ParseShow(cb, U8_MAX);
    ParseShow(cx, U16_MAX);
    ParseShow(cy, U16_MAX);
    assert DecodeFields(parts, if release then 3 else 0) == Success(SgrReport(((if release then 3 else 0) + cb) % 256, cx, cy));
  }

  /** A written report is ASCII, framed by the prefix and the final letter,
      and its body is the joined fields, none holding a separator. */
  lemma SgrFraming(parts: seq<seq<byte>>, release: bool)
    requires |parts| == 3 && forall k :: 0 <= k < 3 ==> AllDigits(parts[k])
    ensures var data := SGR_PREFIX + Join(parts, SEMICOLON) + [if release then RELEASE else PRESS];
      Utf8Valid(data) && |data| >= 4 && data[..3] == SGR_PREFIX &&
      data[|data| - 1] == (if release then RELEASE else PRESS) &&
      data[3..|data| - 1] == Join(parts, SEMICOLON)
    ensures forall k :: 0 <= k < |parts| ==> SEMICOLON !in parts[k]
  {
    var body := Join(parts, SEMICOLON);
    var data := SGR_PREFIX + body + [if release then RELEASE else PRESS];
    DigitsAscii(parts[0]);
    DigitsAscii(parts[1]);
    DigitsAscii(parts[2]);
    assert parts[1..][1..] == [parts[2]];
    assert Join(parts[1..][1..], SEMICOLON) == parts[2];
    assert Join(parts[1..], SEMICOLON) == parts[1] + [SEMICOLON] + parts[2];
    assert body == parts[0] + [SEMICOLON] + (parts[1] + [SEMICOLON] + parts[2]);
    assert IsAscii(data);
    AsciiIsUtf8(data);
    assert data[3..|data| - 1] == body;
  }

  /** What a successful decode says about its input and its result. */
  lemma SgrAccepted(data: seq<byte>)
    requires DecodeSgrMouseInput(data).Success?
    ensures |data| >= 4 && data[..3] == SGR_PREFIX
    ensures data[|data| - 1] == PRESS || data[|data| - 1] == RELEASE
    ensures |Split(data[3..|data| - 1], SEMICOLON)| == 3
    ensures DecodeSgrMouseInput(data).value.cb <= U8_MAX
    ensures DecodeSgrMouseInput(data).value.cx <= U16_MAX && DecodeSgrMouseInput(data).value.cy <= U16_MAX
  {
    assert data[2] == 60;
  }

  // ---------------------------------------------------------------------------
  // Mouse events and the classifier
  // ---------------------------------------------------------------------------

  datatype MouseButton = LeftButton | MiddleButton | RightButton

  datatype MouseEventKind =
    | Pressed(button: MouseButton)
    | Released(button: MouseButton)
    | Dragged(button: MouseButton)
    | Moved
    | ScrollUp
    | ScrollDown

  datatype MouseEvent = MouseEvent(kind: MouseEventKind, column: nat, row: nat, modifiers: set<Modifier>)

  datatype Event = Key(key: KeyEvent) | Mouse(mouse: MouseEvent)

  /** The `match cb` of `convert_data_to_mouse_event`. */
  function MouseKind(cb: nat): Option<MouseEventKind> {
    if cb == 0 then Some(Pressed(LeftButton))
    else if cb == 1 then Some(Pressed(MiddleButton))
    else if cb == 2 then Some(Pressed(RightButton))
    else if cb == 3 then Some(Released(LeftButton))
    else if cb == 32 then Some(Dragged(LeftButton))
    else if cb == 33 then Some(Dragged(MiddleButton))
    else if cb == 34 then Some(Dragged(RightButton))
    else if cb == 35 then Some(Moved)
    else if cb == 64 then Some(ScrollUp)
    else if cb == 65 then Some(ScrollDown)
    else None
  }

  /** The X11 button code of an event kind, where it has one. */
  function KindCode(k: MouseEventKind): Option<nat> {
    match k
    case Pressed(b) => Some(match b case LeftButton => 0 case MiddleButton => 1 case RightButton => 2)
    case Released(b) => if b == LeftButton then Some(3) else None
    case Dragged(b) => Some(match b case LeftButton => 32 case MiddleButton => 33 case RightButton => 34)
    case Moved => Some(35)
    case ScrollUp => Some(64)
    case ScrollDown => Some(65)
  }

  /** The ten accepted codes, and `KindCode` inverts `MouseKind` on them. */
  lemma MouseKindCodes(cb: nat, k: MouseEventKind)
    ensures MouseKind(cb).Some? <==> cb in {0, 1, 2, 3, 32, 33, 34, 35, 64, 65}
    ensures MouseKind(cb) == Some(k) <==> KindCode(k) == Some(cb)
  {
  }

  /** `convert_data_to_mouse_event`. */
  function ConvertDataToMouseEvent(data: seq<byte>): Option<MouseEvent> {
    match DecodeSgrMouseInput(data)
    case Failure(_) => None
    case Success(r) =>
      match MouseKind(r.cb)
      case None => None
      case Some(kind) => Some(MouseEvent(kind, r.cx, r.cy, {}))
  }

  /** A written press or release of a known button decodes to that event. */
  lemma MouseRoundTrip(k: MouseEventKind, cx: nat, cy: nat)
    requires KindCode(k).Some? && cx <= U16_MAX && cy <= U16_MAX
    ensures ConvertDataToMouseEvent(EncodeSgr(KindCode(k).value, cx, cy, false)) == Some(MouseEvent(k, cx, cy, {}))
  {
    var code := KindCode(k).value;
    assert code <= 65;
    var data := EncodeSgr(code, cx, cy, false);
    SgrRoundTrip(code, cx, cy, false);
    assert (0 + code) % 256 == code;
    MouseKindCodes(code, k);
    assert MouseKind(code) == Some(k);
  }

  predicate StartsWithSgr(data: seq<byte>) { |data| >= 3 && data[..3] == SGR_PREFIX }

  /** `convert_data_to_crossterm_event`: input that opens like a mouse report
      is read only as one. */
  function ConvertDataToCrosstermEvent(data: seq<byte>): Option<Event> {
    if StartsWithSgr(data) then
      match ConvertDataToMouseEvent(data)
      case Some(m) => Some(Mouse(m))
      case None => None
    else
      match ConvertDataToKeyEvent(data)
      case Some(k) => Some(Key(k))
      case None => None
  }

  lemma ClassifierRoutes(data: seq<byte>)
    ensures StartsWithSgr(data) ==> ConvertDataToCrosstermEvent(data).None? || ConvertDataToCrosstermEvent(data).value.Mouse?
    ensures !StartsWithSgr(data) ==>
      (ConvertDataToCrosstermEvent(data).Some? <==> ConvertDataToKeyEvent(data).Some?) &&
      (ConvertDataToCrosstermEvent(data).Some? ==> ConvertDataToCrosstermEvent(data).value == Key(ConvertDataToKeyEvent(data).value))
    ensures ConvertDataToCrosstermEvent(data).Some? && ConvertDataToCrosstermEvent(data).value.Mouse? ==>
      ConvertDataToCrosstermEvent(data).value.mouse == ConvertDataToMouseEvent(data).value
  {
  }

  /** The arrow keys open with ESC [ but their third byte is a letter, so
      they never reach the mouse decoder. */
  lemma ArrowsAreKeys(last: byte)
    requires 65 <= last <= 68
    ensures ConvertDataToCrosstermEvent([ESC, LEFT_BRACKET, last]).Some?
    ensures ConvertDataToCrosstermEvent([ESC, LEFT_BRACKET, last]).value.Key?
  {
    assert [ESC, LEFT_BRACKET, last][..3][2] == last;
  }

  // ---------------------------------------------------------------------------
  // Admission of a username
  // ---------------------------------------------------------------------------

  const MIN_USER_LENGTH: nat := 3
  const MAX_USER_LENGTH: nat := 16

  /** The UTF-8 width of one scalar value. */
  function CharWidth(c: char): (w: nat)
    ensures 1 <= w <= 4
    ensures w == 1 <==> c as int < 0x80
  {
    if c as int < 0x80 then 1 else if c as int < 0x800 then 2 else if c as int < 0x1_0000 then 3 else 4
  }

  /** `String::len`: the length in UTF-8 bytes. */
  function Utf8Length(s: string): nat {
    if s == [] then 0 else CharWidth(s[0]) + Utf8Length(s[1..])
  }

  lemma {:induction false} Utf8LengthBounds(s: string)
    ensures |s| <= Utf8Length(s) <= 4 * |s|
    ensures Utf8Length(s) == |s| <==> forall i :: 0 <= i < |s| ==> s[i] as int < 0x80
  {
    if s != [] {
      Utf8LengthBounds(s[1..]);
      assert forall i :: 1 <= i < |s| ==> s[i] == s[1..][i - 1];
    }
  }

  /** The length rule for a name that is not yet in the database. */
  predicate UsernameLengthOk(name: string) {
    MIN_USER_LENGTH <= Utf8Length(name) <= MAX_USER_LENGTH
  }

  /** The rule in characters: an ASCII name passes iff it has 3 to 16
      characters; any name over 16 characters, or under 1, fails. */
  lemma UsernameRule(name: string)
    ensures (forall i :: 0 <= i < |name| ==> name[i] as int < 0x80) ==>
      (UsernameLengthOk(name) <==> 3 <= |name| <= 16)
    ensures |name| > 16 || |name| == 0 ==> !UsernameLengthOk(name)
  {
    Utf8LengthBounds(name);
  }

  datatype SessionVerdict = ExistingAgent | NewAgent | WrongPassword | InvalidUsername

  /** The admission step of `channel_open_session`: a stored agent is
      checked against the password hash only; a new name against the
      length rule only. */
  function OpenSession(name: string, stored: Option<nat>, hashedPassword: nat): SessionVerdict {
    match stored
    case Some(password) => if password == hashedPassword then ExistingAgent else WrongPassword
    case None => if UsernameLengthOk(name) then NewAgent else InvalidUsername
  }

  lemma OpenSessionRules(name: string, stored: Option<nat>, hashedPassword: nat)
    ensures OpenSession(name, stored, hashedPassword) == InvalidUsername <==> stored.None? && !UsernameLengthOk(name)
    ensures OpenSession(name, stored, hashedPassword) == WrongPassword <==> stored.Some? && stored.value != hashedPassword
    ensures stored.Some? ==> OpenSession(name, stored, hashedPassword) != NewAgent
  {
  }
}
