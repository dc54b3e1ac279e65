/** Key presses as terminal bytes. */
module Keyboard {
  import opened NinoxTypes
  import Decimal
  import Utf8

  datatype KeyInput =
    | Char(ch: char)
    | Enter | Escape | Backspace | Delete | Insert | Tab
    | BackTab  // Shift+Tab as some toolkits report it
    | Up | Down | Left | Right | Home | End | PageUp | PageDown
    | F(n: byte)

  datatype Mods = Mods(shift: bool, alt: bool, ctrl: bool, logo: bool)

  const NO_MODS := Mods(false, false, false, false)

  datatype KeyProtocol = Legacy | TmuxExtended | Kitty

  datatype InputModes = InputModes(
    appCursor: bool, bracketedPaste: bool, mouseReporting: bool, sgrMouse: bool, protocol: KeyProtocol)

  const ESC: byte := 0x1b
  const BRACKET: byte := '[' as int
  const SEMICOLON: byte := ';' as int
  const TILDE: byte := '~' as int
  const LETTER_O: byte := 'O' as int
  const LETTER_U: byte := 'u' as int

  function Bit(b: bool): nat {
    if b then 1 else 0
  }

  /** The xterm and kitty modifier parameter. */
  function Param(m: Mods): (p: nat)
    ensures 1 <= p <= 16
  {
    1 + Bit(m.shift) + 2 * Bit(m.alt) + 4 * Bit(m.ctrl) + 8 * Bit(m.logo)
  }

  function FunctionalCode(key: KeyInput): Option<nat> {
    match key
    case Enter => Some(13)
    case Escape => Some(27)
    case Backspace => Some(127)
    case Tab => Some(9)
    case _ => None
  }

  function CtrlByte(ch: char): Option<byte> {
    if 'a' <= ch <= 'z' then Some(ch as int - 'a' as int + 1)
    else if 'A' <= ch <= 'Z' then Some(ch as int - 'A' as int + 1)
    else if ch in {' ', '@', '2'} then Some(0x00)
    else if ch in {'[', '3'} then Some(0x1b)
    else if ch in {'\\', '4'} then Some(0x1c)
    else if ch in {']', '5'} then Some(0x1d)
    else if ch in {'^', '6'} then Some(0x1e)
    else if ch in {'_', '/', '7'} then Some(0x1f)
    else if ch in {'8', '?'} then Some(0x7f)
    else None
  }

  /** `CSI n final`. */
  function Csi1(n: nat, final: byte): Bytes {
    [ESC, BRACKET] + Decimal.Show(n) + [final]
  }

  /** `CSI n ; m final`. */
  function Csi2(n: nat, m: nat, final: byte): Bytes {
    [ESC, BRACKET] + Decimal.Show(n) + [SEMICOLON] + Decimal.Show(m) + [final]
  }

  /** Cursor-like keys: modified, or as the cursor mode says. */
  function CursorKey(final: byte, mods: nat, appCursor: bool): Bytes {
    if mods > 1 then Csi2(1, mods, final)
    else if appCursor then [ESC, LETTER_O, final]
    else [ESC, BRACKET, final]
  }

  function TildeKey(n: nat, mods: nat): Bytes {
    if mods > 1 then Csi2(n, mods, TILDE) else Csi1(n, TILDE)
  }

  function Prefixed(escape: bool, bs: Bytes): Bytes {
    if escape then [ESC] + bs else bs
  }

  predicate IsBackTab(key: KeyInput, m: Mods) {
    key.BackTab? || (key.Tab? && m == NO_MODS.(shift := true))
  }

  /** The key and modifier parameter that the encoder goes on with: BackTab is Tab with at least Shift. */
  function Folded(key: KeyInput, m: Mods): (KeyInput, nat) {
    (if key.BackTab? then Tab else key, if IsBackTab(key, m) && Param(m) < 2 then 2 else Param(m))
  }

  predicate UsesCsiU(key: KeyInput, mods: nat, protocol: KeyProtocol) {
    match protocol
    case Kitty => mods > 1 || key.Escape?
    case TmuxExtended => mods > 1
    case Legacy => false
  }

  /** Bytes for one key press, or none for a key that has no encoding. `text` is the toolkit's own text for the
      key, in UTF-8; `lower` is the first character of Unicode lower-casing. */
  function Encode(key: KeyInput, m: Mods, text: Option<Bytes>, modes: InputModes, lower: char -> char): Option<Bytes> {
    if IsBackTab(key, m) && !modes.protocol.Kitty? then Some([ESC, BRACKET, 'Z' as int])
    else
      var (key, mods) := Folded(key, m);
      var code := FunctionalCode(key);
      if code.Some? && UsesCsiU(key, mods, modes.protocol) then
        Some(if mods > 1 then Csi2(code.value, mods, LETTER_U) else Csi1(code.value, LETTER_U))
      else if key.Char? then Some(EncodeChar(key.ch, m, mods, text, modes.protocol.Kitty?, lower))
      else EncodeNamed(key, m, mods, modes.appCursor)
  }

  function EncodeChar(ch: char, m: Mods, mods: nat, text: Option<Bytes>, kitty: bool, lower: char -> char): Bytes {
    if kitty && (m.ctrl || m.alt) then Csi2(lower(ch) as int, mods, LETTER_U)
    else if m.ctrl && CtrlByte(ch).Some? then Prefixed(m.alt, [CtrlByte(ch).value])
    else Prefixed(m.alt, if text.Some? && text.value != [] then text.value else Utf8.Encode(ch))
  }

  function EncodeNamed(key: KeyInput, m: Mods, mods: nat, appCursor: bool): Option<Bytes> {
    match key
    case Enter => Some(if m.ctrl then [10] else Prefixed(m.shift || m.alt, [13]))
    case Escape => Some([ESC])
    case Backspace => Some(if m.ctrl then [0x08] else Prefixed(m.alt, [0x7f]))
    case Tab => Some(Prefixed(m.alt, [9]))
    case Up => Some(CursorKey('A' as int, mods, appCursor))
    case Down => Some(CursorKey('B' as int, mods, appCursor))
    case Right => Some(CursorKey('C' as int, mods, appCursor))
    case Left => Some(CursorKey('D' as int, mods, appCursor))
    case Home => Some(CursorKey('H' as int, mods, appCursor))
    case End => Some(CursorKey('F' as int, mods, appCursor))
    case Insert => Some(TildeKey(2, mods))
    case Delete => Some(TildeKey(3, mods))
    case PageUp => Some(TildeKey(5, mods))
    case PageDown => Some(TildeKey(6, mods))
    case F(n) =>
      if 1 <= n <= 4 then
        var final := 'P' as int + n - 1;
        Some(if mods > 1 then Csi2(1, mods, final) else [ESC, LETTER_O, final])
      else if 5 <= n <= 12 then Some(TildeKey([15, 17, 18, 19, 20, 21, 23, 24][n - 5], mods))
      else None
    case _ => None
  }
}
