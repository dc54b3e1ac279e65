/** A reader for single key presses as they are written outside the kitty protocol, and the proof that it undoes the
    encoder up to the presses that have always shared their bytes (Ctrl+I and Tab, say). */
module PlainDecoder {
  import opened NinoxTypes
  import opened Keyboard
  import opened KittyDecoder
  import Utf8

  const ALT := NO_MODS.(alt := true)
  const CTRL := NO_MODS.(ctrl := true)

  /** The character under which a control code is known, `^A` to `^_` and `^?`. */
  function Caret(b: byte): Option<char> {
    if 1 <= b <= 26 then Some((b + 0x60) as char)
    else if b < 0x20 then Some((b + 0x40) as char)
    else if b == 0x7f then Some('?')
    else None
  }

  /** One byte alone. */
  function PlainByte(b: byte): Option<Press> {
    if b == 9 then Some(Press(Tab, NO_MODS))
    else if b == 13 then Some(Press(Enter, NO_MODS))
    else if b == 27 then Some(Press(Escape, NO_MODS))
    else if b == 127 then Some(Press(Backspace, NO_MODS))
    else if Caret(b).Some? then Some(Press(Char(Caret(b).value), CTRL))
    else OneChar([b], NO_MODS)
  }

  /** Exactly one character. */
  function OneChar(bs: Bytes, mods: Mods): Option<Press> {
    var ch := Utf8.Decode(bs);
    if ch.Some? && ch.value.1 == [] then Some(Press(Char(ch.value.0), mods)) else None
  }

  /** What an escape in front of it makes of a control code or a character. */
  function Escaped(bs: Bytes): Option<Press> {
    if |bs| == 1 && Caret(bs[0]).Some? then Some(Press(Char(Caret(bs[0]).value), ALT.(ctrl := true)))
    else OneChar(bs, ALT)
  }

  /** A control sequence, as far as this protocol writes it. Codes are for modified Enter, Escape, Backspace and Tab
      under tmux alone; unmodified cursor keys are as the cursor mode says. */
  function Sequence(bs: Bytes, modes: InputModes): Option<Press>
    requires |bs| >= 3
  {
    if bs == [ESC, BRACKET, 'Z' as int] then Some(Press(BackTab, NO_MODS))
    else if bs[1] == LETTER_O then
      var key := CursorKeyOf(bs[2]);
      if |bs| == 3 && key.Some? && (key.value.F? || modes.appCursor) then Some(Press(key.value, NO_MODS)) else None
    else
      var csi := ReadCsi(bs[2..]);
      if csi.None? || csi.value.1 != [] then None
      else
        var (p, press) := (csi.value.0, PressOf(csi.value.0));
        if press.None? then None
        else if p.final == LETTER_U && (!modes.protocol.TmuxExtended? || press.value.key.Char? || p.second.None?)
        then None
        else if p.first.None? && modes.appCursor then None
        else press
  }

  /** The one key press that `bs` spells. */
  function ReadPress(bs: Bytes, modes: InputModes): Option<Press> {
    if |bs| == 1 then PlainByte(bs[0])
    else if |bs| >= 3 && bs[0] == ESC && (bs[1] == BRACKET || bs[1] == LETTER_O) then Sequence(bs, modes)
    else if bs != [] && bs[0] == ESC then Escaped(bs[1..])
    else OneChar(bs, NO_MODS)
  }

  // ---------------------------------------------------------------- what a press means

  /** The name of the control code that Ctrl with `ch` gives. Space and the digits stand in for punctuation. */
  function ControlName(ch: char): Option<char> {
    if 'a' <= ch <= 'z' then Some(ch)
    else if 'A' <= ch <= 'Z' then Some((ch as int + 0x20) as char)
    else if ch == ' ' || ch == '@' || ch == '2' then Some('@')
    else if ch == '[' || ch == '3' then Some('[')
    else if ch == '\\' || ch == '4' then Some('\\')
    else if ch == ']' || ch == '5' then Some(']')
    else if ch == '^' || ch == '6' then Some('^')
    else if ch == '_' || ch == '/' || ch == '7' then Some('_')
    else if ch == '?' || ch == '8' then Some('?')
    else None
  }

  /** A control code, which four keys own. */
  function Control(name: char, alt: bool): Press {
    if alt then Press(Char(name), ALT.(ctrl := true))
    else if name == 'i' then Press(Tab, NO_MODS)
    else if name == 'm' then Press(Enter, NO_MODS)
    else if name == '[' then Press(Escape, NO_MODS)
    else if name == '?' then Press(Backspace, NO_MODS)
    else Press(Char(name), CTRL)
  }

  /** Modified Enter, Escape, Backspace and Tab where they have no codes. */
  function Degraded(p: Press): Press {
    match p.key
    case Enter =>
      if p.mods.ctrl then Control('j', false) else if p.mods.shift || p.mods.alt then Control('m', true)
      else Press(Enter, NO_MODS)
    case Backspace =>
      if p.mods.ctrl then Control('h', false) else if p.mods.alt then Control('?', true) else Press(Backspace, NO_MODS)
    case Tab => if p.mods.alt then Control('i', true) else Press(Tab, NO_MODS)
    case _ => Press(p.key, NO_MODS)
  }

  /** What is left of a press outside the kitty protocol. */
  function Meaning(p: Press, protocol: KeyProtocol): Press {
    if p.key.BackTab? || (p.key.Tab? && p.mods == NO_MODS.(shift := true)) then Press(BackTab, NO_MODS)
    else if p.key.Enter? || p.key.Escape? || p.key.Backspace? || p.key.Tab? then
      if protocol.TmuxExtended? then p else Degraded(p)
    else if p.key.Char? then
      if p.mods.ctrl && ControlName(p.key.ch).Some? then Control(ControlName(p.key.ch).value, p.mods.alt)
      else Press(p.key, if p.mods.alt then ALT else NO_MODS)
    else p
  }

  // ---------------------------------------------------------------- the round trip

  lemma ReadsCsi2(n: nat, m: Mods, final: byte, modes: InputModes)
    requires EndsNumbers(final) && m != NO_MODS && PressOf(Params(Some(n), Some(Param(m)), final)).Some?
    requires final == LETTER_U ==>
             modes.protocol.TmuxExtended? && !PressOf(Params(Some(n), Some(Param(m)), final)).value.key.Char?
    ensures ReadPress(Csi2(n, Param(m), final), modes) == PressOf(Params(Some(n), Some(Param(m)), final))
  {
    var bs := Csi2(n, Param(m), final);
    assert bs + [] == bs && bs[0] == ESC && bs[1] == BRACKET;
    ReadCsi2(n, Param(m), final, []);
    assert IsDigitByte(bs[2]);
  }

  predicate IsDigitByte(b: byte) {
    '0' as int <= b <= '9' as int
  }

  lemma ReadsCursorKey(key: KeyInput, final: byte, m: Mods, modes: InputModes)
    requires CursorKeyOf(final) == Some(key) && !key.F?
    ensures ReadPress(CursorKey(final, Param(m), modes.appCursor), modes) == Some(Press(key, m))
  {
    ModsOfParam(m);
    if Param(m) > 1 {
      ReadsCsi2(1, m, final, modes);
    } else if !modes.appCursor {
      ReadCsi0(final, []);
      assert [ESC, BRACKET, final] + [] == [ESC, BRACKET, final];
    }
  }

  lemma ReadsTildeKey(key: KeyInput, n: nat, m: Mods, modes: InputModes)
    requires TildeKeyOf(n) == Some(key)
    ensures ReadPress(TildeKey(n, Param(m)), modes) == Some(Press(key, m))
  {
    ModsOfParam(m);
    if Param(m) > 1 {
      ReadsCsi2(n, m, TILDE, modes);
    } else {
      var bs := Csi1(n, TILDE);
      assert bs + [] == bs && bs[0] == ESC && bs[1] == BRACKET;
      ReadCsi1(n, TILDE, []);
      assert IsDigitByte(bs[2]);
    }
  }

  lemma ReadsCursorKeys(p: Press, modes: InputModes, lower: char -> char)
    requires !modes.protocol.Kitty? && IsCursorKey(p.key)
    ensures Written(p, modes, lower).Some? && ReadPress(Written(p, modes, lower).value, modes) == Some(p)
  {
    match p.key {
      case Up => ReadsCursorKey(Up, 'A' as int, p.mods, modes);
      case Down => ReadsCursorKey(Down, 'B' as int, p.mods, modes);
      case Right => ReadsCursorKey(Right, 'C' as int, p.mods, modes);
      case Left => ReadsCursorKey(Left, 'D' as int, p.mods, modes);
      case Home => ReadsCursorKey(Home, 'H' as int, p.mods, modes);
      case End => ReadsCursorKey(End, 'F' as int, p.mods, modes);
      case _ =>
    }
  }

  lemma ReadsEarlyFunctionKey(n: byte, m: Mods, modes: InputModes)
    requires 1 <= n <= 4
    ensures var final: byte := 'P' as int + n - 1;
            ReadPress(CursorKey(final, Param(m), true), modes) == Some(Press(F(n), m))
  {
    ModsOfParam(m);
    var final: byte := 'P' as int + n - 1;
    assert CursorKeyOf(final) == Some(F(n));
    if Param(m) > 1 {
      ReadsCsi2(1, m, final, modes);
    }
  }

  lemma FunctionKeyIsWritten(n: byte, m: Mods, modes: InputModes, lower: char -> char)
    requires 1 <= n <= 12
    ensures Written(Press(F(n), m), modes, lower)
            == Some(if n <= 4 then CursorKey('P' as int + n - 1, Param(m), true)
                    else TildeKey([15, 17, 18, 19, 20, 21, 23, 24][n - 5], Param(m)))
  {
  }

  lemma ReadsFunctionKey(n: byte, m: Mods, modes: InputModes, lower: char -> char)
    requires !modes.protocol.Kitty? && 1 <= n <= 12
    ensures Written(Press(F(n), m), modes, lower).Some?
    ensures ReadPress(Written(Press(F(n), m), modes, lower).value, modes) == Some(Press(F(n), m))
  {
    FunctionKeyIsWritten(n, m, modes, lower);
    if n <= 4 {
      ReadsEarlyFunctionKey(n, m, modes);
    } else {
      ReadsTildeKey(F(n), [15, 17, 18, 19, 20, 21, 23, 24][n - 5], m, modes);
    }
  }

  lemma ReadsModifiedCodeKey(p: Press, modes: InputModes, lower: char -> char)
    requires modes.protocol.TmuxExtended? && FunctionalCode(p.key).Some? && !IsBackTab(p.key, p.mods)
    requires p.mods != NO_MODS
    ensures Written(p, modes, lower).Some? && ReadPress(Written(p, modes, lower).value, modes) == Some(p)
  {
    ModsOfParam(p.mods);
    ReadsCsi2(FunctionalCode(p.key).value, p.mods, LETTER_U, modes);
  }

  /** Enter, Escape, Backspace, Tab and BackTab. */
  lemma ReadsCodeKey(p: Press, modes: InputModes, lower: char -> char)
    requires !modes.protocol.Kitty? && (FunctionalCode(p.key).Some? || p.key.BackTab?)
    ensures Written(p, modes, lower).Some?
    ensures ReadPress(Written(p, modes, lower).value, modes) == Some(Meaning(p, modes.protocol))
  {
    if !IsBackTab(p.key, p.mods) && modes.protocol.TmuxExtended? && p.mods != NO_MODS {
      ReadsModifiedCodeKey(p, modes, lower);
    }
  }

  /** Ctrl with a character gives the control code of its name. */
  lemma ControlIsNamed(ch: char)
    ensures CtrlByte(ch).Some? <==> ControlName(ch).Some?
    ensures CtrlByte(ch).Some? ==> Caret(CtrlByte(ch).value) == ControlName(ch)
  {
  }

  lemma ControlIsWritten(p: Press, modes: InputModes, lower: char -> char)
    requires !modes.protocol.Kitty? && p.key.Char? && p.mods.ctrl && CtrlByte(p.key.ch).Some?
    ensures var b := CtrlByte(p.key.ch).value;
            Written(p, modes, lower) == Some(if p.mods.alt then [ESC] + [b] else [b])
  {
  }

  lemma TextIsWritten(key: KeyInput, m: Mods, text: Option<Bytes>, modes: InputModes, lower: char -> char)
    requires key.Char? && if modes.protocol.Kitty? then !m.ctrl && !m.alt else !(m.ctrl && CtrlByte(key.ch).Some?)
    ensures var bs := if text.Some? && text.value != [] then text.value else Utf8.Encode(key.ch);
            Encode(key, m, text, modes, lower) == Some(if m.alt then [ESC] + bs else bs)
  {
  }

  lemma ReadsControl(p: Press, modes: InputModes, lower: char -> char)
    requires !modes.protocol.Kitty? && p.key.Char? && p.mods.ctrl && ControlName(p.key.ch).Some?
    ensures Written(p, modes, lower).Some?
    ensures ReadPress(Written(p, modes, lower).value, modes) == Some(Meaning(p, modes.protocol))
  {
    ControlIsNamed(p.key.ch);
    var b := CtrlByte(p.key.ch).value;
    ControlIsWritten(p, modes, lower);
    assert ([ESC] + [b])[1..] == [b];
  }

  lemma ReadsChar(p: Press, modes: InputModes, lower: char -> char)
    requires !modes.protocol.Kitty? && p.key.Char? && Printable(p.key.ch)
    requires !(p.mods.ctrl && ControlName(p.key.ch).Some?)
    ensures Written(p, modes, lower).Some?
    ensures ReadPress(Written(p, modes, lower).value, modes) == Some(Meaning(p, modes.protocol))
  {
    var bs := Utf8.Encode(p.key.ch);
    ControlIsNamed(p.key.ch);
    Utf8.DecodeEncode(p.key.ch, []);
    assert bs + [] == bs && ([ESC] + bs)[1..] == bs;
    TextIsWritten(p.key, p.mods, None, modes, lower);
  }

  /** Every supported key, with any modifiers, in either cursor mode, under tmux or without any extension: what is
      written reads back as what the press means there. */
  lemma ReadsEveryPress(p: Press, modes: InputModes, lower: char -> char)
    requires !modes.protocol.Kitty? && Supported(p.key)
    ensures Written(p, modes, lower).Some?
    ensures ReadPress(Written(p, modes, lower).value, modes) == Some(Meaning(p, modes.protocol))
  {
    if IsCursorKey(p.key) {
      ReadsCursorKeys(p, modes, lower);
    } else {
      match p.key {
        case Char(ch) =>
          if p.mods.ctrl && ControlName(ch).Some? {
            ReadsControl(p, modes, lower);
          } else {
            ReadsChar(p, modes, lower);
          }
        case Insert => ReadsTildeKey(Insert, 2, p.mods, modes);
        case Delete => ReadsTildeKey(Delete, 3, p.mods, modes);
        case PageUp => ReadsTildeKey(PageUp, 5, p.mods, modes);
        case PageDown => ReadsTildeKey(PageDown, 6, p.mods, modes);
        case F(n) => ReadsFunctionKey(n, p.mods, modes, lower);
        case _ => ReadsCodeKey(p, modes, lower);
      }
    }
  }

  // ---------------------------------------------------------------- exactly which presses share their bytes

  lemma NameHasTheSameByte(ch: char)
    requires ControlName(ch).Some?
    ensures CtrlByte(ControlName(ch).value) == CtrlByte(ch)
  {
  }

  /** The four keys that own a control code. */
  lemma OwnersAreWritten(modes: InputModes, lower: char -> char)
    requires !modes.protocol.Kitty?
    ensures Written(Press(Tab, NO_MODS), modes, lower) == Some([9])
    ensures Written(Press(Enter, NO_MODS), modes, lower) == Some([13])
    ensures Written(Press(Escape, NO_MODS), modes, lower) == Some([27])
    ensures Written(Press(Backspace, NO_MODS), modes, lower) == Some([127])
  {
  }

  lemma NamedControlIsWritten(p: Press, modes: InputModes, lower: char -> char)
    requires !modes.protocol.Kitty? && p.key.Char? && p.mods.ctrl && ControlName(p.key.ch).Some?
    ensures Written(Meaning(p, modes.protocol), modes, lower) == Written(p, modes, lower)
  {
    var name := ControlName(p.key.ch).value;
    ControlIsNamed(p.key.ch);
    NameHasTheSameByte(p.key.ch);
    ControlIsWritten(p, modes, lower);
    if p.mods.alt || name !in {'i', 'm', '[', '?'} {
      ControlIsWritten(Control(name, p.mods.alt), modes, lower);
    } else {
      OwnersAreWritten(modes, lower);
    }
  }

  lemma TextMeaningIsWritten(p: Press, modes: InputModes, lower: char -> char)
    requires !modes.protocol.Kitty? && p.key.Char? && !(p.mods.ctrl && ControlName(p.key.ch).Some?)
    ensures Written(Meaning(p, modes.protocol), modes, lower) == Written(p, modes, lower)
  {
    ControlIsNamed(p.key.ch);
    TextIsWritten(p.key, p.mods, None, modes, lower);
    TextIsWritten(p.key, Meaning(p, modes.protocol).mods, None, modes, lower);
  }

  lemma CodeKeyDegrades(p: Press, modes: InputModes, lower: char -> char)
    requires modes.protocol.Legacy? && FunctionalCode(p.key).Some? && !IsBackTab(p.key, p.mods)
    ensures Written(p, modes, lower) == EncodeNamed(p.key, p.mods, Param(p.mods), modes.appCursor)
  {
  }

  lemma DegradedIsWritten(p: Press, modes: InputModes, lower: char -> char)
    requires modes.protocol.Legacy? && FunctionalCode(p.key).Some? && !IsBackTab(p.key, p.mods)
    ensures Written(Degraded(p), modes, lower) == Written(p, modes, lower)
  {
    CodeKeyDegrades(p, modes, lower);
    OwnersAreWritten(modes, lower);
    if Degraded(p).key.Char? {
      ControlIsWritten(Degraded(p), modes, lower);
    }
  }

  lemma CodeMeaningIsWritten(p: Press, modes: InputModes, lower: char -> char)
    requires !modes.protocol.Kitty? && (FunctionalCode(p.key).Some? || p.key.BackTab?)
    ensures Written(Meaning(p, modes.protocol), modes, lower) == Written(p, modes, lower)
  {
    if !IsBackTab(p.key, p.mods) && modes.protocol.Legacy? {
      DegradedIsWritten(p, modes, lower);
    }
  }

  /** A press is written as what it means. */
  lemma MeaningIsWritten(p: Press, modes: InputModes, lower: char -> char)
    requires !modes.protocol.Kitty? && Supported(p.key)
    ensures Written(Meaning(p, modes.protocol), modes, lower) == Written(p, modes, lower)
  {
    if p.key.Char? {
      if p.mods.ctrl && ControlName(p.key.ch).Some? {
        NamedControlIsWritten(p, modes, lower);
      } else {
        TextMeaningIsWritten(p, modes, lower);
      }
    } else if FunctionalCode(p.key).Some? || p.key.BackTab? {
      CodeMeaningIsWritten(p, modes, lower);
    }
  }

  /** Two presses are written alike exactly when they mean the same. */
  lemma WrittenAlikeExactly(p: Press, q: Press, modes: InputModes, lower: char -> char)
    requires !modes.protocol.Kitty? && Supported(p.key) && Supported(q.key)
    ensures Written(p, modes, lower) == Written(q, modes, lower)
       <==> Meaning(p, modes.protocol) == Meaning(q, modes.protocol)
  {
    ReadsEveryPress(p, modes, lower);
    ReadsEveryPress(q, modes, lower);
    MeaningIsWritten(p, modes, lower);
    MeaningIsWritten(q, modes, lower);
  }

  // ---------------------------------------------------------------- the toolkit's text, and the cursor mode

  /** A character that no chord spells otherwise. */
  predicate IsText(key: KeyInput, m: Mods, protocol: KeyProtocol) {
    key.Char? && if protocol.Kitty? then !m.ctrl && !m.alt else !(m.ctrl && ControlName(key.ch).Some?)
  }

  lemma TextIsIgnored(key: KeyInput, m: Mods, text: Option<Bytes>, modes: InputModes, lower: char -> char)
    requires key.Char? ==> !IsText(key, m, modes.protocol)
    ensures Encode(key, m, text, modes, lower) == Encode(key, m, None, modes, lower)
  {
    if key.Char? {
      ControlIsNamed(key.ch);
    }
  }

  /** The toolkit's text, behind an escape with Alt, replaces a character that is written as itself, and nothing
      else. */
  lemma TextIsWrittenExactly(key: KeyInput, m: Mods, text: Bytes, modes: InputModes, lower: char -> char)
    ensures Encode(key, m, Some(text), modes, lower)
            == if IsText(key, m, modes.protocol) && text != [] then Some(if m.alt then [ESC] + text else text)
               else Encode(key, m, None, modes, lower)
    ensures IsText(key, m, modes.protocol) ==>
              Encode(key, m, None, modes, lower)
              == Some(if m.alt then [ESC] + Utf8.Encode(key.ch) else Utf8.Encode(key.ch))
  {
    if IsText(key, m, modes.protocol) {
      ControlIsNamed(key.ch);
      TextIsWritten(key, m, Some(text), modes, lower);
      TextIsWritten(key, m, None, modes, lower);
    } else {
      TextIsIgnored(key, m, Some(text), modes, lower);
    }
  }

  /** The only keys without bytes are the function keys past F12. */
  lemma NearlyAllKeysAreWritten(key: KeyInput, m: Mods, modes: InputModes, lower: char -> char)
    ensures Written(Press(key, m), modes, lower).None? <==> key.F? && !(1 <= key.n <= 12)
  {
  }

  /** Under every protocol an unmodified cursor key begins as the application's cursor mode says. */
  lemma CursorModeIsHonoured(key: KeyInput, modes: InputModes, lower: char -> char)
    requires IsCursorKey(key)
    ensures var bs := Written(Press(key, NO_MODS), modes, lower);
            bs.Some? && |bs.value| == 3 && bs.value[0] == 0x1b
            && bs.value[1] == if modes.appCursor then 'O' as int else '[' as int
  {
  }
}
