/** A reader for what the encoder writes under the kitty protocol ("Disambiguate escape codes"), and the proof that
    the two undo each other, key by key and on whole streams. */
module KittyDecoder {
  import opened NinoxTypes
  import opened Keyboard
  import Decimal
  import Utf8

  /** One control sequence: up to two numbers (section 5.4 of ECMA-48) and a final byte. */
  datatype Params = Params(first: Option<nat>, second: Option<nat>, final: byte)

  function ReadNumber(bs: Bytes): (r: (Option<nat>, Bytes))
    ensures |r.1| <= |bs|
  {
    var n := Decimal.Read(bs);
    if n.Some? then (Some(n.value.0), n.value.1) else (None, bs)
  }

  /** What follows `CSI`. */
  function ReadCsi(bs: Bytes): (r: Option<(Params, Bytes)>)
    ensures r.Some? ==> |r.value.1| < |bs|
  {
    var (first, bs1) := ReadNumber(bs);
    var (second, bs2) := if bs1 != [] && bs1[0] == SEMICOLON then ReadNumber(bs1[1..]) else (None, bs1);
    if bs2 == [] then None else Some((Params(first, second, bs2[0]), bs2[1..]))
  }

  function ModsOf(p: nat): Option<Mods> {
    if 1 <= p <= 16 then
      var b := p - 1;
      Some(Mods(b % 2 == 1, b / 2 % 2 == 1, b / 4 % 2 == 1, b / 8 % 2 == 1))
    else None
  }

  function CursorKeyOf(final: byte): Option<KeyInput> {
    if final == 'A' as int then Some(Up)
    else if final == 'B' as int then Some(Down)
    else if final == 'C' as int then Some(Right)
    else if final == 'D' as int then Some(Left)
    else if final == 'H' as int then Some(Home)
    else if final == 'F' as int then Some(End)
    else if 'P' as int <= final <= 'S' as int then Some(F(final - 'P' as int + 1))
    else None
  }

  function TildeKeyOf(n: nat): Option<KeyInput> {
    if n == 2 then Some(Insert)
    else if n == 3 then Some(Delete)
    else if n == 5 then Some(PageUp)
    else if n == 6 then Some(PageDown)
    else if n == 15 then Some(F(5))
    else if 17 <= n <= 21 then Some(F(n - 11))
    else if 23 <= n <= 24 then Some(F(n - 12))
    else None
  }

  function CodeKeyOf(n: nat): Option<KeyInput> {
    if n == 13 then Some(Enter)
    else if n == 27 then Some(Escape)
    else if n == 127 then Some(Backspace)
    else if n == 9 then Some(Tab)
    else
      var ch := Utf8.ToChar(n);
      if ch.Some? then Some(Char(ch.value)) else None
  }

  function KeyOf(p: Params): Option<KeyInput> {
    if p.final == TILDE && p.first.Some? then TildeKeyOf(p.first.value)
    else if p.final == LETTER_U && p.first.Some? then CodeKeyOf(p.first.value)
    else if p.first == if p.second.Some? then Some(1) else None then CursorKeyOf(p.final)
    else None
  }

  datatype Press = Press(key: KeyInput, mods: Mods)

  /** What needs no control sequence has none: a code only for Escape and for modified keys, and for characters only
      with Ctrl or Alt; and no parameter that says that nothing is pressed. */
  predicate NeedsSequence(p: Params, press: Press) {
    && (p.second.Some? ==> press.mods != NO_MODS)
    && (press.key.F? && press.key.n <= 4 ==> p.second.Some?)
    && (p.final == LETTER_U ==>
          if press.key.Char? then press.mods.ctrl || press.mods.alt else press.key.Escape? || press.mods != NO_MODS)
  }

  function PressOf(p: Params): Option<Press> {
    var key := KeyOf(p);
    var mods := if p.second.Some? then ModsOf(p.second.value) else Some(NO_MODS);
    if key.Some? && mods.Some? && NeedsSequence(p, Press(key.value, mods.value))
    then Some(Press(key.value, mods.value)) else None
  }

  /** The first key press in a byte stream and what follows it. The cursor mode need not be known. */
  function DecodeOne(bs: Bytes): (r: Option<(Press, Bytes)>)
    ensures r.Some? ==> |r.value.1| < |bs|
  {
    if bs == [] then None
    else if bs[0] == 13 then Some((Press(Enter, NO_MODS), bs[1..]))
    else if bs[0] == 9 then Some((Press(Tab, NO_MODS), bs[1..]))
    else if bs[0] == 0x7f then Some((Press(Backspace, NO_MODS), bs[1..]))
    else if bs[0] != ESC then
      var ch := Utf8.Decode(bs);
      if ch.Some? then Some((Press(Char(ch.value.0), NO_MODS), ch.value.1)) else None
    else if |bs| >= 3 && bs[1] == LETTER_O then
      var key := CursorKeyOf(bs[2]);
      if key.Some? then Some((Press(key.value, NO_MODS), bs[3..])) else None
    else if |bs| >= 3 && bs[1] == BRACKET then
      var csi := ReadCsi(bs[2..]);
      if csi.None? then None
      else
        var press := PressOf(csi.value.0);
        if press.Some? then Some((press.value, csi.value.1)) else None
    else None
  }

  function DecodeAll(bs: Bytes): Option<seq<Press>>
    decreases |bs|
  {
    if bs == [] then Some([])
    else
      var one := DecodeOne(bs);
      if one.None? then None
      else
        var rest := DecodeAll(one.value.1);
        if rest.Some? then Some([one.value.0] + rest.value) else None
  }

  // ---------------------------------------------------------------- what survives the encoding

  predicate Printable(ch: char) {
    ch as int >= 0x20 && ch as int != 0x7f
  }

  /** Lower-casing a printable character gives a printable one. */
  ghost predicate KeepsPrintable(lower: char -> char) {
    forall ch :: Printable(ch) ==> Printable(lower(ch))
  }

  predicate Supported(key: KeyInput) {
    match key
    case Char(ch) => Printable(ch)
    case F(n) => 1 <= n <= 12
    case _ => true
  }

  /** What a press means on the wire: a chorded character is lower-cased, a plain one carries no modifiers, and
      BackTab is Tab, with Shift if no other modifier is reported. */
  function Canonical(p: Press, lower: char -> char): Press {
    match p.key
    case Char(ch) => if p.mods.ctrl || p.mods.alt then Press(Char(lower(ch)), p.mods) else Press(p.key, NO_MODS)
    case BackTab => Press(Tab, if p.mods == NO_MODS then NO_MODS.(shift := true) else p.mods)
    case _ => p
  }

  function Written(p: Press, modes: InputModes, lower: char -> char): Option<Bytes> {
    Encode(p.key, p.mods, None, modes, lower)
  }

  lemma ModsOfParam(m: Mods)
    ensures ModsOf(Param(m)) == Some(m)
  {
  }

  predicate EndsNumbers(final: byte) {
    !Decimal.IsDigit(final) && final != SEMICOLON
  }

  lemma ReadCsi2(n: nat, m: nat, final: byte, rest: Bytes)
    requires EndsNumbers(final)
    ensures ReadCsi((Csi2(n, m, final) + rest)[2..]) == Some((Params(Some(n), Some(m), final), rest))
  {
    var tail := Decimal.Show(m) + ([final] + rest);
    assert (Csi2(n, m, final) + rest)[2..] == Decimal.Show(n) + ([SEMICOLON] + tail);
    Decimal.ReadShow(n, [SEMICOLON] + tail);
    assert ([SEMICOLON] + tail)[1..] == tail;
    Decimal.ReadShow(m, [final] + rest);
    assert ([final] + rest)[1..] == rest;
  }

  lemma ReadCsi1(n: nat, final: byte, rest: Bytes)
    requires EndsNumbers(final)
    ensures ReadCsi((Csi1(n, final) + rest)[2..]) == Some((Params(Some(n), None, final), rest))
  {
    assert (Csi1(n, final) + rest)[2..] == Decimal.Show(n) + ([final] + rest);
    Decimal.ReadShow(n, [final] + rest);
    assert ([final] + rest)[1..] == rest;
  }

  lemma ReadCsi0(final: byte, rest: Bytes)
    requires EndsNumbers(final)
    ensures ReadCsi(([ESC, BRACKET, final] + rest)[2..]) == Some((Params(None, None, final), rest))
  {
    assert ([ESC, BRACKET, final] + rest)[2..] == [final] + rest;
    assert ([final] + rest)[1..] == rest;
  }

  lemma DecodeCsi2(n: nat, m: nat, final: byte, rest: Bytes)
    requires EndsNumbers(final) && PressOf(Params(Some(n), Some(m), final)).Some?
    ensures DecodeOne(Csi2(n, m, final) + rest) == Some((PressOf(Params(Some(n), Some(m), final)).value, rest))
  {
    ReadCsi2(n, m, final, rest);
    var bs := Csi2(n, m, final) + rest;
    assert bs[0] == ESC && bs[1] == BRACKET;
  }

  lemma DecodeCsi1(n: nat, final: byte, rest: Bytes)
    requires EndsNumbers(final) && PressOf(Params(Some(n), None, final)).Some?
    ensures DecodeOne(Csi1(n, final) + rest) == Some((PressOf(Params(Some(n), None, final)).value, rest))
  {
    ReadCsi1(n, final, rest);
    var bs := Csi1(n, final) + rest;
    assert bs[0] == ESC && bs[1] == BRACKET;
  }

  lemma DecodeCursorKey(key: KeyInput, final: byte, m: Mods, appCursor: bool, rest: Bytes)
    requires CursorKeyOf(final) == Some(key) && (key.F? ==> appCursor)
    ensures DecodeOne(CursorKey(final, Param(m), appCursor) + rest) == Some((Press(key, m), rest))
  {
    ModsOfParam(m);
    var bs := CursorKey(final, Param(m), appCursor) + rest;
    if Param(m) > 1 {
      DecodeCsi2(1, Param(m), final, rest);
    } else if appCursor {
      assert bs[3..] == rest;
    } else {
      ReadCsi0(final, rest);
    }
  }

  lemma DecodeTildeKey(key: KeyInput, n: nat, m: Mods, rest: Bytes)
    requires TildeKeyOf(n) == Some(key)
    ensures DecodeOne(TildeKey(n, Param(m)) + rest) == Some((Press(key, m), rest))
  {
    ModsOfParam(m);
    if Param(m) > 1 {
      DecodeCsi2(n, Param(m), TILDE, rest);
    } else {
      DecodeCsi1(n, TILDE, rest);
    }
  }

  lemma DecodeByte(b: byte, rest: Bytes)
    ensures ([b] + rest)[1..] == rest
  {
  }

  /** Keys with a code of their own: their plain byte, or `CSI code u`. */
  lemma DecodeCodeKey(p: Press, modes: InputModes, lower: char -> char, rest: Bytes)
    requires modes.protocol.Kitty? && (FunctionalCode(p.key).Some? || p.key.BackTab?)
    ensures Written(p, modes, lower).Some?
    ensures DecodeOne(Written(p, modes, lower).value + rest) == Some((Canonical(p, lower), rest))
  {
    var (key, mods) := Folded(p.key, p.mods);
    var code := FunctionalCode(key).value;
    ModsOfParam(Canonical(p, lower).mods);
    assert mods == Param(Canonical(p, lower).mods);
    if mods > 1 {
      DecodeCsi2(code, mods, LETTER_U, rest);
    } else if key.Escape? {
      DecodeCsi1(code, LETTER_U, rest);
    } else {
      DecodeByte(code, rest);
    }
  }

  lemma DecodeChar(p: Press, modes: InputModes, lower: char -> char, rest: Bytes)
    requires modes.protocol.Kitty? && p.key.Char? && Supported(p.key) && KeepsPrintable(lower)
    ensures Written(p, modes, lower).Some?
    ensures DecodeOne(Written(p, modes, lower).value + rest) == Some((Canonical(p, lower), rest))
  {
    var ch := p.key.ch;
    ModsOfParam(p.mods);
    if p.mods.ctrl || p.mods.alt {
      assert Printable(lower(ch)) && Utf8.ToChar(lower(ch) as int) == Some(lower(ch));
      DecodeCsi2(lower(ch) as int, Param(p.mods), LETTER_U, rest);
    } else {
      Utf8.DecodeEncode(ch, rest);
    }
  }

  predicate IsCursorKey(key: KeyInput) {
    key.Up? || key.Down? || key.Right? || key.Left? || key.Home? || key.End?
  }

  lemma DecodesCursorKeys(p: Press, modes: InputModes, lower: char -> char, rest: Bytes)
    requires modes.protocol.Kitty? && IsCursorKey(p.key)
    ensures Written(p, modes, lower).Some?
    ensures DecodeOne(Written(p, modes, lower).value + rest) == Some((Canonical(p, lower), rest))
  {
    match p.key {
      case Up => DecodeCursorKey(Up, 'A' as int, p.mods, modes.appCursor, rest);
      case Down => DecodeCursorKey(Down, 'B' as int, p.mods, modes.appCursor, rest);
      case Right => DecodeCursorKey(Right, 'C' as int, p.mods, modes.appCursor, rest);
      case Left => DecodeCursorKey(Left, 'D' as int, p.mods, modes.appCursor, rest);
      case Home => DecodeCursorKey(Home, 'H' as int, p.mods, modes.appCursor, rest);
      case End => DecodeCursorKey(End, 'F' as int, p.mods, modes.appCursor, rest);
      case _ =>
    }
  }

  /** Every supported key, with any modifiers and in either cursor mode, is read back as its canonical press, whatever
      bytes follow. */
  lemma DecodesEveryKey(p: Press, modes: InputModes, lower: char -> char, rest: Bytes)
    requires modes.protocol.Kitty? && Supported(p.key) && KeepsPrintable(lower)
    ensures Written(p, modes, lower).Some?
    ensures DecodeOne(Written(p, modes, lower).value + rest) == Some((Canonical(p, lower), rest))
  {
    if IsCursorKey(p.key) {
      DecodesCursorKeys(p, modes, lower, rest);
    } else {
      match p.key {
        case Char(_) => DecodeChar(p, modes, lower, rest);
        case Insert => DecodeTildeKey(Insert, 2, p.mods, rest);
        case Delete => DecodeTildeKey(Delete, 3, p.mods, rest);
        case PageUp => DecodeTildeKey(PageUp, 5, p.mods, rest);
        case PageDown => DecodeTildeKey(PageDown, 6, p.mods, rest);
        case F(n) =>
          if n <= 4 {
            DecodeCursorKey(p.key, 'P' as int + n - 1, p.mods, true, rest);
          } else {
            DecodeTildeKey(p.key, [15, 17, 18, 19, 20, 21, 23, 24][n - 5], p.mods, rest);
          }
        case _ => DecodeCodeKey(p, modes, lower, rest);
      }
    }
  }

  // ---------------------------------------------------------------- streams

  /** A press together with the modes in force when it was made. */
  datatype Stroke = Stroke(press: Press, modes: InputModes)

  predicate Decodable(s: Stroke) {
    s.modes.protocol.Kitty? && Supported(s.press.key)
  }

  function WrittenAll(strokes: seq<Stroke>, lower: char -> char): Bytes
    requires forall i :: 0 <= i < |strokes| ==> Written(strokes[i].press, strokes[i].modes, lower).Some?
  {
    if strokes == [] then []
    else Written(strokes[0].press, strokes[0].modes, lower).value + WrittenAll(strokes[1..], lower)
  }

  function CanonicalAll(strokes: seq<Stroke>, lower: char -> char): seq<Press> {
    if strokes == [] then [] else [Canonical(strokes[0].press, lower)] + CanonicalAll(strokes[1..], lower)
  }

  /** A stream of key presses is read back exactly, even if the cursor mode changes in the middle. */
  lemma {:induction false} DecodesEveryStream(strokes: seq<Stroke>, lower: char -> char)
    requires KeepsPrintable(lower) && forall i :: 0 <= i < |strokes| ==> Decodable(strokes[i])
    ensures forall i :: 0 <= i < |strokes| ==> Written(strokes[i].press, strokes[i].modes, lower).Some?
    ensures DecodeAll(WrittenAll(strokes, lower)) == Some(CanonicalAll(strokes, lower))
  {
    if strokes != [] {
      var s := strokes[0];
      assert forall i :: 0 <= i < |strokes[1..]| ==> strokes[1..][i] == strokes[i + 1];
      DecodesEveryStream(strokes[1..], lower);
      forall i | 0 <= i < |strokes| ensures Written(strokes[i].press, strokes[i].modes, lower).Some? {
        DecodesEveryKey(strokes[i].press, strokes[i].modes, lower, []);
      }
      DecodesEveryKey(s.press, s.modes, lower, WrittenAll(strokes[1..], lower));
    }
  }

  /** No encoding is the beginning of another, and two presses are written alike in one mode exactly when they mean
      the same. */
  lemma CodeIsPrefixFree(p: Press, q: Press, m1: InputModes, m2: InputModes, lower: char -> char, r1: Bytes, r2: Bytes)
    requires KeepsPrintable(lower) && Decodable(Stroke(p, m1)) && Decodable(Stroke(q, m2))
    requires Written(p, m1, lower).Some? && Written(q, m2, lower).Some?
    ensures Written(p, m1, lower).value + r1 == Written(q, m2, lower).value + r2 ==>
              Canonical(p, lower) == Canonical(q, lower) && Written(p, m1, lower) == Written(q, m2, lower) && r1 == r2
    ensures m1.appCursor == m2.appCursor ==>
              (Written(p, m1, lower) == Written(q, m2, lower) <==> Canonical(p, lower) == Canonical(q, lower))
  {
    var a, b := Written(p, m1, lower).value, Written(q, m2, lower).value;
    DecodesEveryKey(p, m1, lower, r1);
    DecodesEveryKey(q, m2, lower, r2);
    if a + r1 == b + r2 {
      assert a == (a + r1)[..|a|] && b == (b + r2)[..|b|];
    }
    DecodesEveryKey(p, m1, lower, []);
    DecodesEveryKey(q, m2, lower, []);
    if Canonical(p, lower) == Canonical(q, lower) && m1.appCursor == m2.appCursor {
      WrittenFromCanonical(p, q, m1, m2, lower);
    }
  }

  /** In kitty mode only the cursor mode matters. */
  lemma OnlyCursorModeMatters(p: Press, m1: InputModes, m2: InputModes, lower: char -> char)
    requires m1.protocol.Kitty? && m2.protocol.Kitty? && m1.appCursor == m2.appCursor
    ensures Written(p, m1, lower) == Written(p, m2, lower)
  {
  }

  lemma CharFromCanonical(p: Press, q: Press, modes: InputModes, lower: char -> char)
    requires modes.protocol.Kitty? && p.key.Char? && q.key.Char? && Canonical(p, lower) == Canonical(q, lower)
    ensures Written(p, modes, lower) == Written(q, modes, lower)
  {
    if p.mods.ctrl || p.mods.alt {
      assert q.mods == p.mods && lower(q.key.ch) == lower(p.key.ch);
    } else {
      assert q.key == p.key && !q.mods.ctrl && !q.mods.alt;
    }
  }

  /** Tab and BackTab are written alike but for their modifiers. */
  lemma TabIsWritten(p: Press, modes: InputModes, lower: char -> char)
    requires modes.protocol.Kitty? && (p.key.Tab? || p.key.BackTab?)
    ensures var mods := Folded(p.key, p.mods).1;
            Written(p, modes, lower) == Some(if mods > 1 then Csi2(9, mods, LETTER_U) else [9])
  {
  }

  lemma TabFromCanonical(p: Press, q: Press, modes: InputModes, lower: char -> char)
    requires modes.protocol.Kitty? && Canonical(p, lower) == Canonical(q, lower)
    requires (p.key.Tab? || p.key.BackTab?) && (q.key.Tab? || q.key.BackTab?)
    ensures Written(p, modes, lower) == Written(q, modes, lower)
  {
    TabIsWritten(p, modes, lower);
    TabIsWritten(q, modes, lower);
  }

  lemma WrittenFromCanonical(p: Press, q: Press, m1: InputModes, m2: InputModes, lower: char -> char)
    requires m1.protocol.Kitty? && m2.protocol.Kitty? && m1.appCursor == m2.appCursor
    requires Canonical(p, lower) == Canonical(q, lower)
    ensures Written(p, m1, lower) == Written(q, m2, lower)
  {
    OnlyCursorModeMatters(q, m1, m2, lower);
    if p.key.Char? {
      CharFromCanonical(p, q, m1, lower);
    } else if p.key.Tab? || p.key.BackTab? {
      TabFromCanonical(p, q, m1, lower);
    } else {
      assert p == q;
    }
  }

  /** Outside kitty mode no decoder can exist: Escape and then a letter is Alt and that letter. */
  lemma OtherModesAreAmbiguous(modes: InputModes, lower: char -> char)
    requires !modes.protocol.Kitty?
    ensures var alt := NO_MODS.(alt := true);
            var esc, a, chord := Written(Press(Escape, NO_MODS), modes, lower),
              Written(Press(Char('a'), NO_MODS), modes, lower),
                                 Written(Press(Char('a'), alt), modes, lower);
            esc.Some? && a.Some? && chord.Some? && esc.value + a.value == chord.value
  {
  }
}
