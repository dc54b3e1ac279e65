/** Mouse reports (XTerm Control Sequences, "Mouse Tracking"): the SGR form loses nothing but the logo key, the older
    form is exact within its reach. */
module Mouse {
  import opened NinoxTypes
  import opened Keyboard
  import Decimal

  datatype Button = LeftButton | MiddleButton | RightButton | WheelUp | WheelDown

  datatype Action = Press | Release | Drag

  type u16 = x: int | 0 <= x < 0x1_0000

  const ANGLE: byte := '<' as int
  const UPPER_M: byte := 'M' as int
  const LOWER_M: byte := 'm' as int
  const MAX_X10: nat := 223

  datatype Report = Report(button: Button, action: Action, mods: Mods, col: u16, row: u16)

  function ButtonCode(b: Button): nat {
    match b
    case LeftButton => 0
    case MiddleButton => 1
    case RightButton => 2
    case WheelUp => 64
    case WheelDown => 65
  }

  function Code(r: Report): nat {
    ButtonCode(r.button) + (if r.action.Drag? then 32 else 0)
    + 4 * Bit(r.mods.shift) + 8 * Bit(r.mods.alt) + 16 * Bit(r.mods.ctrl)
  }

  /** Clears the two lowest bits. */
  function WithoutButton(code: nat): nat {
    code - code % 4
  }

  /** The truncating cast to a byte. */
  function AsByte(n: nat): byte {
    n % 256
  }

  /** `CSI < code ; x ; y final`. */
  function Sgr(code: nat, x: nat, y: nat, final: byte): Bytes {
    [ESC, BRACKET, ANGLE] + Decimal.Show(code) + [SEMICOLON] + Decimal.Show(x) + [SEMICOLON] + Decimal.Show(y) + [final]
  }

  function Encode(r: Report, modes: InputModes): Option<Bytes> {
    if !modes.mouseReporting then None
    else
      var code, x, y := Code(r), r.col + 1, r.row + 1;
      if modes.sgrMouse then
        Some(Sgr(code, x, y, if r.action.Release? then LOWER_M else UPPER_M))
      else if x > MAX_X10 || y > MAX_X10 then None
      else
        var shown := if r.action.Release? then 3 + WithoutButton(code) else code;
        Some([ESC, BRACKET, UPPER_M, AsByte(32 + shown), AsByte(32 + x), AsByte(32 + y)])
  }

  // ---------------------------------------------------------------- the SGR form

  function ButtonOf(code: nat): Option<Button> {
    var low, wheel := code % 4, code / 64 % 2;
    if code >= 128 then None
    else if wheel == 0 && low == 0 then Some(LeftButton)
    else if wheel == 0 && low == 1 then Some(MiddleButton)
    else if wheel == 0 && low == 2 then Some(RightButton)
    else if wheel == 1 && low == 0 then Some(WheelUp)
    else if wheel == 1 && low == 1 then Some(WheelDown)
    else None
  }

  function CodeMods(code: nat): Mods {
    Mods(code / 4 % 2 == 1, code / 8 % 2 == 1, code / 16 % 2 == 1, false)
  }

  function ReportOf(code: nat, x: nat, y: nat, final: byte): Option<Report> {
    var button := ButtonOf(code);
    if button.None? || !(1 <= x <= 0x1_0000) || !(1 <= y <= 0x1_0000) then None
    else if final == LOWER_M then Some(Report(button.value, Release, CodeMods(code), x - 1, y - 1))
    else if final == UPPER_M then
      Some(Report(button.value, if code / 32 % 2 == 1 then Drag else Press, CodeMods(code), x - 1, y - 1))
    else None
  }

  /** A number and the separator behind it. */
  function ReadField(bs: Bytes): (r: Option<(nat, Bytes)>)
    ensures r.Some? ==> |r.value.1| < |bs|
  {
    var n := Decimal.Read(bs);
    if n.Some? && n.value.1 != [] && n.value.1[0] == SEMICOLON then Some((n.value.0, n.value.1[1..])) else None
  }

  /** Three numbers and the final byte. */
  function ReadFields(bs: Bytes): Option<(nat, nat, nat, byte, Bytes)> {
    var code := ReadField(bs);
    if code.None? then None
    else
      var x := ReadField(code.value.1);
      if x.None? then None
      else
        var y := Decimal.Read(x.value.1);
        if y.None? || y.value.1 == [] then None
        else Some((code.value.0, x.value.0, y.value.0, y.value.1[0], y.value.1[1..]))
  }

  function Decode(bs: Bytes): Option<(Report, Bytes)> {
    if |bs| < 3 || bs[0] != ESC || bs[1] != BRACKET || bs[2] != ANGLE then None
    else
      var fields := ReadFields(bs[3..]);
      if fields.None? then None
      else
        var (code, x, y, final, rest) := fields.value;
        var report := ReportOf(code, x, y, final);
        if report.Some? then Some((report.value, rest)) else None
  }

  /** What a report keeps on the wire. */
  function WithoutLogo(r: Report): Report {
    r.(mods := r.mods.(logo := false))
  }

  lemma CodeKeepsButton(r: Report)
    ensures ButtonOf(Code(r)) == Some(r.button) && Code(r) <= 125
  {
  }

  lemma CodeKeepsMods(r: Report)
    ensures CodeMods(Code(r)) == WithoutLogo(r).mods
    ensures Code(r) / 32 % 2 == 1 <==> r.action.Drag?
  {
  }

  lemma CodeKeepsReport(r: Report)
    ensures ReportOf(Code(r), r.col + 1, r.row + 1, if r.action.Release? then LOWER_M else UPPER_M)
            == Some(WithoutLogo(r))
    ensures Code(r) <= 125
  {
    CodeKeepsButton(r);
    CodeKeepsMods(r);
  }

  lemma ReadShownField(n: nat, rest: Bytes)
    ensures ReadField(Decimal.Show(n) + ([SEMICOLON] + rest)) == Some((n, rest))
  {
    Decimal.ReadShow(n, [SEMICOLON] + rest);
    assert ([SEMICOLON] + rest)[1..] == rest;
  }

  lemma SgrFields(code: nat, x: nat, y: nat, final: byte, rest: Bytes)
    requires !Decimal.IsDigit(final)
    ensures ReadFields((Sgr(code, x, y, final) + rest)[3..]) == Some((code, x, y, final, rest))
  {
    var tail3 := [final] + rest;
    var tail2 := Decimal.Show(y) + tail3;
    var tail1 := Decimal.Show(x) + ([SEMICOLON] + tail2);
    assert (Sgr(code, x, y, final) + rest)[3..] == Decimal.Show(code) + ([SEMICOLON] + tail1);
    ReadShownField(code, tail1);
    ReadShownField(x, tail2);
    Decimal.ReadShow(y, tail3);
    assert tail3[1..] == rest;
  }

  /** Button, action, Shift, Alt, Ctrl and position come back from an SGR report, for every 16-bit position and
      whatever follows it; so reports that differ in any of these are written differently. */
  lemma SgrRoundTrip(r: Report, modes: InputModes, rest: Bytes)
    requires modes.mouseReporting && modes.sgrMouse
    ensures Encode(r, modes).Some?
    ensures Decode(Encode(r, modes).value + rest) == Some((WithoutLogo(r), rest))
  {
    var final: byte := if r.action.Release? then LOWER_M else UPPER_M;
    var bs := Encode(r, modes).value + rest;
    assert bs[0] == ESC && bs[1] == BRACKET && bs[2] == ANGLE;
    SgrFields(Code(r), r.col + 1, r.row + 1, final, rest);
    CodeKeepsReport(r);
  }

  // ---------------------------------------------------------------- the X10 form

  /** No report that was not asked for; and the X10 form exists exactly where both 1-based coordinates are at most
      223. */
  lemma ReportsExactly(r: Report, modes: InputModes)
    ensures Encode(r, modes).Some?
       <==> modes.mouseReporting && (modes.sgrMouse || (r.col + 1 <= 223 && r.row + 1 <= 223))
  {
  }

  /** There no byte is truncated: position and code are what the bytes exceed 32 by. */
  lemma X10NeverTruncates(r: Report, modes: InputModes)
    requires modes.mouseReporting && !modes.sgrMouse && r.col + 1 <= 223 && r.row + 1 <= 223
    ensures Encode(r, modes).Some?
    ensures var bs := Encode(r, modes).value;
            && |bs| == 6 && bs[..3] == [0x1b, '[' as int, 'M' as int]
            && bs[3] >= 32 && bs[4] - 32 == r.col + 1 && bs[5] - 32 == r.row + 1
  {
    X10Bytes(r, modes);
  }

  /** A press or drag reads back as what it was. */
  lemma X10PressRoundTrip(r: Report, modes: InputModes)
    requires modes.mouseReporting && !modes.sgrMouse && r.col + 1 <= 223 && r.row + 1 <= 223 && !r.action.Release?
    ensures Encode(r, modes).Some? && |Encode(r, modes).value| == 6
    ensures var bs := Encode(r, modes).value;
            bs[3] >= 32 && bs[4] >= 32 && bs[5] >= 32
            && ReportOf(bs[3] - 32, bs[4] - 32, bs[5] - 32, UPPER_M) == Some(WithoutLogo(r))
  {
    X10Bytes(r, modes);
    CodeKeepsReport(r);
  }

  /** A release is of button three, with its modifiers and whether it is a wheel's. */
  lemma X10ReleaseIsButtonThree(r: Report, modes: InputModes)
    requires modes.mouseReporting && !modes.sgrMouse && r.col + 1 <= 223 && r.row + 1 <= 223 && r.action.Release?
    ensures Encode(r, modes).Some? && |Encode(r, modes).value| == 6
    ensures var code := Encode(r, modes).value[3] - 32;
            0 <= code < 128 && code % 4 == 3 && code / 32 % 2 == 0 && CodeMods(code) == WithoutLogo(r).mods
            && (code / 64 == 1 <==> IsWheel(r.button))
  {
    X10Bytes(r, modes);
    ReleaseCodeReads(r);
  }

  lemma ReleaseCodeReads(r: Report)
    requires r.action.Release?
    ensures var shown := 3 + WithoutButton(Code(r));
            shown % 4 == 3 && shown < 128 && shown / 32 % 2 == 0 && CodeMods(shown) == WithoutLogo(r).mods
            && (shown / 64 == 1 <==> IsWheel(r.button))
  {
    ReleaseCode(r);
  }

  lemma X10Bytes(r: Report, modes: InputModes)
    requires modes.mouseReporting && !modes.sgrMouse && Encode(r, modes).Some?
    ensures var bs := Encode(r, modes).value;
            && |bs| == 6 && bs[0] == 0x1b && bs[1] == '[' as int && bs[2] == 'M' as int
            && bs[4] - 32 == r.col + 1 && bs[5] - 32 == r.row + 1
            && bs[3] - 32 == if r.action.Release? then 3 + WithoutButton(Code(r)) else Code(r)
  {
    CodeKeepsReport(r);
  }

  /** Presses and drags are told apart in everything but the logo key. */
  lemma X10TellsPressesApart(r: Report, s: Report, modes: InputModes)
    requires modes.mouseReporting && !modes.sgrMouse && !r.action.Release? && !s.action.Release?
    requires Encode(r, modes).Some? && Encode(s, modes).Some?
    ensures Encode(r, modes) == Encode(s, modes) <==> WithoutLogo(r) == WithoutLogo(s)
  {
    X10Bytes(r, modes);
    X10Bytes(s, modes);
    CodeKeepsReport(r);
    CodeKeepsReport(s);
  }

  /** A release only tells a wheel from the other buttons. */
  lemma X10ReleaseForgetsButton(r: Report, s: Report, modes: InputModes)
    requires modes.mouseReporting && !modes.sgrMouse && r.action.Release? && s.action.Release?
    requires Encode(r, modes).Some? && Encode(s, modes).Some?
    ensures Encode(r, modes) == Encode(s, modes) <==>
              && WithoutLogo(r).(button := s.button) == WithoutLogo(s)
              && (IsWheel(r.button) <==> IsWheel(s.button))
  {
    X10Bytes(r, modes);
    X10Bytes(s, modes);
    ReleaseCode(r);
    ReleaseCode(s);
  }

  predicate IsWheel(b: Button) {
    b.WheelUp? || b.WheelDown?
  }

  lemma ReleaseCode(r: Report)
    requires r.action.Release?
    ensures WithoutButton(Code(r))
            == (if IsWheel(r.button) then 64 else 0) + 4 * Bit(r.mods.shift) + 8 * Bit(r.mods.alt)
              + 16 * Bit(r.mods.ctrl)
  {
  }
}
