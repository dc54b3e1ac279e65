/** The UTF-8 spelling of one character (section 3 of RFC 3629). */
module Utf8 {
  import opened NinoxTypes

  function Encode(ch: char): (bs: Bytes)
    ensures bs != []
    ensures (ch as int < 0x80 ==> bs == [ch as int]) && (ch as int >= 0x80 ==> bs[0] >= 0xC0)
  {
    var cp := ch as int;
    if cp < 0x80 then [cp]
    else if cp < 0x800 then [0xC0 + cp / 0x40, 0x80 + cp % 0x40]
    else if cp < 0x1_0000 then [0xE0 + cp / 0x1000, 0x80 + cp / 0x40 % 0x40, 0x80 + cp % 0x40]
    else [0xF0 + cp / 0x4_0000, 0x80 + cp / 0x1000 % 0x40, 0x80 + cp / 0x40 % 0x40, 0x80 + cp % 0x40]
  }

  /** A code point that is a character: not a surrogate and not too large. */
  function ToChar(cp: int): Option<char> {
    if 0 <= cp < 0xD800 || 0xE000 <= cp < 0x11_0000 then Some(cp as char) else None
  }

  function Continuation(b: byte): int {
    b - 0x80
  }

  /** The first character, in its shortest form, and what follows it. */
  function Decode(bs: Bytes): (r: Option<(char, Bytes)>)
    ensures r.Some? ==> |r.value.1| < |bs|
  {
    if bs == [] then None
    else
      var b := bs[0];
      var n := if b < 0x80 then 1 else if b < 0xE0 then 2 else if b < 0xF0 then 3 else 4;
      if |bs| < n then None
      else
        var ch := ToChar(
          if n == 1 then b
          else if n == 2 then (b - 0xC0) * 0x40 + Continuation(bs[1])
          else if n == 3 then (b - 0xE0) * 0x1000 + Continuation(bs[1]) * 0x40 + Continuation(bs[2])
          else (b - 0xF0) * 0x4_0000 + Continuation(bs[1]) * 0x1000 + Continuation(bs[2]) * 0x40 + Continuation(bs[3]));
        if ch.None? || ch.value as int < [0, 0x80, 0x800, 0x1_0000][n - 1] then None else Some((ch.value, bs[n..]))
  }

  lemma Sextets(cp: nat)
    ensures cp == cp / 0x1000 * 0x1000 + cp / 0x40 % 0x40 * 0x40 + cp % 0x40
    ensures cp == cp / 0x4_0000 * 0x4_0000 + cp / 0x1000 % 0x40 * 0x1000 + cp / 0x40 % 0x40 * 0x40 + cp % 0x40
  {
    assert cp / 0x1000 == cp / 0x40 / 0x40;
    assert cp / 0x4_0000 == cp / 0x1000 / 0x40;
  }

  lemma DecodeEncode(ch: char, rest: Bytes)
    ensures Decode(Encode(ch) + rest) == Some((ch, rest))
  {
    var cp := ch as int;
    Sextets(cp);
    var bs := Encode(ch);
    assert (bs + rest)[|bs|..] == rest;
    assert ToChar(cp) == Some(ch);
  }
}
