/** Decimal numbers as ASCII bytes. */
module Decimal {
  import opened NinoxTypes

  const ZERO: byte := 48

  predicate IsDigit(b: byte) {
    ZERO <= b < ZERO + 10
  }

  function Show(n: nat): (digits: Bytes)
    ensures digits != [] && IsDigit(digits[0]) && (n > 0 ==> digits[0] != ZERO)
  {
    if n < 10 then [ZERO + n] else Show(n / 10) + [ZERO + n % 10]
  }

  /** Reads digits as long as there are any. */
  function ReadOn(n: nat, bs: Bytes): (nat, Bytes)
    decreases |bs|
  {
    if bs == [] || !IsDigit(bs[0]) then (n, bs) else ReadOn(10 * n + (bs[0] - ZERO), bs[1..])
  }

  function Read(bs: Bytes): (r: Option<(nat, Bytes)>)
    ensures r.Some? ==> |r.value.1| < |bs|
  {
    if bs == [] || !IsDigit(bs[0]) then None
    else
      var r := ReadOn(bs[0] - ZERO, bs[1..]);
      ReadOnShrinks(bs[0] - ZERO, bs[1..]);
      Some(r)
  }

  lemma ReadOnShrinks(n: nat, bs: Bytes)
    ensures |ReadOn(n, bs).1| <= |bs|
    decreases |bs|
  {
  }

  lemma {:induction false} ReadOnShow(n: nat, rest: Bytes)
    ensures ReadOn(0, Show(n) + rest) == ReadOn(n, rest)
    decreases n
  {
    if n < 10 {
      assert (Show(n) + rest)[1..] == rest;
    } else {
      var last := [ZERO + n % 10];
      assert Show(n) + rest == Show(n / 10) + (last + rest);
      ReadOnShow(n / 10, last + rest);
      assert (last + rest)[1..] == rest;
    }
  }

  /** Reading undoes showing, in front of anything that is not a digit. */
  lemma ReadShow(n: nat, rest: Bytes)
    requires rest == [] || !IsDigit(rest[0])
    ensures Read(Show(n) + rest) == Some((n, rest))
  {
    ReadOnShow(n, rest);
    var bs := Show(n) + rest;
    assert IsDigit(bs[0]);
    assert ReadOn(0, bs) == ReadOn(bs[0] - ZERO, bs[1..]);
  }
}
