/** leb128.go: unsigned 32-bit LEB128, section 5.2.2 of the WebAssembly Core
    Specification. */
module Leb128 {
  import opened Base

  /** The shortest encoding of n: seven bits a byte, low bits first. */
  function Encode(n: nat): (b: bytes)
    ensures b != []
  {
    if n < 0x80 then [n] else [0x80 + n % 0x80] + Encode(n / 0x80)
  }

  /** The number at the front of b in at most `left` bytes, and what follows it.
      The fifth byte has room for four bits. */
  function Parse(b: bytes, left: nat): Option<(nat, bytes)> {
    if left == 0 || b == [] then None
    else if b[0] < 0x80 then (if left == 1 && b[0] >= 0x10 then None else Some((b[0], b[1..])))
    else
      match Parse(b[1..], left - 1)
      case None => None
      case Some((n, rest)) => Some((b[0] - 0x80 + 0x80 * n, rest))
  }

  function ParseU32(b: bytes): Option<(u32, bytes)> {
    ParseBound(b, 5);
    match Parse(b, 5)
    case None => None
    case Some((n, rest)) => Some((n, rest))
  }

  /** What `left` bytes can hold. */
  function Room(left: nat): (r: nat)
    ensures left > 0 ==> r >= 0x10
  {
    if left == 0 then 0 else if left == 1 then 0x10 else 0x80 * Room(left - 1)
  }

  lemma {:induction false} ParseBound(b: bytes, left: nat)
    ensures Parse(b, left).Some? ==> Parse(b, left).value.0 < Room(left) && |Parse(b, left).value.1| < |b|
    ensures Room(5) == TWO_32
  {
    assert Room(2) == 0x800 && Room(3) == 0x4_0000 && Room(4) == 0x200_0000 && Room(5) == 0x1_0000_0000;
    if left > 0 && b != [] && b[0] >= 0x80 {
      ParseBound(b[1..], left - 1);
    }
  }

  /** ROUND TRIP. What is encoded is read back, and nothing behind it is touched. */
  lemma {:induction false} ParseEncode(n: nat, left: nat, rest: bytes)
    requires n < Room(left)
    ensures Parse(Encode(n) + rest, left) == Some((n, rest))
    decreases left
  {
    var b := Encode(n) + rest;
    if n < 0x80 {
      assert b[1..] == rest;
    } else {
      assert b[1..] == Encode(n / 0x80) + rest;
      ParseEncode(n / 0x80, left - 1, rest);
    }
  }

  lemma ParseU32Encode(n: u32, rest: bytes)
    ensures ParseU32(Encode(n) + rest) == Some((n, rest))
  {
    ParseBound([], 5);
    ParseEncode(n, 5, rest);
  }

  /** A number that was read leaves a proper suffix. */
  lemma {:induction false} ParseSuffix(b: bytes, left: nat)
    ensures Parse(b, left).Some? ==>
      |Parse(b, left).value.1| < |b| && Parse(b, left).value.1 == b[|b| - |Parse(b, left).value.1|..]
  {
    if left > 0 && b != [] {
      if b[0] >= 0x80 {
        ParseSuffix(b[1..], left - 1);
      }
    }
  }

  /** Reading looks at nothing behind the number. */
  lemma {:induction false} ParseLocal(b: bytes, left: nat, more: bytes)
    requires Parse(b, left).Some?
    ensures var (n, rest) := Parse(b, left).value;
      |rest| <= |b| && Parse(b[..|b| - |rest|] + more, left) == Some((n, more))
  {
    ParseSuffix(b, left);
    var rest := Parse(b, left).value.1;
    var c := b[..|b| - |rest|] + more;
    if b[0] < 0x80 {
      assert c[1..] == more;
    } else {
      ParseSuffix(b[1..], left - 1);
      ParseLocal(b[1..], left - 1, more);
      assert c[1..] == b[1..][..|b| - 1 - |rest|] + more;
    }
  }

  // ---- digit by digit ----

  /** 128 to the i. */
  function Power(i: nat): (p: nat)
    ensures p > 0
  {
    if i == 0 then 1 else 0x80 * Power(i - 1)
  }

  /** The bytes of n, a whole number of seven-bit digits, the lowest first; all but
      the last are marked. */
  predicate Digits(b: bytes, n: nat) {
    && b != [] && b[|b| - 1] < 0x80 && n < Power(|b|)
    && (forall i :: 0 <= i < |b| - 1 ==> b[i] >= 0x80)
    && forall i :: 0 <= i < |b| ==> b[i] % 0x80 == n / Power(i) % 0x80
  }

  lemma DivTwice(v: nat, p: nat)
    requires p > 0
    ensures v / 0x80 / p == v / (0x80 * p)
  {
    var a, b := v / 0x80 / p, v / 0x80 % p;
    assert v / 0x80 == a * p + b;
    assert a * (0x80 * p) == 0x80 * (a * p);
    ModUnique(v, 0x80 * p, a, 0x80 * b + v % 0x80);
  }

  /** One more digit in front. */
  lemma DigitsStep(c: byte, b: bytes, n: nat)
    requires c >= 0x80 && Digits(b, n)
    ensures Digits([c] + b, c - 0x80 + 0x80 * n)
  {
    hide Power;
    var all, v := [c] + b, c as int - 0x80 + 0x80 * n;
    PowerStep(|b|);
    PushedDigit(c, n);
    forall i | 0 <= i < |all| ensures all[i] % 0x80 == v / Power(i) % 0x80 {
      if i > 0 {
        PowerStep(i - 1);
        DivTwice(v, Power(i - 1));
      } else {
        PowerZero();
      }
    }
  }

  lemma PushedDigit(c: byte, n: nat)
    requires c >= 0x80
    ensures var v := c as int - 0x80 + 0x80 * n; v / 0x80 == n && v % 0x80 == c % 0x80 && v / 1 == v
  {
  }

  lemma DigitAlone(c: byte)
    requires c < 0x80
    ensures Digits([c], c)
  {
    assert Power(0) == 1 && Power(1) == 0x80;
  }

  /** The encoding has no digit too many. */
  lemma {:induction false} EncodeDigits(n: nat)
    ensures Digits(Encode(n), n) && (|Encode(n)| > 1 ==> n >= Power(|Encode(n)| - 1))
  {
    hide Digits;
    if n < 0x80 {
      DigitAlone(n);
    } else {
      EncodeDigits(n / 0x80);
      DigitsStep(0x80 + n % 0x80, Encode(n / 0x80), n / 0x80);
    }
  }

  /** What is read are the digits in front; there may be leading zeros. */
  lemma {:induction false} ParseDigits(b: bytes, left: nat)
    requires Parse(b, left).Some?
    ensures var (n, rest) := Parse(b, left).value;
      |rest| < |b| && Digits(b[..|b| - |rest|], n)
  {
    hide Digits;
    ParseSuffix(b, left);
    var (n, rest) := Parse(b, left).value;
    if b[0] < 0x80 {
      DigitAlone(b[0]);
      assert b[..1] == [b[0]];
    } else {
      ParseDigits(b[1..], left - 1);
      var tail := b[1..][..|b| - 1 - |rest|];
      DigitsStep(b[0], tail, Parse(b[1..], left - 1).value.0);
      assert b[..|b| - |rest|] == [b[0]] + tail;
    }
  }

  /** Nothing is read when no byte ends the number in time, or its fifth byte is
      too large. */
  lemma {:induction false} ParseRefused(b: bytes, left: nat)
    ensures Parse(b, left).None? <==>
      || (forall i :: 0 <= i < left && i < |b| ==> b[i] >= 0x80)
      || (|b| >= left > 0 && (forall i :: 0 <= i < left - 1 ==> b[i] >= 0x80) && 0x10 <= b[left - 1] < 0x80)
  {
    if left > 0 && b != [] && b[0] >= 0x80 {
      ParseRefused(b[1..], left - 1);
      var c := b[1..];
      assert forall i :: 0 <= i < |c| ==> c[i] == b[i + 1];
      assert forall i :: 0 < i < |b| ==> b[i] == c[i - 1];
    }
  }

  /** EncodeUint64, on the values that EncodeUint32 passes to it. */
  method EncodeUint32(value: u32) returns (buf: bytes)
    ensures buf == Encode(value)
  {
    buf := [];
    var v: nat := value;
    while true
      invariant buf + Encode(v) == Encode(value)
      decreases v
    {
      var b := v % 0x80;
      var more := v / 0x80 != 0;
      assert Encode(v) == if more then [0x80 + b] + Encode(v / 0x80) else [b];
      assert more ==> buf + ([0x80 + b] + Encode(v / 0x80)) == (buf + [0x80 + b]) + Encode(v / 0x80);
      v := v / 0x80;
      buf := buf + [if more then 0x80 + b else b];
      if !more {
        return;
      }
    }
  }

  /** LoadUint32: the value and the bytes read, or an error. Bits that are or-ed
      in never overlap, so they are added here. */
  method LoadUint32(buf: bytes) returns (r: Option<(u32, nat)>)
    ensures ParseU32(buf) == (if r.None? then None else if r.value.1 <= |buf| then Some((r.value.0, buf[r.value.1..]))
      else None)
    ensures r.Some? ==> 0 < r.value.1 <= |buf|
  {
    hide Parse, Power, Room;
    var ret: nat := 0;
    PowerZero();
    assert buf[0..] == buf;
    for i := 0 to 5
      invariant i <= |buf|
      invariant Parse(buf, 5) == Shifted(ret, Power(i), Parse(buf[i..], 5 - i))
    {
      if i >= |buf| {
        NoBytes(buf[i..], 5 - i);
        return None;
      }
      var b := buf[i];
      assert buf[i..][0] == b && buf[i..][1..] == buf[i + 1..];
      ParseBound(buf, 5);
      FirstByte(buf[i..], 5 - i);
      if b < 0x80 {
        if i == 4 && b >= 0x10 {
          return None;
        }
        return Some((ret + b * Power(i), i + 1));
      }
      PowerStep(i);
      ShiftTwice(ret, b - 0x80, Power(i), Parse(buf[i + 1..], 5 - (i + 1)));
      ret := ret + (b - 0x80) * Power(i);
    }
    NoBytes(buf[5..], 0);
    return None;
  }

  lemma FirstByte(b: bytes, left: nat)
    requires left > 0 && b != []
    ensures b[0] < 0x80 ==> Parse(b, left) == if left == 1 && b[0] >= 0x10 then None else Some((b[0], b[1..]))
    ensures b[0] >= 0x80 ==> var r := Parse(b[1..], left - 1);
      Parse(b, left) == if r.None? then None else Some((b[0] - 0x80 + 0x80 * r.value.0, r.value.1))
  {
  }

  lemma NoBytes(b: bytes, left: nat)
    ensures left == 0 || b == [] ==> Parse(b, left).None?
  {
  }

  lemma PowerZero()
    ensures Power(0) == 1
  {
  }

  lemma PowerStep(i: nat)
    ensures Power(i + 1) == 0x80 * Power(i)
  {
  }

  /** A number whose high part has been read, below `unit` times it. */
  function Shifted(low: nat, unit: nat, r: Option<(nat, bytes)>): Option<(nat, bytes)> {
    match r
    case None => None
    case Some((n, rest)) => Some((low + n * unit, rest))
  }

  lemma ShiftTwice(low: nat, b: nat, unit: nat, r: Option<(nat, bytes)>)
    ensures Shifted(low, unit, if r.None? then None else Some((b + 0x80 * r.value.0, r.value.1))) ==
      Shifted(low + b * unit, 0x80 * unit, r)
  {
    if r.Some? {
      var n := r.value.0;
      assert (b + 0x80 * n) * unit == b * unit + n * (0x80 * unit);
    }
  }
}
