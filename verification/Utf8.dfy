/** Well-formed UTF-8 (the byte ranges of table 3-7 of the Unicode Standard),
    the condition under which a string may be lifted. */
module Utf8 {
  import opened Base

  function Continuation(b: byte): bool {
    0x80 <= b <= 0xBF
  }

  /** Length of the well-formed sequence that starts `s`, or 0 if there is none. */
  function ScalarLength(s: bytes): (n: nat)
    ensures n <= |s|
  {
    if s == [] then 0
    else if s[0] <= 0x7F then 1
    else if |s| >= 2 && 0xC2 <= s[0] <= 0xDF && Continuation(s[1]) then 2
    else if |s| >= 3 && Continuation(s[1]) && Continuation(s[2])
            && (|| (s[0] == 0xE0 && s[1] >= 0xA0)
                || 0xE1 <= s[0] <= 0xEC
                || (s[0] == 0xED && s[1] <= 0x9F)
                || 0xEE <= s[0] <= 0xEF) then 3
    else if |s| >= 4 && Continuation(s[1]) && Continuation(s[2]) && Continuation(s[3])
            && (|| (s[0] == 0xF0 && s[1] >= 0x90)
                || 0xF1 <= s[0] <= 0xF3
                || (s[0] == 0xF4 && s[1] <= 0x8F)) then 4
    else 0
  }

  predicate Valid(s: bytes)
    decreases |s|
  {
    s == [] || (ScalarLength(s) > 0 && Valid(s[ScalarLength(s)..]))
  }

  // ---- what is well-formed: the encodings of Unicode scalar values ----

  /** The UTF-8 form of one number, of one to four bytes with six bits in each
      byte behind the first. */
  function EncodeScalar(c: nat): (b: bytes)
    requires c < 0x11_0000
    ensures b != []
  {
    if c < 0x80 then [c]
    else if c < 0x800 then [0xC0 + c / 0x40, 0x80 + c % 0x40]
    else if c < 0x1_0000 then [0xE0 + c / 0x1000, 0x80 + c / 0x40 % 0x40, 0x80 + c % 0x40]
    else [0xF0 + c / 0x4_0000, 0x80 + c / 0x1000 % 0x40, 0x80 + c / 0x40 % 0x40, 0x80 + c % 0x40]
  }

  /** Surrogates are no scalar values. */
  predicate AllScalars(cs: seq<nat>) {
    forall i :: 0 <= i < |cs| ==> cs[i] < 0x11_0000 && !(0xD800 <= cs[i] < 0xE000)
  }

  function EncodeText(cs: seq<nat>): bytes
    requires AllScalars(cs)
  {
    if cs == [] then [] else EncodeScalar(cs[0]) + EncodeText(cs[1..])
  }

  lemma EncodedScalar(c: nat, rest: bytes)
    requires c < 0x11_0000 && !(0xD800 <= c < 0xE000)
    ensures ScalarLength(EncodeScalar(c) + rest) == |EncodeScalar(c)|
  {
    var b := EncodeScalar(c);
    var s := b + rest;
    assert forall i :: 0 <= i < |b| ==> s[i] == b[i];
    if c < 0x80 {
      assert s[0] < 0x80;
    } else if c < 0x800 {
      LeadOfTwo(s);
    } else if c < 0x1_0000 {
      LeadOfThree(c, s);
    } else {
      LeadOfFour(c, s);
    }
  }

  lemma LeadOfTwo(s: bytes)
    requires |s| >= 2 && 0xC2 <= s[0] <= 0xDF && Continuation(s[1])
    ensures ScalarLength(s) == 2
  {
  }

  lemma LeadOfThree(c: nat, s: bytes)
    requires 0x800 <= c < 0x1_0000 && !(0xD800 <= c < 0xE000) && |s| >= 3
    requires s[0] == 0xE0 + c / 0x1000 && s[1] == 0x80 + c / 0x40 % 0x40 && s[2] == 0x80 + c % 0x40
    ensures ScalarLength(s) == 3
  {
  }

  lemma LeadOfFour(c: nat, s: bytes)
    requires 0x1_0000 <= c < 0x11_0000 && |s| >= 4 && s[0] == 0xF0 + c / 0x4_0000
    requires s[1] == 0x80 + c / 0x1000 % 0x40 && s[2] == 0x80 + c / 0x40 % 0x40 && s[3] == 0x80 + c % 0x40
    ensures ScalarLength(s) == 4
  {
  }

  /** The scalar value in front. */
  lemma DecodedScalar(s: bytes) returns (c: nat)
    requires ScalarLength(s) > 0
    ensures c < 0x11_0000 && !(0xD800 <= c < 0xE000)
    ensures s[..ScalarLength(s)] == EncodeScalar(c)
  {
    var n := ScalarLength(s);
    if n == 1 {
      c := s[0];
    } else if n == 2 {
      c := TwoBytes(s[0], s[1]);
    } else if n == 3 {
      c := ThreeBytes(s[0], s[1], s[2]);
    } else {
      c := FourBytes(s[0], s[1], s[2], s[3]);
    }
  }

  lemma TwoBytes(a: byte, b: byte) returns (c: nat)
    requires 0xC2 <= a <= 0xDF && Continuation(b)
    ensures 0x80 <= c < 0x800 && EncodeScalar(c) == [a, b]
  {
    c := 0x40 * (a as int - 0xC0) + (b as int - 0x80);
  }

  /** Six bits more. */
  lemma SixBits(q: nat, r: nat)
    requires r < 0x40
    ensures (0x40 * q + r) / 0x40 == q && (0x40 * q + r) % 0x40 == r
    ensures (0x40 * q + r) / 0x1000 == q / 0x40 && (0x40 * q + r) / 0x4_0000 == q / 0x1000
  {
  }

  lemma ThreeBytes(a: byte, b: byte, d: byte) returns (c: nat)
    requires 0xE0 <= a <= 0xEF && Continuation(b) && Continuation(d) && (a == 0xE0 ==> b >= 0xA0)
    ensures 0x800 <= c < 0x1_0000 && EncodeScalar(c) == [a, b, d]
    ensures 0xD800 <= c < 0xE000 <==> a == 0xED && b > 0x9F
  {
    var m := 0x40 * (a as int - 0xE0) + (b as int - 0x80);
    SixBits(a as int - 0xE0, b as int - 0x80);
    c := 0x40 * m + (d as int - 0x80);
    SixBits(m, d as int - 0x80);
  }

  lemma FourBytes(a: byte, b: byte, d: byte, e: byte) returns (c: nat)
    requires 0xF0 <= a <= 0xF4 && Continuation(b) && Continuation(d) && Continuation(e)
    requires (a == 0xF0 ==> b >= 0x90) && (a == 0xF4 ==> b <= 0x8F)
    ensures 0x1_0000 <= c < 0x11_0000 && EncodeScalar(c) == [a, b, d, e]
  {
    var l := 0x40 * (a as int - 0xF0) + (b as int - 0x80);
    SixBits(a as int - 0xF0, b as int - 0x80);
    var m := 0x40 * l + (d as int - 0x80);
    SixBits(l, d as int - 0x80);
    c := 0x40 * m + (e as int - 0x80);
    SixBits(m, e as int - 0x80);
  }

  /** WELL-FORMED TEXT IS ENCODED TEXT. */
  lemma {:induction false} ValidIff(s: bytes)
    ensures Valid(s) <==> exists cs: seq<nat> :: AllScalars(cs) && s == EncodeText(cs)
  {
    if Valid(s) {
      var cs := Decoded(s);
    }
    forall cs: seq<nat> | AllScalars(cs) && s == EncodeText(cs) ensures Valid(s) {
      EncodedValid(cs);
    }
  }

  lemma {:induction false} Decoded(s: bytes) returns (cs: seq<nat>)
    requires Valid(s)
    ensures AllScalars(cs) && s == EncodeText(cs)
    decreases |s|
  {
    if s == [] {
      cs := [];
    } else {
      var n := ScalarLength(s);
      var c := DecodedScalar(s);
      var rest := Decoded(s[n..]);
      cs := [c] + rest;
      assert cs[1..] == rest && s == s[..n] + s[n..];
    }
  }

  lemma {:induction false} EncodedValid(cs: seq<nat>)
    requires AllScalars(cs)
    ensures Valid(EncodeText(cs))
  {
    if cs != [] {
      EncodedScalar(cs[0], EncodeText(cs[1..]));
      EncodedValid(cs[1..]);
      var b := EncodeScalar(cs[0]);
      assert EncodeText(cs)[|b|..] == EncodeText(cs[1..]);
    }
  }
}
