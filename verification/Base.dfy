/** Results, machine integers and little-endian bytes shared by every module. */
module Base {

  /** Why an operation failed. `InnerCheck` marks the re-checks of bounds and
      32-bit overflow that the code repeats after its one up-front check;
      every other failure is `Rejected`. */
  datatype Fault = Rejected | InnerCheck

  datatype Option<+T> = None | Some(value: T)

  datatype Result<+T> = Ok(value: T) | Err(fault: Fault) {
    predicate IsFailure() {
      Err?
    }

    function PropagateFailure<U>(): Result<U>
      requires Err?
    {
      Err(fault)
    }

    function Extract(): T
      requires Ok?
    {
      value
    }
  }

  const TWO_32: int := 0x1_0000_0000
  const TWO_64: int := 0x1_0000_0000_0000_0000

  type byte = x: int | 0 <= x < 0x100
  type u32 = x: int | 0 <= x < 0x1_0000_0000
  type s32 = x: int | -0x8000_0000 <= x < 0x8000_0000
  type u64 = x: int | 0 <= x < 0x1_0000_0000_0000_0000
  type s64 = x: int | -0x8000_0000_0000_0000 <= x < 0x8000_0000_0000_0000
  type bytes = seq<byte>

  function Max(a: int, b: int): int {
    if a >= b then a else b
  }

  /** 256 to the n. */
  function Pow256(n: nat): (p: nat)
    ensures p > 0
  {
    if n == 0 then 1 else 256 * Pow256(n - 1)
  }

  lemma Pow256Values()
    ensures Pow256(1) == 0x100
    ensures Pow256(2) == 0x1_0000
    ensures Pow256(4) == TWO_32
    ensures Pow256(8) == TWO_64
  {
    assert Pow256(2) == 256 * Pow256(1);
    assert Pow256(3) == 256 * Pow256(2);
    assert Pow256(4) == 256 * Pow256(3);
    assert Pow256(5) == 256 * Pow256(4);
    assert Pow256(6) == 256 * Pow256(5);
    assert Pow256(7) == 256 * Pow256(6);
  }

  // ---- widths: 1, 2, 4 and 8 bytes ----

  predicate IsWidth(w: int) {
    w == 1 || w == 2 || w == 4 || w == 8
  }

  function Span(w: nat): nat
    requires IsWidth(w)
  {
    if w == 1 then 0x100
    else if w == 2 then 0x1_0000
    else if w == 4 then 0x1_0000_0000
    else 0x1_0000_0000_0000_0000
  }

  /** The low w bytes of an integer: its unsigned value at that width. */
  function Low(w: nat, n: int): (r: nat)
    requires IsWidth(w)
    ensures r < Span(w)
    ensures 0 <= n < Span(w) ==> r == n
  {
    if w == 1 then n % 0x100
    else if w == 2 then n % 0x1_0000
    else if w == 4 then n % 0x1_0000_0000
    else n % 0x1_0000_0000_0000_0000
  }

  /** The two's complement reading of w bytes. */
  function Signed(w: nat, n: nat): (i: int)
    requires IsWidth(w) && n < Span(w)
    ensures 0 <= 2 * i + Span(w) && 2 * i < Span(w)
  {
    if 2 * n >= Span(w) then n - Span(w) else n
  }

  /** Two's complement cut to w bytes is the number again exactly when the
      number fits w bytes. */
  lemma SignedLow(w: nat, i: int)
    requires IsWidth(w)
    ensures Signed(w, Low(w, i)) == i <==> 0 <= 2 * i + Span(w) && 2 * i < Span(w)
  {
    if w == 1 {
      assert Low(1, i) == i % 0x100;
    } else if w == 2 {
      assert Low(2, i) == i % 0x1_0000;
    } else if w == 4 {
      assert Low(4, i) == i % 0x1_0000_0000;
    } else {
      assert Low(8, i) == i % 0x1_0000_0000_0000_0000;
    }
  }

  lemma LowLow(w: nat, i: int)
    requires w == 1 || w == 2 || w == 4
    ensures Low(w, Low(4, i)) == Low(w, i)
  {
    if w == 1 {
      ModModDivisor(i, 0x100, 0x100_0000);
    } else if w == 2 {
      ModModDivisor(i, 0x1_0000, 0x1_0000);
    }
  }

  lemma ModModDivisor(i: int, m: nat, k: nat)
    requires m > 0 && k > 0
    ensures m * k > 0 && i % (m * k) % m == i % m
  {
    var r := i % (m * k);
    var q := i / (m * k);
    assert i == q * (m * k) + r;
    assert q * (m * k) == q * k * m;
    ModUnique(i, m, q * k + r / m, r % m);
  }

  /** The low n bytes of v, least significant first. */
  function LittleEndian(n: nat, v: nat): (bs: bytes)
    ensures |bs| == n
  {
    if n == 0 then [] else [v % 256] + LittleEndian(n - 1, v / 256)
  }

  function FromLittleEndian(bs: bytes): nat {
    if bs == [] then 0 else bs[0] + 256 * FromLittleEndian(bs[1..])
  }

  lemma ModUnique(x: int, m: int, q: int, r: int)
    requires m > 0 && 0 <= r < m && x == q * m + r
    ensures x % m == r && x / m == q
  {
    var d := x / m - q;
    assert x == x / m * m + x % m;
    assert d * m == r - x % m;
    assert d > 0 ==> d * m >= m;
    assert d < 0 ==> d * m <= -m;
  }

  /** The low digit and the rest, modulo 256 p. */
  lemma ModStep(v: nat, p: nat)
    requires p > 0
    ensures v % (256 * p) == v % 256 + 256 * (v / 256 % p)
  {
    var a, b := v / 256 / p, v / 256 % p;
    assert v / 256 == a * p + b;
    assert a * (256 * p) == 256 * (a * p);
    ModUnique(v, 256 * p, a, 256 * b + v % 256);
  }

  /** Reading back n little-endian bytes gives the value modulo 256^n. */
  lemma {:induction false} LittleEndianRoundTrip(n: nat, v: nat)
    ensures FromLittleEndian(LittleEndian(n, v)) == v % Pow256(n)
  {
    if n == 0 {
      assert Pow256(0) == 1;
    } else {
      LittleEndianRoundTrip(n - 1, v / 256);
      assert LittleEndian(n, v)[1..] == LittleEndian(n - 1, v / 256);
      ModStep(v, Pow256(n - 1));
    }
  }

  lemma LittleEndianLow(w: nat, n: nat)
    requires IsWidth(w)
    ensures FromLittleEndian(LittleEndian(w, n)) == Low(w, n)
  {
    LittleEndianRoundTrip(w, n);
    Pow256Values();
  }

  lemma DivTwice(v: nat, p: nat)
    requires p > 0
    ensures v / 256 / p == v / (256 * p)
  {
    var a, b := v / 256 / p, v / 256 % p;
    assert v / 256 == a * p + b;
    assert a * (256 * p) == 256 * (a * p);
    ModUnique(v, 256 * p, a, 256 * b + v % 256);
  }

  /** Byte i holds the i-th digit to the base 256, the lowest first. */
  lemma {:induction false} LittleEndianAt(n: nat, v: nat, i: nat)
    requires i < n
    ensures LittleEndian(n, v)[i] == v / Pow256(i) % 256
  {
    if i > 0 {
      LittleEndianAt(n - 1, v / 256, i - 1);
      DivTwice(v, Pow256(i - 1));
    }
  }

  lemma {:induction false} FromLittleEndianAt(bs: bytes, i: nat)
    requires i < |bs|
    ensures FromLittleEndian(bs) / Pow256(i) % 256 == bs[i]
  {
    var rest := FromLittleEndian(bs[1..]);
    if i > 0 {
      FromLittleEndianAt(bs[1..], i - 1);
      assert (bs[0] + 256 * rest) / 256 == rest;
      DivTwice(bs[0] + 256 * rest, Pow256(i - 1));
    }
  }

  lemma {:induction false} FromLittleEndianBound(bs: bytes)
    ensures FromLittleEndian(bs) < Pow256(|bs|)
  {
    if bs != [] {
      FromLittleEndianBound(bs[1..]);
    }
  }
}
