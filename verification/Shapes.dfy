/** The reference side of the Canonical ABI: despecialised types (`Shape`), the
    values they hold (`Sem`), their layout in linear memory and their
    flattening. Sizes are unbounded here; the 32-bit arithmetic of the code is
    proved against these functions in `Layout` and `Flattening`. */
module Shapes {
  import opened Base

  datatype Width = W1 | W2 | W4 | W8 {
    function Bytes(): (n: nat)
      ensures IsWidth(n)
    {
      match this
      case W1 => 1
      case W2 => 2
      case W4 => 4
      case W8 => 8
    }
  }

  /** A value that is one integer: a bool, a Unicode scalar, an integer of some
      width, a flags bitset of some width, or the bits of a float. */
  datatype Scalar = BoolS | CharS | IntS(w: Width) | FlagsS(w: Width) | F32S | F64S

  /** A type after despecialisation. A case without payload is `Product([])`.
      `Bad` is a type the ABI refuses. */
  datatype Shape =
    | Leaf(scalar: Scalar)
    | Text
    | List(elem: Shape)
    | Product(fields: seq<Shape>)
    | Sum(cases: seq<Shape>)
    | Bad

  const Unit := Product([])

  /** The value of a shape. Integers are kept as the raw unsigned bits that the
      code hands to the encoder, before it truncates them. */
  datatype Sem =
    | SInt(n: nat)
    | SText(bs: bytes)
    | SList(elems: seq<Sem>)
    | SProduct(fields: seq<Sem>)
    | SSum(disc: nat, payload: Sem)

  const SUnit := SProduct([])

  /** Core WebAssembly value types. */
  datatype Kind = I32 | I64 | F32 | F64

  // ---- scalars ----

  function ScalarBytes(s: Scalar): (n: nat)
    ensures IsWidth(n)
  {
    match s
    case BoolS => 1
    case CharS => 4
    case IntS(w) => w.Bytes()
    case FlagsS(w) => w.Bytes()
    case F32S => 4
    case F64S => 8
  }

  function ScalarKind(s: Scalar): Kind {
    match s
    case IntS(W8) => I64
    case F32S => F32
    case F64S => F64
    case _ => I32
  }

  function KindSpan(k: Kind): nat {
    if k == I32 || k == F32 then TWO_32 else TWO_64
  }

  /** A Unicode scalar value: below 0x110000 and not a surrogate. */
  predicate UnicodeScalar(n: int) {
    0 <= n < 0x11_0000 && !(0xD800 <= n <= 0xDFFF)
  }

  /** The raw bits an encoder accepts for a scalar. */
  predicate Accepts(s: Scalar, n: nat) {
    && n < KindSpan(ScalarKind(s))
    && (s.CharS? ==> UnicodeScalar(n))
    && (s.BoolS? ==> n < 2)
  }

  // ---- layout ----

  predicate IsAlignment(a: int) {
    a == 1 || a == 2 || a == 4 || a == 8
  }

  /** `p` is a multiple of `a`, counted down (`AlignedIsMod`: the remainder is 0). */
  predicate Aligned(p: nat, a: nat)
    requires IsAlignment(a)
  {
    p == 0 || (p >= a && Aligned(p - a, a))
  }

  /** The least multiple of `a` that is at least `x`. */
  function AlignUp(x: nat, a: nat): (r: nat)
    requires IsAlignment(a)
    ensures x <= r < x + a && Aligned(r, a)
  {
    if x == 0 then 0 else if x <= a then a else a + AlignUp(x - a, a)
  }

  /** Bytes of the discriminant of a sum with `n` cases: the fewest of 1, 2 and
      4 that can hold every case index. */
  function DiscBytes(n: nat): (b: nat)
    ensures b == 1 || b == 2 || b == 4
    ensures n < TWO_32 ==> n <= Span(b)
  {
    if n <= 0x100 then 1 else if n <= 0x1_0000 then 2 else 4
  }

  /** Neither unsupported nor with an impossible number of cases. The element
      of a list is only looked at when the list is stored or loaded. */
  predicate Valid(s: Shape) {
    match s
    case Leaf(_) | Text | List(_) => true
    case Product(fs) => forall i :: 0 <= i < |fs| ==> Valid(fs[i])
    case Sum(cs) => 0 < |cs| < TWO_32 && forall i :: 0 <= i < |cs| ==> Valid(cs[i])
    case Bad => false
  }

  function Align(s: Shape): (a: nat)
    ensures IsAlignment(a)
    decreases s, 0
  {
    match s
    case Leaf(l) => ScalarBytes(l)
    case Text | List(_) => 4
    case Product(fs) => MaxAlign(fs, |fs|)
    case Sum(cs) => Max(DiscBytes(|cs|), MaxAlign(cs, |cs|))
    case Bad => 1
  }

  /** The largest alignment among the first n, and at least 1. */
  function MaxAlign(ss: seq<Shape>, n: nat): (a: nat)
    requires n <= |ss|
    ensures IsAlignment(a)
    decreases ss, 0, n
  {
    if n == 0 then 1 else Max(MaxAlign(ss, n - 1), Align(ss[n - 1]))
  }

  function Size(s: Shape): nat
    decreases s, 0
  {
    match s
    case Leaf(l) => ScalarBytes(l)
    case Text | List(_) => 8
    case Product(fs) => AlignUp(FieldsEnd(fs, |fs|), MaxAlign(fs, |fs|))
    case Sum(cs) => AlignUp(PayloadOffset(cs) + MaxSize(cs, |cs|), Align(s))
    case Bad => 0
  }

  /** Offset just past the first n fields. */
  function FieldsEnd(fs: seq<Shape>, n: nat): nat
    requires n <= |fs|
    decreases fs, 0, n
  {
    if n == 0 then 0 else AlignUp(FieldsEnd(fs, n - 1), Align(fs[n - 1])) + Size(fs[n - 1])
  }

  /** Offset of field i. */
  function FieldOffset(fs: seq<Shape>, i: nat): nat
    requires i < |fs|
  {
    AlignUp(FieldsEnd(fs, i), Align(fs[i]))
  }

  function MaxSize(ss: seq<Shape>, n: nat): nat
    requires n <= |ss|
    decreases ss, 0, n
  {
    if n == 0 then 0 else Max(MaxSize(ss, n - 1), Size(ss[n - 1]))
  }

  /** Offset of the payload of a sum, the same for every case. */
  function PayloadOffset(cs: seq<Shape>): nat {
    AlignUp(DiscBytes(|cs|), MaxAlign(cs, |cs|))
  }

  /** The bytes that n consecutive elements take. */
  function ElemsSize(elem: Shape, n: nat): nat {
    if n == 0 then 0 else ElemsSize(elem, n - 1) + Size(elem)
  }

  // ---- flattening ----

  /** The `join` of two core types in the Canonical ABI. */
  function Join(a: Kind, b: Kind): Kind {
    if a == b then a
    else if (a == I32 && b == F32) || (a == F32 && b == I32) then I32
    else I64
  }

  /** Position by position join; the longer tail is kept. */
  function JoinFlats(a: seq<Kind>, b: seq<Kind>): (r: seq<Kind>)
    ensures |r| == Max(|a|, |b|)
  {
    seq(Max(|a|, |b|), i requires 0 <= i < Max(|a|, |b|) =>
      if i >= |a| then b[i] else if i >= |b| then a[i] else Join(a[i], b[i]))
  }

  function Flatten(s: Shape): seq<Kind>
    decreases s, 0
  {
    match s
    case Leaf(l) => [ScalarKind(l)]
    case Text | List(_) => [I32, I32]
    case Product(fs) => FlattenFields(fs, |fs|)
    case Sum(cs) => [I32] + JoinCases(cs, |cs|)
    case Bad => []
  }

  function FlattenFields(fs: seq<Shape>, n: nat): seq<Kind>
    requires n <= |fs|
    decreases fs, 0, n
  {
    if n == 0 then [] else FlattenFields(fs, n - 1) + Flatten(fs[n - 1])
  }

  /** The join of the flattened payloads of the first n cases. */
  function JoinCases(cs: seq<Shape>, n: nat): seq<Kind>
    requires n <= |cs|
    decreases cs, 0, n
  {
    if n == 0 then [] else JoinFlats(JoinCases(cs, n - 1), Flatten(cs[n - 1]))
  }
}
