/** The reference semantics of the flat encoding: lowering a value to core
    values and lifting it back. */
module Flat {
  import opened Base
  import opened Shapes
  import opened Memory

  const MAX_FLAT_PARAMS: nat := 16
  const MAX_FLAT_RESULTS: nat := 1

  /** A core WebAssembly value: its kind and its bits. */
  datatype CoreVal = CoreVal(kind: Kind, bits: u64)

  datatype Lowered = Lowered(cvs: seq<CoreVal>, st: State)

  function Kinds(cvs: seq<CoreVal>): (ks: seq<Kind>)
    ensures |ks| == |cvs|
  {
    seq(|cvs|, i requires 0 <= i < |cvs| => cvs[i].kind)
  }

  /** The bits a kind holds. */
  function Cut(k: Kind, bits: u64): (r: u64)
    ensures r < KindSpan(k)
    ensures bits < KindSpan(k) ==> r == bits
  {
    if k == I32 || k == F32 then bits % 0x1_0000_0000 else bits
  }

  // ---- joined cases ----

  lemma {:induction false} JoinCovers(cs: seq<Shape>, n: nat, d: nat)
    requires d < n <= |cs|
    ensures |Flatten(cs[d])| <= |JoinCases(cs, n)|
    ensures forall i :: 0 <= i < |Flatten(cs[d])| ==>
      Join(Flatten(cs[d])[i], JoinCases(cs, n)[i]) == JoinCases(cs, n)[i]
    decreases n
  {
    if d < n - 1 {
      JoinCovers(cs, n - 1, d);
    }
  }

  /** The values of a case at the joined kinds, the rest filled with zeros. */
  function Widen(cvs: seq<CoreVal>, ks: seq<Kind>): (r: seq<CoreVal>)
    ensures |r| == |ks|
  {
    seq(|ks|, i requires 0 <= i < |ks| => CoreVal(ks[i], if i < |cvs| then cvs[i].bits else 0))
  }

  /** The first values at the kinds of a case. */
  function Narrow(cvs: seq<CoreVal>, ks: seq<Kind>): (r: seq<CoreVal>)
    requires |ks| <= |cvs|
    ensures |r| == |ks|
  {
    seq(|ks|, i requires 0 <= i < |ks| => CoreVal(ks[i], Cut(ks[i], cvs[i].bits)))
  }

  // ---- lowering ----

  function Lower(st: State, s: Shape, x: Sem): Result<Lowered>
    decreases s, 0
  {
    match s
    case Leaf(l) =>
      if x.SInt? && Accepts(l, x.n) then Ok(Lowered([CoreVal(ScalarKind(l), x.n)], st)) else Err(Rejected)
    case Text => if x.SText? then LowerText(st, x.bs) else Err(Rejected)
    case List(elem) => if x.SList? then LowerList(st, elem, x.elems) else Err(Rejected)
    case Product(fs) =>
      if x.SProduct? && |x.fields| == |fs| then LowerFields(st, fs, x.fields, |fs|) else Err(Rejected)
    case Sum(cs) => if x.SSum? && x.disc < |cs| && x.disc < TWO_32 then LowerSum(st, cs, x.disc, x.payload)
      else Err(Rejected)
    case Bad => Err(Rejected)
  }

  function LowerText(st: State, bs: bytes): Result<Lowered> {
    var (q, st1) :- PlaceText(st, bs);
    Ok(Lowered([CoreVal(I32, q), CoreVal(I32, |bs|)], st1))
  }

  function LowerList(st: State, elem: Shape, xs: seq<Sem>): Result<Lowered> {
    var (q, st1) :- PlaceList(st, elem, xs);
    Ok(Lowered([CoreVal(I32, q), CoreVal(I32, |xs|)], st1))
  }

  function LowerFields(st: State, fs: seq<Shape>, xs: seq<Sem>, n: nat): Result<Lowered>
    requires n <= |fs| == |xs|
    decreases fs, 0, n
  {
    if n == 0 then Ok(Lowered([], st)) else
    var a :- LowerFields(st, fs, xs, n - 1);
    var b :- Lower(a.st, fs[n - 1], xs[n - 1]);
    Ok(Lowered(a.cvs + b.cvs, b.st))
  }

  function LowerSum(st: State, cs: seq<Shape>, d: u32, x: Sem): Result<Lowered>
    requires d < |cs|
    decreases cs, 0
  {
    var a :- Lower(st, cs[d], x);
    Ok(Lowered([CoreVal(I32, d)] + Widen(a.cvs, JoinCases(cs, |cs|)), a.st))
  }

  // ---- lifting ----

  /** What a scalar reads as, from the bits of its core value. */
  function LiftScalar(s: Scalar, bits: u64): Result<nat> {
    match s
    case BoolS => Ok(if Low(4, bits) != 0 then 1 else 0)
    case CharS => if UnicodeScalar(Low(4, bits)) then Ok(Low(4, bits)) else Err(Rejected)
    case IntS(w) => Ok(Low(w.Bytes(), bits))
    case FlagsS(_) => Ok(Low(4, bits))
    case F32S => Ok(Low(4, bits))
    case F64S => Ok(bits)
  }

  function Lift(m: bytes, s: Shape, cvs: seq<CoreVal>): Result<Sem>
    requires |cvs| == |Flatten(s)|
    decreases s, 0
  {
    match s
    case Leaf(l) =>
      var n :- LiftScalar(l, cvs[0].bits);
      Ok(SInt(n))
    case Text => LoadText(m, Low(4, cvs[0].bits), Low(4, cvs[1].bits))
    case List(elem) => LoadList(m, Low(4, cvs[0].bits), Low(4, cvs[1].bits), elem)
    case Product(fs) =>
      var xs :- LiftFields(m, fs, cvs, |fs|);
      Ok(SProduct(xs))
    case Sum(cs) => LiftSum(m, cs, cvs)
    case Bad => Err(Rejected)
  }

  function LiftFields(m: bytes, fs: seq<Shape>, cvs: seq<CoreVal>, n: nat): (r: Result<seq<Sem>>)
    requires n <= |fs| && |cvs| == |FlattenFields(fs, n)|
    ensures r.Ok? ==> |r.value| == n
    decreases fs, 0, n
  {
    if n == 0 then Ok([]) else
    var k := |FlattenFields(fs, n - 1)|;
    var xs :- LiftFields(m, fs, cvs[..k], n - 1);
    var x :- Lift(m, fs[n - 1], cvs[k..]);
    Ok(xs + [x])
  }

  function LiftSum(m: bytes, cs: seq<Shape>, cvs: seq<CoreVal>): Result<Sem>
    requires |cvs| == 1 + |JoinCases(cs, |cs|)|
    decreases cs, 0
  {
    var d := Low(4, cvs[0].bits);
    if d >= |cs| then Err(Rejected) else
    JoinCovers(cs, |cs|, d);
    var x :- Lift(m, cs[d], Narrow(cvs[1..], Flatten(cs[d])));
    Ok(SSum(d, x))
  }

  // ---- with spilling ----

  predicate Spills(s: Shape) {
    |Flatten(s)| > MAX_FLAT_PARAMS
  }

  /** A value whose shape flattens to more than 16 core values is stored in a
      block of its own, and the block's address is passed instead. */
  function LowerTop(st: State, s: Shape, x: Sem): Result<Lowered> {
    if !Valid(s) then Err(Rejected)
    else if !Spills(s) then Lower(st, s, x)
    else Spill(st, s, x)
  }

  function Spill(st: State, s: Shape, x: Sem): Result<Lowered> {
    if !Valid(s) || Size(s) >= TWO_32 then Err(Rejected) else
    var (p, h) :- Grow(st.heap, Align(s), Size(s));
    var sb :- StoreAt(st.(heap := h), p, s, x);
    Ok(Lowered([CoreVal(I32, p)], sb))
  }

  function LiftTop(m: bytes, s: Shape, cvs: seq<CoreVal>): Result<Sem>
    requires |cvs| == if Spills(s) then 1 else |Flatten(s)|
  {
    if !Valid(s) then Err(Rejected)
    else if Spills(s) then LoadAt(m, Low(4, cvs[0].bits), s)
    else Lift(m, s, cvs)
  }
}
