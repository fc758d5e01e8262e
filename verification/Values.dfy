/** WIT types as the decoder describes them, the dynamically typed values the
    host exchanges, and what both mean: `Despec` despecialises a type,
    `Denote` reads a host value at a type, `Reify` builds the host value that
    lifting returns. */
module Values {
  import opened Base
  import opened Shapes
  import opened Memory
  import Utf8

  datatype Prim =
    | Bool | U8 | S8 | U16 | S16 | U32 | S32 | U64 | S64
    | Float32 | Float64 | Char | Str | ErrorContext

  /** `HandleT` stands for own, borrow, stream and future; `OtherT` for the
      descriptors that have no value representation. */
  datatype Type =
    | PrimT(prim: Prim)
    | ListT(elem: Type)
    | RecordT(fields: seq<Type>)
    | TupleT(elems: seq<Type>)
    | VariantT(cases: seq<Case>)
    | FlagsT(labels: nat)
    | EnumT(names: u32)
    | OptionT(some: Type)
    | ResultT(ok: Case, err: Case)
    | HandleT
    | OtherT

  datatype Case = Empty | Carrying(t: Type)

  /** The dynamic types a host value can have. Floats are their bits; a rune is
      an `int32`. */
  datatype Value =
    | Nil
    | VBool(b: bool)
    | VU32(u: u32)
    | VS32(i: s32)
    | VU64(ul: u64)
    | VS64(il: s64)
    | VF32(fbits: u32)
    | VF64(dbits: u64)
    | VString(s: bytes)
    | VBytes(bs: bytes)
    | VList(vs: seq<Value>)
    | VVariant(disc: u32, payload: Value)
    | VResult(isErr: bool, carried: Value)

  // ---- types ----

  const MAX_TYPE_DEPTH: nat := 64

  /** Types nest at most 64 deep, not counting inline primitives and what is
      inside lists. */
  predicate Within(t: Type, depth: nat)
    decreases t, 0
  {
    && depth <= MAX_TYPE_DEPTH
    && match t
       case RecordT(ts) => forall i :: 0 <= i < |ts| ==> RefWithin(ts[i], depth)
       case TupleT(ts) => forall i :: 0 <= i < |ts| ==> RefWithin(ts[i], depth)
       case VariantT(cs) => forall i :: 0 <= i < |cs| ==> CaseWithin(cs[i], depth)
       case OptionT(e) => RefWithin(e, depth)
       case ResultT(ok, err) => CaseWithin(ok, depth) && CaseWithin(err, depth)
       case _ => true
  }

  predicate RefWithin(t: Type, depth: nat)
    decreases t, 1
  {
    t.PrimT? || Within(t, depth + 1)
  }

  predicate CaseWithin(c: Case, depth: nat)
    decreases c, 0
  {
    c.Empty? || RefWithin(c.t, depth)
  }

  function FlagsWidth(n: nat): Width {
    if n <= 8 then W1 else if n <= 16 then W2 else W4
  }

  function ScalarOf(p: Prim): Scalar
    requires p != Str
  {
    match p
    case Bool => BoolS
    case Char => CharS
    case U8 | S8 => IntS(W1)
    case U16 | S16 => IntS(W2)
    case U32 | S32 | ErrorContext => IntS(W4)
    case U64 | S64 => IntS(W8)
    case Float32 => F32S
    case Float64 => F64S
  }

  /** Despecialisation: tuples are records; enums, options and results are
      variants. */
  function Despec(t: Type): Shape
    decreases t, 0
  {
    match t
    case PrimT(p) => if p == Str then Text else Leaf(ScalarOf(p))
    case ListT(e) => List(Checked(e))
    case RecordT(ts) => Product(DespecAll(ts))
    case TupleT(ts) => Product(DespecAll(ts))
    case VariantT(cs) => Sum(DespecCases(cs))
    case FlagsT(n) => if 0 < n <= 32 then Leaf(FlagsS(FlagsWidth(n))) else Bad
    case EnumT(n) => Sum(Units(n))
    case OptionT(e) => Sum([Unit, Despec(e)])
    case ResultT(ok, err) => Sum([DespecCase(ok), DespecCase(err)])
    case HandleT => Leaf(IntS(W4))
    case OtherT => Bad
  }

  function DespecAll(ts: seq<Type>): (ss: seq<Shape>)
    ensures |ss| == |ts|
    decreases ts, 0
  {
    seq(|ts|, i requires 0 <= i < |ts| => Despec(ts[i]))
  }

  function DespecCase(c: Case): Shape
    decreases c, 0
  {
    match c
    case Empty => Unit
    case Carrying(t) => Despec(t)
  }

  function DespecCases(cs: seq<Case>): (ss: seq<Shape>)
    ensures |ss| == |cs|
    decreases cs, 0
  {
    seq(|cs|, i requires 0 <= i < |cs| => DespecCase(cs[i]))
  }

  function Units(n: nat): (ss: seq<Shape>)
    ensures |ss| == n
  {
    seq(n, i => Unit)
  }

  /** The shape of a type that has passed, or failed, the depth check. */
  function Checked(t: Type): Shape
    decreases t, 1
  {
    if Within(t, 0) then Despec(t) else Bad
  }

  // ---- host values ----

  function DenotePrim(p: Prim, v: Value): Result<Sem> {
    match p
    case Bool => if v.VBool? then Ok(SInt(if v.b then 1 else 0)) else Err(Rejected)
    case U8 | U16 | U32 | ErrorContext => if v.VU32? then Ok(SInt(v.u)) else Err(Rejected)
    case S8 | S16 | S32 => if v.VS32? then Ok(SInt(Low(4, v.i))) else Err(Rejected)
    case U64 => if v.VU64? then Ok(SInt(v.ul)) else Err(Rejected)
    case S64 => if v.VS64? then Ok(SInt(Low(8, v.il))) else Err(Rejected)
    case Float32 => if v.VF32? then Ok(SInt(v.fbits)) else Err(Rejected)
    case Float64 => if v.VF64? then Ok(SInt(v.dbits)) else Err(Rejected)
    case Char => if v.VS32? && UnicodeScalar(v.i) then Ok(SInt(v.i)) else Err(Rejected)
    case Str => if v.VString? then Ok(SText(v.s[..Low(4, |v.s|)])) else Err(Rejected)
  }

  /** What a host value means at a type, or `Err` when its dynamic type does
      not match. Storing refuses a nil variant payload; flat lowering does not. */
  function Denote(path: Path, t: Type, v: Value): Result<Sem>
    decreases t, 0
  {
    match t
    case PrimT(p) => DenotePrim(p, v)
    case ListT(e) =>
      if v.VBytes? && e == PrimT(U8) then Ok(SList(DenoteBytes(v.bs[..Low(4, |v.bs|)])))
      else if !v.VList? || |v.vs| >= TWO_32 then Err(Rejected)
      else
        var xs :- DenoteElems(e, v.vs, |v.vs|);
        Ok(SList(xs))
    case RecordT(ts) =>
      if !v.VList? || |v.vs| != |ts| then Err(Rejected) else
      var xs :- DenoteAll(path, ts, v.vs, |ts|);
      Ok(SProduct(xs))
    case TupleT(ts) =>
      if !v.VList? || |v.vs| != |ts| then Err(Rejected) else
      var xs :- DenoteAll(path, ts, v.vs, |ts|);
      Ok(SProduct(xs))
    case VariantT(cs) =>
      if !v.VVariant? || v.disc >= |cs| then Err(Rejected)
      else if path.InMemory? && cs[v.disc].Carrying? && v.payload.Nil? then Err(Rejected)
      else
        var x :- DenoteCase(path, cs[v.disc], v.payload);
        Ok(SSum(v.disc, x))
    case FlagsT(_) => if v.VU32? then Ok(SInt(v.u)) else Err(Rejected)
    case EnumT(n) => if v.VU32? && v.u < n then Ok(SSum(v.u, SUnit)) else Err(Rejected)
    case OptionT(e) =>
      if v.Nil? then Ok(SSum(0, SUnit)) else
      var x :- Denote(path, e, v);
      Ok(SSum(1, x))
    case ResultT(ok, err) =>
      if !v.VResult? then Err(Rejected) else
      var x :- DenoteCase(path, if v.isErr then err else ok, v.carried);
      Ok(SSum(if v.isErr then 1 else 0, x))
    case HandleT => if v.VU32? then Ok(SInt(v.u)) else Err(Rejected)
    case OtherT => Err(Rejected)
  }

  function DenoteCase(path: Path, c: Case, v: Value): Result<Sem>
    decreases c, 0
  {
    match c
    case Empty => Ok(SUnit)
    case Carrying(t) => Denote(path, t, v)
  }

  function DenoteAll(path: Path, ts: seq<Type>, vs: seq<Value>, n: nat): (r: Result<seq<Sem>>)
    requires n <= |ts| == |vs|
    ensures r.Ok? ==> |r.value| == n
    decreases ts, 0, n
  {
    if n == 0 then Ok([]) else
    var xs :- DenoteAll(path, ts, vs, n - 1);
    var x :- Denote(path, ts[n - 1], vs[n - 1]);
    Ok(xs + [x])
  }

  function DenoteElems(e: Type, vs: seq<Value>, n: nat): (r: Result<seq<Sem>>)
    requires n <= |vs|
    ensures r.Ok? ==> |r.value| == n
    decreases e, 1, n
  {
    if n == 0 then Ok([]) else
    var xs :- DenoteElems(e, vs, n - 1);
    var x :- Denote(InMemory, e, vs[n - 1]);
    Ok(xs + [x])
  }

  function DenoteBytes(bs: bytes): (xs: seq<Sem>)
    ensures |xs| == |bs|
  {
    seq(|bs|, i requires 0 <= i < |bs| => SInt(bs[i]))
  }

  function AsU32(n: int): Value {
    if 0 <= n < TWO_32 then VU32(n) else Nil
  }

  function AsS32(w: nat, n: nat): Value
    requires w == 1 || w == 2 || w == 4
  {
    if n < Span(w) then VS32(Signed(w, n)) else Nil
  }

  /** The host value of a lifted integer. A non-negative s8 loaded from memory
      comes back unsigned; lifted from a core value it does not. */
  function ReifyPrim(path: Path, p: Prim, x: Sem): Value {
    if p == Str then (if x.SText? then VString(x.bs) else Nil)
    else if !x.SInt? then Nil
    else
      match p
      case Bool => VBool(x.n != 0)
      case U8 | U16 | U32 | ErrorContext => AsU32(x.n)
      case S8 => if path.InMemory? && x.n < 0x80 then AsU32(x.n) else AsS32(1, x.n)
      case S16 => AsS32(2, x.n)
      case S32 => AsS32(4, x.n)
      case U64 => if x.n < TWO_64 then VU64(x.n) else Nil
      case S64 => if x.n < TWO_64 then VS64(Signed(8, x.n)) else Nil
      case Float32 => if x.n < TWO_32 then VF32(x.n) else Nil
      case Float64 => if x.n < TWO_64 then VF64(x.n) else Nil
      case Char => AsS32(4, x.n)
      case Str => Nil
  }

  function Reify(path: Path, t: Type, x: Sem): Value
    decreases t, 0
  {
    match t
    case PrimT(p) => ReifyPrim(path, p, x)
    case ListT(e) => if x.SList? then VList(ReifyElems(e, x.elems)) else Nil
    case RecordT(ts) => if x.SProduct? && |x.fields| == |ts| then VList(ReifyAll(path, ts, x.fields)) else Nil
    case TupleT(ts) => if x.SProduct? && |x.fields| == |ts| then VList(ReifyAll(path, ts, x.fields)) else Nil
    case VariantT(cs) =>
      if x.SSum? && x.disc < |cs| && x.disc < TWO_32 then VVariant(x.disc, ReifyCase(path, cs[x.disc], x.payload))
        else Nil
    case FlagsT(_) => if x.SInt? then AsU32(x.n) else Nil
    case EnumT(_) => if x.SSum? then AsU32(x.disc) else Nil
    case OptionT(e) => if x.SSum? && x.disc == 1 then Reify(path, e, x.payload) else Nil
    case ResultT(ok, err) =>
      if x.SSum? then VResult(x.disc == 1, ReifyCase(path, if x.disc == 1 then err else ok, x.payload)) else Nil
    case HandleT => if x.SInt? then AsU32(x.n) else Nil
    case OtherT => Nil
  }

  function ReifyCase(path: Path, c: Case, x: Sem): Value
    decreases c, 0
  {
    match c
    case Empty => Nil
    case Carrying(t) => Reify(path, t, x)
  }

  function ReifyAll(path: Path, ts: seq<Type>, xs: seq<Sem>): (vs: seq<Value>)
    requires |ts| == |xs|
    ensures |vs| == |ts|
    decreases ts, 0
  {
    seq(|ts|, i requires 0 <= i < |ts| => Reify(path, ts[i], xs[i]))
  }

  function ReifyElems(e: Type, xs: seq<Sem>): (vs: seq<Value>)
    ensures |vs| == |xs|
    decreases e, 1
  {
    seq(|xs|, i requires 0 <= i < |xs| => Reify(InMemory, e, xs[i]))
  }

  // ---- which values survive a round trip ----

  predicate FaithfulPrim(path: Path, p: Prim, v: Value) {
    match p
    case U8 => v.VU32? && v.u < 0x100
    case U16 => v.VU32? && v.u < 0x1_0000
    case S8 => v.VS32? && -0x80 <= v.i < (if path.InMemory? then 0 else 0x80)
    case S16 => v.VS32? && -0x8000 <= v.i < 0x8000
    case Str => v.VString? && |v.s| < TWO_32 && Utf8.Valid(v.s)
    case _ => true
  }

  /** Integers fit their width, text is UTF-8, lists are lists of values and not
      too long, cases without payload carry nil, and no s8 that is kept in
      memory is non-negative. */
  predicate Faithful(path: Path, t: Type, v: Value)
    decreases t, 0
  {
    match t
    case PrimT(p) => FaithfulPrim(path, p, v)
    case ListT(e) =>
      v.VList? && |v.vs| <= MAX_LIST_ELEMENTS && forall i :: 0 <= i < |v.vs| ==>
        Within(e, 0) && Faithful(InMemory, e, v.vs[i])
    case RecordT(ts) => v.VList? && |v.vs| == |ts| && forall i :: 0 <= i < |ts| ==> Faithful(path, ts[i], v.vs[i])
    case TupleT(ts) => v.VList? && |v.vs| == |ts| && forall i :: 0 <= i < |ts| ==> Faithful(path, ts[i], v.vs[i])
    case VariantT(cs) => v.VVariant? && v.disc < |cs| && FaithfulCase(path, cs[v.disc], v.payload)
    case FlagsT(n) => 0 < n <= 32 && v.VU32? && (path.InMemory? ==> v.u < Span(FlagsWidth(n).Bytes()))
    case OptionT(e) => v.Nil? || Faithful(path, e, v)
    case ResultT(ok, err) => v.VResult? && FaithfulCase(path, if v.isErr then err else ok, v.carried)
    case _ => true
  }

  predicate FaithfulCase(path: Path, c: Case, v: Value)
    decreases c, 0
  {
    match c
    case Empty => v.Nil?
    case Carrying(t) => Faithful(path, t, v)
  }

  // ---- the entry points on host values ----

  function StoreValueAt(st: State, p: nat, t: Type, v: Value): Result<State> {
    var x :- Denote(InMemory, t, v);
    StoreAt(st, p, Checked(t), x)
  }

  function LoadValueAt(m: bytes, p: nat, t: Type): Result<Value> {
    var x :- LoadAt(m, p, Checked(t));
    Ok(Reify(InMemory, t, x))
  }
}
