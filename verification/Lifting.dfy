/** flat.go, lifting: core values are read through a chain of iterators, one
    coercing iterator for every variant or result around the value being
    lifted. Each method is proved to return the host value of what the
    reference `Flat.Lift` finds, and to advance every iterator of the chain by
    exactly the flattened length. */
module Lifting {
  import opened Base
  import opened Shapes
  import opened Memory
  import opened Values
  import opened Flat
  import opened Layout
  import opened Flattening
  import opened Footprint
  import opened Lowering
  import opened Loading

  // ---- iterators ----

  /** CoreValueIter and coercingValueIter: a raw iterator has `under == null`
      and reads `values`; a coercing one reads through `under`, at the joined
      kinds, and gives back values of its own kinds. */
  class ValueIter {
    const under: ValueIter?
    const values: seq<CoreVal>
    const joined: seq<Kind>
    const own: seq<Kind>
    var i: nat

    /** Where the iterator began in `under`, its place in the chain, and the
        iterators that move when it does. */
    ghost const base: nat
    ghost const depth: nat
    ghost const chain: set<ValueIter>

    constructor Raw(vals: seq<CoreVal>)
      ensures Valid() && i == 0 && View() == vals && chain == {this}
    {
      under := null;
      values := vals;
      joined := [];
      own := [];
      i := 0;
      base := 0;
      depth := 0;
      chain := {this};
    }

    constructor Coercing(vi: ValueIter, joinedFlat: seq<Kind>, caseFlat: seq<Kind>)
      requires vi.Valid() && |joinedFlat| <= |vi.View()| - vi.i
      requires Kinds(vi.View()[vi.i..vi.i + |joinedFlat|]) == joinedFlat && AllCovered(caseFlat, joinedFlat)
      ensures Valid() && i == 0 && fresh(this) && chain == {this} + vi.chain
      ensures Kinds(View()) == caseFlat && under == vi && base == vi.i && joined == joinedFlat && own == caseFlat
    {
      under := vi;
      values := [];
      joined := joinedFlat;
      own := caseFlat;
      i := 0;
      base := vi.i;
      depth := vi.depth + 1;
      chain := {this} + vi.chain;
      new;
      Formable();
    }

    lemma Formable()
      requires under != null && under.Formed() && under.depth < depth && AllCovered(own, joined)
      requires this !in under.chain && chain == {this} + under.chain
      requires base + |joined| <= |under.View()| && Kinds(under.View()[base..base + |joined|]) == joined
      ensures Formed() && Kinds(View()) == own
    {
      forall k | 0 <= k < |joined| ensures under.View()[base + k].kind == joined[k] {
        assert Kinds(under.View()[base..base + |joined|])[k] == joined[k];
      }
      forall k | 0 <= k < |own| ensures View()[k].kind == own[k] {
        CoercionKeepsBits(under.View()[base + k], own[k], joined[k]);
      }
    }

    /** The chain is well-founded and each level reads kinds that its own are
        covered by. None of this changes. */
    ghost predicate Formed()
      decreases depth, 0
    {
      if under == null then chain == {this} else
        && under.depth < depth && under.Formed() && AllCovered(own, joined)
        && this !in under.chain && chain == {this} + under.chain
        && base + |joined| <= |under.View()|
        && forall k :: 0 <= k < |joined| ==> under.View()[base + k].kind == joined[k]
    }

    /** All the values that the iterator gives, from first to last. */
    ghost function View(): (vs: seq<CoreVal>)
      requires Formed()
      decreases depth, 1
    {
      if under == null then values
      else seq(|own|, k requires 0 <= k < |own| => DeCoerceValue(under.View()[base + k], joined[k], own[k]))
    }

    ghost predicate Valid()
      reads this, chain
      decreases depth
    {
      && Formed()
      && i <= |View()|
      && (under != null ==>
            assert under.Formed() && under in chain && under.chain <= chain;
            under.Valid() && under.i == base + i)
    }

    /** The next values have the kinds `ks`. */
    ghost predicate Offers(ks: seq<Kind>)
      requires Valid()
      reads this, chain
    {
      i + |ks| <= |View()| && Kinds(View()[i..i + |ks|]) == ks
    }

    method Next() returns (r: Result<CoreVal>)
      requires Valid()
      modifies chain
      ensures if old(i) < |View()|
              then r == Ok(View()[old(i)]) && Valid() && forall o :: o in chain ==> o.i == old(o.i) + 1
              else r == Err(InnerCheck) && Valid() && forall o :: o in chain ==> o.i == old(o.i)
      decreases depth
    {
      if under == null {
        if i >= |values| {
          return Err(InnerCheck);
        }
        i := i + 1;
        return Ok(values[i - 1]);
      }
      if i >= |own| {
        return Err(InnerCheck);
      }
      var have, want := joined[i], own[i];
      i := i + 1;
      // The level below holds a value for every joined position.
      var cv := under.Next();
      return Ok(DeCoerceValue(cv.value, have, want));
    }
  }

  predicate AllCovered(own: seq<Kind>, joined: seq<Kind>) {
    |own| <= |joined| && forall k :: 0 <= k < |own| ==> Join(own[k], joined[k]) == joined[k]
  }

  // ---- bits that no accessor reads ----

  predicate SameBits(a: seq<CoreVal>, b: seq<CoreVal>, ks: seq<Kind>) {
    && |a| == |b| == |ks|
    && forall i :: 0 <= i < |ks| ==> Cut(ks[i], a[i].bits) == Cut(ks[i], b[i].bits)
  }

  /** Lifting looks only at the bits that fit the kinds. */
  lemma {:induction false} LiftCut(m: bytes, s: Shape, a: seq<CoreVal>, b: seq<CoreVal>)
    requires SameBits(a, b, Flatten(s))
    ensures Lift(m, s, a) == Lift(m, s, b)
    decreases s, 0
  {
    match s
    case Leaf(l) => ScalarCut(l, a[0].bits, b[0].bits);
    case Text =>
    case List(_) =>
    case Product(fs) => LiftFieldsCut(m, fs, a, b, |fs|);
    case Sum(cs) => LiftSumCut(m, cs, a, b);
    case Bad =>
  }

  lemma ScalarCut(l: Scalar, a: u64, b: u64)
    requires Cut(ScalarKind(l), a) == Cut(ScalarKind(l), b)
    ensures LiftScalar(l, a) == LiftScalar(l, b)
  {
    if l.IntS? && l.w != W8 {
      LowLow(l.w.Bytes(), a);
      LowLow(l.w.Bytes(), b);
    }
  }

  lemma {:induction false} LiftFieldsCut(m: bytes, fs: seq<Shape>, a: seq<CoreVal>, b: seq<CoreVal>, n: nat)
    requires n <= |fs| && SameBits(a, b, FlattenFields(fs, n))
    ensures LiftFields(m, fs, a, n) == LiftFields(m, fs, b, n)
    decreases fs, 0, n
  {
    if n > 0 {
      var ks, k := FlattenFields(fs, n), |FlattenFields(fs, n - 1)|;
      assert ks[..k] == FlattenFields(fs, n - 1) && ks[k..] == Flatten(fs[n - 1]);
      LiftFieldsCut(m, fs, a[..k], b[..k], n - 1);
      LiftCut(m, fs[n - 1], a[k..], b[k..]);
    }
  }

  lemma {:induction false} LiftSumCut(m: bytes, cs: seq<Shape>, a: seq<CoreVal>, b: seq<CoreVal>)
    requires SameBits(a, b, [I32] + JoinCases(cs, |cs|))
    ensures LiftSum(m, cs, a) == LiftSum(m, cs, b)
    decreases cs, 0
  {
    var d, joined := Low(4, a[0].bits), JoinCases(cs, |cs|);
    assert ([I32] + joined)[0] == I32;
    if d < |cs| {
      JoinCovers(cs, |cs|, d);
      forall i | 0 <= i < |Flatten(cs[d])|
        ensures Narrow(a[1..], Flatten(cs[d]))[i] == Narrow(b[1..], Flatten(cs[d]))[i]
      {
        assert ([I32] + joined)[i + 1] == joined[i];
      }
      assert Narrow(a[1..], Flatten(cs[d])) == Narrow(b[1..], Flatten(cs[d]));
    }
  }

  // ---- what each method is proved to do ----

  /** The outcome of lifting a `t` from `cvs`. */
  ghost predicate Lifted(r: Result<Value>, m: bytes, t: Type, cvs: seq<CoreVal>) {
    && |cvs| == |Flatten(Despec(t))|
    && var x := Lift(m, Despec(t), cvs);
      && (r.Ok? ==> x.Ok? && r.value == Reify(InCore, t, x.value))
      && (r.Err? && |m| < TWO_32 ==> r.fault == Rejected && x.Err?)
  }

  // ---- primitives ----

  /** liftScalarPrimitive */
  function LiftScalarPrimitive(cv: CoreVal, p: Prim): Result<Value>
    requires p != Str && cv.kind == ScalarKind(ScalarOf(p))
  {
    match p
    case Bool => Ok(VBool(AsI32(cv) != 0))
    case U8 => Ok(VU32(AsI32(cv) % 0x100))
    case U16 => Ok(VU32(AsI32(cv) % 0x1_0000))
    case U32 | ErrorContext => Ok(VU32(AsI32(cv)))
    case U64 => Ok(VU64(AsI64(cv)))
    case S8 => Ok(VS32(Signed(1, AsI32(cv) % 0x100)))
    case S16 => Ok(VS32(Signed(2, AsI32(cv) % 0x1_0000)))
    case S32 => Ok(VS32(Signed(4, AsI32(cv))))
    case S64 => Ok(VS64(Signed(8, AsI64(cv))))
    case Float32 => Ok(VF32(AsF32(cv)))
    case Float64 => Ok(VF64(AsF64(cv)))
    case Char => if AsI32(cv) >= 0x11_0000 || 0xD800 <= AsI32(cv) <= 0xDFFF then Err(Rejected) else Ok(VS32(AsI32(cv)))
  }

  /** Any bits are accepted; they mean what the reference says. */
  lemma PrimLifted(m: bytes, cv: CoreVal, p: Prim)
    requires p != Str && cv.kind == ScalarKind(ScalarOf(p))
    ensures Lifted(LiftScalarPrimitive(cv, p), m, PrimT(p), [cv])
  {
    hide LiftScalarPrimitive, LiftScalar, ReifyPrim;
    ScalarReified(cv, p);
  }

  lemma ScalarReified(cv: CoreVal, p: Prim)
    requires p != Str && cv.kind == ScalarKind(ScalarOf(p))
    ensures var x := LiftScalar(ScalarOf(p), cv.bits);
            LiftScalarPrimitive(cv, p) == if x.Ok? then Ok(ReifyPrim(InCore, p, SInt(x.value))) else Err(Rejected)
  {
    LowLow(1, cv.bits);
    LowLow(2, cv.bits);
  }

  /** The value of a core value of the kind and bits, for each primitive that is
      one core value. */
  ghost predicate LiftsTo(r: Result<Value>, p: Prim, k: Kind, bits: nat) {
    var n, b, h := bits % 0x1_0000_0000, bits % 0x100, bits % 0x1_0000;
    && (p == Float32 ==> k == F32 && r == Ok(VF32(n)))
    && (p == Float64 ==> k == F64 && bits < TWO_64 && r == Ok(VF64(bits)))
    && (p == U64 ==> k == I64 && bits < TWO_64 && r == Ok(VU64(bits)))
    && (p == S64 ==> k == I64 && bits < TWO_64)
    && (p == S64 && bits < TWO_64 ==> r == Ok(VS64(if bits >= 0x8000_0000_0000_0000 then bits - TWO_64 else bits)))
    && (p != Float32 && p != Float64 && p != U64 && p != S64 ==> k == I32)
    && (p == Bool ==> r == Ok(VBool(n != 0)))
    && (p == U8 ==> r == Ok(VU32(b)))
    && (p == U16 ==> r == Ok(VU32(h)))
    && (p == U32 || p == ErrorContext ==> r == Ok(VU32(n)))
    && (p == S8 ==> r == Ok(VS32(if b >= 0x80 then b - 0x100 else b)))
    && (p == S16 ==> r == Ok(VS32(if h >= 0x8000 then h - 0x1_0000 else h)))
    && (p == S32 ==> r == Ok(VS32(if n >= 0x8000_0000 then n - 0x1_0000_0000 else n)))
    && (p == Char ==> r == if n < 0x11_0000 && !(0xD800 <= n <= 0xDFFF) then Ok(VS32(n)) else Err(Rejected))
  }

  /** Bits beyond the width of a narrow integer do not matter. */
  lemma PrimReads(cv: CoreVal, p: Prim)
    requires p != Str && cv.kind == ScalarKind(ScalarOf(p))
    ensures LiftsTo(LiftScalarPrimitive(cv, p), p, cv.kind, cv.bits)
  {
    hide LiftsTo, LiftScalarPrimitive;
    if p == U8 || p == S8 {
      ByteReads(cv, p);
    } else if p == U16 || p == S16 {
      HalfReads(cv, p);
    } else if p == U64 || p == S64 || p == Float32 || p == Float64 {
      WideReads(cv, p);
    } else {
      WordReads(cv, p);
    }
  }

  lemma ByteReads(cv: CoreVal, p: Prim)
    requires (p == U8 || p == S8) && cv.kind == I32
    ensures LiftsTo(LiftScalarPrimitive(cv, p), p, I32, cv.bits)
  {
    LowLow(1, cv.bits);
  }

  lemma HalfReads(cv: CoreVal, p: Prim)
    requires (p == U16 || p == S16) && cv.kind == I32
    ensures LiftsTo(LiftScalarPrimitive(cv, p), p, I32, cv.bits)
  {
    LowLow(2, cv.bits);
  }

  lemma WordReads(cv: CoreVal, p: Prim)
    requires (p == Bool || p == U32 || p == S32 || p == ErrorContext || p == Char) && cv.kind == I32
    ensures LiftsTo(LiftScalarPrimitive(cv, p), p, I32, cv.bits)
  {
  }

  lemma WideReads(cv: CoreVal, p: Prim)
    requires p == U64 || p == S64 || p == Float32 || p == Float64
    requires cv.kind == ScalarKind(ScalarOf(p))
    ensures LiftsTo(LiftScalarPrimitive(cv, p), p, cv.kind, cv.bits)
  {
  }

  method LiftFlatPrimitive(vi: ValueIter, p: Prim, mem: array<byte>) returns (r: Result<Value>)
    requires vi.Valid() && vi.Offers(Flatten(Despec(PrimT(p))))
    modifies vi.chain
    ensures Lifted(r, mem[..], PrimT(p), vi.View()[old(vi.i)..old(vi.i) + |Flatten(Despec(PrimT(p)))|])
    ensures vi.Valid() && forall o :: o in vi.chain ==> o.i == old(o.i) + |Flatten(Despec(PrimT(p)))|
    ensures p != Str ==> old(vi.i) < |vi.View()| && LiftsTo(r, p, vi.View()[old(vi.i)].kind, vi.View()[old(vi.i)].bits)
  {
    hide LiftsTo, LiftScalarPrimitive, Lifted, Denote, Reify, Lift;
    ghost var at := vi.i;
    if p == Str {
      r := LiftFlatString(vi, mem);
      return;
    }
    assert Kinds(vi.View()[at..at + 1])[0] == vi.View()[at].kind;
    var cv := vi.Next();
    PrimLifted(mem[..], cv.value, p);
    PrimReads(cv.value, p);
    assert [cv.value] == vi.View()[at..at + 1];
    r := LiftScalarPrimitive(cv.value, p);
  }

  /** The pointer and the length of a string or of a list. */
  method NextPair(vi: ValueIter) returns (q: u32, n: u32)
    requires vi.Valid() && vi.Offers([I32, I32])
    modifies vi.chain
    ensures var cvs := vi.View()[old(vi.i)..old(vi.i) + 2];
            q == Low(4, cvs[0].bits) && n == Low(4, cvs[1].bits)
    ensures vi.Valid() && forall o :: o in vi.chain ==> o.i == old(o.i) + 2
  {
    ghost var at := vi.i;
    ghost var ks := Kinds(vi.View()[at..at + 2]);
    assert ks[0] == vi.View()[at].kind && ks[1] == vi.View()[at + 1].kind;
    var a := vi.Next();
    var b := vi.Next();
    return AsI32(a.value), AsI32(b.value);
  }

  method LiftFlatString(vi: ValueIter, mem: array<byte>) returns (r: Result<Value>)
    requires vi.Valid() && vi.Offers([I32, I32])
    modifies vi.chain
    ensures Lifted(r, mem[..], PrimT(Str), vi.View()[old(vi.i)..old(vi.i) + 2])
    ensures vi.Valid() && forall o :: o in vi.chain ==> o.i == old(o.i) + 2
  {
    var q, n := NextPair(vi);
    var s :- LoadStringFromRange(mem, q, n);
    return Ok(VString(s));
  }

  method LiftFlatList(vi: ValueIter, e: Type, mem: array<byte>) returns (r: Result<Value>)
    requires vi.Valid() && vi.Offers([I32, I32])
    modifies vi.chain
    ensures Lifted(r, mem[..], ListT(e), vi.View()[old(vi.i)..old(vi.i) + 2])
    ensures vi.Valid() && forall o :: o in vi.chain ==> o.i == old(o.i) + 2
  {
    var q, n := NextPair(vi);
    var vs :- LoadListFromRange(mem, q, n, e);
    return Ok(VList(vs));
  }

  /** Flags and handles: any 32 bits. */
  method LiftFlatWord(vi: ValueIter, ghost t: Type, ghost l: Scalar, mem: array<byte>) returns (r: Result<Value>)
    requires ((t.FlagsT? && l.FlagsS?) || (t.HandleT? && l == IntS(W4))) && Despec(t) == Leaf(l)
    requires vi.Valid() && vi.Offers([I32])
    modifies vi.chain
    ensures Lifted(r, mem[..], t, vi.View()[old(vi.i)..old(vi.i) + 1])
    ensures vi.Valid() && forall o :: o in vi.chain ==> o.i == old(o.i) + 1
  {
    ghost var at := vi.i;
    assert Kinds(vi.View()[at..at + 1])[0] == vi.View()[at].kind;
    var cv := vi.Next();
    assert [cv.value] == vi.View()[at..at + 1];
    return Ok(VU32(AsI32(cv.value)));
  }

  method LiftFlatEnum(vi: ValueIter, names: u32, mem: array<byte>) returns (r: Result<Value>)
    requires vi.Valid() && vi.Offers([I32])
    modifies vi.chain
    ensures Lifted(r, mem[..], EnumT(names), vi.View()[old(vi.i)..old(vi.i) + 1])
    ensures vi.Valid() && forall o :: o in vi.chain ==> o.i == old(o.i) + 1
  {
    ghost var at := vi.i;
    assert Kinds(vi.View()[at..at + 1])[0] == vi.View()[at].kind;
    var cv := vi.Next();
    EnumLifted(mem[..], names, cv.value);
    assert [cv.value] == vi.View()[at..at + 1];
    if AsI32(cv.value) >= names {
      return Err(Rejected);
    }
    return Ok(VU32(AsI32(cv.value)));
  }

  lemma EnumLifted(m: bytes, names: u32, cv: CoreVal)
    ensures Lifted(if Low(4, cv.bits) < names then Ok(VU32(Low(4, cv.bits))) else Err(Rejected), m, EnumT(names), [cv])
  {
    var d, ss := Low(4, cv.bits), Units(names);
    UnitsFlat(names, names);
    assert Flatten(Sum(ss)) == [I32] + JoinCases(ss, names) == [I32];
    assert Lift(m, Sum(ss), [cv]) == LiftSum(m, ss, [cv]);
    if d < names {
      assert ss[d] == Unit;
      assert Narrow([cv][1..], []) == [];
      assert Lift(m, Unit, []) == Ok(SProduct([]));
    }
  }

  // ---- records and tuples ----

  lemma {:induction false} FlatPrefix(fs: seq<Shape>, i: nat, n: nat)
    requires i <= n <= |fs|
    ensures |FlattenFields(fs, i)| <= |FlattenFields(fs, n)|
    ensures FlattenFields(fs, n)[..|FlattenFields(fs, i)|] == FlattenFields(fs, i)
    decreases n
  {
    if i < n {
      FlatPrefix(fs, i, n - 1);
    }
  }

  /** The first i fields are lifted from the front of `cvs`. */
  ghost predicate FieldsSoFar(m: bytes, ts: seq<Type>, i: nat, cvs: seq<CoreVal>, vs: seq<Value>) {
    && i == |vs| <= |ts|
    && var fs := DespecAll(ts);
    && |FlattenFields(fs, i)| <= |cvs|
    && var x := LiftFields(m, fs, cvs[..|FlattenFields(fs, i)|], i);
       x.Ok? && forall j :: 0 <= j < i ==> vs[j] == Reify(InCore, ts[j], x.value[j])
  }

  lemma FieldsBegin(m: bytes, ts: seq<Type>, cvs: seq<CoreVal>)
    ensures FieldsSoFar(m, ts, 0, cvs, [])
    ensures FlattenFields(DespecAll(ts), 0) == []
  {
  }

  lemma {:induction false} LiftFieldsStops(m: bytes, fs: seq<Shape>, cvs: seq<CoreVal>, i: nat, n: nat)
    requires i <= n <= |fs| && |cvs| == |FlattenFields(fs, n)| && |FlattenFields(fs, i)| <= |cvs|
    requires LiftFields(m, fs, cvs[..|FlattenFields(fs, i)|], i).Err?
    ensures LiftFields(m, fs, cvs, n).Err?
    decreases n
  {
    if i == n {
      assert cvs[..|cvs|] == cvs;
    } else {
      FlatPrefix(fs, i, n - 1);
      var k := |FlattenFields(fs, n - 1)|;
      assert cvs[..k][..|FlattenFields(fs, i)|] == cvs[..|FlattenFields(fs, i)|];
      LiftFieldsStops(m, fs, cvs[..k], i, n - 1);
    }
  }

  lemma NextField(m: bytes, fs: seq<Shape>, cvs: seq<CoreVal>, i: nat)
    requires i < |fs| && |FlattenFields(fs, i)| + |Flatten(fs[i])| <= |cvs|
    requires LiftFields(m, fs, cvs[..|FlattenFields(fs, i)|], i).Ok?
    ensures var k := |FlattenFields(fs, i)|;
      && |FlattenFields(fs, i + 1)| == k + |Flatten(fs[i])|
      && var x := Lift(m, fs[i], cvs[k..k + |Flatten(fs[i])|]);
         LiftFields(m, fs, cvs[..k + |Flatten(fs[i])|], i + 1)
         == if x.Ok? then Ok(LiftFields(m, fs, cvs[..k], i).value + [x.value]) else Err(x.fault)
  {
    var k := |FlattenFields(fs, i)|;
    var w := cvs[..k + |Flatten(fs[i])|];
    assert w[..k] == cvs[..k] && w[k..] == cvs[k..k + |Flatten(fs[i])|];
  }

  /** One field lifted after the first i, or a field that could not be. */
  lemma FieldLifted(r: Result<Value>, m: bytes, t: Type, ts: seq<Type>, i: nat, cvs: seq<CoreVal>, vs: seq<Value>)
    requires (t == RecordT(ts) || t == TupleT(ts)) && i < |ts| && |cvs| == |Flatten(Despec(t))|
      && FieldsSoFar(m, ts, i, cvs, vs)
    requires var k := |FlattenFields(DespecAll(ts), i)|;
      && k + |Flatten(Despec(ts[i]))| <= |cvs|
      && Lifted(r, m, ts[i], cvs[k..k + |Flatten(Despec(ts[i]))|])
    ensures r.Ok? ==> FieldsSoFar(m, ts, i + 1, cvs, vs + [r.value])
    ensures r.Err? ==> Lifted(r, m, t, cvs)
  {
    hide Lift, LiftFields, Flatten, FlattenFields, Despec, Reify;
    var fs := DespecAll(ts);
    assert fs[i] == Despec(ts[i]);
    NextField(m, fs, cvs, i);
    FieldsFlat(t, ts);
    if r.Err? {
      if |m| < TWO_32 {
        LiftFieldsStops(m, fs, cvs, i + 1, |ts|);
      }
      FieldsStopped(r, m, t, ts, cvs);
    }
  }

  lemma FieldsFlat(t: Type, ts: seq<Type>)
    requires t == RecordT(ts) || t == TupleT(ts)
    ensures Flatten(Despec(t)) == FlattenFields(DespecAll(ts), |ts|)
  {
  }

  lemma FieldsStopped(r: Result<Value>, m: bytes, t: Type, ts: seq<Type>, cvs: seq<CoreVal>)
    requires (t == RecordT(ts) || t == TupleT(ts)) && r.Err? && |cvs| == |FlattenFields(DespecAll(ts), |ts|)|
    requires |m| < TWO_32 ==> r.fault == Rejected && LiftFields(m, DespecAll(ts), cvs, |ts|).Err?
    ensures Lifted(r, m, t, cvs)
  {
    FieldsFlat(t, ts);
  }

  lemma FieldsFinished(m: bytes, t: Type, ts: seq<Type>, cvs: seq<CoreVal>, vs: seq<Value>)
    requires (t == RecordT(ts) || t == TupleT(ts)) && |cvs| == |Flatten(Despec(t))| && FieldsSoFar(m, ts, |ts|, cvs, vs)
    ensures Lifted(Ok(VList(vs)), m, t, cvs)
  {
    FieldsFlat(t, ts);
    assert cvs[..|cvs|] == cvs;
    assert vs == ReifyAll(InCore, ts, LiftFields(m, DespecAll(ts), cvs, |ts|).value);
  }

  /** The values of field i come next. */
  lemma FieldOffered(ts: seq<Type>, i: nat, view: seq<CoreVal>, at: nat)
    requires i < |ts|
    requires var ks := FlattenFields(DespecAll(ts), |ts|);
             at + |ks| <= |view| && Kinds(view[at..at + |ks|]) == ks
    ensures var k, own := |FlattenFields(DespecAll(ts), i)|, Flatten(Despec(ts[i]));
      && k + |own| == |FlattenFields(DespecAll(ts), i + 1)| <= |FlattenFields(DespecAll(ts), |ts|)|
      && Kinds(view[at + k..at + k + |own|]) == own
  {
    hide Flatten, Despec;
    var fs := DespecAll(ts);
    FlatPrefix(fs, i, |ts|);
    FlatPrefix(fs, i + 1, |ts|);
    var ks, k, own := FlattenFields(fs, |ts|), |FlattenFields(fs, i)|, Flatten(fs[i]);
    assert fs[i] == Despec(ts[i]);
    WindowKinds(view, at, ks, k, own);
  }

  lemma WindowKinds(view: seq<CoreVal>, at: nat, ks: seq<Kind>, k: nat, own: seq<Kind>)
    requires at + |ks| <= |view| && Kinds(view[at..at + |ks|]) == ks && k + |own| <= |ks| && ks[k..k + |own|] == own
    ensures Kinds(view[at + k..at + k + |own|]) == own
  {
    forall j | 0 <= j < |own| ensures view[at + k + j].kind == own[j] {
      assert Kinds(view[at..at + |ks|])[k + j] == ks[k..k + |own|][j];
    }
  }

  /** liftFlatRecord and liftFlatTuple. */
  method LiftFlatFields(vi: ValueIter, ghost t: Type, ts: seq<Type>, mem: array<byte>) returns (r: Result<Value>)
    requires t == RecordT(ts) || t == TupleT(ts)
    requires vi.Valid() && Valid(Despec(t)) && vi.Offers(Flatten(Despec(t)))
    modifies vi.chain
    ensures Lifted(r, mem[..], t, vi.View()[old(vi.i)..old(vi.i) + |Flatten(Despec(t))|])
    ensures r.Ok? ==> vi.Valid() && forall o :: o in vi.chain ==> o.i == old(o.i) + |Flatten(Despec(t))|
    decreases ts, 0
  {
    hide Lifted, FieldsSoFar, Despec, DespecAll, Flatten, FlattenFields, Valid;
    FieldsFlat(t, ts);
    ghost var m, at, fs := mem[..], vi.i, DespecAll(ts);
    ghost var cvs := vi.View()[at..at + |Flatten(Despec(t))|];
    FieldsBegin(m, ts, cvs);
    var vs := [];
    for i := 0 to |ts|
      invariant vi.Valid() && forall o :: o in vi.chain ==> o.i == old(o.i) + |FlattenFields(fs, i)|
      invariant FieldsSoFar(m, ts, i, cvs, vs)
    {
      FieldOffered(ts, i, vi.View(), at);
      FieldValid(t, ts, i);
      ghost var k, own := |FlattenFields(fs, i)|, Flatten(Despec(ts[i]));
      assert cvs[k..k + |own|] == vi.View()[at + k..at + k + |own|];
      r := LiftFlatImpl(vi, ts[i], mem);
      FieldLifted(r, m, t, ts, i, cvs, vs);
      if r.Err? {
        return;
      }
      vs := vs + [r.value];
    }
    FieldsFinished(m, t, ts, cvs, vs);
    return Ok(VList(vs));
  }

  // ---- variants, options and results ----

  /** The outcome of lifting what a case carries, if anything. */
  ghost predicate LiftedCase(r: Result<Value>, m: bytes, c: Case, cvs: seq<CoreVal>) {
    && |cvs| == |Flatten(DespecCase(c))|
    && var x := Lift(m, DespecCase(c), cvs);
      && (r.Ok? ==> x.Ok? && r.value == ReifyCase(InCore, c, x.value))
      && (r.Err? && |m| < TWO_32 ==> r.fault == Rejected && x.Err?)
  }

  lemma EmptyLifted(m: bytes)
    ensures LiftedCase(Ok(Nil), m, Empty, [])
  {
    UnitLayout();
  }

  lemma CarryingLifted(r: Result<Value>, m: bytes, t: Type, cvs: seq<CoreVal>)
    ensures LiftedCase(r, m, Carrying(t), cvs) <==> Lifted(r, m, t, cvs)
  {
  }

  /** Values read back at the kinds of a case have the bits that `Narrow` keeps. */
  lemma CoercedBits(view: seq<CoreVal>, window: seq<CoreVal>, own: seq<Kind>, joined: seq<Kind>)
    requires |view| == |own| <= |joined| == |window| && AllCovered(own, joined) && Kinds(window) == joined
    requires forall k :: 0 <= k < |own| ==>
      window[k].kind == joined[k] && view[k] == DeCoerceValue(window[k], joined[k], own[k])
    ensures SameBits(view, Narrow(window, own), own)
  {
    forall k | 0 <= k < |own| ensures Cut(own[k], view[k].bits) == Cut(own[k], Narrow(window, own)[k].bits) {
      CoercionKeepsBits(window[k], own[k], joined[k]);
    }
  }

  lemma CaseCut(r: Result<Value>, m: bytes, c: Case, a: seq<CoreVal>, b: seq<CoreVal>)
    requires LiftedCase(r, m, c, a) && SameBits(a, b, Flatten(DespecCase(c)))
    ensures LiftedCase(r, m, c, b)
  {
    LiftCut(m, DespecCase(c), a, b);
  }

  /** The tail of liftFlatVariant and liftFlatResult: lift the active case
      through a new coercing iterator, then consume the joined positions that
      the case did not fill. */
  method LiftCase(vi: ValueIter, joined: seq<Kind>, c: Case, mem: array<byte>) returns (r: Result<Value>)
    requires vi.Valid() && vi.Offers(joined) && Valid(DespecCase(c)) && AllCovered(Flatten(DespecCase(c)), joined)
    modifies vi.chain
    ensures LiftedCase(r, mem[..], c, Narrow(vi.View()[old(vi.i)..old(vi.i) + |joined|], Flatten(DespecCase(c))))
    ensures r.Ok? ==> vi.Valid() && forall o :: o in vi.chain ==> o.i == old(o.i) + |joined|
    decreases c, 0
  {
    hide Lifted, LiftedCase, Flatten, Despec, DespecCase, Valid, Narrow;
    ghost var m, at := mem[..], vi.i;
    ghost var window := vi.View()[at..at + |joined|];
    CaseKinds(c);
    var own := CaseFlat(c);
    var inner := new ValueIter.Coercing(vi, joined, own);
    CoercingView(inner, vi, at, window);
    r := Ok(Nil);
    if c.Carrying? {
      assert c == Carrying(c.t);
      assert inner.View()[0..0 + |own|] == inner.View();
      r := LiftFlatImpl(inner, c.t, mem);
      CarryingLifted(r, m, c.t, inner.View());
    } else {
      EmptyLifted(m);
      assert inner.View() == [];
    }
    CaseCut(r, m, c, inner.View(), Narrow(window, own));
    if r.Err? {
      return;
    }
    assert inner.i == |own|;
    for k := inner.i to |joined|
      invariant vi.Valid() && forall o :: o in vi.chain ==> o.i == old(o.i) + k
    {
      var _ := vi.Next();
    }
  }

  lemma CaseKinds(c: Case)
    ensures c.Empty? ==> Flatten(DespecCase(c)) == []
    ensures c.Carrying? ==> DespecCase(c) == Despec(c.t)
  {
    UnitLayout();
  }

  lemma CoercingView(inner: ValueIter, vi: ValueIter, at: nat, window: seq<CoreVal>)
    requires inner.Formed() && inner.under == vi && vi.Formed() && inner.base == at
    requires at + |inner.joined| <= |vi.View()| && window == vi.View()[at..at + |inner.joined|]
      && Kinds(window) == inner.joined
    ensures SameBits(inner.View(), Narrow(window, inner.own), inner.own)
  {
    CoercedBits(inner.View(), window, inner.own, inner.joined);
  }

  /** Discriminant lifted, then the payload, or one of them could not be. */
  lemma SumLifted(r: Result<Value>, m: bytes, t: Type, d: u32, cvs: seq<CoreVal>)
    requires IsSum(t) && |cvs| == |Flatten(Despec(t))| > 0 && d == Low(4, cvs[0].bits)
    requires d < |CasesOf(t)| ==>
      var own := Flatten(DespecCase(CasesOf(t)[d]));
      |own| < |cvs| && LiftedCase(r, m, CasesOf(t)[d], Narrow(cvs[1..], own))
    ensures d >= |CasesOf(t)| ==> Lifted(Err(Rejected), m, t, cvs)
    ensures d < |CasesOf(t)| && r.Ok? ==> Lifted(Ok(Build(t, d, r.value)), m, t, cvs)
    ensures d < |CasesOf(t)| && r.Err? ==> Lifted(Err(r.fault), m, t, cvs)
  {
    hide Lift, Despec, DespecCase, Build, Reify, ReifyCase, CasesOf, Flatten, JoinCases;
    CasesShape(t);
    var ss := DespecCases(CasesOf(t));
    SumFlatten(ss);
    LiftOfSum(m, ss, cvs);
    if d < |ss| {
      assert ss[d] == DespecCase(CasesOf(t)[d]);
      var x := Lift(m, ss[d], Narrow(cvs[1..], Flatten(ss[d])));
      if x.Ok? {
        BuildReify(InCore, t, d, x.value);
      }
    }
  }

  lemma LiftOfSum(m: bytes, ss: seq<Shape>, cvs: seq<CoreVal>)
    requires |cvs| == 1 + |JoinCases(ss, |ss|)|
    ensures |Flatten(Sum(ss))| == |cvs|
    ensures var d := Low(4, cvs[0].bits);
      if d >= |ss| then Lift(m, Sum(ss), cvs) == Err(Rejected) else
        && |Flatten(ss[d])| < |cvs|
        && var x := Lift(m, ss[d], Narrow(cvs[1..], Flatten(ss[d])));
           Lift(m, Sum(ss), cvs) == if x.Ok? then Ok(SSum(d, x.value)) else Err(x.fault)
  {
    var d := Low(4, cvs[0].bits);
    if d < |ss| {
      JoinCovers(ss, |ss|, d);
    }
  }

  /** The discriminant and the joined positions come next, and every case is
      covered by the joined kinds. */
  lemma SumOffered(flat: seq<Kind>, t: Type, view: seq<CoreVal>, at: nat)
    requires IsSum(t) && Valid(Despec(t)) && flat == Flatten(Despec(t))
    requires at + |flat| <= |view| && Kinds(view[at..at + |flat|]) == flat
    ensures |flat| > 0 && view[at].kind == I32
    ensures Kinds(view[at + 1..at + 1 + |flat[1..]|]) == flat[1..]
    ensures view[at..at + |flat|][1..] == view[at + 1..at + 1 + |flat[1..]|]
    ensures forall d :: 0 <= d < |CasesOf(t)| ==>
      Valid(DespecCase(CasesOf(t)[d])) && AllCovered(Flatten(DespecCase(CasesOf(t)[d])), flat[1..])
  {
    hide Despec, DespecCase, Flatten, JoinCases, Join;
    CasesShape(t);
    var ss := DespecCases(CasesOf(t));
    SumFlatten(ss);
    assert Kinds(view[at..at + |flat|])[0] == view[at].kind;
    WindowKinds(view, at, flat, 1, flat[1..]);
    forall d | 0 <= d < |CasesOf(t)|
      ensures Valid(DespecCase(CasesOf(t)[d])) && AllCovered(Flatten(DespecCase(CasesOf(t)[d])), flat[1..])
    {
      assert ss[d] == DespecCase(CasesOf(t)[d]);
      JoinCovers(ss, |ss|, d);
    }
  }

  method LiftFlatVariant(vi: ValueIter, cs: seq<Case>, mem: array<byte>) returns (r: Result<Value>)
    requires vi.Valid() && Valid(Despec(VariantT(cs))) && vi.Offers(Flatten(Despec(VariantT(cs))))
    modifies vi.chain
    ensures Lifted(r, mem[..], VariantT(cs), vi.View()[old(vi.i)..old(vi.i) + |Flatten(Despec(VariantT(cs)))|])
    ensures r.Ok? ==> vi.Valid() && forall o :: o in vi.chain ==> o.i == old(o.i) + |Flatten(Despec(VariantT(cs)))|
    decreases VariantT(cs), 0
  {
    hide Lifted, LiftedCase, Flatten, Despec, DespecCase, Valid, Narrow, AllCovered;
    ghost var m, at, t := mem[..], vi.i, VariantT(cs);
    CasesShape(t);
    var flat := FlattenVariant(cs);
    ghost var cvs := vi.View()[at..at + |flat.value|];
    SumOffered(flat.value, t, vi.View(), at);
    var disc := vi.Next();
    var d := AsI32(disc.value);
    if d >= |cs| {
      SumLifted(Ok(Nil), m, t, d, cvs);
      return Err(Rejected);
    }
    r := LiftCase(vi, flat.value[1..], cs[d], mem);
    CaseFits(r, m, cs[d], cvs[1..]);
    SumLifted(r, m, t, d, cvs);
    return if r.Ok? then Ok(VVariant(d, r.value)) else r;
  }

  lemma CaseFits(r: Result<Value>, m: bytes, c: Case, window: seq<CoreVal>)
    requires AllCovered(Flatten(DespecCase(c)), Kinds(window))
    ensures |Flatten(DespecCase(c))| <= |window|
  {
  }

  method LiftFlatResult(vi: ValueIter, ok: Case, err: Case, mem: array<byte>) returns (r: Result<Value>)
    requires vi.Valid() && Valid(Despec(ResultT(ok, err))) && vi.Offers(Flatten(Despec(ResultT(ok, err))))
    modifies vi.chain
    ensures Lifted(r, mem[..], ResultT(ok, err), vi.View()[old(vi.i)..old(vi.i) + |Flatten(Despec(ResultT(ok, err)))|])
    ensures r.Ok? ==> vi.Valid() && forall o :: o in vi.chain ==> o.i == old(o.i) + |Flatten(Despec(ResultT(ok, err)))|
    decreases ResultT(ok, err), 0
  {
    hide Lifted, LiftedCase, Flatten, Despec, DespecCase, Valid, Narrow, AllCovered;
    ghost var m, at, t := mem[..], vi.i, ResultT(ok, err);
    ghost var kinds := Flatten(Despec(t));
    ghost var cvs := vi.View()[at..at + |kinds|];
    SumOffered(kinds, t, vi.View(), at);
    var disc := vi.Next();
    var d := AsI32(disc.value);
    ResultShape(ok, err);
    var flat := FlattenResult(ok, err);
    if d > 1 {
      SumLifted(Ok(Nil), m, t, d, cvs);
      return Err(Rejected);
    }
    var arm := if d == 1 then err else ok;
    assert CasesOf(t)[d] == arm;
    r := LiftCase(vi, flat.value[1..], arm, mem);
    CaseFits(r, m, arm, cvs[1..]);
    SumLifted(r, m, t, d, cvs);
    return if r.Ok? then Ok(VResult(d == 1, r.value)) else r;
  }

  method LiftFlatOption(vi: ValueIter, e: Type, mem: array<byte>) returns (r: Result<Value>)
    requires vi.Valid() && Valid(Despec(OptionT(e))) && vi.Offers(Flatten(Despec(OptionT(e))))
    modifies vi.chain
    ensures Lifted(r, mem[..], OptionT(e), vi.View()[old(vi.i)..old(vi.i) + |Flatten(Despec(OptionT(e)))|])
    ensures r.Ok? ==> vi.Valid() && forall o :: o in vi.chain ==> o.i == old(o.i) + |Flatten(Despec(OptionT(e)))|
    decreases OptionT(e), 0
  {
    hide Lifted, LiftedCase, Flatten, Despec, DespecCase, Valid, Narrow, AllCovered;
    ghost var m, at, t := mem[..], vi.i, OptionT(e);
    ghost var kinds := Flatten(Despec(t));
    ghost var cvs := vi.View()[at..at + |kinds|];
    SumOffered(kinds, t, vi.View(), at);
    OptionKinds(e);
    var disc := vi.Next();
    var d := AsI32(disc.value);
    if d > 1 {
      SumLifted(Ok(Nil), m, t, d, cvs);
      return Err(Rejected);
    }
    if d == 0 {
      NoneLifted(m, e, cvs);
      var flat := FlattenType(e);
      for k := 0 to |flat.value|
        invariant vi.Valid() && forall o :: o in vi.chain ==> o.i == old(o.i) + 1 + k
      {
        var _ := vi.Next();
      }
      return Ok(Nil);
    }
    r := LiftFlatImpl(vi, e, mem);
    SomeLifted(r, m, e, cvs);
  }

  lemma OptionKinds(e: Type)
    requires Valid(Despec(OptionT(e)))
    ensures Valid(Despec(e)) && Flatten(Despec(OptionT(e))) == [I32] + Flatten(Despec(e))
  {
    UnitLayout();
    TwoCases(Unit, Despec(e));
    TwoCasesFlat(Unit, Despec(e));
    assert JoinFlats([], Flatten(Despec(e))) == Flatten(Despec(e));
  }

  lemma NoneLifted(m: bytes, e: Type, cvs: seq<CoreVal>)
    requires |cvs| == |Flatten(Despec(OptionT(e)))| > 0 && Low(4, cvs[0].bits) == 0
    ensures Lifted(Ok(Nil), m, OptionT(e), cvs)
  {
    hide Lifted, Flatten, Despec, Lift;
    CaseKinds(Empty);
    EmptyLifted(m);
    assert Narrow(cvs[1..], []) == [];
    SumLifted(Ok(Nil), m, OptionT(e), 0, cvs);
  }

  /** Some: the element is read without coercion, its kinds are the joined ones. */
  lemma SomeLifted(r: Result<Value>, m: bytes, e: Type, cvs: seq<CoreVal>)
    requires Valid(Despec(OptionT(e))) && |cvs| == |Flatten(Despec(OptionT(e)))| > 0 && Low(4, cvs[0].bits) == 1
    requires Lifted(r, m, e, cvs[1..])
    ensures Lifted(r, m, OptionT(e), cvs)
  {
    hide Lifted, Flatten, Despec, Lift;
    OptionKinds(e);
    CaseKinds(Carrying(e));
    CarryingLifted(r, m, e, cvs[1..]);
    var own := Flatten(Despec(e));
    CaseCut(r, m, Carrying(e), cvs[1..], Narrow(cvs[1..], own));
    SumLifted(r, m, OptionT(e), 1, cvs);
  }

  // ---- any type ----

  lemma LeafKinds(t: Type)
    requires Valid(Despec(t))
    ensures !t.OtherT?
    ensures t.ListT? ==> Flatten(Despec(t)) == [I32, I32]
    ensures t.FlagsT? ==> Despec(t) == Leaf(FlagsS(FlagsWidth(t.labels)))
    ensures t.HandleT? ==> Despec(t) == Leaf(IntS(W4))
    ensures t.FlagsT? || t.HandleT? || t.EnumT? ==> Flatten(Despec(t)) == [I32]
  {
    if t.EnumT? {
      UnitsFlat(t.names, t.names);
    }
  }

  method LiftFlatImpl(vi: ValueIter, t: Type, mem: array<byte>) returns (r: Result<Value>)
    requires vi.Valid() && Valid(Despec(t)) && vi.Offers(Flatten(Despec(t)))
    modifies vi.chain
    ensures Lifted(r, mem[..], t, vi.View()[old(vi.i)..old(vi.i) + |Flatten(Despec(t))|])
    ensures r.Ok? ==> vi.Valid() && forall o :: o in vi.chain ==> o.i == old(o.i) + |Flatten(Despec(t))|
    decreases t, 1
  {
    hide Lifted, Flatten, Despec, Valid;
    LeafKinds(t);
    match t {
      case PrimT(p) => r := LiftFlatPrimitive(vi, p, mem);
      case ListT(e) => r := LiftFlatList(vi, e, mem);
      case RecordT(ts) => r := LiftFlatFields(vi, t, ts, mem);
      case TupleT(ts) => r := LiftFlatFields(vi, t, ts, mem);
      case VariantT(cs) => r := LiftFlatVariant(vi, cs, mem);
      case FlagsT(n) => r := LiftFlatWord(vi, t, FlagsS(FlagsWidth(n)), mem);
      case EnumT(n) => r := LiftFlatEnum(vi, n, mem);
      case OptionT(e) => r := LiftFlatOption(vi, e, mem);
      case ResultT(ok, err) => r := LiftFlatResult(vi, ok, err, mem);
      case HandleT => r := LiftFlatWord(vi, t, IntS(W4), mem);
    }
  }
}
