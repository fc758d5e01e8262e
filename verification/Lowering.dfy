/** flat.go, lowering: core values are appended constructor by constructor,
    cases are coerced to the joined kinds and padded. Each method is proved to
    emit what the reference `Flat.Lower` does on the despecialised type. */
module Lowering {
  import opened Base
  import opened Shapes
  import opened Memory
  import opened Values
  import opened ValueFacts
  import opened Flat
  import opened FlatRoundTrip
  import opened Layout
  import opened Flattening
  import opened Footprint
  import opened Storing

  // ---- core values ----

  /** The accessors panic on another kind; their preconditions say that this
      never happens. */
  function AsI32(cv: CoreVal): u32
    requires cv.kind == I32
  {
    Low(4, cv.bits)
  }

  function AsI64(cv: CoreVal): u64
    requires cv.kind == I64
  {
    cv.bits
  }

  function AsF32(cv: CoreVal): u32
    requires cv.kind == F32
  {
    Low(4, cv.bits)
  }

  function AsF64(cv: CoreVal): u64
    requires cv.kind == F64
  {
    cv.bits
  }

  /** coerceValue: from the kind of a case to the joined kind. */
  function CoerceValue(cv: CoreVal, have: Kind, want: Kind): CoreVal
    requires cv.kind == have
  {
    if have == want then cv
    else if have == F32 && want == I32 then CoreVal(I32, AsF32(cv))
    else if have == I32 && want == I64 then CoreVal(I64, AsI32(cv))
    else if have == F32 && want == I64 then CoreVal(I64, AsF32(cv))
    else if have == F64 && want == I64 then CoreVal(I64, AsF64(cv))
    else cv
  }

  /** deCoerceValue: from the joined kind back to the kind of a case. */
  function DeCoerceValue(cv: CoreVal, have: Kind, want: Kind): CoreVal
    requires cv.kind == have
  {
    if have == want then cv
    else if have == I32 && want == F32 then CoreVal(F32, AsI32(cv))
    else if have == I64 && want == I32 then CoreVal(I32, Low(4, AsI64(cv)))
    else if have == I64 && want == F32 then CoreVal(F32, Low(4, AsI64(cv)))
    else if have == I64 && want == F64 then CoreVal(F64, AsI64(cv))
    else cv
  }

  /** `wide` is a kind that the join of a case of kind `own` can give. */
  predicate Covers(own: Kind, wide: Kind) {
    exists other: Kind :: Join(own, other) == wide
  }

  /** Coercion undoes itself for every pair of kinds that a join can produce,
      and only for those. */
  lemma DeCoerceUndoesCoerce(own: Kind, wide: Kind)
    ensures (forall bits: u64 :: bits < KindSpan(own) ==>
               CoerceValue(CoreVal(own, bits), own, wide).kind == wide
               && DeCoerceValue(CoerceValue(CoreVal(own, bits), own, wide), wide, own) == CoreVal(own, bits))
       <==> Covers(own, wide)
  {
    if Covers(own, wide) {
      var other: Kind :| Join(own, other) == wide;
      assert wide == own || wide == I32 || wide == I64;
    } else {
      assert Join(own, own) == own && Join(own, I64) == I64;
      if own == F32 {
        assert Join(own, I32) == I32;
      }
      assert CoerceValue(CoreVal(own, 0), own, wide).kind == own != wide;
    }
  }

  /** A value of the joined kind keeps its bits going down, cut to the width of
      the case, and one of the case keeps them going up. */
  lemma CoercionKeepsBits(cv: CoreVal, own: Kind, wide: Kind)
    requires Join(own, wide) == wide
    ensures cv.kind == own && cv.bits < KindSpan(own) ==> CoerceValue(cv, own, wide) == CoreVal(wide, cv.bits)
    ensures cv.kind == wide ==>
      DeCoerceValue(cv, wide, own).kind == own && Cut(own, DeCoerceValue(cv, wide, own).bits) == Cut(own, cv.bits)
  {
  }

  // ---- what each method is proved to do ----

  /** The outcome of lowering `v` at a type that `Flatten` accepts. */
  ghost predicate LoweredAs(r: Result<seq<CoreVal>>, st: State, t: Type, v: Value, sb: State) {
    var x := Denote(InCore, t, v);
    Valid(Despec(t)) ==>
      && (r.Ok? ==> x.Ok? && Lower(st, Despec(t), x.value) == Ok(Lowered(r.value, sb)))
      && (r.Err? && |st.mem| < TWO_32 ==> r.fault == Rejected && (x.Err? || Lower(st, Despec(t), x.value).Err?))
  }

  // ---- primitives ----

  method LowerPrimitiveCore(v: Value, p: Prim) returns (r: Result<CoreVal>)
    requires p != Str
    ensures var x := DenotePrim(p, v);
            if r.Ok? then x == Ok(SInt(r.value.bits)) && r.value.kind ==
              ScalarKind(ScalarOf(p)) && Accepts(ScalarOf(p), r.value.bits)
            else r.fault == Rejected && x.Err?
    ensures p == Bool ==> r == if v.VBool? then Ok(CoreVal(I32, if v.b then 1 else 0)) else Err(Rejected)
    ensures p == U8 || p == U16 || p == U32 || p == ErrorContext ==>
      r == if v.VU32? then Ok(CoreVal(I32, v.u)) else Err(Rejected)
    ensures p == S8 || p == S16 || p == S32 ==>
      r == if v.VS32? then Ok(CoreVal(I32, if v.i < 0 then v.i + 0x1_0000_0000 else v.i)) else Err(Rejected)
    ensures p == U64 ==> r == if v.VU64? then Ok(CoreVal(I64, v.ul)) else Err(Rejected)
    ensures p == S64 ==>
      r == if v.VS64? then Ok(CoreVal(I64, if v.il < 0 then v.il + 0x1_0000_0000_0000_0000 else v.il))
           else Err(Rejected)
    ensures p == Float32 ==> r == if v.VF32? then Ok(CoreVal(F32, v.fbits)) else Err(Rejected)
    ensures p == Float64 ==> r == if v.VF64? then Ok(CoreVal(F64, v.dbits)) else Err(Rejected)
    ensures p == Char ==>
      r == if v.VS32? && 0 <= v.i < 0x11_0000 && !(0xD800 <= v.i <= 0xDFFF) then Ok(CoreVal(I32, v.i))
           else Err(Rejected)
  {
    match p {
      case Bool =>
        if !v.VBool? {
          return Err(Rejected);
        }
        return Ok(CoreVal(I32, if v.b then 1 else 0));
      case U8 | U16 | U32 =>
        if !v.VU32? {
          return Err(Rejected);
        }
        return Ok(CoreVal(I32, v.u));
      case S8 | S16 | S32 =>
        if !v.VS32? {
          return Err(Rejected);
        }
        return Ok(CoreVal(I32, Low(4, v.i)));
      case U64 =>
        if !v.VU64? {
          return Err(Rejected);
        }
        return Ok(CoreVal(I64, v.ul));
      case S64 =>
        if !v.VS64? {
          return Err(Rejected);
        }
        return Ok(CoreVal(I64, Low(8, v.il)));
      case Float32 =>
        if !v.VF32? {
          return Err(Rejected);
        }
        return Ok(CoreVal(F32, v.fbits));
      case Float64 =>
        if !v.VF64? {
          return Err(Rejected);
        }
        return Ok(CoreVal(F64, v.dbits));
      case Char =>
        if !v.VS32? || v.i < 0 || v.i >= 0x11_0000 || 0xD800 <= v.i <= 0xDFFF {
          return Err(Rejected);
        }
        return Ok(CoreVal(I32, v.i));
      case ErrorContext =>
        if !v.VU32? {
          return Err(Rejected);
        }
        return Ok(CoreVal(I32, v.u));
    }
  }

  method LowerFlatPrimitive(v: Value, p: Prim, mem: array<byte>, a: Allocator) returns (r: Result<seq<CoreVal>>)
    modifies mem, a
    ensures LoweredAs(r, old(StateOf(mem, a)), PrimT(p), v, StateOf(mem, a))
  {
    ghost var st := StateOf(mem, a);
    if p == Str {
      if !v.VString? {
        return Err(Rejected);
      }
      r := LowerFlatString(v.s, mem, a);
      return;
    }
    var cv :- LowerPrimitiveCore(v, p);
    assert Lower(st, Leaf(ScalarOf(p)), SInt(cv.bits)) == Ok(Lowered([cv], st));
    return Ok([cv]);
  }

  method LowerFlatString(s: bytes, mem: array<byte>, a: Allocator) returns (r: Result<seq<CoreVal>>)
    modifies mem, a
    ensures LoweredAs(r, old(StateOf(mem, a)), PrimT(Str), VString(s), StateOf(mem, a))
  {
    ghost var st := StateOf(mem, a);
    assert Denote(InCore, PrimT(Str), VString(s)) == Ok(SText(s[..Low(4, |s|)]));
    var placed :- AllocStoreString(mem, s, a);
    return Ok([CoreVal(I32, placed.0), CoreVal(I32, placed.1)]);
  }

  method LowerFlatList(v: Value, e: Type, mem: array<byte>, a: Allocator) returns (r: Result<seq<CoreVal>>)
    modifies mem, a
    ensures LoweredAs(r, old(StateOf(mem, a)), ListT(e), v, StateOf(mem, a))
  {
    hide PlaceList, DenoteElems, Checked;
    assert Denote(InCore, ListT(e), v) == Denote(InMemory, ListT(e), v);
    var placed :- AllocStoreAnyList(mem, e, v, a);
    return Ok([CoreVal(I32, placed.0), CoreVal(I32, placed.1)]);
  }

  method LowerFlatHandle(v: Value, ghost st: State) returns (r: Result<seq<CoreVal>>)
    ensures LoweredAs(r, st, HandleT, v, st)
  {
    if !v.VU32? {
      return Err(Rejected);
    }
    assert Lower(st, Leaf(IntS(W4)), SInt(v.u)) == Ok(Lowered([CoreVal(I32, v.u)], st));
    return Ok([CoreVal(I32, v.u)]);
  }

  method LowerFlatFlags(v: Value, labels: nat, ghost st: State) returns (r: Result<seq<CoreVal>>)
    ensures LoweredAs(r, st, FlagsT(labels), v, st)
  {
    if !v.VU32? {
      return Err(Rejected);
    }
    ghost var l := FlagsS(FlagsWidth(labels));
    assert Lower(st, Leaf(l), SInt(v.u)) == Ok(Lowered([CoreVal(I32, v.u)], st));
    return Ok([CoreVal(I32, v.u)]);
  }

  // ---- enums ----

  method LowerFlatEnum(v: Value, names: u32, ghost st: State) returns (r: Result<seq<CoreVal>>)
    ensures LoweredAs(r, st, EnumT(names), v, st)
  {
    if !v.VU32? || v.u >= names {
      return Err(Rejected);
    }
    EnumLowered(st, names, v.u);
    return Ok([CoreVal(I32, v.u)]);
  }

  lemma EnumLowered(st: State, names: u32, d: u32)
    requires d < names
    ensures Lower(st, Sum(Units(names)), SSum(d, SUnit)) == Ok(Lowered([CoreVal(I32, d)], st))
  {
    UnitsFlat(names, names);
    assert Units(names)[d] == Unit;
    assert Lower(st, Unit, SUnit) == LowerFields(st, [], [], 0) == Ok(Lowered([], st));
    assert JoinCases(Units(names), names) == [];
    assert LowerSum(st, Units(names), d, SUnit) == Ok(Lowered([CoreVal(I32, d)] + Widen([], []), st));
    assert [CoreVal(I32, d)] + Widen([], []) == [CoreVal(I32, d)];
  }

  // ---- records and tuples ----

  /** The first i fields are lowered. */
  ghost predicate FieldsSoFar(st: State, ts: seq<Type>, vs: seq<Value>, i: nat, flat: seq<CoreVal>, sb: State) {
    && i <= |ts| == |vs|
    && (forall j :: 0 <= j < i ==> Denote(InCore, ts[j], vs[j]).Ok?)
    && var d := DenoteAll(InCore, ts, vs, |ts|);
       d.Ok? ==> LowerFields(st, DespecAll(ts), d.value, i) == Ok(Lowered(flat, sb))
  }

  lemma FieldsBegin(st: State, t: Type, ts: seq<Type>, v: Value)
    requires t == RecordT(ts) || t == TupleT(ts)
    ensures v.VList? && |v.vs| == |ts| ==> FieldsSoFar(st, ts, v.vs, 0, [], st)
    ensures !v.VList? || |v.vs| != |ts| ==> forall sb :: LoweredAs(Err(Rejected), st, t, v, sb)
  {
  }

  lemma {:induction false} LowerFieldsStops(st: State, fs: seq<Shape>, xs: seq<Sem>, i: nat, n: nat)
    requires i <= n <= |fs| == |xs| && LowerFields(st, fs, xs, i).Err?
    ensures LowerFields(st, fs, xs, n).Err?
    decreases n
  {
    if i < n {
      LowerFieldsStops(st, fs, xs, i, n - 1);
    }
  }

  lemma NextField(st: State, fs: seq<Shape>, xs: seq<Sem>, i: nat)
    requires i < |fs| == |xs| && LowerFields(st, fs, xs, i).Ok?
    ensures var a := LowerFields(st, fs, xs, i).value; var b := Lower(a.st, fs[i], xs[i]);
      LowerFields(st, fs, xs, i + 1) == if b.Ok? then Ok(Lowered(a.cvs + b.value.cvs, b.value.st)) else Err(b.fault)
  {
  }

  /** One field lowered after the first i, or a field that could not be. */
  lemma FieldLowered(r: Result<seq<CoreVal>>, st: State, t: Type, ts: seq<Type>, vs: seq<Value>, i: nat,
                     flat: seq<CoreVal>, sa: State, sb: State)
    requires (t == RecordT(ts) || t == TupleT(ts)) && Valid(Despec(t))
    requires i < |ts| && |sa.mem| == |st.mem| && FieldsSoFar(st, ts, vs, i, flat, sa)
      && LoweredAs(r, sa, ts[i], vs[i], sb)
    ensures r.Ok? ==> FieldsSoFar(st, ts, vs, i + 1, flat + r.value, sb)
    ensures r.Err? ==> LoweredAs(r, st, t, VList(vs), sb)
  {
    hide Lower, LowerFields, Despec, Denote, DenoteAll, Valid;
    FieldValid(t, ts, i);
    var d, fs := DenoteAll(InCore, ts, vs, |ts|), DespecAll(ts);
    if d.Ok? {
      DenoteAllAt(InCore, ts, vs, |ts|);
      NextField(st, fs, d.value, i);
    }
    if r.Err? && |st.mem| < TWO_32 {
      if d.Ok? {
        LowerFieldsStops(st, fs, d.value, i + 1, |ts|);
      }
      FieldsStopped(r, st, t, ts, vs, sb);
    }
  }

  lemma FieldValid(t: Type, ts: seq<Type>, i: nat)
    requires (t == RecordT(ts) || t == TupleT(ts)) && Valid(Despec(t)) && i < |ts|
    ensures DespecAll(ts)[i] == Despec(ts[i]) && Valid(Despec(ts[i]))
  {
    assert Valid(DespecAll(ts)[i]);
  }

  lemma FieldsStopped(r: Result<seq<CoreVal>>, st: State, t: Type, ts: seq<Type>, vs: seq<Value>, sb: State)
    requires (t == RecordT(ts) || t == TupleT(ts)) && |vs| == |ts| && r == Err(Rejected)
    requires var d := DenoteAll(InCore, ts, vs, |ts|);
             d.Err? || LowerFields(st, DespecAll(ts), d.value, |ts|).Err?
    ensures LoweredAs(r, st, t, VList(vs), sb)
  {
  }

  lemma FieldsFinished(st: State, t: Type, ts: seq<Type>, vs: seq<Value>, flat: seq<CoreVal>, sb: State)
    requires (t == RecordT(ts) || t == TupleT(ts)) && FieldsSoFar(st, ts, vs, |ts|, flat, sb)
    ensures LoweredAs(Ok(flat), st, t, VList(vs), sb)
  {
    DenoteAllOk(InCore, ts, vs, |ts|);
  }

  /** lowerFlatRecord and lowerFlatTuple. */
  method LowerFlatFields(v: Value, ghost t: Type, ts: seq<Type>, mem: array<byte>, a: Allocator)
    returns (r: Result<seq<CoreVal>>)
    requires t == RecordT(ts) || t == TupleT(ts)
    modifies mem, a
    ensures LoweredAs(r, old(StateOf(mem, a)), t, v, StateOf(mem, a))
    decreases ts, 0
  {
    hide LoweredAs, FieldsSoFar, Despec, DespecAll, Valid, Denote, DenoteAll;
    ghost var st, valid := StateOf(mem, a), Valid(Despec(t));
    FieldsBegin(st, t, ts, v);
    if !v.VList? || |v.vs| != |ts| {
      return Err(Rejected);
    }
    var flat := [];
    for i := 0 to |ts|
      invariant valid ==> FieldsSoFar(st, ts, v.vs, i, flat, StateOf(mem, a))
    {
      ghost var sa := StateOf(mem, a);
      r := LowerFlatImpl(v.vs[i], ts[i], mem, a);
      if valid {
        FieldLowered(r, st, t, ts, v.vs, i, flat, sa, StateOf(mem, a));
      } else {
        InvalidLowered(r, st, t, v, StateOf(mem, a));
      }
      if r.Err? {
        return;
      }
      flat := flat + r.value;
    }
    if valid {
      FieldsFinished(st, t, ts, v.vs, flat, StateOf(mem, a));
    } else {
      InvalidLowered(Ok(flat), st, t, v, StateOf(mem, a));
    }
    return Ok(flat);
  }

  lemma InvalidLowered(r: Result<seq<CoreVal>>, st: State, t: Type, v: Value, sb: State)
    ensures !Valid(Despec(t)) ==> LoweredAs(r, st, t, v, sb)
  {
  }

  // ---- variants, options and results ----

  /** The loops of lowerFlatVariant and lowerFlatResult: coerce what the case
      lowered to, then pad to the joined width. */
  method CoerceAndPad(vals: seq<CoreVal>, have: seq<Kind>, joined: seq<Kind>) returns (r: seq<CoreVal>)
    requires Typed(vals, have) && |have| <= |joined|
    requires forall i :: 0 <= i < |have| ==> Join(have[i], joined[i]) == joined[i]
    ensures r == Widen(vals, joined)
  {
    r := [];
    while |r| < |vals| && |r| < |joined|
      invariant |r| <= |vals|
      invariant r == Widen(vals, joined)[..|r|]
      decreases |vals| - |r|
    {
      var i := |r|;
      CoercionKeepsBits(vals[i], have[i], joined[i]);
      r := r + [CoerceValue(vals[i], have[i], joined[i])];
    }
    for i := |r| to |joined|
      invariant |r| == i && r == Widen(vals, joined)[..i]
    {
      r := r + [ZeroCoreValue(joined[i])];
    }
  }

  function ZeroCoreValue(k: Kind): CoreVal {
    match k
    case I32 => CoreVal(I32, 0)
    case I64 => CoreVal(I64, 0)
    case F32 => CoreVal(F32, 0)
    case F64 => CoreVal(F64, 0)
  }

  /** The outcome of lowering what a case carries, if anything. */
  ghost predicate LoweredCase(r: Result<seq<CoreVal>>, st: State, c: Case, v: Value, sb: State) {
    var x := DenoteCase(InCore, c, v);
    && (r.Ok? ==> x.Ok? && Lower(st, DespecCase(c), x.value) == Ok(Lowered(r.value, sb)))
    && (r.Err? && |st.mem| < TWO_32 ==> r.fault == Rejected && (x.Err? || Lower(st, DespecCase(c), x.value).Err?))
  }

  lemma EmptyLowered(st: State, v: Value)
    ensures LoweredCase(Ok([]), st, Empty, v, st)
  {
    assert Lower(st, Unit, SUnit) == LowerFields(st, [], [], 0);
  }

  lemma CarryingLowered(r: Result<seq<CoreVal>>, st: State, t: Type, v: Value, sb: State)
    requires Valid(Despec(t))
    ensures LoweredCase(r, st, Carrying(t), v, sb) <==> LoweredAs(r, st, t, v, sb)
  {
  }

  /** A lowered case has the kinds of the case, which the joined kinds cover. */
  lemma CaseTyped(r: Result<seq<CoreVal>>, st: State, cs: seq<Case>, d: nat, v: Value, sb: State)
    requires d < |cs| && r.Ok? && LoweredCase(r, st, cs[d], v, sb)
    ensures var have, joined := Flatten(DespecCase(cs[d])), JoinCases(DespecCases(cs), |cs|);
      && Typed(r.value, have) && |have| <= |joined|
      && (forall i :: 0 <= i < |have| ==> Join(have[i], joined[i]) == joined[i])
  {
    hide Lower, DespecCase, Flatten, JoinCases, Join;
    LowerTyped(st, DespecCase(cs[d]), DenoteCase(InCore, cs[d], v).value, Lowered(r.value, sb));
    JoinCovers(DespecCases(cs), |cs|, d);
  }

  /** A payload lowered, then coerced and padded, or one that could not be lowered. */
  lemma SumLowered(r: Result<seq<CoreVal>>, st: State, t: Type, v: Value, sb: State)
    requires Choice(t, v).Take? && Choice(t, v).disc < TWO_32
    requires var k := Choice(t, v);
             LoweredCase(r, st, CasesOf(t)[k.disc], k.carried, sb)
    ensures var k, cs := Choice(t, v), CasesOf(t);
      && (r.Ok? ==> LoweredAs(Ok([CoreVal(I32, k.disc)] + Widen(r.value, JoinCases(DespecCases(cs), |cs|))), st, t, v,
        sb))
      && (r.Err? ==> LoweredAs(r, st, t, v, sb))
  {
    hide Denote, DenoteCase, Despec, DespecCase, Lower, JoinCases, Valid;
    CasesShape(t);
    ChoiceDenote(InCore, t, v);
    var k, ss := Choice(t, v), DespecCases(CasesOf(t));
    assert ss[k.disc] == DespecCase(CasesOf(t)[k.disc]);
    LowerOfSum(st, ss, k.disc);
  }

  lemma LowerOfSum(st: State, ss: seq<Shape>, d: u32)
    requires d < |ss|
    ensures forall x ::
      var a := Lower(st, ss[d], x);
      Lower(st, Sum(ss), SSum(d, x))
      == if a.Ok? then Ok(Lowered([CoreVal(I32, d)] + Widen(a.value.cvs, JoinCases(ss, |ss|)), a.value.st))
        else Err(a.fault)
  {
  }

  lemma SumRefused(st: State, t: Type, v: Value)
    requires IsSum(t)
    ensures Choice(t, v).Mismatch? ==> forall sb :: LoweredAs(Err(Rejected), st, t, v, sb)
    ensures !Valid(Despec(t)) ==> forall f, sb :: LoweredAs(Err(f), st, t, v, sb)
  {
  }

  /** What flattening a whole sum says about it. */
  lemma SumFlat(flat: Result<seq<Kind>>, t: Type)
    requires IsSum(t) && IsFlatOf(flat, Despec(t))
    ensures flat.Ok? ==>
      var cs := CasesOf(t);
      && |flat.value| > 0 && flat.value[0] == I32 && flat.value[1..] == JoinCases(DespecCases(cs), |cs|)
      && forall i :: 0 <= i < |cs| ==> Valid(DespecCase(cs[i]))
    ensures flat.Err? ==> !Valid(Despec(t))
  {
    hide Despec, JoinCases, DespecCase;
    CasesShape(t);
    if flat.Ok? {
      SumFlatten(DespecCases(CasesOf(t)));
      forall i | 0 <= i < |CasesOf(t)| ensures Valid(DespecCase(CasesOf(t)[i])) {
        assert DespecCases(CasesOf(t))[i] == DespecCase(CasesOf(t)[i]);
      }
    }
  }

  lemma SumFlatten(ss: seq<Shape>)
    ensures Flatten(Sum(ss)) == [I32] + JoinCases(ss, |ss|)
    ensures Valid(Sum(ss)) ==> forall i :: 0 <= i < |ss| ==> Valid(ss[i])
  {
  }

  method LowerFlatVariant(v: Value, cs: seq<Case>, mem: array<byte>, a: Allocator) returns (r: Result<seq<CoreVal>>)
    modifies mem, a
    ensures LoweredAs(r, old(StateOf(mem, a)), VariantT(cs), v, StateOf(mem, a))
    decreases VariantT(cs), 0
  {
    hide LoweredAs, LoweredCase, Despec, DespecCase, DespecCases, Valid, Flatten, JoinCases, Typed, Widen, Join;
    ghost var st, t := StateOf(mem, a), VariantT(cs);
    SumRefused(st, t, v);
    CasesShape(t);
    if !v.VVariant? || v.disc >= |cs| {
      return Err(Rejected);
    }
    var flat := FlattenVariant(cs);
    SumFlat(flat, t);
    if flat.Err? {
      return Err(flat.fault);
    }
    r := LowerPayload(v.payload, cs[v.disc], mem, a);
    SumLowered(r, st, t, v, StateOf(mem, a));
    if r.Err? {
      return;
    }
    CaseTyped(r, st, cs, v.disc, v.payload, StateOf(mem, a));
    var have := CaseFlat(cs[v.disc]);
    var payload := CoerceAndPad(r.value, have, flat.value[1..]);
    return Ok([CoreVal(I32, v.disc)] + payload);
  }

  method LowerPayload(v: Value, c: Case, mem: array<byte>, a: Allocator) returns (r: Result<seq<CoreVal>>)
    requires Valid(DespecCase(c))
    modifies mem, a
    ensures LoweredCase(r, old(StateOf(mem, a)), c, v, StateOf(mem, a))
    decreases c, 0
  {
    hide LoweredAs, LoweredCase;
    ghost var st := StateOf(mem, a);
    if c.Carrying? {
      r := LowerFlatImpl(v, c.t, mem, a);
      CarryingLowered(r, st, c.t, v, StateOf(mem, a));
    } else {
      EmptyLowered(st, v);
      r := Ok([]);
    }
  }

  method CaseFlat(c: Case) returns (have: seq<Kind>)
    requires Valid(DespecCase(c))
    ensures have == Flatten(DespecCase(c))
  {
    UnitLayout();
    have := [];
    if c.Carrying? {
      var flat := FlattenType(c.t);
      have := flat.value;
    }
  }

  method LowerFlatOption(v: Value, e: Type, mem: array<byte>, a: Allocator) returns (r: Result<seq<CoreVal>>)
    modifies mem, a
    ensures LoweredAs(r, old(StateOf(mem, a)), OptionT(e), v, StateOf(mem, a))
    decreases OptionT(e), 0
  {
    hide LoweredAs, LoweredCase, Despec, DespecCase, DespecCases, Valid, Flatten, JoinCases, Typed, Widen, Join;
    ghost var st, t := StateOf(mem, a), OptionT(e);
    SumRefused(st, t, v);
    var flat := FlattenType(e);
    OptionFlat(flat, e);
    if flat.Err? {
      return Err(flat.fault);
    }
    if v.Nil? {
      EmptyLowered(st, v);
      SumLowered(Ok([]), st, t, v, StateOf(mem, a));
      var zeros := CoerceAndPadNone(flat.value);
      return Ok([CoreVal(I32, 0)] + zeros);
    }
    r := LowerFlatImpl(v, e, mem, a);
    CarryingLowered(r, st, e, v, StateOf(mem, a));
    SumLowered(r, st, t, v, StateOf(mem, a));
    if r.Err? {
      return;
    }
    CaseTyped(r, st, CasesOf(t), 1, v, StateOf(mem, a));
    TypedWiden(r.value, flat.value);
    return Ok([CoreVal(I32, 1)] + r.value);
  }

  /** The zero padding of none. */
  method CoerceAndPadNone(kinds: seq<Kind>) returns (r: seq<CoreVal>)
    ensures r == Widen([], kinds)
  {
    r := [];
    for i := 0 to |kinds|
      invariant r == Widen([], kinds)[..i]
    {
      r := r + [ZeroCoreValue(kinds[i])];
    }
  }

  lemma OptionFlat(flat: Result<seq<Kind>>, e: Type)
    requires IsFlatOf(flat, Despec(e))
    ensures flat.Err? ==> !Valid(Despec(OptionT(e)))
    ensures flat.Ok? ==>
      && Valid(Despec(e)) && DespecCase(CasesOf(OptionT(e))[1]) == Despec(e)
      && Flatten(Despec(e)) == flat.value && JoinCases(DespecCases(CasesOf(OptionT(e))), 2) == flat.value
  {
    var ss := [Unit, Despec(e)];
    CasesShape(OptionT(e));
    assert DespecCases(CasesOf(OptionT(e))) == ss;
    assert ss[1] == Despec(e);
    UnitLayout();
    TwoCases(Unit, Despec(e));
    TwoCasesFlat(Unit, Despec(e));
    assert JoinFlats([], Flatten(Despec(e))) == Flatten(Despec(e));
  }

  lemma TypedWiden(vals: seq<CoreVal>, kinds: seq<Kind>)
    requires Typed(vals, kinds)
    ensures Widen(vals, kinds) == vals
  {
  }

  method LowerFlatResult(v: Value, ok: Case, err: Case, mem: array<byte>, a: Allocator)
    returns (r: Result<seq<CoreVal>>)
    modifies mem, a
    ensures LoweredAs(r, old(StateOf(mem, a)), ResultT(ok, err), v, StateOf(mem, a))
    decreases ResultT(ok, err), 0
  {
    hide LoweredAs, LoweredCase, Despec, DespecCase, DespecCases, Valid, Flatten, JoinCases, Typed, Widen, Join;
    ghost var st, t := StateOf(mem, a), ResultT(ok, err);
    SumRefused(st, t, v);
    ResultShape(ok, err);
    if !v.VResult? {
      return Err(Rejected);
    }
    var flat := FlattenResult(ok, err);
    SumFlat(flat, t);
    if flat.Err? {
      return Err(flat.fault);
    }
    var disc, arm := if v.isErr then 1 else 0, if v.isErr then err else ok;
    assert CasesOf(t)[disc] == arm;
    r := LowerPayload(v.carried, arm, mem, a);
    SumLowered(r, st, t, v, StateOf(mem, a));
    if r.Err? {
      return;
    }
    CaseTyped(r, st, CasesOf(t), disc, v.carried, StateOf(mem, a));
    var have := CaseFlat(arm);
    var payload := CoerceAndPad(r.value, have, flat.value[1..]);
    return Ok([CoreVal(I32, disc)] + payload);
  }

  lemma ResultShape(ok: Case, err: Case)
    ensures Despec(ResultT(ok, err)) == Sum([DespecCase(ok), DespecCase(err)])
  {
  }

  // ---- any type ----

  method LowerFlatImpl(v: Value, t: Type, mem: array<byte>, a: Allocator) returns (r: Result<seq<CoreVal>>)
    modifies mem, a
    ensures LoweredAs(r, old(StateOf(mem, a)), t, v, StateOf(mem, a))
    decreases t, 1
  {
    ghost var st := StateOf(mem, a);
    match t {
      case PrimT(p) => r := LowerFlatPrimitive(v, p, mem, a);
      case ListT(e) => r := LowerFlatList(v, e, mem, a);
      case RecordT(ts) => r := LowerFlatFields(v, t, ts, mem, a);
      case TupleT(ts) => r := LowerFlatFields(v, t, ts, mem, a);
      case VariantT(cs) => r := LowerFlatVariant(v, cs, mem, a);
      case FlagsT(labels) => r := LowerFlatFlags(v, labels, st);
      case EnumT(names) => r := LowerFlatEnum(v, names, st);
      case OptionT(e) => r := LowerFlatOption(v, e, mem, a);
      case ResultT(ok, err) => r := LowerFlatResult(v, ok, err, mem, a);
      case HandleT => r := LowerFlatHandle(v, st);
      case OtherT => r := Err(Rejected);
    }
  }
}
