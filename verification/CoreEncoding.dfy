/** The flat encoding outright, core value by core value, for host values: which
    core values a value is lowered to, and which value given core values are
    lifted to. */
module CoreEncoding {
  import opened Base
  import opened Shapes
  import opened Memory
  import opened MemoryFacts
  import opened Values
  import opened ValueFacts
  import opened Flat
  import opened FlatRoundTrip
  import opened Layout
  import opened Flattening
  import opened Footprint
  import opened Storing
  import opened Loading
  import opened Lowering
  import opened Lifting
  import opened Plans
  import opened Params
  import opened MemoryEncoding
  import Utf8

  /** A value lowered without spilling. */
  function LowerAt(st: State, t: Type, v: Value): Result<Lowered> {
    var x :- Denote(InCore, t, v);
    Lower(st, Despec(t), x)
  }

  /** A value lifted from as many core values as its type flattens to. */
  function LiftAt(m: bytes, t: Type, cvs: seq<CoreVal>): Result<Value>
    requires |cvs| == |Flatten(Despec(t))|
  {
    var x :- Lift(m, Despec(t), cvs);
    Ok(Reify(InCore, t, x))
  }

  // ---- lowering ----

  /** More than 16 core values: the value is stored in a block with its size and
      alignment, and the address of the block is the one core value. */
  lemma LoweredOrSpilled(st: State, t: Type, v: Value, r: Lowered) returns (sa: State)
    requires LowerValue(st, t, v) == Ok(r)
    ensures |Flatten(Despec(t))| <= 16 ==> LowerAt(st, t, v) == Ok(r)
    ensures |Flatten(Despec(t))| > 16 ==>
      && |r.cvs| == 1 && r.cvs[0].kind == I32 && sa.mem == st.mem
      && sa.heap.blocks == st.heap.blocks + [Block(r.cvs[0].bits, Align(Despec(t)), Size(Despec(t)))]
      && StoreValueAt(sa, r.cvs[0].bits, t, v) == Ok(r.st)
  {
    hide Denote, Lower, Flatten, StoreAt, Despec, Align, Size, Valid;
    LoweredTop(st, t, v, r);
    sa := st;
    if Spills(Despec(t)) {
      sa := st.(heap := Grow(st.heap, Align(Despec(t)), Size(Despec(t))).value.1);
    }
  }

  lemma LoweredUnsigned(st: State, t: Type, v: Value, r: Lowered)
    requires LowerAt(st, t, v) == Ok(r)
    ensures t == PrimT(Bool) ==> v.VBool? && r == Lowered([CoreVal(I32, if v.b then 1 else 0)], st)
    ensures t == PrimT(U8) || t == PrimT(U16) || t == PrimT(U32) || t == PrimT(ErrorContext) || t == HandleT
      || (t.FlagsT? && 0 < t.labels <= 32)
      ==> v.VU32? && r == Lowered([CoreVal(I32, v.u)], st)
    ensures t == PrimT(U64) ==> v.VU64? && r == Lowered([CoreVal(I64, v.ul)], st)
    ensures t == PrimT(Float32) ==> v.VF32? && r == Lowered([CoreVal(F32, v.fbits)], st)
    ensures t == PrimT(Float64) ==> v.VF64? && r == Lowered([CoreVal(F64, v.dbits)], st)
  {
  }

  /** Signed numbers are lowered as two's complement. */
  lemma LoweredSigned(st: State, t: Type, v: Value, r: Lowered)
    requires LowerAt(st, t, v) == Ok(r)
    ensures t == PrimT(S8) || t == PrimT(S16) || t == PrimT(S32) ==>
      v.VS32? && r == Lowered([CoreVal(I32, if v.i < 0 then v.i + 0x1_0000_0000 else v.i)], st)
    ensures t == PrimT(S64) ==>
      v.VS64? && r == Lowered([CoreVal(I64, if v.il < 0 then v.il + 0x1_0000_0000_0000_0000 else v.il)], st)
    ensures t == PrimT(Char) ==>
      v.VS32? && 0 <= v.i < 0x11_0000 && !(0xD800 <= v.i < 0xE000) && r == Lowered([CoreVal(I32, v.i)], st)
  {
  }

  /** Text: the address of a new block that holds it, then its length. */
  lemma LoweredString(st: State, v: Value, r: Lowered) returns (q: u32)
    requires LowerAt(st, PrimT(Str), v) == Ok(r)
    ensures v.VString? && var s := v.s[..|v.s| % 0x1_0000_0000];
      && r.cvs == [CoreVal(I32, q), CoreVal(I32, |s|)]
      && r.st.heap.blocks == st.heap.blocks + [Block(q, 1, |s|)]
      && q + |s| <= |r.st.mem| == |st.mem| && r.st.mem[q..q + |s|] == s
      && forall k: nat :: k < |st.mem| && !(q <= k < q + |s|) ==> r.st.mem[k] == st.mem[k]
  {
    var s := v.s[..Low(4, |v.s|)];
    assert Lower(st, Text, SText(s)) == LowerText(st, s) == Ok(r);
    q := PlaceText(st, s).value.0;
    assert r.st.mem[q..q + |s|] == s;
  }

  lemma LowerOfList(st: State, e: Type, v: Value, r: Lowered) returns (q: u32, xs: seq<Sem>)
    requires LowerAt(st, ListT(e), v) == Ok(r)
    ensures v.VList? || (v.VBytes? && e == PrimT(U8))
    ensures v.VList? ==> DenoteElems(e, v.vs, |v.vs|) == Ok(xs)
    ensures v.VBytes? ==> xs == DenoteBytes(v.bs[..Low(4, |v.bs|)])
    ensures |xs| < TWO_32 && PlaceList(st, Checked(e), xs) == Ok((q as nat, r.st))
    ensures r.cvs == [CoreVal(I32, q), CoreVal(I32, |xs|)]
  {
    hide PlaceList, DenoteElems, Checked;
    xs := Denote(InCore, ListT(e), v).value.elems;
    assert Lower(st, List(Checked(e)), SList(xs)) == LowerList(st, Checked(e), xs) == Ok(r);
    q := PlaceList(st, Checked(e), xs).value.0;
  }

  /** Lists: the address of a new block that holds the elements one behind the
      other, then their number. */
  lemma LoweredList(st: State, e: Type, vs: seq<Value>, r: Lowered) returns (q: u32, steps: seq<State>)
    requires LowerAt(st, ListT(e), VList(vs)) == Ok(r)
    ensures |vs| < TWO_32 && r.cvs == [CoreVal(I32, q), CoreVal(I32, |vs|)]
    ensures |steps| == |vs| + 1 && StoredInTurn(steps, q, Size(Despec(e)), e, vs)
    ensures steps[0].mem == st.mem && steps[|vs|] == r.st
    ensures Granted(st.heap, steps[0].heap, q, Align(Despec(e)), |vs|, Size(Despec(e)))
  {
    hide LowerAt, StoredInTurn, DenoteElems, Despec, PlaceList, Size, Align, Checked;
    var xs: seq<Sem>;
    q, xs := LowerOfList(st, e, VList(vs), r);
    steps := ElementsPlaced(st, e, vs, q, r.st);
  }

  /** Bytes given for a list of u8 are copied to a block of their own. */
  lemma LoweredBytes(st: State, bs: bytes, r: Lowered) returns (q: u32)
    requires LowerAt(st, ListT(PrimT(U8)), VBytes(bs)) == Ok(r)
    ensures var s := bs[..|bs| % 0x1_0000_0000];
      && r.cvs == [CoreVal(I32, q), CoreVal(I32, |s|)]
      && r.st.heap.blocks == st.heap.blocks + [Block(q, 1, |s|)]
      && q + |s| <= |r.st.mem| == |st.mem| && r.st.mem[q..q + |s|] == s
      && forall k: nat :: k < |st.mem| && !(q <= k < q + |s|) ==> r.st.mem[k] == st.mem[k]
  {
    hide LowerAt, PlaceList;
    var s := bs[..Low(4, |bs|)];
    var xs: seq<Sem>;
    q, xs := LowerOfList(st, PrimT(U8), VBytes(bs), r);
    BytesPlaced(st, s);
    assert r.st.mem[q..q + |s|] == s;
  }

  /** Enums: the number of the label. */
  lemma LoweredEnum(st: State, names: u32, v: Value, r: Lowered)
    requires LowerAt(st, EnumT(names), v) == Ok(r)
    ensures v.VU32? && v.u < names && r == Lowered([CoreVal(I32, v.u)], st)
  {
    EnumLowered(st, names, v.u);
  }

  // ---- records and tuples ----

  /** `x` is lowered to the core values from a up to b. */
  ghost predicate LoweredTo(sa: State, s: Shape, x: Sem, cvs: seq<CoreVal>, a: nat, b: nat, sb: State) {
    a <= b <= |cvs| && Lower(sa, s, x) == Ok(Lowered(cvs[a..b], sb))
  }

  lemma LoweredToMore(sa: State, s: Shape, x: Sem, cvs: seq<CoreVal>, more: seq<CoreVal>, a: nat, b: nat, sb: State)
    requires LoweredTo(sa, s, x, cvs, a, b, sb)
    ensures LoweredTo(sa, s, x, cvs + more, a, b, sb)
  {
    hide Lower;
    assert (cvs + more)[a..b] == cvs[a..b];
  }

  lemma LastLowered(st: State, fs: seq<Shape>, xs: seq<Sem>, n: nat, r: Lowered) returns (a: Lowered)
    requires 0 < n <= |fs| == |xs| && LowerFields(st, fs, xs, n) == Ok(r)
    ensures LowerFields(st, fs, xs, n - 1) == Ok(a) && |a.cvs| <= |r.cvs| && r.cvs == a.cvs + r.cvs[|a.cvs|..]
    ensures LoweredTo(a.st, fs[n - 1], xs[n - 1], r.cvs, |a.cvs|, |r.cvs|, r.st)
  {
    hide Lower;
    a := LowerFields(st, fs, xs, n - 1).value;
    var b := Lower(a.st, fs[n - 1], xs[n - 1]).value;
    assert r.cvs[|a.cvs|..|r.cvs|] == b.cvs;
  }

  lemma {:induction false} LowerFieldsAt(st: State, fs: seq<Shape>, xs: seq<Sem>, n: nat, r: Lowered)
    returns (steps: seq<State>, at: seq<nat>)
    requires n <= |fs| == |xs| && LowerFields(st, fs, xs, n) == Ok(r)
    ensures |steps| == |at| == n + 1 && steps[0] == st && steps[n] == r.st && at[0] == 0 && at[n] == |r.cvs|
    ensures forall i :: 0 <= i < n ==> LoweredTo(steps[i], fs[i], xs[i], r.cvs, at[i], at[i + 1], steps[i + 1])
    decreases n
  {
    hide Lower, LoweredTo;
    if n == 0 {
      steps, at := [st], [0];
    } else {
      var a := LastLowered(st, fs, xs, n, r);
      var was, ats := LowerFieldsAt(st, fs, xs, n - 1, a);
      steps, at := was + [r.st], ats + [|r.cvs|];
      forall i | 0 <= i < n ensures LoweredTo(steps[i], fs[i], xs[i], r.cvs, at[i], at[i + 1], steps[i + 1]) {
        if i < n - 1 {
          LoweredToMore(was[i], fs[i], xs[i], a.cvs, r.cvs[|a.cvs|..], ats[i], ats[i + 1], was[i + 1]);
        }
      }
    }
  }

  /** `v` is lowered to the core values from a up to b. */
  ghost predicate LoweredPart(sa: State, t: Type, v: Value, cvs: seq<CoreVal>, a: nat, b: nat, sb: State) {
    a <= b <= |cvs| && LowerAt(sa, t, v) == Ok(Lowered(cvs[a..b], sb))
  }

  /** The core values of each field, in order and without gaps. */
  lemma LoweredFields(st: State, t: Type, ts: seq<Type>, v: Value, r: Lowered)
    returns (steps: seq<State>, at: seq<nat>)
    requires (t == RecordT(ts) || t == TupleT(ts)) && LowerAt(st, t, v) == Ok(r)
    ensures v.VList? && |v.vs| == |ts| && |steps| == |at| == |ts| + 1
    ensures steps[0] == st && steps[|ts|] == r.st && at[0] == 0 && at[|ts|] == |r.cvs|
    ensures forall i :: 0 <= i < |ts| ==> LoweredPart(steps[i], ts[i], v.vs[i], r.cvs, at[i], at[i + 1], steps[i + 1])
  {
    hide Lower, LowerFields, Denote, DenoteAll, Despec;
    ProductLowered(st, t, ts, v, r);
    var fs, xs := DespecAll(ts), DenoteAll(InCore, ts, v.vs, |ts|).value;
    steps, at := LowerFieldsAt(st, fs, xs, |ts|, r);
    DenoteAllAt(InCore, ts, v.vs, |ts|);
    forall i | 0 <= i < |ts|
      ensures LoweredPart(steps[i], ts[i], v.vs[i], r.cvs, at[i], at[i + 1], steps[i + 1])
    {
      assert LoweredTo(steps[i], fs[i], xs[i], r.cvs, at[i], at[i + 1], steps[i + 1]);
    }
  }

  lemma ProductLowered(st: State, t: Type, ts: seq<Type>, v: Value, r: Lowered)
    requires (t == RecordT(ts) || t == TupleT(ts)) && LowerAt(st, t, v) == Ok(r)
    ensures v.VList? && |v.vs| == |ts| && DenoteAll(InCore, ts, v.vs, |ts|).Ok?
    ensures LowerFields(st, DespecAll(ts), DenoteAll(InCore, ts, v.vs, |ts|).value, |ts|) == Ok(r)
  {
    hide LowerFields, DenoteAll;
    assert Despec(t) == Product(DespecAll(ts));
  }

  // ---- variants, options and results ----

  /** The number of the case, then the core values of what it carries, their bits
      unchanged, then zeros. */
  lemma LoweredCase(st: State, t: Type, v: Value, r: Lowered) returns (k: Taken, a: Lowered)
    requires IsSum(t) && LowerAt(st, t, v) == Ok(r)
    ensures k == Choice(t, v) && k.Take? && r.st == a.st
    ensures var c := CasesOf(t)[k.disc];
      if c.Empty? then a == Lowered([], st) else LowerAt(st, c.t, k.carried) == Ok(a)
    ensures Typed(r.cvs, Flatten(Despec(t))) && |a.cvs| < |r.cvs| && r.cvs[0] == CoreVal(I32, k.disc)
    ensures forall i :: 0 < i < |r.cvs| ==> r.cvs[i].bits == if i - 1 < |a.cvs| then a.cvs[i - 1].bits else 0
  {
    hide Lower, Denote, Despec, DespecCase, CasesOf, Choice, JoinCases, Flatten, Typed;
    k := Choice(t, v);
    SumShape(st, t, v, r);
    var cs := DespecCases(CasesOf(t));
    var x := DenoteCase(InCore, CasesOf(t)[k.disc], k.carried).value;
    assert cs[k.disc] == DespecCase(CasesOf(t)[k.disc]);
    LowerTyped(st, Despec(t), SSum(k.disc, x), r);
    a := LowerOfSum(st, cs, k.disc, x, r);
    CarriedLowered(st, CasesOf(t)[k.disc], k.carried, x, a);
  }

  lemma SumShape(st: State, t: Type, v: Value, r: Lowered)
    requires IsSum(t) && LowerAt(st, t, v) == Ok(r)
    ensures Choice(t, v).Take? && Despec(t) == Sum(DespecCases(CasesOf(t)))
    ensures var k := Choice(t, v); var x := DenoteCase(InCore, CasesOf(t)[k.disc], k.carried);
      x.Ok? && Lower(st, Despec(t), SSum(k.disc, x.value)) == Ok(r)
  {
    hide Lower, Despec, DenoteCase;
    CasesShape(t);
    CoreDenoted(t, v);
    ChoiceDenote(InCore, t, v);
  }

  lemma CoreDenoted(t: Type, v: Value)
    requires IsSum(t) && Denote(InCore, t, v).Ok?
    ensures Choice(t, v).Take?
  {
  }

  lemma CarriedLowered(st: State, c: Case, carried: Value, x: Sem, a: Lowered)
    requires DenoteCase(InCore, c, carried) == Ok(x) && Lower(st, DespecCase(c), x) == Ok(a)
    ensures if c.Empty? then a == Lowered([], st) else LowerAt(st, c.t, carried) == Ok(a)
  {
    if c.Empty? {
      assert Lower(st, Unit, SUnit) == LowerFields(st, [], [], 0);
    }
  }

  lemma LowerOfSum(st: State, cs: seq<Shape>, d: nat, x: Sem, r: Lowered) returns (a: Lowered)
    requires d < |cs| && Lower(st, Sum(cs), SSum(d, x)) == Ok(r)
    ensures Lower(st, cs[d], x) == Ok(a) && r.st == a.st && d < TWO_32
    ensures |a.cvs| < |r.cvs| && r.cvs[0] == CoreVal(I32, d)
    ensures forall i :: 0 < i < |r.cvs| ==> r.cvs[i].bits == if i - 1 < |a.cvs| then a.cvs[i - 1].bits else 0
  {
    a := Lower(st, cs[d], x).value;
    var joined := JoinCases(cs, |cs|);
    LowerTyped(st, cs[d], x, a);
    JoinCovers(cs, |cs|, d);
    assert r.cvs == [CoreVal(I32, d)] + Widen(a.cvs, joined);
  }

  /** VARIANTS. As many core values as the type flattens to: the number of the case,
      the core values of its payload with their bits, and zeros. */
  lemma LoweredVariant(st: State, cs: seq<Case>, v: Value, r: Lowered) returns (a: Lowered)
    requires LowerAt(st, VariantT(cs), v) == Ok(r)
    ensures v.VVariant? && v.disc < |cs| && r.st == a.st
    ensures if cs[v.disc].Empty? then a == Lowered([], st) else LowerAt(st, cs[v.disc].t, v.payload) == Ok(a)
    ensures |a.cvs| < |r.cvs| == |Flatten(Despec(VariantT(cs)))| && r.cvs[0] == CoreVal(I32, v.disc)
    ensures forall i :: 0 < i < |r.cvs| ==> r.cvs[i].bits == if i - 1 < |a.cvs| then a.cvs[i - 1].bits else 0
  {
    hide LowerAt, Flatten, Despec;
    var k: Taken;
    k, a := LoweredCase(st, VariantT(cs), v, r);
  }

  /** OPTIONS. Nil is 0 and zeros, every other value is 1 and then itself. */
  lemma LoweredOption(st: State, e: Type, v: Value, r: Lowered) returns (a: Lowered)
    requires LowerAt(st, OptionT(e), v) == Ok(r)
    ensures if v.Nil? then a == Lowered([], st) else LowerAt(st, e, v) == Ok(a)
    ensures r.st == a.st && |a.cvs| < |r.cvs| == |Flatten(Despec(OptionT(e)))|
    ensures r.cvs[0] == CoreVal(I32, if v.Nil? then 0 else 1)
    ensures forall i :: 0 < i < |r.cvs| ==> r.cvs[i].bits == if i - 1 < |a.cvs| then a.cvs[i - 1].bits else 0
  {
    hide LowerAt, Flatten, Despec;
    var k: Taken;
    k, a := LoweredCase(st, OptionT(e), v, r);
  }

  /** RESULTS. Ok is 0, an error is 1, then what is carried, then zeros. */
  lemma LoweredResult(st: State, ok: Case, err: Case, v: Value, r: Lowered) returns (a: Lowered)
    requires LowerAt(st, ResultT(ok, err), v) == Ok(r)
    ensures v.VResult? && r.st == a.st && |a.cvs| < |r.cvs| == |Flatten(Despec(ResultT(ok, err)))|
    ensures var c := if v.isErr then err else ok;
      if c.Empty? then a == Lowered([], st) else LowerAt(st, c.t, v.carried) == Ok(a)
    ensures r.cvs[0] == CoreVal(I32, if v.isErr then 1 else 0)
    ensures forall i :: 0 < i < |r.cvs| ==> r.cvs[i].bits == if i - 1 < |a.cvs| then a.cvs[i - 1].bits else 0
  {
    hide LowerAt, Flatten, Despec;
    var k: Taken;
    k, a := LoweredCase(st, ResultT(ok, err), v, r);
  }

  // ---- lifting ----

  /** More than 16 core values: the one core value is the address that the value
      is loaded from. */
  lemma LiftedOrLoaded(m: bytes, t: Type, cvs: seq<CoreVal>, v: Value)
    requires |cvs| == if |Flatten(Despec(t))| > 16 then 1 else |Flatten(Despec(t))|
    requires LiftValue(m, t, cvs) == Ok(v)
    ensures if |Flatten(Despec(t))| > 16 then LoadValueAt(m, cvs[0].bits % 0x1_0000_0000, t) == Ok(v)
            else LiftAt(m, t, cvs) == Ok(v)
  {
    hide Flatten, Lift, Reify, LoadValueAt, Despec, Valid;
  }

  /** Primitives: the bits that fit, read at the width of the type. */
  lemma LiftedPrimitive(m: bytes, p: Prim, cvs: seq<CoreVal>)
    requires p != Str && |cvs| == 1 && cvs[0].kind == ScalarKind(ScalarOf(p))
    ensures LiftsTo(LiftAt(m, PrimT(p), cvs), p, cvs[0].kind, cvs[0].bits)
  {
    hide LiftScalarPrimitive, LiftScalar, ReifyPrim;
    ScalarReified(cvs[0], p);
    PrimReads(cvs[0], p);
    ScalarLifted(m, p, cvs);
  }

  lemma ScalarLifted(m: bytes, p: Prim, cvs: seq<CoreVal>)
    requires p != Str && |cvs| == 1
    ensures LiftAt(m, PrimT(p), cvs)
         == var x := LiftScalar(ScalarOf(p), cvs[0].bits);
            if x.Ok? then Ok(ReifyPrim(InCore, p, SInt(x.value))) else Err(Rejected)
  {
    hide ReifyPrim;
  }

  lemma LiftedHandle(m: bytes, t: Type, cvs: seq<CoreVal>)
    requires |cvs| == 1 && (t == HandleT || (t.FlagsT? && 0 < t.labels <= 32))
    ensures LiftAt(m, t, cvs) == Ok(VU32(cvs[0].bits % 0x1_0000_0000))
  {
  }

  /** Text: from the address, as long as the length says, in UTF-8. */
  lemma LiftedString(m: bytes, cvs: seq<CoreVal>, v: Value)
    requires |cvs| == 2 && LiftAt(m, PrimT(Str), cvs) == Ok(v)
    ensures var q, n := cvs[0].bits % 0x1_0000_0000, cvs[1].bits % 0x1_0000_0000;
      q + n <= |m| && v == VString(m[q..q + n]) && Utf8.Valid(m[q..q + n])
  {
  }

  /** Lists: the elements from the address on, one behind the other. */
  lemma LiftedList(m: bytes, e: Type, cvs: seq<CoreVal>, v: Value)
    requires |cvs| == 2 && LiftAt(m, ListT(e), cvs) == Ok(v)
    ensures v.VList? && |v.vs| == cvs[1].bits % 0x1_0000_0000 && |v.vs| <= 0x10_0000
    ensures HeldInTurn(m, cvs[0].bits % 0x1_0000_0000, Size(Despec(e)), e, v.vs)
  {
    hide HeldInTurn, LoadList, ReifyElems, Size, Checked;
    ListLifted(m, e, cvs);
    ListElements(m, Low(4, cvs[0].bits), Low(4, cvs[1].bits), e);
  }

  lemma ListLifted(m: bytes, e: Type, cvs: seq<CoreVal>)
    requires |cvs| == 2
    ensures LiftAt(m, ListT(e), cvs)
         == var x := LoadList(m, Low(4, cvs[0].bits), Low(4, cvs[1].bits), Checked(e));
            if x.Ok? then Ok(Reify(InCore, ListT(e), x.value)) else Err(x.fault)
    ensures forall x: Sem :: x.SList? ==> Reify(InCore, ListT(e), x) == VList(ReifyElems(e, x.elems))
  {
    hide LoadList, Checked;
  }

  /** `x` is lifted from the core values from a up to b. */
  ghost predicate LiftedFrom(m: bytes, s: Shape, cvs: seq<CoreVal>, a: nat, b: nat, x: Sem) {
    a <= b <= |cvs| && b == a + |Flatten(s)| && Lift(m, s, cvs[a..b]) == Ok(x)
  }

  lemma LiftedFromMore(m: bytes, s: Shape, cvs: seq<CoreVal>, k: nat, a: nat, b: nat, x: Sem)
    requires k <= |cvs| && LiftedFrom(m, s, cvs[..k], a, b, x)
    ensures LiftedFrom(m, s, cvs, a, b, x)
  {
    hide Lift, Flatten;
    assert cvs[a..b] == cvs[..k][a..b];
  }

  lemma {:induction false} LiftFieldsAt(m: bytes, fs: seq<Shape>, cvs: seq<CoreVal>, n: nat) returns (at: seq<nat>)
    requires n <= |fs| && |cvs| == |FlattenFields(fs, n)| && LiftFields(m, fs, cvs, n).Ok?
    ensures |at| == n + 1 && at[0] == 0 && at[n] == |cvs|
    ensures forall i :: 0 <= i < n ==> LiftedFrom(m, fs[i], cvs, at[i], at[i + 1], LiftFields(m, fs, cvs, n).value[i])
    decreases n
  {
    hide Lift, Flatten, LiftedFrom;
    if n == 0 {
      at := [0];
    } else {
      var k := |FlattenFields(fs, n - 1)|;
      var ats := LiftFieldsAt(m, fs, cvs[..k], n - 1);
      at := ats + [|cvs|];
      LastLifted(m, fs, cvs, n);
      forall i | 0 <= i < n
        ensures LiftedFrom(m, fs[i], cvs, at[i], at[i + 1], LiftFields(m, fs, cvs, n).value[i])
      {
        if i < n - 1 {
          LiftedFromMore(m, fs[i], cvs, k, ats[i], ats[i + 1], LiftFields(m, fs, cvs[..k], n - 1).value[i]);
        }
      }
    }
  }

  lemma LastLifted(m: bytes, fs: seq<Shape>, cvs: seq<CoreVal>, n: nat)
    requires 0 < n <= |fs| && |cvs| == |FlattenFields(fs, n)| && LiftFields(m, fs, cvs, n).Ok?
    ensures LiftedFrom(m, fs[n - 1], cvs, |FlattenFields(fs, n - 1)|, |cvs|, LiftFields(m, fs, cvs, n).value[n - 1])
  {
    hide Lift, Flatten;
    assert cvs[|FlattenFields(fs, n - 1)|..] == cvs[|FlattenFields(fs, n - 1)|..|cvs|];
  }

  /** Each field is lifted from as many core values as its type flattens to, in
      order and without gaps. */
  lemma LiftedFields(m: bytes, t: Type, ts: seq<Type>, cvs: seq<CoreVal>, v: Value) returns (at: seq<nat>)
    requires (t == RecordT(ts) || t == TupleT(ts)) && |cvs| == |Flatten(Despec(t))| && LiftAt(m, t, cvs) == Ok(v)
    ensures v.VList? && |v.vs| == |ts| && |at| == |ts| + 1 && at[0] == 0 && at[|ts|] == |cvs|
    ensures forall i :: 0 <= i < |ts| ==> at[i + 1] == at[i] + |Flatten(Despec(ts[i]))| <= |cvs|
    ensures forall i :: 0 <= i < |ts| ==> LiftAt(m, ts[i], cvs[at[i]..at[i + 1]]) == Ok(v.vs[i])
  {
    hide Lift, LiftFields, Flatten, Reify, Despec;
    ProductLifted(m, t, ts, cvs);
    var fs := DespecAll(ts);
    at := LiftFieldsAt(m, fs, cvs, |ts|);
    forall i | 0 <= i < |ts|
      ensures at[i + 1] == at[i] + |Flatten(Despec(ts[i]))| <= |cvs|
      ensures LiftAt(m, ts[i], cvs[at[i]..at[i + 1]]) == Ok(v.vs[i])
    {
      assert LiftedFrom(m, fs[i], cvs, at[i], at[i + 1], LiftFields(m, fs, cvs, |ts|).value[i]);
    }
  }

  lemma ProductLifted(m: bytes, t: Type, ts: seq<Type>, cvs: seq<CoreVal>)
    requires (t == RecordT(ts) || t == TupleT(ts)) && |cvs| == |Flatten(Despec(t))|
    ensures |cvs| == |FlattenFields(DespecAll(ts), |ts|)|
    ensures var xs := LiftFields(m, DespecAll(ts), cvs, |ts|);
      LiftAt(m, t, cvs) == if xs.Ok? then Ok(VList(ReifyAll(InCore, ts, xs.value))) else Err(xs.fault)
  {
    hide LiftFields, FlattenFields;
    assert Despec(t) == Product(DespecAll(ts));
    assert Flatten(Product(DespecAll(ts))) == FlattenFields(DespecAll(ts), |ts|);
  }

  /** `own` are core values of the kinds `ks`, with the bits of the first of `cvs`,
      cut to 32 where the kind is that narrow. */
  predicate Taken32(own: seq<CoreVal>, ks: seq<Kind>, cvs: seq<CoreVal>) {
    && |own| == |ks| <= |cvs|
    && forall i :: 0 <= i < |own| ==>
      && own[i].kind == ks[i]
      && own[i].bits == if ks[i] == I32 || ks[i] == F32 then cvs[i].bits % 0x1_0000_0000 else cvs[i].bits
  }

  /** The case is the first core value; it is lifted from the ones behind it. */
  lemma LiftedCase(m: bytes, t: Type, cvs: seq<CoreVal>, v: Value) returns (d: u32, own: seq<CoreVal>, carried: Value)
    requires IsSum(t) && |cvs| == |Flatten(Despec(t))| && LiftAt(m, t, cvs) == Ok(v)
    ensures |cvs| > 0 && d == cvs[0].bits % 0x1_0000_0000 < |CasesOf(t)| && v == Build(t, d, carried)
    ensures Taken32(own, Flatten(DespecCase(CasesOf(t)[d])), cvs[1..])
    ensures var c := CasesOf(t)[d];
      if c.Empty? then carried == Nil else LiftAt(m, c.t, own) == Ok(carried)
  {
    hide Lift, LiftSum, Reify, ReifyCase, Despec, DespecCase, CasesOf, Flatten, Narrow, JoinCases, Build, IsSum;
    CasesShape(t);
    var ss := DespecCases(CasesOf(t));
    SumLifted(m, ss, cvs);
    d := Low(4, cvs[0].bits);
    var x := SumFound(m, ss, cvs);
    own := Narrow(cvs[1..], Flatten(ss[d]));
    Narrowed(cvs[1..], Flatten(ss[d]));
    BuildReify(InCore, t, d, x);
    carried := ReifyCase(InCore, CasesOf(t)[d], x);
    CarriedLifted(m, CasesOf(t)[d], own, x);
  }

  lemma SumLifted(m: bytes, cs: seq<Shape>, cvs: seq<CoreVal>)
    requires |cvs| == |Flatten(Sum(cs))|
    ensures |cvs| == 1 + |JoinCases(cs, |cs|)| && Lift(m, Sum(cs), cvs) == LiftSum(m, cs, cvs)
  {
    hide LiftSum, JoinCases;
  }

  lemma SumFound(m: bytes, cs: seq<Shape>, cvs: seq<CoreVal>) returns (x: Sem)
    requires |cvs| == 1 + |JoinCases(cs, |cs|)| && LiftSum(m, cs, cvs).Ok?
    ensures var d := Low(4, cvs[0].bits);
      d < |cs| && |Flatten(cs[d])| < |cvs|
      && Lift(m, cs[d], Narrow(cvs[1..], Flatten(cs[d]))) == Ok(x)
      && LiftSum(m, cs, cvs) == Ok(SSum(d, x))
  {
    hide Lift, Flatten, JoinCases;
    var d := Low(4, cvs[0].bits);
    JoinCovers(cs, |cs|, d);
    x := Lift(m, cs[d], Narrow(cvs[1..], Flatten(cs[d]))).value;
  }

  lemma Narrowed(cvs: seq<CoreVal>, ks: seq<Kind>)
    requires |ks| <= |cvs|
    ensures Taken32(Narrow(cvs, ks), ks, cvs)
  {
  }

  lemma CarriedLifted(m: bytes, c: Case, own: seq<CoreVal>, x: Sem)
    requires |own| == |Flatten(DespecCase(c))| && Lift(m, DespecCase(c), own) == Ok(x)
    ensures if c.Empty? then ReifyCase(InCore, c, x) == Nil
            else LiftAt(m, c.t, own) == Ok(ReifyCase(InCore, c, x))
  {
    hide Lift, Flatten, Reify;
  }

  /** VARIANTS. */
  lemma LiftedVariant(m: bytes, cs: seq<Case>, cvs: seq<CoreVal>, v: Value) returns (own: seq<CoreVal>)
    requires |cvs| == |Flatten(Despec(VariantT(cs)))| && LiftAt(m, VariantT(cs), cvs) == Ok(v)
    ensures |cvs| > 0 && v.VVariant? && v.disc == cvs[0].bits % 0x1_0000_0000 < |cs|
    ensures Taken32(own, Flatten(DespecCase(cs[v.disc])), cvs[1..])
    ensures if cs[v.disc].Empty? then v.payload == Nil else LiftAt(m, cs[v.disc].t, own) == Ok(v.payload)
  {
    hide LiftAt, Flatten, Despec, DespecCase, Taken32;
    var d: u32, carried: Value;
    d, own, carried := LiftedCase(m, VariantT(cs), cvs, v);
  }

  /** OPTIONS. 0 is none, 1 is some. */
  lemma LiftedOption(m: bytes, e: Type, cvs: seq<CoreVal>, v: Value) returns (own: seq<CoreVal>)
    requires |cvs| == |Flatten(Despec(OptionT(e)))| && LiftAt(m, OptionT(e), cvs) == Ok(v)
    ensures |cvs| > 0 && var d := cvs[0].bits % 0x1_0000_0000;
      d <= 1 && (d == 0 ==> v == Nil)
      && (d == 1 ==> Taken32(own, Flatten(Despec(e)), cvs[1..]) && LiftAt(m, e, own) == Ok(v))
  {
    hide LiftAt, Flatten, Despec, Taken32;
    var d: u32, carried: Value;
    d, own, carried := LiftedCase(m, OptionT(e), cvs, v);
  }

  /** RESULTS. 0 is ok, 1 is an error. */
  lemma LiftedResult(m: bytes, ok: Case, err: Case, cvs: seq<CoreVal>, v: Value) returns (own: seq<CoreVal>)
    requires |cvs| == |Flatten(Despec(ResultT(ok, err)))| && LiftAt(m, ResultT(ok, err), cvs) == Ok(v)
    ensures |cvs| > 0 && v.VResult? && var d := cvs[0].bits % 0x1_0000_0000;
      d <= 1 && v.isErr == (d == 1)
    ensures var c := if v.isErr then err else ok;
      Taken32(own, Flatten(DespecCase(c)), cvs[1..])
      && if c.Empty? then v.carried == Nil else LiftAt(m, c.t, own) == Ok(v.carried)
  {
    hide LiftAt, Flatten, Despec, DespecCase, Taken32;
    var d: u32, carried: Value;
    d, own, carried := LiftedCase(m, ResultT(ok, err), cvs, v);
  }

  /** Enums: the number of a label. */
  lemma LiftedEnum(m: bytes, names: u32, cvs: seq<CoreVal>, v: Value)
    requires |cvs| == |Flatten(Despec(EnumT(names)))| && LiftAt(m, EnumT(names), cvs) == Ok(v)
    ensures |cvs| > 0 && v == VU32(cvs[0].bits % 0x1_0000_0000) && v.u < names
  {
    hide Lift, LiftSum, Flatten, JoinCases;
    SumLifted(m, Units(names), cvs);
    var x := SumFound(m, Units(names), cvs);
  }

  // ---- results ----

  /** A result of more than one core value goes to the memory behind the caller's
      pointer, and no core value is returned; any other is returned as it is. */
  lemma LoweredResultIs(st: State, t: Type, v: Value, out: u32, r: Lowered)
    requires LowerResultValue(st, t, v, out) == Ok(r)
    ensures if |Flatten(Despec(t))| > 1 then r.cvs == [] && StoreValueAt(st, out, t, v) == Ok(r.st)
            else LowerAt(st, t, v) == Ok(r)
  {
    hide Flatten, Lower, Denote, StoreValueAt, Despec, Valid;
  }

  /** A result of more than one core value is loaded from the pointer returned. */
  lemma LiftedResultIs(m: bytes, t: Type, cvs: seq<CoreVal>, v: Value)
    requires |cvs| == if |Flatten(Despec(t))| > 1 then 1 else |Flatten(Despec(t))|
    requires LiftResultValue(m, t, cvs) == Ok(v)
    ensures if |Flatten(Despec(t))| > 1 then LoadValueAt(m, cvs[0].bits % 0x1_0000_0000, t) == Ok(v)
            else LiftAt(m, t, cvs) == Ok(v)
  {
    hide Flatten, Lift, Reify, LoadValueAt, Despec, Valid;
  }
}
