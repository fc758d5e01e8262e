/** Exactly which host values survive a round trip. */
module ValueFacts {
  import opened Base
  import opened Shapes
  import opened Memory
  import opened MemoryFacts
  import opened MemoryRoundTrip
  import opened Values
  import Utf8

  /** The host value that comes back when `x` was sent. */
  function Returned(path: Path, t: Type, x: Sem): Result<Value> {
    var y :- Readback(path, Despec(t), x);
    Ok(Reify(path, t, y))
  }

  lemma PrimReturned(path: Path, p: Prim, n: nat)
    requires p != Str
    ensures Returned(path, PrimT(p), SInt(n)) == Ok(ReifyPrim(path, p, SInt(Low(ScalarBytes(ScalarOf(p)), n))))
  {
  }

  lemma PrimFaithful(path: Path, p: Prim, v: Value)
    requires DenotePrim(p, v).Ok?
    ensures Returned(path, PrimT(p), DenotePrim(p, v).value) == Ok(v) <==> FaithfulPrim(path, p, v)
  {
    if p == Str {
      TextFaithful(path, v.s);
    } else {
      PrimReturned(path, p, DenotePrim(p, v).value.n);
      ScalarFaithful(path, p, v);
    }
  }

  lemma ScalarFaithful(path: Path, p: Prim, v: Value)
    requires p != Str && DenotePrim(p, v).Ok?
    ensures ReifyPrim(path, p, SInt(Low(ScalarBytes(ScalarOf(p)), DenotePrim(p, v).value.n))) == v <==>
      FaithfulPrim(path, p, v)
  {
    match p
    case S8 => SignedLow(1, v.i); LowLow(1, v.i);
    case S16 => SignedLow(2, v.i); LowLow(2, v.i);
    case S32 => SignedLow(4, v.i);
    case S64 => SignedLow(8, v.il);
    case _ =>
  }

  lemma TextFaithful(path: Path, s: bytes)
    ensures Returned(path, PrimT(Str), SText(s[..Low(4, |s|)])) == Ok(VString(s))
       <==> |s| < TWO_32 && Utf8.Valid(s)
  {
    var q := s[..Low(4, |s|)];
    TextReturned(path, q);
    if |s| < TWO_32 {
      assert q == s;
    }
  }

  lemma TextReturned(path: Path, q: bytes)
    ensures Returned(path, PrimT(Str), SText(q)) == if Utf8.Valid(q) then Ok(VString(q)) else Err(Rejected)
  {
  }

  /** A value that is accepted comes back equal if and only if it is faithful. */
  lemma {:induction false} ReturnedIffFaithful(path: Path, t: Type, v: Value)
    requires Denote(path, t, v).Ok?
    ensures Returned(path, t, Denote(path, t, v).value) == Ok(v) <==> Faithful(path, t, v)
    decreases t, 0
  {
    match t
    case PrimT(p) => PrimFaithful(path, p, v);
    case ListT(e) =>
      if v.VList? {
        ListFaithful(path, e, v.vs);
      }
    case RecordT(ts) => FieldsFaithful(path, t, ts, v.vs);
    case TupleT(ts) => FieldsFaithful(path, t, ts, v.vs);
    case VariantT(cs) =>
      SumReturned(path, DespecCases(cs), v.disc, DenoteCase(path, cs[v.disc], v.payload).value);
      CaseFaithful(path, cs[v.disc], v.payload);
    case FlagsT(n) => FlagsFaithful(path, n, v.u);
    case EnumT(n) => EnumReturned(path, n, v.u);
    case OptionT(e) =>
      if v.Nil? {
        SumReturned(path, [Unit, Despec(e)], 0, SUnit);
      } else {
        SumReturned(path, [Unit, Despec(e)], 1, Denote(path, e, v).value);
        ReturnedIffFaithful(path, e, v);
      }
    case ResultT(ok, err) =>
      var c, d := if v.isErr then err else ok, if v.isErr then 1 else 0;
      SumReturned(path, [DespecCase(ok), DespecCase(err)], d, DenoteCase(path, c, v.carried).value);
      CaseFaithful(path, c, v.carried);
    case HandleT =>
  }

  lemma SumReturned(path: Path, cs: seq<Shape>, d: nat, x: Sem)
    requires d < |cs|
    ensures Readback(path, Sum(cs), SSum(d, x))
         == match Readback(path, cs[d], x) case Ok(y) => Ok(SSum(d, y)) case Err(f) => Err(f)
    ensures Readback(path, Unit, SUnit) == Ok(SUnit)
  {
  }

  lemma EnumReturned(path: Path, n: u32, d: u32)
    requires d < n
    ensures Returned(path, EnumT(n), SSum(d, SUnit)) == Ok(VU32(d))
  {
    SumReturned(path, Units(n), d, SUnit);
  }

  lemma FlagsFaithful(path: Path, n: nat, u: u32)
    ensures Returned(path, FlagsT(n), SInt(u)) == Ok(VU32(u)) <==> Faithful(path, FlagsT(n), VU32(u))
  {
  }

  lemma {:induction false} CaseFaithful(path: Path, c: Case, v: Value)
    requires DenoteCase(path, c, v).Ok?
    ensures var r := Readback(path, DespecCase(c), DenoteCase(path, c, v).value);
            (r.Ok? && ReifyCase(path, c, r.value) == v) <==> FaithfulCase(path, c, v)
    decreases c, 0
  {
    if c.Carrying? {
      ReturnedIffFaithful(path, c.t, v);
    }
  }

  // ---- fields and elements one by one ----

  lemma {:induction false} DenoteAllAt(path: Path, ts: seq<Type>, vs: seq<Value>, n: nat)
    requires n <= |ts| == |vs| && DenoteAll(path, ts, vs, n).Ok?
    ensures forall i :: 0 <= i < n ==> Denote(path, ts[i], vs[i]) == Ok(DenoteAll(path, ts, vs, n).value[i])
  {
    if n > 0 {
      DenoteAllAt(path, ts, vs, n - 1);
    }
  }

  lemma {:induction false} DenoteElemsAt(e: Type, vs: seq<Value>, n: nat)
    requires n <= |vs| && DenoteElems(e, vs, n).Ok?
    ensures forall i :: 0 <= i < n ==> Denote(InMemory, e, vs[i]) == Ok(DenoteElems(e, vs, n).value[i])
  {
    if n > 0 {
      DenoteElemsAt(e, vs, n - 1);
    }
  }

  lemma {:induction false} ReadbackFieldsAt(path: Path, fs: seq<Shape>, xs: seq<Sem>, n: nat)
    requires n <= |fs| == |xs|
    ensures var r := ReadbackFields(path, fs, xs, n);
            && (r.Ok? <==> forall i :: 0 <= i < n ==> Readback(path, fs[i], xs[i]).Ok?)
            && (r.Ok? ==> forall i :: 0 <= i < n ==> Readback(path, fs[i], xs[i]) == Ok(r.value[i]))
  {
    if n > 0 {
      ReadbackFieldsAt(path, fs, xs, n - 1);
    }
  }

  lemma {:induction false} ReadbackElemsAt(elem: Shape, xs: seq<Sem>, n: nat)
    requires n <= |xs|
    ensures var r := ReadbackElems(elem, xs, n);
            && (r.Ok? <==> forall i :: 0 <= i < n ==> Readback(InMemory, elem, xs[i]).Ok?)
            && (r.Ok? ==> forall i :: 0 <= i < n ==> Readback(InMemory, elem, xs[i]) == Ok(r.value[i]))
  {
    if n > 0 {
      ReadbackElemsAt(elem, xs, n - 1);
    }
  }

  lemma {:induction false} FieldsFaithful(path: Path, t: Type, ts: seq<Type>, vs: seq<Value>)
    requires t == RecordT(ts) || t == TupleT(ts)
    requires |vs| == |ts| && DenoteAll(path, ts, vs, |ts|).Ok?
    ensures Returned(path, t, SProduct(DenoteAll(path, ts, vs, |ts|).value)) == Ok(VList(vs)) <==>
      Faithful(path, t, VList(vs))
    decreases ts, 1
  {
    var xs, fs := DenoteAll(path, ts, vs, |ts|).value, DespecAll(ts);
    DenoteAllAt(path, ts, vs, |ts|);
    ReadbackFieldsAt(path, fs, xs, |ts|);
    forall i | 0 <= i < |ts|
      ensures Returned(path, ts[i], xs[i]) == Ok(vs[i]) <==> Faithful(path, ts[i], vs[i])
      ensures Readback(path, fs[i], xs[i]).Ok? ==>
        Returned(path, ts[i], xs[i]) == Ok(Reify(path, ts[i], Readback(path, fs[i], xs[i]).value))
    {
      ReturnedIffFaithful(path, ts[i], vs[i]);
    }
    var r := ReadbackFields(path, fs, xs, |ts|);
    ProductReturned(path, t, ts, xs);
    if r.Ok? {
      var us := ReifyAll(path, ts, r.value);
      assert forall i :: 0 <= i < |ts| ==> (us[i] == vs[i] <==> Faithful(path, ts[i], vs[i]));
      assert us == vs <==> forall i :: 0 <= i < |ts| ==> us[i] == vs[i];
    }
  }

  lemma ProductReturned(path: Path, t: Type, ts: seq<Type>, xs: seq<Sem>)
    requires (t == RecordT(ts) || t == TupleT(ts)) && |xs| == |ts|
    ensures var r := ReadbackFields(path, DespecAll(ts), xs, |ts|);
            Returned(path, t, SProduct(xs)) == if r.Ok? then Ok(VList(ReifyAll(path, ts, r.value))) else Err(r.fault)
  {
    var fs := DespecAll(ts);
    assert Despec(t) == Product(fs);
    assert Readback(path, Product(fs), SProduct(xs)) == ReadbackProduct(path, fs, xs);
  }

  lemma {:induction false} ListFaithful(path: Path, e: Type, vs: seq<Value>)
    requires DenoteElems(e, vs, |vs|).Ok?
    ensures Returned(path, ListT(e), SList(DenoteElems(e, vs, |vs|).value)) == Ok(VList(vs)) <==>
      Faithful(path, ListT(e), VList(vs))
    decreases e, 2
  {
    hide Returned, Readback, ReadbackElems, Despec, Reify, Denote, DenoteElems;
    ListReturned(path, e, DenoteElems(e, vs, |vs|).value);
    ElemsFaithful(e, vs);
    FaithfulList(path, e, vs);
  }

  lemma FaithfulList(path: Path, e: Type, vs: seq<Value>)
    ensures Faithful(path, ListT(e), VList(vs)) <==>
      |vs| <= MAX_LIST_ELEMENTS && (vs == [] || Within(e, 0)) && forall i :: 0 <= i < |vs| ==>
        Faithful(InMemory, e, vs[i])
  {
    if vs != [] && Faithful(path, ListT(e), VList(vs)) {
      assert Faithful(InMemory, e, vs[0]);
    }
  }

  lemma {:induction false} ElemsFaithful(e: Type, vs: seq<Value>)
    requires DenoteElems(e, vs, |vs|).Ok?
    ensures var r := ReadbackElems(Checked(e), DenoteElems(e, vs, |vs|).value, |vs|);
      (r.Ok? && ReifyElems(e, r.value) == vs)
      <==> (vs == [] || Within(e, 0)) && forall i :: 0 <= i < |vs| ==> Faithful(InMemory, e, vs[i])
    decreases e, 1
  {
    hide Faithful;
    var xs, s := DenoteElems(e, vs, |vs|).value, Checked(e);
    DenoteElemsAt(e, vs, |vs|);
    ReadbackElemsAt(s, xs, |vs|);
    forall i | 0 <= i < |vs|
      ensures Readback(InMemory, s, xs[i]).Ok? && Reify(InMemory, e, Readback(InMemory, s, xs[i]).value) == vs[i]
         <==> Within(e, 0) && Faithful(InMemory, e, vs[i])
    {
      ReturnedIffFaithful(InMemory, e, vs[i]);
    }
  }

  lemma ListReturned(path: Path, e: Type, xs: seq<Sem>)
    ensures var r := ReadbackElems(Checked(e), xs, |xs|);
            Returned(path, ListT(e), SList(xs))
            == if |xs| > MAX_LIST_ELEMENTS then Err(Rejected) else if r.Ok? then Ok(VList(ReifyElems(e, r.value)))
              else Err(r.fault)
  {
    assert Despec(ListT(e)) == List(Checked(e));
    assert Readback(path, List(Checked(e)), SList(xs)) == ReadbackList(Checked(e), xs);
  }

  /** THE HOST-VALUE ROUND TRIP THROUGH MEMORY. For every type, value, address
      and well-behaved allocator, a stored value is loaded back unchanged if and
      only if it is faithful. */
  lemma StoredValueReturns(st: State, p: nat, t: Type, v: Value, sb: State)
    requires StoreValueAt(st, p, t, v) == Ok(sb)
    requires Separated(st.heap, sb.heap, p, Size(Despec(t)))
    ensures LoadValueAt(sb.mem, p, t) == Ok(v) <==> Faithful(InMemory, t, v)
  {
    StoreAtLoadAt(st, p, Checked(t), Denote(InMemory, t, v).value, sb);
    ReturnedIffFaithful(InMemory, t, v);
  }

  /** What comes back instead, for every non-negative s8: an unsigned value. */
  lemma NonNegativeS8Changes(st: State, p: nat, i: s32, sb: State)
    requires 0 <= i < 0x80 && StoreValueAt(st, p, PrimT(S8), VS32(i)) == Ok(sb)
    requires Separated(st.heap, sb.heap, p, 1)
    ensures LoadValueAt(sb.mem, p, PrimT(S8)) == Ok(VU32(i)) != Ok(VS32(i))
  {
    StoreAtLoadAt(st, p, Checked(PrimT(S8)), SInt(i), sb);
    PrimReturned(InMemory, S8, i);
    Pow256Values();
  }

  /** Two different values of an option of an option are lifted to the same host
      value; lowering that value again gives the first of them. */
  lemma NestedOptionAmbiguous(path: Path, e: Type)
    ensures var outer, inner := SSum(0, SUnit), SSum(1, SSum(0, SUnit)); var t := OptionT(OptionT(e));
      outer != inner && Reify(path, t, outer) == Reify(path, t, inner) == Nil && Denote(path, t, Nil) == Ok(outer)
  {
    assert Reify(path, OptionT(e), SSum(0, SUnit)) == Nil;
  }
}
