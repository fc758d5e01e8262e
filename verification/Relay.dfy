/** A call that one guest makes to another goes through host values twice: what
    the caller sent is lifted, and the host value is lowered for the callee
    (delegatingHostImport, graph.go). This module says exactly which values
    arrive. A handle is a number here. */
module Relay {
  import opened Base
  import opened Shapes
  import opened Memory
  import opened Values
  import opened ValueFacts
  import opened Flat
  import opened FlatRoundTrip
  import opened MemoryFacts
  import opened MemoryRoundTrip
  import opened Plans
  import Utf8

  // ---- what loading and lifting can give ----

  predicate ReadableScalar(path: Path, l: Scalar, n: nat) {
    match l
    case BoolS => n < 2
    case CharS => UnicodeScalar(n)
    case FlagsS(w) => n < if path.InMemory? then Span(w.Bytes()) else TWO_32
    case _ => n < Span(ScalarBytes(l))
  }

  /** The values that loading, or lifting, can give. */
  predicate Readable(path: Path, s: Shape, y: Sem)
    decreases s, 0
  {
    match s
    case Leaf(l) => y.SInt? && ReadableScalar(path, l, y.n)
    case Text => y.SText? && Utf8.Valid(y.bs) && |y.bs| < TWO_32
    case List(elem) =>
      y.SList? && |y.elems| <= MAX_LIST_ELEMENTS && forall i :: 0 <= i < |y.elems| ==>
        Readable(InMemory, elem, y.elems[i])
    case Product(fs) =>
      y.SProduct? && |y.fields| == |fs| && forall i :: 0 <= i < |fs| ==> Readable(path, fs[i], y.fields[i])
    case Sum(cs) => y.SSum? && y.disc < |cs| && y.disc < TWO_32 && Readable(path, cs[y.disc], y.payload)
    case Bad => false
  }

  lemma PeekBound(m: bytes, p: nat, n: nat)
    requires Peek(m, p, n).Ok? && IsWidth(n)
    ensures FromLittleEndian(Peek(m, p, n).value) < Span(n)
  {
    FromLittleEndianBound(Peek(m, p, n).value);
    Pow256Values();
  }

  lemma {:induction false} LoadReadable(m: bytes, p: nat, s: Shape)
    requires Load(m, p, s).Ok?
    ensures Readable(InMemory, s, Load(m, p, s).value)
    decreases s, 0
  {
    match s
    case Leaf(l) => PeekBound(m, p, ScalarBytes(l));
    case Text => PeekBound(m, p + 4, 4);
    case List(elem) => LoadListReadable(m, FromLittleEndian(Peek(m, p, 4).value),
      FromLittleEndian(Peek(m, p + 4, 4).value), elem);
    case Product(fs) => LoadFieldsReadable(m, p, fs, |fs|);
    case Sum(cs) =>
      PeekBound(m, p, DiscBytes(|cs|));
      LoadReadable(m, p + PayloadOffset(cs), cs[FromLittleEndian(Peek(m, p, DiscBytes(|cs|)).value)]);
  }

  lemma {:induction false} LoadFieldsReadable(m: bytes, p: nat, fs: seq<Shape>, n: nat)
    requires n <= |fs| && LoadFields(m, p, fs, n).Ok?
    ensures forall i :: 0 <= i < n ==> Readable(InMemory, fs[i], LoadFields(m, p, fs, n).value[i])
    decreases fs, 0, n
  {
    if n > 0 {
      LoadFieldsReadable(m, p, fs, n - 1);
      LoadReadable(m, p + FieldOffset(fs, n - 1), fs[n - 1]);
    }
  }

  lemma {:induction false} LoadListReadable(m: bytes, q: nat, n: nat, elem: Shape)
    requires LoadList(m, q, n, elem).Ok?
    ensures Readable(InMemory, List(elem), LoadList(m, q, n, elem).value)
    decreases elem, 2
  {
    LoadElemsReadable(m, q, elem, n);
  }

  lemma {:induction false} LoadElemsReadable(m: bytes, p: nat, elem: Shape, n: nat)
    requires LoadElems(m, p, elem, n).Ok?
    ensures forall i :: 0 <= i < n ==> Readable(InMemory, elem, LoadElems(m, p, elem, n).value[i])
    decreases elem, 1, n
  {
    if n > 0 {
      LoadElemsReadable(m, p, elem, n - 1);
      LoadReadable(m, p + ElemsSize(elem, n - 1), elem);
    }
  }

  lemma {:induction false} LiftReadable(m: bytes, s: Shape, cvs: seq<CoreVal>)
    requires |cvs| == |Flatten(s)| && Lift(m, s, cvs).Ok?
    ensures Readable(InCore, s, Lift(m, s, cvs).value)
    decreases s, 0
  {
    match s
    case Leaf(l) =>
    case Text =>
    case List(elem) => LoadListReadable(m, Low(4, cvs[0].bits), Low(4, cvs[1].bits), elem);
    case Product(fs) => LiftFieldsReadable(m, fs, cvs, |fs|);
    case Sum(cs) =>
      var d := Low(4, cvs[0].bits);
      JoinCovers(cs, |cs|, d);
      LiftReadable(m, cs[d], Narrow(cvs[1..], Flatten(cs[d])));
  }

  lemma {:induction false} LiftFieldsReadable(m: bytes, fs: seq<Shape>, cvs: seq<CoreVal>, n: nat)
    requires n <= |fs| && |cvs| == |FlattenFields(fs, n)| && LiftFields(m, fs, cvs, n).Ok?
    ensures forall i :: 0 <= i < n ==> Readable(InCore, fs[i], LiftFields(m, fs, cvs, n).value[i])
    decreases fs, 0, n
  {
    if n > 0 {
      var k := |FlattenFields(fs, n - 1)|;
      LiftFieldsReadable(m, fs, cvs[..k], n - 1);
      LiftReadable(m, fs[n - 1], cvs[k..]);
    }
  }

  // ---- which of them arrive ----

  /** The second hop: the host value of y is accepted, and the callee reads y. */
  predicate Arrives(from: Path, to: Path, t: Type, y: Sem) {
    var x := Denote(to, t, Reify(from, t, y));
    x.Ok? && Readback(to, Despec(t), x.value) == Ok(y)
  }

  /** The option values whose host value is nil: none, some none, and so on. */
  predicate NilReified(t: Type, y: Sem) {
    t.OptionT? && y.SSum? && (y.disc == 0 || NilReified(t.some, y.payload))
  }

  /** Nothing in y is a non-negative s8 read from memory, some of a value whose
      host value is nil, such a value as the payload of a variant case that is
      stored in memory, or flags with bits that their bytes in memory lack. */
  predicate Relayable(from: Path, to: Path, t: Type, y: Sem)
    decreases t, 0
  {
    match t
    case PrimT(p) => p == S8 && from.InMemory? && y.SInt? ==> y.n >= 0x80
    case ListT(e) => y.SList? ==> forall i :: 0 <= i < |y.elems| ==> Relayable(InMemory, InMemory, e, y.elems[i])
    case RecordT(ts) => y.SProduct? && |y.fields| == |ts| ==> forall i :: 0 <= i < |ts| ==>
      Relayable(from, to, ts[i], y.fields[i])
    case TupleT(ts) => y.SProduct? && |y.fields| == |ts| ==> forall i :: 0 <= i < |ts| ==>
      Relayable(from, to, ts[i], y.fields[i])
    case VariantT(cs) =>
      y.SSum? && y.disc < |cs| && cs[y.disc].Carrying? ==>
        && Relayable(from, to, cs[y.disc].t, y.payload)
        && (to.InMemory? ==> !NilReified(cs[y.disc].t, y.payload))
    case FlagsT(n) => to.InMemory? && y.SInt? ==> y.n < Span(FlagsWidth(n).Bytes())
    case OptionT(e) => y.SSum? && y.disc == 1 ==> !NilReified(e, y.payload) && Relayable(from, to, e, y.payload)
    case ResultT(ok, err) => y.SSum? ==> RelayableCase(from, to, if y.disc == 1 then err else ok, y.payload)
    case EnumT(_) | HandleT | OtherT => true
  }

  predicate RelayableCase(from: Path, to: Path, c: Case, y: Sem)
    decreases c, 0
  {
    c.Carrying? ==> Relayable(from, to, c.t, y)
  }

  lemma {:induction false} NilIff(from: Path, t: Type, y: Sem)
    requires Readable(from, Despec(t), y)
    ensures Reify(from, t, y) == Nil <==> NilReified(t, y)
    decreases t
  {
    match t
    case OptionT(e) =>
      if y.disc == 1 {
        NilIff(from, e, y.payload);
      }
    case PrimT(p) => PrimNotNil(from, p, y);
    case ListT(_) | RecordT(_) | TupleT(_) | VariantT(_) | FlagsT(_) | EnumT(_) | ResultT(_, _) | HandleT | OtherT =>
  }

  lemma PrimNotNil(from: Path, p: Prim, y: Sem)
    requires Readable(from, Despec(PrimT(p)), y)
    ensures ReifyPrim(from, p, y) != Nil
  {
  }

  /** WHAT ARRIVES. For every type, every value that a guest can send and either
      encoding on either side, the other guest reads that value if and only if it
      is relayable. */
  lemma {:induction false} ArrivesIffRelayable(from: Path, to: Path, t: Type, y: Sem)
    requires Readable(from, Despec(t), y)
    ensures Arrives(from, to, t, y) <==> Relayable(from, to, t, y)
    decreases t, 0
  {
    hide Arrives, Denote, Reify, NilReified;
    match t
    case PrimT(p) => PrimArrives(from, to, p, y);
    case ListT(e) => ListArrives(from, to, e, y.elems);
    case RecordT(ts) => FieldsArrive(from, to, t, ts, y.fields);
    case TupleT(ts) => FieldsArrive(from, to, t, ts, y.fields);
    case VariantT(cs) => VariantArrives(from, to, cs, y.disc, y.payload);
    case FlagsT(n) => FlagsArrive(from, to, n, y.n);
    case EnumT(n) => EnumArrives(from, to, n, y);
    case OptionT(e) => OptionArrives(from, to, e, y.disc, y.payload);
    case ResultT(ok, err) =>
      ResultArrives(from, to, ok, err, y.disc, y.payload);
    case HandleT => HandleArrives(from, to, y.n);
    case OtherT =>
  }

  lemma FlagsArrive(from: Path, to: Path, n: nat, u: nat)
    requires 0 < n <= 32 && u < if from.InMemory? then Span(FlagsWidth(n).Bytes()) else TWO_32
    ensures Arrives(from, to, FlagsT(n), SInt(u)) <==> (to.InMemory? ==> u < Span(FlagsWidth(n).Bytes()))
  {
  }

  lemma EnumArrives(from: Path, to: Path, n: u32, y: Sem)
    requires Readable(from, Sum(Units(n)), y)
    ensures Arrives(from, to, EnumT(n), y)
  {
    assert y == SSum(y.disc, SUnit);
    SumReturned(to, Units(n), y.disc, SUnit);
  }

  lemma HandleArrives(from: Path, to: Path, u: nat)
    requires u < TWO_32
    ensures Arrives(from, to, HandleT, SInt(u))
  {
  }

  lemma LowSigned(w: nat, n: nat)
    requires IsWidth(w) && n < Span(w)
    ensures Low(w, Signed(w, n)) == n
    ensures w < 8 ==> Low(w, Low(4, Signed(w, n))) == n
  {
    if w < 8 {
      LowLow(w, Signed(w, n));
    }
  }

  lemma SignedArrives(from: Path, to: Path, p: Prim, n: nat)
    requires p == S8 || p == S16 || p == S32 || p == S64
    requires ReadableScalar(from, ScalarOf(p), n)
    ensures var x := DenotePrim(p, ReifyPrim(from, p, SInt(n)));
      (x.Ok? && x.value.SInt? && Kept(to, ScalarOf(p), x.value.n) == n) <==> (p == S8 && from.InMemory? ==> n >= 0x80)
  {
    hide Low, Signed;
    LowSigned(ScalarBytes(ScalarOf(p)), n);
  }

  lemma ScalarArrives(from: Path, to: Path, p: Prim, n: nat)
    requires p != Str && ReadableScalar(from, ScalarOf(p), n)
    ensures var x := DenotePrim(p, ReifyPrim(from, p, SInt(n)));
      (x.Ok? && x.value.SInt? && Kept(to, ScalarOf(p), x.value.n) == n) <==> (p == S8 && from.InMemory? ==> n >= 0x80)
  {
    match p
    case S8 | S16 | S32 | S64 => SignedArrives(from, to, p, n);
    case Bool | U8 | U16 | U32 | U64 | Float32 | Float64 | Char | ErrorContext | Str =>
  }

  lemma TextArrives(from: Path, to: Path, bs: bytes)
    requires Utf8.Valid(bs) && |bs| < TWO_32
    ensures Arrives(from, to, PrimT(Str), SText(bs))
  {
    assert bs[..|bs|] == bs;
  }

  lemma PrimArrives(from: Path, to: Path, p: Prim, y: Sem)
    requires Readable(from, Despec(PrimT(p)), y)
    ensures Arrives(from, to, PrimT(p), y) <==> (p == S8 && from.InMemory? ==> y.n >= 0x80)
  {
    hide ReifyPrim, DenotePrim, ReadableScalar, Kept;
    if p == Str {
      TextArrives(from, to, y.bs);
    } else {
      ScalarArrives(from, to, p, y.n);
      ScalarDenoted(p, ReifyPrim(from, p, y));
    }
  }

  lemma ScalarDenoted(p: Prim, v: Value)
    requires p != Str
    ensures DenotePrim(p, v).Ok? ==> DenotePrim(p, v).value.SInt?
  {
  }

  predicate ArrivesCase(from: Path, to: Path, c: Case, y: Sem) {
    var x := DenoteCase(to, c, ReifyCase(from, c, y));
    x.Ok? && Readback(to, DespecCase(c), x.value) == Ok(y)
  }

  lemma {:induction false} CaseArrives(from: Path, to: Path, c: Case, y: Sem)
    requires Readable(from, DespecCase(c), y)
    ensures ArrivesCase(from, to, c, y) <==> RelayableCase(from, to, c, y)
    decreases c, 0
  {
    if c.Carrying? {
      ArrivesIffRelayable(from, to, c.t, y);
    } else {
      assert y == SUnit;
      UnitBack(to);
    }
  }

  lemma UnitBack(to: Path)
    ensures Readback(to, Unit, SUnit) == Ok(SUnit)
  {
  }

  lemma {:induction false} VariantArrives(from: Path, to: Path, cs: seq<Case>, d: nat, y: Sem)
    requires Readable(from, Sum(DespecCases(cs)), SSum(d, y))
    ensures Arrives(from, to, VariantT(cs), SSum(d, y)) <==> Relayable(from, to, VariantT(cs), SSum(d, y))
    decreases cs, 0
  {
    hide Readback, Denote, DenoteCase, Reify, ReifyCase, NilReified;
    var c := cs[d];
    VariantDenoted(from, to, cs, d, y);
    CaseArrives(from, to, c, y);
    if c.Carrying? {
      NilIff(from, c.t, y);
      CaseReified(from, c, y);
    }
    var x := DenoteCase(to, c, ReifyCase(from, c, y));
    if x.Ok? {
      SumReturned(to, DespecCases(cs), d, x.value);
    }
  }

  lemma CaseReified(from: Path, c: Case, y: Sem)
    requires c.Carrying?
    ensures ReifyCase(from, c, y) == Reify(from, c.t, y)
  {
  }

  lemma VariantDenoted(from: Path, to: Path, cs: seq<Case>, d: nat, y: Sem)
    requires d < |cs| && d < TWO_32
    ensures Despec(VariantT(cs)) == Sum(DespecCases(cs)) && DespecCases(cs)[d] == DespecCase(cs[d])
    ensures var v := ReifyCase(from, cs[d], y); var x := DenoteCase(to, cs[d], v);
      Denote(to, VariantT(cs), Reify(from, VariantT(cs), SSum(d, y))) ==
        if to.InMemory? && cs[d].Carrying? && v.Nil? then Err(Rejected)
        else if x.Ok? then Ok(SSum(d, x.value)) else Err(x.fault)
  {
    assert Reify(from, VariantT(cs), SSum(d, y)) == VVariant(d, ReifyCase(from, cs[d], y));
  }

  lemma {:induction false} OptionArrives(from: Path, to: Path, e: Type, d: nat, y: Sem)
    requires Readable(from, Sum([Unit, Despec(e)]), SSum(d, y))
    ensures Arrives(from, to, OptionT(e), SSum(d, y)) <==> Relayable(from, to, OptionT(e), SSum(d, y))
    decreases e, 1
  {
    hide Readback, Denote, Reify, Despec, NilReified;
    var cs := [Unit, Despec(e)];
    OptionDenoted(from, to, e, y);
    SumReturned(to, cs, 0, SUnit);
    if d == 0 {
      assert y == SUnit;
    } else {
      assert cs[d] == Despec(e);
      ArrivesIffRelayable(from, to, e, y);
      NilIff(from, e, y);
      var x := Denote(to, e, Reify(from, e, y));
      if x.Ok? {
        SumReturned(to, cs, 1, x.value);
      }
    }
  }

  lemma OptionDenoted(from: Path, to: Path, e: Type, y: Sem)
    ensures Despec(OptionT(e)) == Sum([Unit, Despec(e)])
    ensures Denote(to, OptionT(e), Reify(from, OptionT(e), SSum(0, y))) == Ok(SSum(0, SUnit))
    ensures var v := Reify(from, e, y); var x := Denote(to, e, v);
      Denote(to, OptionT(e), Reify(from, OptionT(e), SSum(1, y))) ==
        if v.Nil? then Ok(SSum(0, SUnit)) else if x.Ok? then Ok(SSum(1, x.value)) else Err(x.fault)
  {
    assert Reify(from, OptionT(e), SSum(1, y)) == Reify(from, e, y);
  }

  lemma {:induction false} ResultArrives(from: Path, to: Path, ok: Case, err: Case, d: nat, y: Sem)
    requires Readable(from, Sum([DespecCase(ok), DespecCase(err)]), SSum(d, y))
    ensures Arrives(from, to, ResultT(ok, err), SSum(d, y)) <==> RelayableCase(from, to, if d == 1 then err else ok, y)
    decreases if d == 1 then err else ok, 1
  {
    hide Readback, Denote, DenoteCase, Reify, ReifyCase, Despec, DespecCase, Relayable;
    var cs, c := [DespecCase(ok), DespecCase(err)], if d == 1 then err else ok;
    assert cs[d] == DespecCase(c);
    ResultDenoted(from, to, ok, err, d, y);
    CaseArrives(from, to, c, y);
    var x := DenoteCase(to, c, ReifyCase(from, c, y));
    if x.Ok? {
      SumReturned(to, cs, d, x.value);
    }
  }

  lemma ResultDenoted(from: Path, to: Path, ok: Case, err: Case, d: nat, y: Sem)
    requires d < 2
    ensures Despec(ResultT(ok, err)) == Sum([DespecCase(ok), DespecCase(err)])
    ensures var c := if d == 1 then err else ok; var x := DenoteCase(to, c, ReifyCase(from, c, y));
      Denote(to, ResultT(ok, err), Reify(from, ResultT(ok, err), SSum(d, y)))
      == if x.Ok? then Ok(SSum(d, x.value)) else Err(x.fault)
  {
    assert Reify(from, ResultT(ok, err), SSum(d, y)) == VResult(d == 1, ReifyCase(from, if d == 1 then err else ok, y));
  }

  lemma {:induction false} DenotesAll(path: Path, ts: seq<Type>, vs: seq<Value>, n: nat)
    requires n <= |ts| == |vs|
    ensures DenoteAll(path, ts, vs, n).Ok? <==> forall i :: 0 <= i < n ==> Denote(path, ts[i], vs[i]).Ok?
  {
    if n > 0 {
      DenotesAll(path, ts, vs, n - 1);
    }
  }

  lemma {:induction false} DenotesElems(e: Type, vs: seq<Value>, n: nat)
    requires n <= |vs|
    ensures DenoteElems(e, vs, n).Ok? <==> forall i :: 0 <= i < n ==> Denote(InMemory, e, vs[i]).Ok?
  {
    if n > 0 {
      DenotesElems(e, vs, n - 1);
    }
  }

  lemma {:induction false} FieldsArrive(from: Path, to: Path, t: Type, ts: seq<Type>, ys: seq<Sem>)
    requires (t == RecordT(ts) || t == TupleT(ts)) && Readable(from, Product(DespecAll(ts)), SProduct(ys))
    ensures Arrives(from, to, t, SProduct(ys)) <==> forall i :: 0 <= i < |ts| ==> Relayable(from, to, ts[i], ys[i])
    decreases ts, 1
  {
    var vs, fs := ReifyAll(from, ts, ys), DespecAll(ts);
    forall i | 0 <= i < |ts| ensures Arrives(from, to, ts[i], ys[i]) <==> Relayable(from, to, ts[i], ys[i]) {
      assert fs[i] == Despec(ts[i]);
      ArrivesIffRelayable(from, to, ts[i], ys[i]);
    }
    FieldsTogether(from, to, t, ts, ys);
  }

  /** A record arrives exactly when each of its fields does. */
  lemma {:induction false} FieldsTogether(from: Path, to: Path, t: Type, ts: seq<Type>, ys: seq<Sem>)
    requires (t == RecordT(ts) || t == TupleT(ts)) && |ys| == |ts|
    ensures Arrives(from, to, t, SProduct(ys)) <==> forall i :: 0 <= i < |ts| ==> Arrives(from, to, ts[i], ys[i])
  {
    hide Readback;
    var vs, fs := ReifyAll(from, ts, ys), DespecAll(ts);
    var r := DenoteAll(to, ts, vs, |ts|);
    DenotesAll(to, ts, vs, |ts|);
    ProductDenoted(from, to, t, ts, ys);
    if r.Ok? {
      DenoteAllAt(to, ts, vs, |ts|);
      ReadbackFieldsAt(to, fs, r.value, |ts|);
      var b := ReadbackFields(to, fs, r.value, |ts|);
      assert forall i :: 0 <= i < |ts| ==> fs[i] == Despec(ts[i]);
      if b.Ok? {
        assert b.value == ys <==> forall i :: 0 <= i < |ts| ==> b.value[i] == ys[i];
      }
    }
  }

  lemma ProductDenoted(from: Path, to: Path, t: Type, ts: seq<Type>, ys: seq<Sem>)
    requires (t == RecordT(ts) || t == TupleT(ts)) && |ys| == |ts|
    ensures var r := DenoteAll(to, ts, ReifyAll(from, ts, ys), |ts|);
      && Denote(to, t, Reify(from, t, SProduct(ys))) == (if r.Ok? then Ok(SProduct(r.value)) else Err(r.fault))
      && (r.Ok? ==> var b := ReadbackFields(to, DespecAll(ts), r.value, |ts|);
            Readback(to, Despec(t), SProduct(r.value)) == if b.Ok? then Ok(SProduct(b.value)) else Err(b.fault))
  {
    assert Despec(t) == Product(DespecAll(ts));
  }

  lemma {:induction false} ListArrives(from: Path, to: Path, e: Type, ys: seq<Sem>)
    requires Readable(from, List(Checked(e)), SList(ys))
    ensures Arrives(from, to, ListT(e), SList(ys)) <==>
      forall i :: 0 <= i < |ys| ==> Relayable(InMemory, InMemory, e, ys[i])
    decreases e, 2
  {
    if ys != [] {
      assert Readable(InMemory, Checked(e), ys[0]);
      assert Checked(e) == Despec(e);
    }
    forall i | 0 <= i < |ys|
      ensures Arrives(InMemory, InMemory, e, ys[i]) <==> Relayable(InMemory, InMemory, e, ys[i])
    {
      assert Readable(InMemory, Checked(e), ys[i]);
      ArrivesIffRelayable(InMemory, InMemory, e, ys[i]);
    }
    ElemsTogether(from, to, e, ys);
  }

  /** A list arrives exactly when each of its elements does. */
  lemma {:induction false} ElemsTogether(from: Path, to: Path, e: Type, ys: seq<Sem>)
    requires |ys| <= MAX_LIST_ELEMENTS && (ys != [] ==> Checked(e) == Despec(e))
    ensures Arrives(from, to, ListT(e), SList(ys)) <==>
      forall i :: 0 <= i < |ys| ==> Arrives(InMemory, InMemory, e, ys[i])
  {
    hide Readback, Checked;
    var vs := ReifyElems(e, ys);
    var r := DenoteElems(e, vs, |vs|);
    DenotesElems(e, vs, |vs|);
    ListDenoted(from, to, e, ys);
    if r.Ok? {
      DenoteElemsAt(e, vs, |vs|);
      ReadbackElemsAt(Checked(e), r.value, |ys|);
      var b := ReadbackElems(Checked(e), r.value, |ys|);
      if b.Ok? {
        assert b.value == ys <==> forall i :: 0 <= i < |ys| ==> b.value[i] == ys[i];
      }
    }
  }

  lemma ListDenoted(from: Path, to: Path, e: Type, ys: seq<Sem>)
    requires |ys| <= MAX_LIST_ELEMENTS
    ensures var r := DenoteElems(e, ReifyElems(e, ys), |ys|);
      && Denote(to, ListT(e), Reify(from, ListT(e), SList(ys))) == (if r.Ok? then Ok(SList(r.value)) else Err(r.fault))
      && (r.Ok? ==> var b := ReadbackElems(Checked(e), r.value, |ys|);
            Readback(to, Despec(ListT(e)), SList(r.value)) == if b.Ok? then Ok(SList(b.value)) else Err(b.fault))
  {
    assert Despec(ListT(e)) == List(Checked(e));
  }

  // ---- from guest to guest ----

  lemma LiftTopReadable(m: bytes, s: Shape, cvs: seq<CoreVal>)
    requires |cvs| == (if Spills(s) then 1 else |Flatten(s)|) && LiftTop(m, s, cvs).Ok?
    ensures Readable(if Spills(s) then InMemory else InCore, s, LiftTop(m, s, cvs).value)
  {
    hide Readable, Lift, Load, Flatten;
    if Spills(s) {
      LoadReadable(m, Low(4, cvs[0].bits), s);
    } else {
      LiftReadable(m, s, cvs);
    }
  }

  /** FROM GUEST TO GUEST. A parameter list, or any other value, that is lifted
      from one guest and lowered for another is read by the other one as it was
      sent if and only if it is relayable. */
  lemma RelayedIff(m: bytes, t: Type, cvs: seq<CoreVal>, y: Sem, st: State, v: Value, r: Lowered)
    requires |cvs| == Plans.Width(t) && LiftTop(m, Despec(t), cvs) == Ok(y)
    requires LiftValue(m, t, cvs) == Ok(v)
    requires LowerValue(st, t, v) == Ok(r) && Separated(st.heap, r.st.heap, 0, 0)
    ensures |r.cvs| == Plans.Width(t)
    ensures LiftTop(r.st.mem, Despec(t), r.cvs) == Ok(y) <==> Relayable(PathOf(t), PathOf(t), t, y)
  {
    hide LowerValue, LiftValue, LowerTop, LiftTop, Readback, Reify, Despec, Denote, Relayable, Readable, Spills;
    LoweredTop(st, t, v, r);
    LiftedTop(m, t, cvs);
    LowerTopLiftTop(st, Despec(t), Denote(PathOf(t), t, v).value, r);
    LiftTopReadable(m, Despec(t), cvs);
    ArrivesIffRelayable(PathOf(t), PathOf(t), t, y);
  }

  /** A relayable value is never refused for its dynamic type. */
  lemma RelayableAccepted(m: bytes, t: Type, cvs: seq<CoreVal>, y: Sem)
    requires |cvs| == Plans.Width(t) && LiftTop(m, Despec(t), cvs) == Ok(y) && Relayable(PathOf(t), PathOf(t), t, y)
    ensures Denote(PathOf(t), t, Reify(PathOf(t), t, y)).Ok?
  {
    hide LiftTop, Readback, Reify, Despec, Denote, Relayable, Readable, Spills;
    LiftTopReadable(m, Despec(t), cvs);
    ArrivesIffRelayable(PathOf(t), PathOf(t), t, y);
  }

  /** The s8 that one guest has in memory is refused when it is lowered for the
      other guest, on either path, exactly when it is not negative. */
  lemma LoadedS8Refused(m: bytes, p: nat, v: Value, to: Path)
    requires LoadValueAt(m, p, PrimT(S8)) == Ok(v)
    ensures p < |m| && (Denote(to, PrimT(S8), v).Err? <==> m[p] < 0x80)
  {
    assert FromLittleEndian([]) == 0;
    assert m[p..p + 1] == [m[p]] && [m[p]][1..] == [];
    assert FromLittleEndian([m[p]]) == m[p];
    assert Load(m, p, Leaf(IntS(W1))) == Ok(SInt(m[p]));
  }

  /** Some of none arrives as none. */
  lemma SomeNoneArrivesAsNone(from: Path, to: Path, e: Type)
    ensures var t, y := OptionT(OptionT(e)), SSum(1, SSum(0, SUnit));
      && Readable(from, Despec(t), y) && !Relayable(from, to, t, y) && !Arrives(from, to, t, y)
      && Denote(to, t, Reify(from, t, y)) == Ok(SSum(0, SUnit))
  {
    var t, y := OptionT(OptionT(e)), SSum(1, SSum(0, SUnit));
    assert Readable(from, Unit, SUnit);
    assert Reify(from, OptionT(e), SSum(0, SUnit)) == Nil;
    ArrivesIffRelayable(from, to, t, y);
  }
}
