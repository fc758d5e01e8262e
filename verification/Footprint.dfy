/** Where the code reads and writes: once the alignment and the bounds of a
    whole value are known, every field, element, discriminant and payload the
    code reaches is aligned, inside that value and apart from the others. */
module Footprint {
  import opened Base
  import opened Shapes
  import opened ShapeFacts
  import opened Memory
  import opened Values
  import opened Layout

  /** What `Load` and `Store` have checked before they touch memory. */
  ghost predicate Ready(memLen: nat, p: nat, t: Type) {
    Within(t, 0) && Valid(Despec(t)) && Aligned(p, Align(Despec(t))) && p + Size(Despec(t)) <= memLen
  }

  predicate Refused(memLen: nat, p: nat, align: Result<u32>, size: Result<u32>)
    requires align.Ok? ==> IsAlignment(align.value)
  {
    align.Err? || size.Err? || !Aligned(p, align.value) || p + size.value > memLen
  }

  lemma SizeKnown(size: Result<u32>, e: Type)
    requires IsSizeOf(size, Checked(e))
    ensures size.Ok? ==> Within(e, 0) && Valid(Despec(e)) && Checked(e) == Despec(e) && size.value == Size(Despec(e))
    ensures size.Err? ==> !Valid(Checked(e)) || Size(Checked(e)) >= TWO_32
  {
  }

  lemma AlignKnown(align: Result<u32>, e: Type)
    requires IsAlignOf(align, Checked(e)) && Valid(Checked(e))
    ensures align.Ok? && IsAlignment(align.value) && align.value == Align(Checked(e))
  {
  }

  lemma {:induction false} ElemInside(elem: Shape, i: nat, n: nat)
    requires i < n
    ensures ElemsSize(elem, i) + Size(elem) <= ElemsSize(elem, n)
    decreases n
  {
    if i < n - 1 {
      ElemInside(elem, i, n - 1);
    }
  }

  // ---- elements and fields ----

  lemma ElementReady(m: nat, q: nat, e: Type, i: nat, n: nat)
    requires i < n && Within(e, 0) && Valid(Despec(e)) && Aligned(q, Align(Despec(e)))
    requires q + ElemsSize(Despec(e), n) <= m
    ensures Ready(m, q + ElemsSize(Despec(e), i), e)
    ensures ElemsSize(Despec(e), i + 1) == ElemsSize(Despec(e), i) + Size(Despec(e)) <= ElemsSize(Despec(e), n)
  {
    hide Size, Align, Aligned, Valid, Despec;
    ElemInside(Despec(e), i, n);
    ElemAligned(q, Despec(e), i);
  }

  /** Fields lie one after the other. */
  lemma FieldsApart(fs: seq<Shape>, i: nat, j: nat)
    requires i < j < |fs|
    ensures FieldOffset(fs, i) + Size(fs[i]) <= FieldOffset(fs, j)
  {
    FieldsEndGrows(fs, i + 1, j);
  }

  lemma ProductShape(m: nat, p: nat, t: Type, ts: seq<Type>)
    requires t == RecordT(ts) || t == TupleT(ts)
    ensures Ready(m, p, t) ==>
      Aligned(p, Align(Product(DespecAll(ts)))) && p + Size(Product(DespecAll(ts))) <= m
  {
  }

  /** Each field is ready when the whole is. */
  lemma FieldReady(m: nat, p: nat, t: Type, ts: seq<Type>, i: nat)
    requires (t == RecordT(ts) || t == TupleT(ts)) && Ready(m, p, t) && i < |ts|
    ensures Checked(ts[i]) == DespecAll(ts)[i] && Valid(DespecAll(ts)[i])
    ensures Ready(m, p + FieldOffset(DespecAll(ts), i), ts[i])
    ensures p + FieldsEnd(DespecAll(ts), i + 1) <= m
  {
    hide Size, Align, FieldOffset, FieldsEnd;
    var fs := DespecAll(ts);
    assert fs[i] == Despec(ts[i]);
    assert RefWithin(ts[i], 0);
    RefWithinAlone(ts[i]);
    ProductShape(m, p, t, ts);
    FieldInside(fs, i, p);
  }

  /** The code reaches the offset of each field. */
  lemma FieldReached(m: nat, p: nat, t: Type, ts: seq<Type>, i: nat)
    requires (t == RecordT(ts) || t == TupleT(ts)) && Ready(m, p, t) && i < |ts|
    ensures var fs := DespecAll(ts);
      && AlignUp(p + FieldsEnd(fs, i), Align(fs[i])) == p + FieldOffset(fs, i)
      && FieldOffset(fs, i) + Size(fs[i]) == FieldsEnd(fs, i + 1)
  {
    hide Within, Valid, Size, Align, AlignUp, Aligned, Despec, DespecAll, FieldsEnd, Ready;
    var fs := DespecAll(ts);
    ProductShape(m, p, t, ts);
    FieldInside(fs, i, p);
    FieldAlign(fs, i, p);
    AlignShift(p, FieldsEnd(fs, i), Align(fs[i]));
  }

  lemma FieldAlign(fs: seq<Shape>, i: nat, p: nat)
    requires i < |fs| && Aligned(p, Align(Product(fs)))
    ensures Aligned(p, Align(fs[i]))
  {
    CaseLayout(fs, |fs|, i);
    Divides(Align(fs[i]), Align(Product(fs)), p);
  }

  /** The discriminant and each payload of a sum lie inside it, and the code
      reaches the payload. */
  lemma SumPlace(m: nat, p: nat, t: Type, cs: seq<Shape>, d: nat)
    requires Ready(m, p, t) && Despec(t) == Sum(cs) && d < |cs|
    ensures Valid(cs[d]) && Aligned(p + PayloadOffset(cs), Align(cs[d])) && p + PayloadOffset(cs) + Size(cs[d]) <= m
    ensures AlignUp(p + DiscBytes(|cs|), MaxAlign(cs, |cs|)) == p + PayloadOffset(cs)
    ensures DiscBytes(|cs|) <= PayloadOffset(cs)
  {
    hide Size, Align, MaxAlign, AlignUp, Aligned, DiscBytes, Within, Despec;
    PayloadInside(cs, d, p);
    SumAlign(cs, p);
    AlignShift(p, DiscBytes(|cs|), MaxAlign(cs, |cs|));
  }

  lemma SumAlign(cs: seq<Shape>, p: nat)
    requires Aligned(p, Align(Sum(cs)))
    ensures Aligned(p, MaxAlign(cs, |cs|))
    ensures PayloadOffset(cs) == AlignUp(DiscBytes(|cs|), MaxAlign(cs, |cs|))
  {
    Divides(MaxAlign(cs, |cs|), Align(Sum(cs)), p);
  }

  // ---- variants, options and results as sums ----

  predicate IsSum(t: Type) {
    t.VariantT? || t.OptionT? || t.ResultT?
  }

  function CasesOf(t: Type): seq<Case> {
    match t
    case VariantT(cs) => cs
    case OptionT(e) => [Empty, Carrying(e)]
    case ResultT(ok, err) => [ok, err]
    case _ => []
  }

  lemma CasesShape(t: Type)
    ensures IsSum(t) ==> Despec(t) == Sum(DespecCases(CasesOf(t)))
  {
    match t
    case VariantT(cs) =>
    case OptionT(e) => assert DespecCases([Empty, Carrying(e)]) == [Unit, Despec(e)];
    case ResultT(ok, err) => assert DespecCases([ok, err]) == [DespecCase(ok), DespecCase(err)];
    case _ =>
  }

  lemma CasesWithin(t: Type, d: nat)
    requires Within(t, 0) && d < |CasesOf(t)|
    ensures CaseWithin(CasesOf(t)[d], 0)
  {
  }

  /** Discriminant and payload lie inside the sum, and the code reaches the payload. */
  lemma CaseReady(m: nat, p: nat, t: Type, d: nat)
    requires Ready(m, p, t) && d < |CasesOf(t)|
    ensures var ss, c := DespecCases(CasesOf(t)), CasesOf(t)[d];
      && p + DiscBytes(|ss|) <= m
      && AlignUp(p + DiscBytes(|ss|), MaxAlign(ss, |ss|)) == p + PayloadOffset(ss) <= m
      && (c.Carrying? ==> Ready(m, p + PayloadOffset(ss), c.t))
      && forall i :: 0 <= i < |ss| ==> Valid(ss[i])
  {
    hide Size, Align, MaxAlign, AlignUp, Aligned, DiscBytes, Despec, PayloadOffset;
    var cs, c := CasesOf(t), CasesOf(t)[d];
    CasesShape(t);
    SumPlace(m, p, t, DespecCases(cs), d);
    assert DespecCases(cs)[d] == DespecCase(c);
    if c.Carrying? {
      CasesWithin(t, d);
      RefWithinAlone(c.t);
    }
  }

  /** A sum has a case, so its discriminant and its payload lie inside it. */
  lemma SumReady(m: nat, p: nat, t: Type)
    requires Ready(m, p, t) && IsSum(t)
    ensures var ss := DespecCases(CasesOf(t));
      && 0 < |ss|
      && p + DiscBytes(|ss|) <= m
      && AlignUp(p + DiscBytes(|ss|), MaxAlign(ss, |ss|)) == p + PayloadOffset(ss) <= m
      && forall i :: 0 <= i < |ss| ==> Valid(ss[i])
  {
    hide Size, Align, MaxAlign, AlignUp, Aligned, DiscBytes, Despec, PayloadOffset, Within;
    CasesShape(t);
    CaseReady(m, p, t, 0);
  }

  lemma CaseSizes(m: nat, p: nat, cs: seq<Case>)
    requires Ready(m, p, VariantT(cs))
    ensures DiscriminantType(|cs|).Ok? && SizePrimitive(DiscriminantType(|cs|).value) == DiscBytes(|DespecCases(cs)|)
  {
    DiscriminantHoldsCases(|cs|);
  }

  lemma OptionAlign(m: nat, p: nat, e: Type)
    requires Ready(m, p, OptionT(e))
    ensures var ss := DespecCases([Empty, Carrying(e)]);
      Valid(Checked(e)) && MaxAlign(ss, 2) == Align(Checked(e)) && DiscBytes(|ss|) == 1
  {
    hide AlignUp, Size, Aligned, Align, MaxAlign;
    RefWithinAlone(e);
    UnitLayout();
    TwoCases(Unit, Despec(e));
    assert DespecCases([Empty, Carrying(e)]) == [Unit, Despec(e)];
  }

  /** The larger alignment of the two arms, from 1. */
  method ArmsAlignment(ok: Case, err: Case) returns (r: Result<u32>)
    ensures r.Ok? ==> IsAlignment(r.value)
    ensures (ok.Carrying? ==> Within(ok.t, 0)) && (err.Carrying? ==> Within(err.t, 0)) ==>
      (r.Ok? <==> Valid(DespecCase(ok)) && Valid(DespecCase(err)))
      && (r.Ok? ==> r.value == Max(Align(DespecCase(ok)), Align(DespecCase(err))))
  {
    UnitLayout();
    var align: u32 := 1;
    if ok.Carrying? {
      var b :- Alignment(ok.t);
      align := if b > align then b else align;
    }
    if err.Carrying? {
      var b :- Alignment(err.t);
      align := if b > align then b else align;
    }
    return Ok(align);
  }

  lemma ArmsWithin(ok: Case, err: Case)
    requires Within(ResultT(ok, err), 0)
    ensures (ok.Carrying? ==> Within(ok.t, 0)) && (err.Carrying? ==> Within(err.t, 0))
  {
    if ok.Carrying? {
      RefWithinAlone(ok.t);
    }
    if err.Carrying? {
      RefWithinAlone(err.t);
    }
  }

  lemma ResultAlign(m: nat, p: nat, ok: Case, err: Case)
    requires Ready(m, p, ResultT(ok, err))
    ensures (ok.Carrying? ==> Within(ok.t, 0)) && (err.Carrying? ==> Within(err.t, 0))
    ensures Valid(DespecCase(ok)) && Valid(DespecCase(err))
    ensures var ss := DespecCases([ok, err]);
      MaxAlign(ss, 2) == Max(Align(DespecCase(ok)), Align(DespecCase(err))) && DiscBytes(|ss|) == 1
  {
    hide AlignUp, Size, Aligned, Align;
    ArmsWithin(ok, err);
    TwoCases(DespecCase(ok), DespecCase(err));
    assert DespecCases([ok, err]) == [DespecCase(ok), DespecCase(err)];
  }
}
