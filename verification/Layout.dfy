/** layout.go: alignment and size of a type in 32-bit arithmetic, with the
    record, tuple, variant, option, result, enum and flags code written out as
    the source has it. Each method is proved to compute the layout of the
    despecialised type. */
module Layout {
  import opened Base
  import opened Shapes
  import opened ShapeFacts
  import opened Values

  // ---- checked arithmetic ----

  function CheckedAlign(offset: u32, alignment: u32): Result<u32> {
    if alignment == 0 then Ok(offset)
    else if offset + alignment - 1 > 0xFFFF_FFFF then Err(InnerCheck)
    else Ok((offset + alignment - 1) / alignment * alignment)
  }

  function CheckedAdd(a: u32, b: u32): Result<u32> {
    if a + b > 0xFFFF_FFFF then Err(InnerCheck) else Ok(a + b)
  }

  /** `CheckedAlign` gives the least aligned offset, and fails exactly when that
      does not fit 32 bits. */
  lemma CheckedAlignExact(offset: u32, a: u32)
    requires IsAlignment(a)
    ensures AlignUp(offset, a) < TWO_32 ==> CheckedAlign(offset, a) == Ok(AlignUp(offset, a))
    ensures AlignUp(offset, a) >= TWO_32 ==> CheckedAlign(offset, a) == Err(InnerCheck)
  {
    hide Aligned, AlignUp;
    RoundDown(offset + a - 1, a);
    var r := (offset + a - 1) / a * a;
    AlignUpLeast(offset, a, r);
    AlignedGap(r, AlignUp(offset, a), a);
    WholeMemoryAligned(a);
    if offset + a - 1 > 0xFFFF_FFFF {
      AlignedGap(TWO_32, AlignUp(offset, a), a);
    }
  }

  lemma RoundDown(x: nat, a: nat)
    requires IsAlignment(a)
    ensures x - a < x / a * a <= x && Aligned(x / a * a, a)
  {
    var q := x / a;
    assert x == q * a + x % a;
    ModUnique(q * a, a, q, 0);
    AlignedIsMod(q * a, a);
  }

  lemma WholeMemoryAligned(a: nat)
    requires IsAlignment(a)
    ensures Aligned(TWO_32, a)
  {
    ModUnique(TWO_32, a, if a == 1 then TWO_32 else if a == 2 then 0x8000_0000 else if a == 4 then 0x4000_0000
      else 0x2000_0000, 0);
    AlignedIsMod(TWO_32, a);
  }

  /** Discriminant, padding, payload, padding: the tail of sizeVariant,
      sizeOption and sizeResult. */
  function SumSize(disc: u32, payloadAlign: u32, payloadSize: u32, sumAlign: u32): Result<u32> {
    var offset :- CheckedAlign(disc, payloadAlign);
    var offset :- CheckedAdd(offset, payloadSize);
    CheckedAlign(offset, sumAlign)
  }

  lemma SumSizeExact(disc: u32, a: u32, n: u32, b: u32)
    requires IsAlignment(a) && IsAlignment(b)
    ensures var size := AlignUp(AlignUp(disc, a) + n, b);
            SumSize(disc, a, n, b) == if size < TWO_32 then Ok(size) else Err(InnerCheck)
  {
    hide AlignUp, Aligned, CheckedAlign;
    CheckedAlignExact(disc, a);
    if AlignUp(disc, a) + n < TWO_32 {
      CheckedAlignExact(AlignUp(disc, a) + n, b);
    }
  }

  // ---- discriminants ----

  /** The least k with n <= 256^k (see `CeilLog256Least`): the source computes
      it as the ceiling of log2(n) / 8. */
  function CeilLog256(n: nat): nat {
    if n <= 1 then 0 else 1 + CeilLog256((n + 255) / 256)
  }

  lemma {:induction false} CeilLog256Least(n: nat, k: nat)
    ensures CeilLog256(n) <= k <==> n <= Pow256(k)
  {
    if n > 1 && k > 0 {
      CeilLog256Least((n + 255) / 256, k - 1);
    }
  }

  function DiscriminantType(numCases: nat): Result<Prim> {
    if numCases == 0 || numCases > 0xFFFF_FFFF then Err(Rejected)
    else
      match CeilLog256(numCases)
      case 0 => Ok(U8)
      case 1 => Ok(U8)
      case 2 => Ok(U16)
      case _ => Ok(U32)
  }

  function SizePrimitive(p: Prim): u32 {
    match p
    case Bool | S8 | U8 => 1
    case S16 | U16 => 2
    case S32 | U32 | Float32 | Char => 4
    case S64 | U64 | Float64 => 8
    case Str => 8
    case ErrorContext => 4
  }

  function AlignmentPrimitive(p: Prim): u32 {
    match p
    case Bool | S8 | U8 => 1
    case S16 | U16 => 2
    case S32 | U32 | Float32 | Char => 4
    case S64 | U64 | Float64 => 8
    case Str => 4
    case ErrorContext => 4
  }

  /** The discriminant type has the fewest bytes that hold every case index. */
  lemma DiscriminantHoldsCases(n: nat)
    ensures DiscriminantType(n).Ok? <==> 0 < n < TWO_32
    ensures DiscriminantType(n).Ok? ==>
      var p := DiscriminantType(n).value;
      && SizePrimitive(p) == AlignmentPrimitive(p) == DiscBytes(n)
      && p != Str && ScalarOf(p) == IntS(if DiscBytes(n) == 1 then W1 else if DiscBytes(n) == 2 then W2 else W4)
      && n <= Span(DiscBytes(n))
  {
    Pow256Values();
    CeilLog256Least(n, 1);
    CeilLog256Least(n, 2);
  }

  function FlagsBytes(labels: nat): Result<u32> {
    if labels == 0 || labels > 32 then Err(Rejected)
    else if labels <= 8 then Ok(1)
    else if labels <= 16 then Ok(2)
    else Ok(4)
  }

  // ---- the depth check ----

  lemma {:induction false} WithinShallower(t: Type, depth: nat)
    requires Within(t, depth + 1)
    ensures Within(t, depth)
    decreases t, 0
  {
    match t
    case RecordT(ts) =>
      forall i | 0 <= i < |ts| ensures RefWithin(ts[i], depth) {
        RefShallower(ts[i], depth);
      }
    case TupleT(ts) =>
      forall i | 0 <= i < |ts| ensures RefWithin(ts[i], depth) {
        RefShallower(ts[i], depth);
      }
    case VariantT(cs) =>
      forall i | 0 <= i < |cs| ensures CaseWithin(cs[i], depth) {
        if cs[i].Carrying? {
          RefShallower(cs[i].t, depth);
        }
      }
    case OptionT(e) => RefShallower(e, depth);
    case ResultT(ok, err) =>
      if ok.Carrying? {
        RefShallower(ok.t, depth);
      }
      if err.Carrying? {
        RefShallower(err.t, depth);
      }
    case _ =>
  }

  lemma {:induction false} RefShallower(t: Type, depth: nat)
    requires RefWithin(t, depth + 1)
    ensures RefWithin(t, depth)
    decreases t, 1
  {
    if !t.PrimT? {
      WithinShallower(t, depth + 1);
    }
  }

  /** What a type refers to may be checked on its own. */
  lemma RefWithinAlone(t: Type)
    requires RefWithin(t, 0)
    ensures Within(t, 0)
  {
    if !t.PrimT? {
      WithinShallower(t, 0);
    }
  }

  // ---- alignment ----

  /** `r` is the alignment of `s`, or an error when `s` is invalid. */
  predicate IsAlignOf(r: Result<u32>, s: Shape) {
    (r.Ok? <==> Valid(s)) && (r.Ok? ==> r.value == Align(s))
  }

  method Alignment(t: Type) returns (r: Result<u32>)
    ensures IsAlignOf(r, Checked(t))
  {
    if !Within(t, 0) {
      return Err(Rejected);
    }
    r := AlignmentUnchecked(t);
  }

  method AlignmentUnchecked(t: Type) returns (r: Result<u32>)
    ensures IsAlignOf(r, Despec(t))
    decreases t, 2
  {
    match t {
      case PrimT(p) => r := Ok(AlignmentPrimitive(p));
      case ListT(_) => r := Ok(4);
      case RecordT(ts) => r := AlignmentFields(ts);
      case TupleT(ts) => r := AlignmentFields(ts);
      case VariantT(cs) => r := AlignmentVariant(cs);
      case FlagsT(n) => r := FlagsBytes(n);
      case EnumT(n) =>
        DiscriminantHoldsCases(n);
        UnitsLayout(n, n);
        var disc :- DiscriminantType(n);
        r := Ok(AlignmentPrimitive(disc));
      case OptionT(e) =>
        UnitLayout();
        TwoCases(Unit, Despec(e));
        var a :- AlignmentUnchecked(e);
        r := Ok(if a > 1 then a else 1);
      case ResultT(ok, err) => r := AlignmentResult(ok, err);
      case HandleT => r := Ok(4);
      case OtherT => r := Err(Rejected);
    }
  }

  method AlignmentResult(ok: Case, err: Case) returns (r: Result<u32>)
    ensures IsAlignOf(r, Sum([DespecCase(ok), DespecCase(err)]))
    decreases ResultT(ok, err), 0
  {
    hide Align, Valid;
    UnitLayout();
    SumOfTwo(DespecCase(ok), DespecCase(err));
    var a: u32 := 1;
    if ok.Carrying? {
      var b :- AlignmentUnchecked(ok.t);
      a := if b > a then b else a;
    }
    if err.Carrying? {
      var b :- AlignmentUnchecked(err.t);
      a := if b > a then b else a;
    }
    r := Ok(if a > 1 then a else 1);
  }

  lemma SumOfTwo(a: Shape, b: Shape)
    ensures Align(Sum([a, b])) == Max(Align(a), Align(b)) && (Valid(Sum([a, b])) <==> Valid(a) && Valid(b))
  {
    TwoCases(a, b);
  }

  /** alignmentRecord and alignmentTuple. */
  method AlignmentFields(ts: seq<Type>) returns (r: Result<u32>)
    ensures IsAlignOf(r, Product(DespecAll(ts)))
    decreases ts, 0
  {
    var a: u32 := 1;
    for i := 0 to |ts|
      invariant forall j :: 0 <= j < i ==> Valid(DespecAll(ts)[j])
      invariant a == MaxAlign(DespecAll(ts), i)
    {
      assert DespecAll(ts)[i] == Despec(ts[i]);
      var b :- AlignmentUnchecked(ts[i]);
      a := if b > a then b else a;
    }
    return Ok(a);
  }

  method AlignmentVariant(cs: seq<Case>) returns (r: Result<u32>)
    ensures IsAlignOf(r, Sum(DespecCases(cs)))
    decreases VariantT(cs), 1
  {
    DiscriminantHoldsCases(|cs|);
    var disc :- DiscriminantType(|cs|);
    var a :- MaxCaseAlignment(cs);
    return Ok(if a > AlignmentPrimitive(disc) then a else AlignmentPrimitive(disc));
  }

  method MaxCaseAlignment(cs: seq<Case>) returns (r: Result<u32>)
    ensures r.Ok? <==> forall i :: 0 <= i < |cs| ==> Valid(DespecCases(cs)[i])
    ensures r.Ok? ==> r.value == MaxAlign(DespecCases(cs), |cs|)
    decreases VariantT(cs), 0
  {
    var a: u32 := 1;
    for i := 0 to |cs|
      invariant forall j :: 0 <= j < i ==> Valid(DespecCases(cs)[j])
      invariant a == MaxAlign(DespecCases(cs), i)
    {
      var c := cs[i];
      assert DespecCases(cs)[i] == DespecCase(c);
      if c.Carrying? {
        assert c == Carrying(c.t);
        var b :- AlignmentUnchecked(c.t);
        a := if b > a then b else a;
      }
    }
    return Ok(a);
  }

  // ---- layouts of the special sums ----

  lemma {:induction false} UnitsLayout(n: nat, k: nat)
    requires k <= n
    ensures MaxAlign(Units(n), k) == 1 && MaxSize(Units(n), k) == 0
    ensures forall i :: 0 <= i < n ==> Valid(Units(n)[i])
  {
    if k > 0 {
      UnitsLayout(n, k - 1);
    }
  }

  lemma UnitLayout()
    ensures Valid(Unit) && Align(Unit) == 1 && Size(Unit) == 0 && Flatten(Unit) == []
  {
  }

  lemma TwoCases(a: Shape, b: Shape)
    ensures MaxAlign([a, b], 2) == Align(Sum([a, b])) == Max(Align(a), Align(b))
    ensures MaxSize([a, b], 2) == Max(Size(a), Size(b))
    ensures Valid(Sum([a, b])) <==> Valid(a) && Valid(b)
  {
    var cs := [a, b];
    assert cs[0] == a && cs[1] == b;
    assert Valid(Sum(cs)) <==> Valid(cs[0]) && Valid(cs[1]);
    hide AlignUp, Aligned, Size;
    assert MaxAlign(cs, 2) == Max(MaxAlign(cs, 1), Align(b));
    assert MaxAlign(cs, 1) == Max(MaxAlign(cs, 0), Align(a));
    assert MaxSize(cs, 2) == Max(MaxSize(cs, 1), Size(b));
    assert MaxSize(cs, 1) == Max(MaxSize(cs, 0), Size(a));
  }

  /** The size of a sum of two is what `SumSize` computes, and both fit if it does. */
  lemma TwoCasesSize(a: Shape, b: Shape)
    ensures Size(a) < TWO_32 && Size(b) < TWO_32 ==>
      var m := Max(Align(a), Align(b));
      SumSize(1, m, Max(Size(a), Size(b)), m) == if Size(Sum([a, b])) < TWO_32 then Ok(Size(Sum([a, b])))
        else Err(InnerCheck)
    ensures Size(Sum([a, b])) < TWO_32 ==> Size(a) < TWO_32 && Size(b) < TWO_32
    ensures Valid(Sum([a, b])) <==> Valid(a) && Valid(b)
  {
    TwoCases(a, b);
    CasesSize([a, b]);
  }

  /** The size of a sum is what `SumSize` computes, and every payload fits if it does. */
  lemma CasesSize(cs: seq<Shape>)
    ensures var n := MaxSize(cs, |cs|);
      && (n < TWO_32 ==> SumSize(DiscBytes(|cs|), MaxAlign(cs, |cs|), n, Align(Sum(cs)))
                         == if Size(Sum(cs)) < TWO_32 then Ok(Size(Sum(cs))) else Err(InnerCheck))
      && (Size(Sum(cs)) < TWO_32 ==> n < TWO_32)
  {
    SizeOfSum(cs);
    hide Align, Size, MaxAlign, MaxSize, AlignUp, SumSize, DiscBytes;
    if MaxSize(cs, |cs|) < TWO_32 {
      SumSizeExact(DiscBytes(|cs|), MaxAlign(cs, |cs|), MaxSize(cs, |cs|), Align(Sum(cs)));
    }
  }

  lemma SizeOfSum(cs: seq<Shape>)
    ensures Size(Sum(cs)) == AlignUp(AlignUp(DiscBytes(|cs|), MaxAlign(cs, |cs|)) + MaxSize(cs, |cs|), Align(Sum(cs)))
    ensures MaxSize(cs, |cs|) <= Size(Sum(cs))
  {
  }

  // ---- size ----

  /** `r` is the size of `s`, or an error when `s` is invalid or larger than
      32-bit memory. */
  predicate IsSizeOf(r: Result<u32>, s: Shape) {
    (r.Ok? <==> Valid(s) && Size(s) < TWO_32) && (r.Ok? ==> r.value == Size(s))
  }

  method SizeOf(t: Type) returns (r: Result<u32>)
    ensures IsSizeOf(r, Checked(t))
  {
    if !Within(t, 0) {
      return Err(Rejected);
    }
    r := SizeUnchecked(t);
  }

  method SizeUnchecked(t: Type) returns (r: Result<u32>)
    ensures IsSizeOf(r, Despec(t))
    decreases t, 1
  {
    match t {
      case PrimT(p) => r := Ok(SizePrimitive(p));
      case ListT(_) => r := Ok(8);
      case RecordT(ts) => r := SizeFields(ts);
      case TupleT(ts) => r := SizeFields(ts);
      case VariantT(cs) => r := SizeVariant(cs);
      case FlagsT(n) => r := FlagsBytes(n);
      case EnumT(n) => r := SizeEnum(n);
      case OptionT(e) =>
        r := SizeOption(e);
        assert Despec(t) == Sum([Unit, Despec(e)]);
      case ResultT(ok, err) =>
        r := SizeResult(ok, err);
        assert Despec(t) == Sum([DespecCase(ok), DespecCase(err)]);
      case HandleT => r := Ok(4);
      case OtherT => r := Err(Rejected);
    }
  }

  method SizeEnum(n: nat) returns (r: Result<u32>)
    ensures IsSizeOf(r, Sum(Units(n)))
  {
    DiscriminantHoldsCases(n);
    UnitsLayout(n, n);
    EnumSize(n);
    var disc :- DiscriminantType(n);
    r := Ok(SizePrimitive(disc));
  }

  lemma EnumSize(n: nat)
    ensures Size(Sum(Units(n))) == DiscBytes(n) == Align(Sum(Units(n)))
  {
    UnitsLayout(n, n);
    AlignUpOne(DiscBytes(n));
  }

  /** One unit of the alignment is aligned, and so is every number at 1. */
  lemma AlignUpOne(a: nat)
    requires IsAlignment(a)
    ensures AlignUp(a, 1) == a && AlignUp(a, a) == a
  {
    AlignedIsMod(a, 1);
    AlignUpLeast(a, 1, a);
    AlignUpLeast(a, a, a);
  }

  /** sizeRecord and sizeTuple. */
  method SizeFields(ts: seq<Type>) returns (r: Result<u32>)
    ensures IsSizeOf(r, Product(DespecAll(ts)))
    decreases ts, 1
  {
    ghost var fs := DespecAll(ts);
    assert Size(Product(fs)) == AlignUp(FieldsEnd(fs, |ts|), Align(Product(fs)));
    hide AlignUp, Aligned, Align, Size, CheckedAlign;
    var offset :- EndOfFields(ts);
    var a := AlignmentFields(ts);
    CheckedAlignExact(offset, a.value);
    r := CheckedAlign(offset, a.value);
  }

  lemma FieldsBegin(fs: seq<Shape>)
    ensures FieldsEnd(fs, 0) == 0
    ensures Valid(Product(fs)) <==> forall j :: 0 <= j < |fs| ==> Valid(fs[j])
  {
  }

  lemma NextField(fs: seq<Shape>, i: nat)
    requires i < |fs|
    ensures FieldsEnd(fs, i + 1) == AlignUp(FieldsEnd(fs, i), Align(fs[i])) + Size(fs[i]) <= FieldsEnd(fs, |fs|)
  {
    hide AlignUp, Aligned, Align, Size;
    FieldsEndGrows(fs, i + 1, |fs|);
  }

  /** The running offset after the last field. */
  method EndOfFields(ts: seq<Type>) returns (r: Result<u32>)
    ensures r.Ok? <==> Valid(Product(DespecAll(ts))) && FieldsEnd(DespecAll(ts), |ts|) < TWO_32
    ensures r.Ok? ==> r.value == FieldsEnd(DespecAll(ts), |ts|)
    decreases ts, 0
  {
    hide AlignUp, Aligned, Align, Size, CheckedAlign, FieldsEnd, Valid;
    ghost var fs := DespecAll(ts);
    var offset: u32 := 0;
    FieldsBegin(fs);
    for i := 0 to |ts|
      invariant forall j :: 0 <= j < i ==> Valid(fs[j])
      invariant offset == FieldsEnd(fs, i)
    {
      NextField(fs, i);
      assert fs[i] == Despec(ts[i]);
      var a :- AlignmentUnchecked(ts[i]);
      CheckedAlignExact(offset, a);
      offset :- CheckedAlign(offset, a);
      var n :- SizeUnchecked(ts[i]);
      offset :- CheckedAdd(offset, n);
    }
    return Ok(offset);
  }

  method SizeVariant(cs: seq<Case>) returns (r: Result<u32>)
    ensures IsSizeOf(r, Sum(DespecCases(cs)))
    decreases VariantT(cs), 0, 1
  {
    ghost var ss := DespecCases(cs);
    CasesSize(ss);
    assert Valid(Sum(ss)) <==> 0 < |ss| < TWO_32 && forall i :: 0 <= i < |ss| ==> Valid(ss[i]);
    hide Align, Size, Valid, SumSize, MaxAlign, MaxSize, DespecCases;
    DiscriminantHoldsCases(|cs|);
    var disc :- DiscriminantType(|cs|);
    var a :- MaxCaseAlignment(cs);
    var size :- MaxCaseSize(cs);
    var variantAlign := AlignmentVariant(cs);
    r := SumSize(SizePrimitive(disc), a, size, variantAlign.value);
  }

  method MaxCaseSize(cs: seq<Case>) returns (r: Result<u32>)
    ensures r.Ok? <==>
      (forall i :: 0 <= i < |cs| ==> Valid(DespecCases(cs)[i])) && MaxSize(DespecCases(cs), |cs|) < TWO_32
    ensures r.Ok? ==> r.value == MaxSize(DespecCases(cs), |cs|)
    decreases VariantT(cs), 0, 0
  {
    ghost var ss := DespecCases(cs);
    UnitLayout();
    hide Align, Size;
    var size: u32 := 0;
    for i := 0 to |cs|
      invariant forall j :: 0 <= j < i ==> Valid(ss[j])
      invariant size == MaxSize(ss, i)
    {
      var c := cs[i];
      assert ss[i] == DespecCase(c);
      CaseLayout(ss, |cs|, i);
      if c.Carrying? {
        assert c == Carrying(c.t);
        var n :- SizeUnchecked(c.t);
        size := if n > size then n else size;
      }
    }
    return Ok(size);
  }

  method SizeOption(e: Type) returns (r: Result<u32>)
    ensures IsSizeOf(r, Sum([Unit, Despec(e)]))
    decreases OptionT(e), 0
  {
    UnitLayout();
    TwoCasesSize(Unit, Despec(e));
    hide Align, Size, Valid, SumSize, Despec;
    var n :- SizeUnchecked(e);
    var a := AlignmentUnchecked(e);
    r := SumSize(1, a.value, n, a.value);
  }

  method SizeResult(ok: Case, err: Case) returns (r: Result<u32>)
    ensures IsSizeOf(r, Sum([DespecCase(ok), DespecCase(err)]))
    decreases ResultT(ok, err), 0
  {
    TwoCasesSize(DespecCase(ok), DespecCase(err));
    hide Align, Size, Valid, SumSize, Despec, DespecCase;
    var x :- PayloadLayout(ok);
    var y :- PayloadLayout(err);
    var size := if y.0 > x.0 then y.0 else x.0;
    var a := if y.1 > x.1 then y.1 else x.1;
    r := SumSize(1, a, size, a);
  }

  /** Size and alignment of one arm of a result. */
  method PayloadLayout(c: Case) returns (r: Result<(u32, u32)>)
    ensures r.Ok? <==> Valid(DespecCase(c)) && Size(DespecCase(c)) < TWO_32
    ensures r.Ok? ==> r.value == (Size(DespecCase(c)), Align(DespecCase(c)))
    decreases c, 0
  {
    if c.Empty? {
      UnitLayout();
      return Ok((0, 1));
    }
    var n :- SizeUnchecked(c.t);
    var a := AlignmentUnchecked(c.t);
    return Ok((n, a.value));
  }
}
