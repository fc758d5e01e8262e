/** The layout of the Canonical ABI outright, in plain arithmetic: the numbers for
    each type, and where padding goes. What `Shapes` defines by recursion, and
    `Layout` computes, is exactly this. */
module LayoutTable {
  import opened Base
  import opened Shapes
  import opened ShapeFacts
  import opened Values
  import opened Layout

  lemma PrimitiveLayout(p: Prim)
    ensures var s := Despec(PrimT(p));
      && (p == Bool || p == U8 || p == S8 ==> Size(s) == 1 == Align(s))
      && (p == U16 || p == S16 ==> Size(s) == 2 == Align(s))
      && (p == U32 || p == S32 || p == Float32 || p == Char || p == ErrorContext ==> Size(s) == 4 == Align(s))
      && (p == U64 || p == S64 || p == Float64 ==> Size(s) == 8 == Align(s))
      && (p == Str ==> Size(s) == 8 && Align(s) == 4)
      && Valid(s)
  {
  }

  lemma WordLayout(t: Type)
    ensures t.ListT? ==> Size(Despec(t)) == 8 && Align(Despec(t)) == 4 && Valid(Despec(t))
    ensures t.HandleT? ==> Size(Despec(t)) == 4 == Align(Despec(t)) && Valid(Despec(t))
    ensures t.FlagsT? ==> (Valid(Despec(t)) <==> 0 < t.labels <= 32)
    ensures t.FlagsT? && 0 < t.labels <= 32 ==>
      Size(Despec(t)) == Align(Despec(t)) == if t.labels <= 8 then 1 else if t.labels <= 16 then 2 else 4
    ensures t.EnumT? ==> (Valid(Despec(t)) <==> t.names > 0)
    ensures t.EnumT? ==>
      Size(Despec(t)) == Align(Despec(t)) == if t.names <= 0x100 then 1 else if t.names <= 0x1_0000 then 2 else 4
    ensures t.OtherT? ==> !Valid(Despec(t))
  {
    if t.EnumT? {
      EnumSize(t.names);
      UnitsLayout(t.names, t.names);
    }
  }

  /** The largest of the alignments, and at least 1. */
  lemma {:induction false} MaxAlignIs(ss: seq<Shape>, n: nat)
    requires n <= |ss|
    ensures forall i :: 0 <= i < n ==> Align(ss[i]) <= MaxAlign(ss, n)
    ensures MaxAlign(ss, n) == 1 || exists i :: 0 <= i < n && MaxAlign(ss, n) == Align(ss[i])
  {
    hide Align;
    if n > 0 {
      MaxAlignIs(ss, n - 1);
      NextAlign(ss, n);
    }
  }

  lemma NextAlign(ss: seq<Shape>, n: nat)
    requires 0 < n <= |ss|
    ensures var a, b := MaxAlign(ss, n - 1), Align(ss[n - 1]); MaxAlign(ss, n) == if a >= b then a else b
  {
  }

  lemma {:induction false} MaxSizeIs(ss: seq<Shape>, n: nat)
    requires n <= |ss|
    ensures forall i :: 0 <= i < n ==> Size(ss[i]) <= MaxSize(ss, n)
    ensures MaxSize(ss, n) == 0 || exists i :: 0 <= i < n && MaxSize(ss, n) == Size(ss[i])
  {
    hide Size;
    if n > 0 {
      MaxSizeIs(ss, n - 1);
      NextSize(ss, n);
    }
  }

  lemma NextSize(ss: seq<Shape>, n: nat)
    requires 0 < n <= |ss|
    ensures var a, b := MaxSize(ss, n - 1), Size(ss[n - 1]); MaxSize(ss, n) == if a >= b then a else b
  {
  }

  /** The next multiple: fewer than `a` bytes are skipped. */
  lemma Padded(x: nat, a: nat)
    requires IsAlignment(a)
    ensures x <= AlignUp(x, a) < x + a && AlignUp(x, a) % a == 0
  {
    AlignedIsMod(AlignUp(x, a), a);
  }

  lemma FieldLayout(fs: seq<Shape>, i: nat)
    requires i < |fs|
    ensures FieldsEnd(fs, i) <= FieldOffset(fs, i) < FieldsEnd(fs, i) + Align(fs[i])
    ensures FieldOffset(fs, i) % Align(fs[i]) == 0
  {
    hide Align, Size, AlignUp, Aligned, FieldsEnd, FieldOffset;
    FieldStarts(fs, i);
    Padded(FieldsEnd(fs, i), Align(fs[i]));
  }

  /** PRODUCTS. The first field is at the start; every other field is at the next
      multiple of its own alignment behind the field before it; the whole has the
      largest alignment, and is filled up to a multiple of it. */
  lemma ProductLayout(fs: seq<Shape>)
    ensures var a := Align(Product(fs));
      && (forall i :: 0 <= i < |fs| ==> Align(fs[i]) <= a)
      && (a == 1 || exists i :: 0 <= i < |fs| && a == Align(fs[i]))
    ensures fs == [] ==> Size(Product(fs)) == 0
    ensures fs != [] ==> FieldOffset(fs, 0) == 0
    ensures forall i :: 0 < i < |fs| ==> FieldOffset(fs, i) % Align(fs[i]) == 0
    ensures forall i :: 0 < i < |fs| ==>
      FieldOffset(fs, i - 1) + Size(fs[i - 1]) <= FieldOffset(fs, i)
        < FieldOffset(fs, i - 1) + Size(fs[i - 1]) + Align(fs[i])
    ensures fs != [] ==>
      var end, a := FieldOffset(fs, |fs| - 1) + Size(fs[|fs| - 1]), Align(Product(fs));
      end <= Size(Product(fs)) < end + a && Size(Product(fs)) % a == 0
  {
    hide Align, Size, AlignUp, Aligned, FieldsEnd, FieldOffset, MaxAlign;
    ProductIs(fs);
    MaxAlignIs(fs, |fs|);
    NoEnd(fs);
    if fs == [] {
      NothingUp(MaxAlign(fs, 0));
    } else {
      FieldStarts(fs, 0);
      NothingUp(Align(fs[0]));
      FieldEnds(fs, |fs| - 1);
      Padded(FieldsEnd(fs, |fs|), MaxAlign(fs, |fs|));
    }
    forall i | 0 < i < |fs|
      ensures FieldOffset(fs, i - 1) + Size(fs[i - 1]) <= FieldOffset(fs, i)
                < FieldOffset(fs, i - 1) + Size(fs[i - 1]) + Align(fs[i])
      ensures FieldOffset(fs, i) % Align(fs[i]) == 0
    {
      FieldEnds(fs, i - 1);
      FieldLayout(fs, i);
    }
  }

  lemma NothingUp(a: nat)
    requires IsAlignment(a)
    ensures AlignUp(0, a) == 0
  {
  }

  lemma ProductIs(fs: seq<Shape>)
    ensures Align(Product(fs)) == MaxAlign(fs, |fs|)
    ensures Size(Product(fs)) == AlignUp(FieldsEnd(fs, |fs|), MaxAlign(fs, |fs|))
  {
  }

  lemma FieldStarts(fs: seq<Shape>, i: nat)
    requires i < |fs|
    ensures FieldOffset(fs, i) == AlignUp(FieldsEnd(fs, i), Align(fs[i]))
  {
  }

  lemma FieldEnds(fs: seq<Shape>, i: nat)
    requires i < |fs|
    ensures FieldsEnd(fs, i + 1) == FieldOffset(fs, i) + Size(fs[i])
  {
  }

  lemma NoEnd(fs: seq<Shape>)
    ensures FieldsEnd(fs, 0) == 0
  {
  }

  /** SUMS. The discriminant has the fewest of 1, 2 and 4 bytes that can tell the
      cases apart and stands first; the payload stands at the next multiple of
      the largest alignment of a case; the whole has the larger of both
      alignments, has room for every case, and is filled up to a multiple. */
  lemma SumLayout(cs: seq<Shape>)
    ensures DiscBytes(|cs|) == if |cs| <= 256 then 1 else if |cs| <= 65536 then 2 else 4
    ensures var m := MaxAlign(cs, |cs|);
      && (forall i :: 0 <= i < |cs| ==> Align(cs[i]) <= m) && (m == 1 || exists i :: 0 <= i < |cs| && m == Align(cs[i]))
      && DiscBytes(|cs|) <= PayloadOffset(cs) < DiscBytes(|cs|) + m && PayloadOffset(cs) % m == 0
      && Align(Sum(cs)) == if m >= DiscBytes(|cs|) then m else DiscBytes(|cs|)
    ensures var n, a := MaxSize(cs, |cs|), Align(Sum(cs));
      && (forall i :: 0 <= i < |cs| ==> Size(cs[i]) <= n) && (n == 0 || exists i :: 0 <= i < |cs| && n == Size(cs[i]))
      && PayloadOffset(cs) + n <= Size(Sum(cs)) < PayloadOffset(cs) + n + a && Size(Sum(cs)) % a == 0
  {
    hide Size, AlignUp, Aligned, MaxAlign, MaxSize;
    MaxAlignIs(cs, |cs|);
    MaxSizeIs(cs, |cs|);
    Padded(DiscBytes(|cs|), MaxAlign(cs, |cs|));
    Padded(PayloadOffset(cs) + MaxSize(cs, |cs|), Align(Sum(cs)));
    SizeOfSum(cs);
  }

  /** Elements stand one behind the other, without gaps. */
  lemma ElementLayout(elem: Shape, n: nat)
    ensures ElemsSize(elem, n) == n * Size(elem)
  {
    ElemsSizeIsProduct(elem, n);
  }

  /** Records and tuples keep the order of their fields, variants that of their
      cases; the special sums have their cases in the order of their discriminants. */
  lemma Despecialised(t: Type)
    ensures t.RecordT? ==> Despec(t).Product? && |Despec(t).fields| == |t.fields|
    ensures t.RecordT? ==> forall i :: 0 <= i < |t.fields| ==> Despec(t).fields[i] == Despec(t.fields[i])
    ensures t.TupleT? ==> Despec(t).Product? && |Despec(t).fields| == |t.elems|
    ensures t.TupleT? ==> forall i :: 0 <= i < |t.elems| ==> Despec(t).fields[i] == Despec(t.elems[i])
    ensures t.VariantT? ==> Despec(t).Sum? && |Despec(t).cases| == |t.cases|
    ensures t.VariantT? ==> forall i :: 0 <= i < |t.cases| ==>
      Despec(t).cases[i] == if t.cases[i].Empty? then Product([]) else Despec(t.cases[i].t)
    ensures t.OptionT? ==> Despec(t) == Sum([Product([]), Despec(t.some)])
    ensures t.ResultT? ==>
      && Despec(t).Sum? && |Despec(t).cases| == 2
      && Despec(t).cases[0] == (if t.ok.Empty? then Product([]) else Despec(t.ok.t))
      && Despec(t).cases[1] == (if t.err.Empty? then Product([]) else Despec(t.err.t))
    ensures t.EnumT? ==> Despec(t).Sum? && |Despec(t).cases| == t.names
    ensures t.EnumT? ==> forall i :: 0 <= i < t.names ==> Despec(t).cases[i] == Product([])
  {
    if t.VariantT? {
      forall i | 0 <= i < |t.cases|
        ensures Despec(t).cases[i] == if t.cases[i].Empty? then Product([]) else Despec(t.cases[i].t)
      {
        assert Despec(t).cases[i] == DespecCase(t.cases[i]);
      }
    }
  }
}
