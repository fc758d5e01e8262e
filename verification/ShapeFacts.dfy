/** Arithmetic of the reference layout. */
module ShapeFacts {
  import opened Base
  import opened Shapes

  lemma {:induction false} AlignedIsMod(p: nat, a: nat)
    requires IsAlignment(a)
    ensures Aligned(p, a) <==> p % a == 0
  {
    if p >= a {
      AlignedIsMod(p - a, a);
      ModUnique(p, a, (p - a) / a + 1, (p - a) % a);
    }
  }

  /** Two aligned numbers less than `a` apart are in order. */
  lemma {:induction false} AlignedGap(x: nat, y: nat, a: nat)
    requires IsAlignment(a) && Aligned(x, a) && Aligned(y, a) && x < y + a
    ensures x <= y
  {
    if x > 0 && y > 0 {
      AlignedGap(x - a, y - a, a);
    }
  }

  /** `AlignUp` is the least aligned address at or above `x`. */
  lemma AlignUpLeast(x: nat, a: nat, y: nat)
    requires IsAlignment(a) && x <= y && Aligned(y, a)
    ensures AlignUp(x, a) <= y
  {
    AlignedGap(AlignUp(x, a), y, a);
  }

  lemma {:induction false} SumAligned(x: nat, y: nat, a: nat)
    requires IsAlignment(a) && Aligned(x, a) && Aligned(y, a)
    ensures Aligned(x + y, a)
  {
    if x > 0 {
      SumAligned(x - a, y, a);
    }
  }

  /** A smaller alignment divides a larger one. */
  lemma {:induction false} Divides(a: nat, b: nat, x: nat)
    requires IsAlignment(a) && IsAlignment(b) && a <= b && Aligned(x, b)
    ensures Aligned(x, a)
  {
    if x > 0 {
      Divides(a, b, x - b);
      AlignedIsMod(b, a);
      SumAligned(b, x - b, a);
    }
  }

  /** Aligning an absolute address is aligning the offset from an aligned base. */
  lemma {:induction false} AlignShift(base: nat, off: nat, a: nat)
    requires IsAlignment(a) && Aligned(base, a)
    ensures AlignUp(base + off, a) == base + AlignUp(off, a)
  {
    SumAligned(base, AlignUp(off, a), a);
    AlignUpLeast(base + off, a, base + AlignUp(off, a));
    AlignedGap(base + AlignUp(off, a), AlignUp(base + off, a), a);
  }

  /** Every size is a multiple of its alignment. */
  lemma SizeAligned(s: Shape)
    ensures Aligned(Size(s), Align(s))
  {
  }

  lemma {:induction false} CaseLayout(cs: seq<Shape>, n: nat, d: nat)
    requires d < n <= |cs|
    ensures Align(cs[d]) <= MaxAlign(cs, n)
    ensures Size(cs[d]) <= MaxSize(cs, n)
  {
    if d < n - 1 {
      CaseLayout(cs, n - 1, d);
    }
  }

  /** A payload lies inside the sum, after its discriminant, and is aligned. */
  lemma PayloadInside(cs: seq<Shape>, d: nat, p: nat)
    requires d < |cs| && Aligned(p, Align(Sum(cs)))
    ensures DiscBytes(|cs|) <= PayloadOffset(cs)
    ensures PayloadOffset(cs) + Size(cs[d]) <= Size(Sum(cs))
    ensures Aligned(p + PayloadOffset(cs), Align(cs[d]))
  {
    CaseLayout(cs, |cs|, d);
    Divides(Align(cs[d]), Align(Sum(cs)), p);
    Divides(Align(cs[d]), MaxAlign(cs, |cs|), PayloadOffset(cs));
    SumAligned(p, PayloadOffset(cs), Align(cs[d]));
  }

  lemma {:induction false} FieldsEndGrows(fs: seq<Shape>, i: nat, n: nat)
    requires i <= n <= |fs|
    ensures FieldsEnd(fs, i) <= FieldsEnd(fs, n)
    decreases n
  {
    if i < n {
      FieldsEndGrows(fs, i, n - 1);
    }
  }

  lemma FieldPlaced(fs: seq<Shape>, i: nat)
    requires i < |fs|
    ensures FieldsEnd(fs, i) <= FieldOffset(fs, i) && FieldsEnd(fs, i + 1) == FieldOffset(fs, i) + Size(fs[i])
    ensures FieldsEnd(fs, |fs|) <= Size(Product(fs)) && Align(Product(fs)) == MaxAlign(fs, |fs|)
  {
    hide Aligned;
  }

  /** A field lies after the ones before it, inside the product, and is aligned. */
  lemma FieldInside(fs: seq<Shape>, i: nat, p: nat)
    requires i < |fs| && Aligned(p, Align(Product(fs)))
    ensures FieldsEnd(fs, i) <= FieldOffset(fs, i)
    ensures FieldOffset(fs, i) + Size(fs[i]) == FieldsEnd(fs, i + 1) <= Size(Product(fs))
    ensures Aligned(p + FieldOffset(fs, i), Align(fs[i]))
  {
    hide Aligned, AlignUp, FieldsEnd, Size, Align, MaxAlign;
    FieldPlaced(fs, i);
    FieldsEndGrows(fs, i + 1, |fs|);
    CaseLayout(fs, |fs|, i);
    Divides(Align(fs[i]), Align(Product(fs)), p);
    SumAligned(p, FieldOffset(fs, i), Align(fs[i]));
  }

  /** Consecutive elements are aligned if the first is. */
  lemma {:induction false} ElemAligned(p: nat, elem: Shape, n: nat)
    requires Aligned(p, Align(elem))
    ensures Aligned(p + ElemsSize(elem, n), Align(elem))
  {
    if n > 0 {
      ElemAligned(p, elem, n - 1);
      SizeAligned(elem);
      SumAligned(p + ElemsSize(elem, n - 1), Size(elem), Align(elem));
    }
  }

  lemma {:induction false} ElemsSizeIsProduct(elem: Shape, n: nat)
    ensures ElemsSize(elem, n) == n * Size(elem)
  {
    if n > 0 {
      ElemsSizeIsProduct(elem, n - 1);
      assert n * Size(elem) == (n - 1) * Size(elem) + Size(elem);
    }
  }
}
