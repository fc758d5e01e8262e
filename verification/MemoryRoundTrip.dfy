/** The memory round trip: loading what was stored gives the value back,
    through any nesting of records, variants, lists and text. */
module MemoryRoundTrip {
  import opened Base
  import opened Shapes
  import opened ShapeFacts
  import opened Memory
  import opened MemoryFacts
  import Utf8

  // ---- bytes ----

  lemma LittleEndian4(n: nat)
    requires n < TWO_32
    ensures FromLittleEndian(LittleEndian(4, n)) == n
  {
    LittleEndianLow(4, n);
  }

  /** Memory that agrees with the poked bytes reads them back. */
  lemma PeekPoked(st: State, p: nat, bs: bytes, m: bytes)
    requires Poke(st, p, bs).Ok?
    requires AgreeOn(Poke(st, p, bs).value.mem, m, p, |bs|)
    ensures Peek(m, p, |bs|) == Ok(bs)
  {
    var m1 := Poke(st, p, bs).value.mem;
    assert m1[p..p + |bs|] == bs;
    assert m[p..p + |bs|] == m1[p..p + |bs|];
  }

  lemma PeekPair(st: State, p: nat, q: nat, n: nat, m: bytes)
    requires q < TWO_32 && n < TWO_32
    requires Poke(st, p, LittleEndian(4, q) + LittleEndian(4, n)).Ok?
    requires AgreeOn(Poke(st, p, LittleEndian(4, q) + LittleEndian(4, n)).value.mem, m, p, 8)
    ensures Peek(m, p, 4).Ok? && FromLittleEndian(Peek(m, p, 4).value) == q
    ensures Peek(m, p + 4, 4).Ok? && FromLittleEndian(Peek(m, p + 4, 4).value) == n
  {
    var a, b := LittleEndian(4, q), LittleEndian(4, n);
    PeekPoked(st, p, a + b, m);
    SplitSlice(m, p, a, b);
    LittleEndian4(q);
    LittleEndian4(n);
  }

  lemma SplitSlice(m: bytes, p: nat, a: bytes, b: bytes)
    requires InRange(m, p, |a| + |b|) && m[p..p + (|a| + |b|)] == a + b
    ensures m[p..p + |a|] == a && m[p + |a|..p + |a| + |b|] == b
  {
    var s := m[p..p + (|a| + |b|)];
    assert m[p..p + |a|] == s[..|a|];
    assert m[p + |a|..p + |a| + |b|] == s[|a|..];
  }

  lemma DiscRoundTrip(n: nat, d: nat)
    requires d < n < TWO_32
    ensures FromLittleEndian(LittleEndian(DiscBytes(n), d)) == d
  {
    LittleEndianLow(DiscBytes(n), d);
  }

  lemma ReadScalarKept(l: Scalar, n: nat)
    requires Accepts(l, n)
    ensures FromLittleEndian(LittleEndian(ScalarBytes(l), n)) == Kept(InMemory, l, n)
    ensures ReadScalar(l, Kept(InMemory, l, n)) == Ok(Kept(InMemory, l, n))
  {
    LittleEndianLow(ScalarBytes(l), n);
  }

  // ---- the round trip ----

  /** Loading from any memory that holds the stored value gives `Readback`. */
  lemma {:induction false} StoreLoad(st: State, p: nat, s: Shape, x: Sem, sb: State, m: bytes)
    requires Valid(s) && Aligned(p, Align(s)) && Store(st, p, s, x) == Ok(sb)
    requires Holds(m, st.heap, sb, p, Size(s))
    ensures Load(m, p, s) == Readback(InMemory, s, x)
    decreases s, 0
  {
    match s
    case Leaf(l) =>
      PeekPoked(st, p, LittleEndian(ScalarBytes(l), x.n), m);
      ReadScalarKept(l, x.n);
    case Text => TextRoundTrip(st, p, x.bs, sb, m);
    case List(elem) => ListRoundTrip(st, p, elem, x.elems, sb, m);
    case Product(fs) =>
      LaterHolds(m, st.heap, st.heap, sb, p, Size(s), p, FieldsEnd(fs, |fs|));
      FieldsRoundTrip(st, p, fs, x.fields, |fs|, sb, m);
    case Sum(cs) =>
      PayloadInside(cs, x.disc, p);
      DiscRoundTrip(|cs|, x.disc);
      SumRoundTrip(st, p, DiscBytes(|cs|), PayloadOffset(cs), cs, x.disc, x.payload, Size(s), sb, m);
  }

  /** Some values in the n bytes at `p`, stored first, and a value further on. */
  lemma {:induction false} NextRoundTrip(st: State, sa: State, p: nat, n: nat, at: nat, s: Shape, x: Sem,
                                         size: nat, sb: State, m: bytes)
    requires Valid(s) && Aligned(at, Align(s)) && p + n <= at && at + Size(s) <= p + size
    requires OnlyChanges(st, sa, p, n) && Store(sa, at, s, x) == Ok(sb) && Holds(m, st.heap, sb, p, size)
    ensures Holds(m, st.heap, sa, p, n)
    ensures Load(m, at, s) == Readback(InMemory, s, x)
    decreases s, 1
  {
    StoreChanges(sa, at, s, x, sb);
    EarlierHolds(m, st.heap, sa, sb, at, Size(s), p, size, p, n);
    LaterHolds(m, st.heap, sa.heap, sb, p, size, at, Size(s));
    StoreLoad(sa, at, s, x, sb, m);
  }

  lemma {:induction false} SumRoundTrip(st: State, p: nat, b: nat, off: nat, cs: seq<Shape>, d: nat, x: Sem,
                                        size: nat, sb: State, m: bytes)
    requires d < |cs| && Valid(cs[d]) && Aligned(p + off, Align(cs[d]))
    requires b <= off && off + Size(cs[d]) <= size
    requires FromLittleEndian(LittleEndian(b, d)) == d
    requires StoreSum(st, p, b, off, cs, d, x) == Ok(sb) && Holds(m, st.heap, sb, p, size)
    ensures LoadSum(m, p, b, off, cs) == ReadbackSum(InMemory, cs, d, x)
    decreases cs, 0
  {
    PokeChanges(st, p, LittleEndian(b, d));
    NextRoundTrip(st, Poke(st, p, LittleEndian(b, d)).value, p, b, p + off, cs[d], x, size, sb, m);
    PeekPoked(st, p, LittleEndian(b, d), m);
  }

  lemma {:induction false} FieldsRoundTrip(st: State, p: nat, fs: seq<Shape>, xs: seq<Sem>, n: nat, sb: State, m: bytes)
    requires n <= |fs| == |xs| && Valid(Product(fs)) && Aligned(p, Align(Product(fs)))
    requires StoreFields(st, p, fs, xs, n) == Ok(sb) && Holds(m, st.heap, sb, p, FieldsEnd(fs, n))
    ensures LoadFields(m, p, fs, n) == ReadbackFields(InMemory, fs, xs, n)
    decreases fs, 0, n, 1
  {
    hide Store, Load, Readback, Holds, Align, Size, Aligned, AlignUp, Valid;
    if n > 0 {
      var sa := StoreFields(st, p, fs, xs, n - 1).value;
      LastFieldRoundTrip(st, p, fs, xs, n, sa, sb, m);
      FieldsRoundTrip(st, p, fs, xs, n - 1, sa, m);
    }
  }

  lemma {:induction false} LastFieldRoundTrip(st: State, p: nat, fs: seq<Shape>, xs: seq<Sem>, n: nat, sa: State,
                                              sb: State, m: bytes)
    requires 0 < n <= |fs| == |xs| && Valid(Product(fs)) && Aligned(p, Align(Product(fs)))
    requires StoreFields(st, p, fs, xs, n - 1) == Ok(sa)
    requires Store(sa, p + FieldOffset(fs, n - 1), fs[n - 1], xs[n - 1]) == Ok(sb)
      && Holds(m, st.heap, sb, p, FieldsEnd(fs, n))
    ensures Holds(m, st.heap, sa, p, FieldsEnd(fs, n - 1))
    ensures Load(m, p + FieldOffset(fs, n - 1), fs[n - 1]) == Readback(InMemory, fs[n - 1], xs[n - 1])
    decreases fs, 0, n, 0
  {
    hide Store, StoreFields, Load, Readback, Holds, OnlyChanges, Align, Size, Aligned, AlignUp;
    FieldInside(fs, n - 1, p);
    StoreFieldsChanges(st, p, fs, xs, n - 1, sa);
    NextRoundTrip(st, sa, p, FieldsEnd(fs, n - 1), p + FieldOffset(fs, n - 1), fs[n - 1], xs[n - 1], FieldsEnd(fs, n),
      sb, m);
  }

  lemma {:induction false} ElemsRoundTrip(st: State, p: nat, elem: Shape, xs: seq<Sem>, n: nat, sb: State, m: bytes)
    requires n <= |xs| && Valid(elem) && Aligned(p, Align(elem))
    requires StoreElems(st, p, elem, xs, n) == Ok(sb) && Holds(m, st.heap, sb, p, ElemsSize(elem, n))
    ensures LoadElems(m, p, elem, n) == ReadbackElems(elem, xs, n)
    decreases elem, 2, n, 1
  {
    hide Store, Load, Readback, Holds, Align, Size, Aligned, AlignUp, Valid;
    if n > 0 {
      var sa := StoreElems(st, p, elem, xs, n - 1).value;
      LastElemRoundTrip(st, p, elem, xs, n, sa, sb, m);
      ElemsRoundTrip(st, p, elem, xs, n - 1, sa, m);
    }
  }

  lemma {:induction false} LastElemRoundTrip(st: State, p: nat, elem: Shape, xs: seq<Sem>, n: nat, sa: State,
                                             sb: State, m: bytes)
    requires 0 < n <= |xs| && Valid(elem) && Aligned(p, Align(elem))
    requires StoreElems(st, p, elem, xs, n - 1) == Ok(sa)
    requires Store(sa, p + ElemsSize(elem, n - 1), elem, xs[n - 1]) == Ok(sb)
      && Holds(m, st.heap, sb, p, ElemsSize(elem, n))
    ensures Holds(m, st.heap, sa, p, ElemsSize(elem, n - 1))
    ensures Load(m, p + ElemsSize(elem, n - 1), elem) == Readback(InMemory, elem, xs[n - 1])
    decreases elem, 2, n, 0
  {
    hide Store, StoreElems, Load, Readback, Holds, OnlyChanges, Align, Size, Aligned, AlignUp, Valid;
    ElemAligned(p, elem, n - 1);
    StoreElemsChanges(st, p, elem, xs, n - 1, sa);
    NextRoundTrip(st, sa, p, ElemsSize(elem, n - 1), p + ElemsSize(elem, n - 1), elem, xs[n - 1], ElemsSize(elem, n),
      sb, m);
  }

  /** Text placed in a block is found there. */
  lemma PlacedText(st: State, bs: bytes, q: nat, sb: State, m: bytes)
    requires PlaceText(st, bs) == Ok((q, sb)) && Holds(m, st.heap, sb, 0, 0)
    ensures LoadText(m, q, |bs|) == Readback(InMemory, Text, SText(bs))
  {
    PlaceTextChanges(st, bs, q, sb);
    assert sb.heap.blocks[|st.heap.blocks|] == Block(q, 1, |bs|);
    assert AgreeOn(sb.mem, m, q, |bs|);
    assert m[q..q + |bs|] == sb.mem[q..q + |bs|] == bs;
  }

  /** A list placed in a block is found there. */
  lemma {:induction false} PlacedList(st: State, elem: Shape, xs: seq<Sem>, q: nat, sb: State, m: bytes)
    requires PlaceList(st, elem, xs) == Ok((q, sb)) && Holds(m, st.heap, sb, 0, 0)
    ensures LoadList(m, q, |xs|, elem) == ReadbackList(elem, xs)
    decreases elem, 3
  {
    var size := ElemsSize(elem, |xs|);
    var sa := st.(heap := Grow(st.heap, Align(elem), size).value.1);
    PlaceListChanges(st, elem, xs, q, sb);
    StoreElemsChanges(sa, q, elem, xs, |xs|, sb);
    assert AgreeOn(sb.mem, m, q, size);
    assert Holds(m, sa.heap, sb, q, size);
    ElemsRoundTrip(sa, q, elem, xs, |xs|, sb, m);
  }

  lemma TextRoundTrip(st: State, p: nat, bs: bytes, sb: State, m: bytes)
    requires StoreText(st, p, bs) == Ok(sb) && Holds(m, st.heap, sb, p, 8)
    ensures LoadTextRef(m, p) == Readback(InMemory, Text, SText(bs))
  {
    var (q, sa) := PlaceText(st, bs).value;
    PlaceTextChanges(st, bs, q, sa);
    PairRoundTrip(st.heap, sa, p, q, |bs|, sb, m);
    PlacedText(st, bs, q, sa, m);
  }

  lemma {:induction false} ListRoundTrip(st: State, p: nat, elem: Shape, xs: seq<Sem>, sb: State, m: bytes)
    requires StoreList(st, p, elem, xs) == Ok(sb) && Holds(m, st.heap, sb, p, 8)
    ensures LoadListRef(m, p, elem) == ReadbackList(elem, xs)
    decreases elem, 4
  {
    var (q, sa) := PlaceList(st, elem, xs).value;
    PlaceListChanges(st, elem, xs, q, sa);
    PairRoundTrip(st.heap, sa, p, q, |xs|, sb, m);
    PlacedList(st, elem, xs, q, sa, m);
  }

  /** The pointer and the length are found, and writing them spoiled no block. */
  lemma PairRoundTrip(h: Heap, sa: State, p: nat, q: nat, n: nat, sb: State, m: bytes)
    requires q < TWO_32 && n < TWO_32 && h.blocks <= sa.heap.blocks
    requires Poke(sa, p, LittleEndian(4, q) + LittleEndian(4, n)) == Ok(sb) && Holds(m, h, sb, p, 8)
    ensures Peek(m, p, 4).Ok? && FromLittleEndian(Peek(m, p, 4).value) == q
    ensures Peek(m, p + 4, 4).Ok? && FromLittleEndian(Peek(m, p + 4, 4).value) == n
    ensures Holds(m, h, sa, 0, 0)
  {
    PokeChanges(sa, p, LittleEndian(4, q) + LittleEndian(4, n));
    EarlierHolds(m, h, sa, sb, p, 8, p, 8, p, 0);
    PeekPair(sa, p, q, n, m);
  }

  /** THE MEMORY ROUND TRIP. Whenever `StoreAt` succeeds and the allocator kept
      its contract, `LoadAt` at the same address gives `Readback`. */
  lemma StoreAtLoadAt(st: State, p: nat, s: Shape, x: Sem, sb: State)
    requires StoreAt(st, p, s, x) == Ok(sb) && Separated(st.heap, sb.heap, p, Size(s))
    ensures LoadAt(sb.mem, p, s) == Readback(InMemory, s, x)
  {
    StoreChanges(st, p, s, x, sb);
    StoreLoad(st, p, s, x, sb, sb.mem);
  }
}
