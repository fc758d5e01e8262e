/** What `Store` leaves alone and what `Load` depends on: the facts that the
    round trip in `MemoryRoundTrip` is made of. */
module MemoryFacts {
  import opened Base
  import opened Shapes
  import opened ShapeFacts
  import opened Memory
  import Utf8

  // ---- regions ----

  predicate InBlock(b: Block, i: int) {
    b.ptr <= i < b.ptr + b.size
  }

  predicate Apart(p: nat, n: nat, q: nat, k: nat) {
    n == 0 || k == 0 || p + n <= q || q + k <= p
  }

  /** Address `i` is in no block granted between `h0` and `h1`. */
  predicate Spared(h0: Heap, h1: Heap, i: int) {
    forall k :: |h0.blocks| <= k < |h1.blocks| ==> !InBlock(h1.blocks[k], i)
  }

  /** The allocator's contract: the blocks granted between `h0` and `h1` do not
      overlap each other or the region at `p`. */
  predicate Separated(h0: Heap, h1: Heap, p: nat, n: nat) {
    && (forall k :: |h0.blocks| <= k < |h1.blocks| ==> Apart(h1.blocks[k].ptr, h1.blocks[k].size, p, n))
    && (forall k, j :: |h0.blocks| <= k < j < |h1.blocks| ==>
          Apart(h1.blocks[k].ptr, h1.blocks[k].size, h1.blocks[j].ptr, h1.blocks[j].size))
  }

  predicate AgreeOn(m: bytes, m': bytes, p: nat, n: nat) {
    |m| == |m'| && forall i :: p <= i < p + n && i < |m| ==> m[i] == m'[i]
  }

  predicate AgreeOnBlocks(m: bytes, m': bytes, h0: Heap, h1: Heap) {
    |m| == |m'| && forall k :: |h0.blocks| <= k < |h1.blocks| ==> AgreeOn(m, m', h1.blocks[k].ptr, h1.blocks[k].size)
  }

  /** From `st` to `st'` only the n bytes at `p` and the new blocks changed. */
  predicate OnlyChanges(st: State, st': State, p: nat, n: nat) {
    && |st.mem| == |st'.mem|
    && st.heap.blocks <= st'.heap.blocks
    && forall i: nat :: i < |st.mem| && !(p <= i < p + n) && Spared(st.heap, st'.heap, i) ==> st'.mem[i] == st.mem[i]
  }

  lemma ChangesCompose(sa: State, sb: State, sc: State, p: nat, n: nat, q: nat, k: nat, r: nat, size: nat)
    requires OnlyChanges(sa, sb, p, n) && OnlyChanges(sb, sc, q, k)
    requires n == 0 || (r <= p && p + n <= r + size)
    requires k == 0 || (r <= q && q + k <= r + size)
    ensures OnlyChanges(sa, sc, r, size)
  {
    forall i: nat | i < |sa.mem| && !(r <= i < r + size) && Spared(sa.heap, sc.heap, i)
      ensures sc.mem[i] == sa.mem[i]
    {
      forall b | |sa.heap.blocks| <= b < |sb.heap.blocks| ensures !InBlock(sb.heap.blocks[b], i) {
        assert sb.heap.blocks[b] == sc.heap.blocks[b];
      }
      assert Spared(sb.heap, sc.heap, i);
    }
  }

  // ---- frame: a store changes its own region and the new blocks only ----

  lemma PokeChanges(st: State, p: nat, bs: bytes)
    requires Poke(st, p, bs).Ok?
    ensures OnlyChanges(st, Poke(st, p, bs).value, p, |bs|)
  {
  }

  lemma {:induction false} StoreChanges(st: State, p: nat, s: Shape, x: Sem, sb: State)
    requires Valid(s) && Aligned(p, Align(s)) && Store(st, p, s, x) == Ok(sb)
    ensures OnlyChanges(st, sb, p, Size(s))
    decreases s, 0
  {
    match s
    case Leaf(l) => PokeChanges(st, p, LittleEndian(ScalarBytes(l), x.n));
    case Text => StoreTextChanges(st, p, x.bs, sb);
    case List(elem) => StoreListChanges(st, p, elem, x.elems, sb);
    case Product(fs) =>
      StoreFieldsChanges(st, p, fs, x.fields, |fs|, sb);
      ChangesCompose(st, st, sb, p, 0, p, FieldsEnd(fs, |fs|), p, Size(s));
    case Sum(cs) =>
      PayloadInside(cs, x.disc, p);
      StoreSumChanges(st, p, DiscBytes(|cs|), PayloadOffset(cs), cs, x.disc, x.payload, Size(s), sb);
  }

  /** One more value stored after a step that changed the n bytes at `p`. */
  lemma {:induction false} NextChanges(st: State, sa: State, p: nat, n: nat, at: nat, s: Shape, x: Sem, size: nat,
                                       sb: State)
    requires OnlyChanges(st, sa, p, n) && Valid(s) && Aligned(at, Align(s)) && Store(sa, at, s, x) == Ok(sb)
    requires p + n <= at && at + Size(s) <= p + size
    ensures OnlyChanges(st, sb, p, size)
    decreases s, 1
  {
    StoreChanges(sa, at, s, x, sb);
    ChangesCompose(st, sa, sb, p, n, at, Size(s), p, size);
  }

  lemma {:induction false} StoreSumChanges(st: State, p: nat, b: nat, off: nat, cs: seq<Shape>, d: nat, x: Sem,
                                           size: nat, sb: State)
    requires d < |cs| && Valid(cs[d]) && Aligned(p + off, Align(cs[d]))
    requires b <= off && off + Size(cs[d]) <= size
    requires StoreSum(st, p, b, off, cs, d, x) == Ok(sb)
    ensures OnlyChanges(st, sb, p, size)
    decreases cs, 0
  {
    PokeChanges(st, p, LittleEndian(b, d));
    NextChanges(st, Poke(st, p, LittleEndian(b, d)).value, p, b, p + off, cs[d], x, size, sb);
  }

  lemma NothingChanges(st: State, p: nat)
    ensures OnlyChanges(st, st, p, 0)
  {
  }

  lemma {:induction false} StoreFieldsChanges(st: State, p: nat, fs: seq<Shape>, xs: seq<Sem>, n: nat, sb: State)
    requires n <= |fs| == |xs| && Valid(Product(fs)) && Aligned(p, Align(Product(fs)))
    requires StoreFields(st, p, fs, xs, n) == Ok(sb)
    ensures OnlyChanges(st, sb, p, FieldsEnd(fs, n))
    decreases fs, 0, n
  {
    hide StoreScalar, StoreText, OnlyChanges, Align, Size, Aligned, AlignUp;
    if n == 0 {
      NothingChanges(st, p);
    } else {
      var sa := StoreFields(st, p, fs, xs, n - 1).value;
      FieldInside(fs, n - 1, p);
      StoreFieldsChanges(st, p, fs, xs, n - 1, sa);
      NextChanges(st, sa, p, FieldsEnd(fs, n - 1), p + FieldOffset(fs, n - 1), fs[n - 1], xs[n - 1], FieldsEnd(fs, n),
        sb);
    }
  }

  lemma {:induction false} StoreElemsChanges(st: State, p: nat, elem: Shape, xs: seq<Sem>, n: nat, sb: State)
    requires n <= |xs| && Valid(elem) && Aligned(p, Align(elem)) && StoreElems(st, p, elem, xs, n) == Ok(sb)
    ensures OnlyChanges(st, sb, p, ElemsSize(elem, n))
    decreases elem, 2, n
  {
    hide StoreScalar, StoreText, OnlyChanges, Align, Size, Aligned, AlignUp, Valid;
    if n == 0 {
      NothingChanges(st, p);
    } else {
      var sa := StoreElems(st, p, elem, xs, n - 1).value;
      ElemAligned(p, elem, n - 1);
      StoreElemsChanges(st, p, elem, xs, n - 1, sa);
      NextChanges(st, sa, p, ElemsSize(elem, n - 1), p + ElemsSize(elem, n - 1), elem, xs[n - 1], ElemsSize(elem, n),
        sb);
    }
  }

  lemma PlaceTextChanges(st: State, bs: bytes, q: nat, sb: State)
    requires PlaceText(st, bs) == Ok((q, sb))
    ensures OnlyChanges(st, sb, 0, 0)
    ensures sb.heap.blocks == st.heap.blocks + [Block(q, 1, |bs|)]
  {
    forall i: nat | i < |st.mem| && Spared(st.heap, sb.heap, i) ensures sb.mem[i] == st.mem[i] {
      assert !InBlock(sb.heap.blocks[|st.heap.blocks|], i);
    }
  }

  lemma {:induction false} PlaceListChanges(st: State, elem: Shape, xs: seq<Sem>, q: nat, sb: State)
    requires PlaceList(st, elem, xs) == Ok((q, sb))
    ensures OnlyChanges(st, sb, 0, 0)
    ensures |st.heap.blocks| < |sb.heap.blocks|
    ensures sb.heap.blocks[|st.heap.blocks|] == Block(q, Align(elem), ElemsSize(elem, |xs|))
    decreases elem, 3
  {
    var sa := st.(heap := Grow(st.heap, Align(elem), ElemsSize(elem, |xs|)).value.1);
    StoreElemsChanges(sa, q, elem, xs, |xs|, sb);
    assert sa.heap.blocks[|st.heap.blocks|] == sb.heap.blocks[|st.heap.blocks|];
    forall i: nat | i < |st.mem| && Spared(st.heap, sb.heap, i) ensures sb.mem[i] == st.mem[i] {
      assert !InBlock(sb.heap.blocks[|st.heap.blocks|], i);
      assert Spared(sa.heap, sb.heap, i);
    }
  }

  lemma StoreTextChanges(st: State, p: nat, bs: bytes, sb: State)
    requires StoreText(st, p, bs) == Ok(sb)
    ensures OnlyChanges(st, sb, p, 8)
  {
    var (q, sa) := PlaceText(st, bs).value;
    PlaceTextChanges(st, bs, q, sa);
    PokeChanges(sa, p, LittleEndian(4, q) + LittleEndian(4, |bs|));
    ChangesCompose(st, sa, sb, 0, 0, p, 8, p, 8);
  }

  lemma {:induction false} StoreListChanges(st: State, p: nat, elem: Shape, xs: seq<Sem>, sb: State)
    requires StoreList(st, p, elem, xs) == Ok(sb)
    ensures OnlyChanges(st, sb, p, 8)
    decreases elem, 4
  {
    var (q, sa) := PlaceList(st, elem, xs).value;
    PlaceListChanges(st, elem, xs, q, sa);
    PokeChanges(sa, p, LittleEndian(4, q) + LittleEndian(4, |xs|));
    ChangesCompose(st, sa, sb, 0, 0, p, 8, p, 8);
  }

  // ---- memory that still holds a stored value ----

  /** Memory `m` holds what was stored between heap `h` and state `st` in the n
      bytes at `p`: it agrees with `st` there and on the new blocks, which do
      not overlap. */
  predicate Holds(m: bytes, h: Heap, st: State, p: nat, n: nat) {
    && h.blocks <= st.heap.blocks
    && Separated(h, st.heap, p, n)
    && AgreeOn(st.mem, m, p, n)
    && AgreeOnBlocks(st.mem, m, h, st.heap)
  }

  /** If the whole holds after a step from `sa` to `sb` that changes only the
      n bytes at `lo`, then an earlier part, apart from those, held before it. */
  lemma EarlierHolds(m: bytes, h: Heap, sa: State, sb: State, lo: nat, n: nat, p: nat, size: nat, q: nat, k: nat)
    requires h.blocks <= sa.heap.blocks && OnlyChanges(sa, sb, lo, n) && Holds(m, h, sb, p, size)
    requires p <= lo && lo + n <= p + size && p <= q && q + k <= p + size && Apart(q, k, lo, n)
    ensures Holds(m, h, sa, q, k)
  {
    forall i | q <= i < q + k && i < |m| ensures sa.mem[i] == m[i] {
      assert Spared(sa.heap, sb.heap, i);
    }
    forall b | |h.blocks| <= b < |sa.heap.blocks|
      ensures AgreeOn(sa.mem, m, sa.heap.blocks[b].ptr, sa.heap.blocks[b].size)
    {
      var block := sb.heap.blocks[b];
      assert block == sa.heap.blocks[b];
      assert AgreeOn(sb.mem, m, block.ptr, block.size);
      forall i | block.ptr <= i < block.ptr + block.size && i < |m| ensures sa.mem[i] == m[i] {
        assert Apart(block.ptr, block.size, p, size);
        assert Spared(sa.heap, sb.heap, i);
      }
    }
    forall b | |h.blocks| <= b < |sa.heap.blocks| ensures sa.heap.blocks[b] == sb.heap.blocks[b] {}
  }

  /** The part stored by the last steps holds if the whole does. */
  lemma LaterHolds(m: bytes, h: Heap, h': Heap, st: State, p: nat, size: nat, q: nat, k: nat)
    requires h.blocks <= h'.blocks <= st.heap.blocks && Holds(m, h, st, p, size)
    requires p <= q && q + k <= p + size
    ensures Holds(m, h', st, q, k)
  {
  }
}
