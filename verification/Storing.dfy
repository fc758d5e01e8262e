/** memory.go, storing: the code writes the guest's memory in place, asks the
    guest's allocator for blocks, and handles every type constructor by hand.
    Each method is proved to have the effect of `Memory.Store` on the
    despecialised type. */
module Storing {
  import opened Base
  import opened Shapes
  import opened ShapeFacts
  import opened Memory
  import opened Values
  import opened ValueFacts
  import opened Layout
  import opened Footprint

  // ---- the allocator and the memory as objects ----

  /** The guest's `cabi_realloc`, as seen through Realloc.Grow. */
  class Allocator {
    var heap: Heap

    constructor (replies: seq<Reply>)
      ensures heap == Heap(replies, [])
    {
      heap := Heap(replies, []);
    }

    method Grow(align: u32, size: u32) returns (r: Result<u32>)
      modifies this
      ensures r.Ok? <==> Memory.Grow(old(heap), align, size).Ok?
      ensures r.Ok? ==> Memory.Grow(old(heap), align, size) == Ok((r.value, heap))
      ensures r.Err? ==> r.fault == Rejected && heap == old(heap)
    {
      if heap.replies == [] || heap.replies[0].Refuse? {
        return Err(Rejected);
      }
      var p := heap.replies[0].ptr;
      heap := Heap(heap.replies[1..], heap.blocks + [Block(p, align, size)]);
      return Ok(p);
    }
  }

  ghost function StateOf(mem: array<byte>, a: Allocator): State
    reads mem, a
  {
    State(mem[..], a.heap)
  }

  // ---- integers ----

  /** The little-endian stores of encoding/binary. */
  method PutUint(mem: array<byte>, start: nat, v: nat, n: nat)
    requires start + n <= mem.Length
    modifies mem
    ensures mem[..] == Write(old(mem[..]), start, LittleEndian(n, v))
    ensures forall i :: 0 <= i < n ==> mem[start + i] == v / Pow256(i) % 256
  {
    ghost var was := mem[..];
    ghost var written: bytes := [];
    var rest := v;
    for i := 0 to n
      invariant |written| == i
      invariant LittleEndian(n, v) == written + LittleEndian(n - i, rest)
      invariant mem[..] == Write(was, start, written)
    {
      var b := rest % 256;
      ghost var next := LittleEndian(n - i - 1, rest / 256);
      assert LittleEndian(n - i, rest) == [b] + next;
      assert written + ([b] + next) == written + [b] + next;
      mem[start + i] := b;
      assert mem[..] == Write(was, start, written)[start + i := b] == Write(was, start, written + [b]);
      written := written + [b];
      rest := rest / 256;
    }
    BytesWritten(was, start, n, v);
    assert forall k :: 0 <= k < mem.Length ==> mem[k] == mem[..][k];
  }

  /** The lowest byte of an integer is at the lowest address. */
  lemma BytesWritten(m: bytes, p: nat, n: nat, v: nat)
    requires InRange(m, p, n)
    ensures forall i :: 0 <= i < n ==> Write(m, p, LittleEndian(n, v))[p + i] == v / Pow256(i) % 256
  {
    forall i | 0 <= i < n ensures Write(m, p, LittleEndian(n, v))[p + i] == v / Pow256(i) % 256 {
      LittleEndianAt(n, v, i);
    }
  }

  /** The address first, then the length. */
  lemma PairWritten(m: bytes, p: nat, q: nat, n: nat)
    requires InRange(m, p, 8)
    ensures var w := Write(m, p, LittleEndian(4, q) + LittleEndian(4, n));
      forall i :: 0 <= i < 4 ==> w[p + i] == q / Pow256(i) % 256 && w[p + 4 + i] == n / Pow256(i) % 256
  {
    var w := Write(m, p, LittleEndian(4, q) + LittleEndian(4, n));
    forall i | 0 <= i < 4 ensures w[p + i] == q / Pow256(i) % 256 && w[p + 4 + i] == n / Pow256(i) % 256 {
      LittleEndianAt(4, q, i);
      LittleEndianAt(4, n, i);
    }
  }

  method StoreInt(mem: array<byte>, ptr: u32, v: u64, nbytes: u32) returns (r: Result<()>)
    modifies mem
    ensures r == if ptr + nbytes <= mem.Length then Ok(()) else Err(InnerCheck)
    ensures mem[..] == if r.Ok? then Write(old(mem[..]), ptr, LittleEndian(nbytes, v)) else old(mem[..])
    ensures r.Ok? ==> forall i :: 0 <= i < nbytes ==> mem[ptr + i] == v / Pow256(i) % 256
    ensures forall k :: 0 <= k < mem.Length && !(ptr <= k < ptr + nbytes) ==> mem[k] == old(mem[k])
  {
    ghost var was := mem[..];
    if ptr + nbytes > mem.Length {
      return Err(InnerCheck);
    }
    PutUint(mem, ptr, v, nbytes);
    forall k | 0 <= k < mem.Length && !(ptr <= k < ptr + nbytes) ensures mem[k] == was[k] {
      assert mem[..][k] == was[k];
    }
    return Ok(());
  }

  method StorePair(mem: array<byte>, ptr: u32, q: u32, n: u32) returns (r: Result<()>)
    modifies mem
    ensures r.Ok? ==> ptr + 8 <= mem.Length && mem[..] == Write(old(mem[..]), ptr,
      LittleEndian(4, q) + LittleEndian(4, n))
    ensures r.Ok? ==> ptr + 8 <= mem.Length && forall i :: 0 <= i < 4 ==>
      mem[ptr + i] == q / Pow256(i) % 256 && mem[ptr + 4 + i] == n / Pow256(i) % 256
    ensures r.Err? ==> r.fault == InnerCheck && (ptr + 8 > mem.Length || ptr + 4 >= TWO_32)
  {
    hide LittleEndian, Write, Pow256;
    ghost var was := mem[..];
    r := StoreInt(mem, ptr, q, 4);
    if r.Err? {
      return;
    }
    var lenPtr :- CheckedAdd(ptr, 4);
    r := StoreInt(mem, lenPtr, n, 4);
    if r.Ok? {
      WriteTwice(was, ptr, LittleEndian(4, q), LittleEndian(4, n));
      PairWritten(was, ptr, q, n);
      assert forall k :: 0 <= k < mem.Length ==> mem[k] == mem[..][k];
    }
  }

  lemma WriteTwice(m: bytes, p: nat, a: bytes, b: bytes)
    requires InRange(m, p, |a| + |b|)
    ensures Write(Write(m, p, a), p + |a|, b) == Write(m, p, a + b)
  {
  }

  // ---- what each method is proved to do ----

  /** The outcome of storing `v` at `p`: success has exactly the effect of the
      reference `Store`; failure means that `v` does not fit its type or that
      the reference fails, and, in a memory shorter than 2^32 bytes, is never
      due to a check made after the first one. */
  ghost predicate Stored(r: Result<()>, st: State, p: nat, t: Type, v: Value, sb: State) {
    var x := Denote(InMemory, t, v);
    && (r.Ok? ==> x.Ok? && Store(st, p, Despec(t), x.value) == Ok(sb))
    && (r.Err? && |st.mem| < TWO_32 ==> r.fault == Rejected && (x.Err? || Store(st, p, Despec(t), x.value).Err?))
  }

  // ---- scalars ----

  /** A number accepted by a scalar shape and stored in its bytes. */
  lemma ScalarStored(r: Result<()>, st: State, p: nat, t: Type, v: Value, l: Scalar, n: u64, sb: State)
    requires Despec(t) == Leaf(l) && Denote(InMemory, t, v) == Ok(SInt(n)) && Accepts(l, n)
    requires Ready(|st.mem|, p, t)
    requires r == if p + ScalarBytes(l) <= |st.mem| then Ok(()) else Err(InnerCheck)
    requires r.Ok? ==> sb == st.(mem := Write(st.mem, p, LittleEndian(ScalarBytes(l), n)))
    ensures Stored(r, st, p, t, v, sb)
  {
  }

  /** The failures that need no store: a value of the wrong dynamic type, and,
      in the largest memory, an overflow of a 32-bit offset. */
  lemma EarlyFailures(st: State, p: nat, t: Type, v: Value)
    ensures Denote(InMemory, t, v).Err? ==> forall sb :: Stored(Err(Rejected), st, p, t, v, sb)
    ensures |st.mem| >= TWO_32 ==> forall f, sb :: Stored(Err(f), st, p, t, v, sb)
  {
  }

  lemma PrimFailures(st: State, at: nat, p: Prim, v: Value)
    ensures DenotePrim(p, v).Err? ==> forall sb :: Stored(Err(Rejected), st, at, PrimT(p), v, sb)
  {
    EarlyFailures(st, at, PrimT(p), v);
  }

  lemma PrimStored(r: Result<()>, st: State, at: nat, p: Prim, v: Value, n: u64, sb: State)
    requires p != Str && DenotePrim(p, v) == Ok(SInt(n)) && Ready(|st.mem|, at, PrimT(p))
    requires r == if at + ScalarBytes(ScalarOf(p)) <= |st.mem| then Ok(()) else Err(InnerCheck)
    requires r.Ok? ==> sb == st.(mem := Write(st.mem, at, LittleEndian(ScalarBytes(ScalarOf(p)), n)))
    ensures Stored(r, st, at, PrimT(p), v, sb)
  {
    ScalarStored(r, st, at, PrimT(p), v, ScalarOf(p), n, sb);
  }

  function IntByteSize(p: Prim): u32 {
    if p == U8 || p == S8 then 1 else if p == U16 || p == S16 then 2 else 4
  }

  /** The raw bits that a value of a primitive type is stored as. */
  method PrimitiveBits(p: Prim, v: Value) returns (r: Result<u64>)
    requires p != Str
    ensures if r.Ok? then DenotePrim(p, v) == Ok(SInt(r.value)) else r.fault == Rejected && DenotePrim(p, v).Err?
  {
    hide Low;
    match p
    case Bool => return if v.VBool? then Ok(if v.b then 1 else 0) else Err(Rejected);
    case U8 | U16 | U32 | ErrorContext => return if v.VU32? then Ok(v.u) else Err(Rejected);
    case S8 | S16 | S32 =>
      if !v.VS32? {
        return Err(Rejected);
      }
      LowBits(4, v.i);
      return Ok(Low(4, v.i));
    case U64 => return if v.VU64? then Ok(v.ul) else Err(Rejected);
    case S64 =>
      if !v.VS64? {
        return Err(Rejected);
      }
      LowBits(8, v.il);
      return Ok(Low(8, v.il));
    case Float32 => return if v.VF32? then Ok(v.fbits) else Err(Rejected);
    case Float64 => return if v.VF64? then Ok(v.dbits) else Err(Rejected);
    case Char =>
      if !v.VS32? || v.i < 0 || v.i >= 0x11_0000 || 0xD800 <= v.i <= 0xDFFF {
        return Err(Rejected);
      }
      return Ok(v.i);
  }

  lemma LowBits(w: nat, i: int)
    requires w == 4 || w == 8
    ensures 0 <= Low(w, i) < if w == 4 then 0x1_0000_0000 else 0x1_0000_0000_0000_0000
  {
    Pow256Values();
  }

  method StorePrimitive(mem: array<byte>, ptr: u32, p: Prim, v: Value, a: Allocator) returns (r: Result<()>)
    modifies mem, a
    ensures Ready(mem.Length, ptr, PrimT(p)) ==> Stored(r, old(StateOf(mem, a)), ptr, PrimT(p), v, StateOf(mem, a))
  {
    hide Ready, Stored, Denote, DenotePrim, Store, Write, LittleEndian, Despec, Valid, Align, Size;
    ghost var st := StateOf(mem, a);
    PrimFailures(st, ptr, p, v);
    if p == Str {
      if !v.VString? {
        TextOnly(v);
        return Err(Rejected);
      }
      r := StoreString(mem, ptr, v.s, a);
      return;
    }
    var bits :- PrimitiveBits(p, v);
    match p {
      case Bool => r := StoreInt(mem, ptr, bits, 1);
      case U64 | S64 | Float64 => r := StoreInt(mem, ptr, bits, 8);
      case Float32 | Char => r := StoreInt(mem, ptr, bits, 4);
      case U8 | U16 | U32 | S8 | S16 | S32 | ErrorContext => r := StoreInt(mem, ptr, bits, IntByteSize(p));
    }
    if Ready(mem.Length, ptr, PrimT(p)) {
      PrimStored(r, st, ptr, p, v, bits, StateOf(mem, a));
    }
  }

  lemma TextOnly(v: Value)
    ensures !v.VString? ==> DenotePrim(Str, v).Err?
  {
  }

  // ---- text ----

  method StoreString(mem: array<byte>, ptr: u32, s: bytes, a: Allocator) returns (r: Result<()>)
    modifies mem, a
    ensures Ready(mem.Length, ptr, PrimT(Str)) ==> Stored(r, old(StateOf(mem, a)), ptr, PrimT(Str), VString(s),
      StateOf(mem, a))
  {
    var placed :- AllocStoreString(mem, s, a);
    r := StorePair(mem, ptr, placed.0, placed.1);
  }

  /** The bytes of `s`, or as many as its 32-bit length says, in a new block. */
  method AllocStoreString(mem: array<byte>, s: bytes, a: Allocator) returns (r: Result<(u32, u32)>)
    modifies mem, a
    ensures var x := PlaceText(old(StateOf(mem, a)), s[..Low(4, |s|)]);
            if r.Ok? then x == Ok((r.value.0, StateOf(mem, a))) && r.value.1 == Low(4, |s|)
              else r.fault == Rejected && x.Err?
  {
    ghost var was := mem[..];
    var byteLen := Low(4, |s|);
    var q :- a.Grow(1, byteLen);
    if q + byteLen > mem.Length {
      return Err(Rejected);
    }
    CopyBytes(mem, q, s[..byteLen]);
    return Ok((q, byteLen));
  }

  /** The built-in copy into a slice of memory. */
  method CopyBytes(mem: array<byte>, start: nat, bs: bytes)
    requires start + |bs| <= mem.Length
    modifies mem
    ensures mem[..] == Write(old(mem[..]), start, bs)
  {
    ghost var was := mem[..];
    for i := 0 to |bs|
      invariant mem[..] == Write(was, start, bs[..i])
    {
      mem[start + i] := bs[i];
      assert mem[..] == Write(was, start, bs[..i])[start + i := bs[i]] == Write(was, start, bs[..i + 1]);
    }
    assert bs[..|bs|] == bs;
  }

  // ---- lists ----

  /** The outcome of placing a list in a block of its own. */
  ghost predicate Placed(r: Result<(u32, u32)>, st: State, e: Type, v: Value, sb: State) {
    var x := Denote(InMemory, ListT(e), v);
    && (r.Ok? ==>
      x.Ok? && PlaceList(st, Checked(e), x.value.elems) == Ok((r.value.0 as nat, sb)) && r.value.1 == |x.value.elems|)
    && (r.Err? && |st.mem| < TWO_32 ==>
      r.fault == Rejected && (x.Err? || PlaceList(st, Checked(e), x.value.elems).Err?))
  }

  method StoreListValue(mem: array<byte>, ptr: u32, e: Type, v: Value, a: Allocator) returns (r: Result<()>)
    modifies mem, a
    ensures Ready(mem.Length, ptr, ListT(e)) ==> Stored(r, old(StateOf(mem, a)), ptr, ListT(e), v, StateOf(mem, a))
    decreases ListT(e), 0
  {
    var placed :- AllocStoreAnyList(mem, e, v, a);
    r := StorePair(mem, ptr, placed.0, placed.1);
  }

  method AllocStoreAnyList(mem: array<byte>, e: Type, v: Value, a: Allocator) returns (r: Result<(u32, u32)>)
    modifies mem, a
    ensures Placed(r, old(StateOf(mem, a)), e, v, StateOf(mem, a))
    decreases e, 4
  {
    if v.VBytes? && e == PrimT(U8) {
      r := AllocStoreBytes(mem, v.bs, a);
      return;
    }
    if !v.VList? {
      return Err(Rejected);
    }
    r := AllocStoreList(mem, e, v.vs, a);
  }

  /** One copy, where `AllocStoreList` stores byte by byte, with the same outcome. */
  method AllocStoreBytes(mem: array<byte>, b: bytes, a: Allocator) returns (r: Result<(u32, u32)>)
    modifies mem, a
    ensures Placed(r, old(StateOf(mem, a)), PrimT(U8), VBytes(b), StateOf(mem, a))
  {
    ghost var st := StateOf(mem, a);
    var byteLen := Low(4, |b|);
    BytesPlaced(st, b[..byteLen]);
    var q :- a.Grow(1, byteLen);
    if q + byteLen > mem.Length {
      return Err(Rejected);
    }
    CopyBytes(mem, q, b[..byteLen]);
    return Ok((q, byteLen));
  }

  /** Storing bytes one element at a time is copying them. */
  lemma BytesPlaced(st: State, bs: bytes)
    requires |bs| < TWO_32
    ensures PlaceList(st, Checked(PrimT(U8)), DenoteBytes(bs)) == PlaceText(st, bs)
  {
    var elem := Leaf(IntS(W1));
    assert Checked(PrimT(U8)) == elem;
    ElemsSizeIsProduct(elem, |bs|);
    var g := Grow(st.heap, 1, |bs|);
    if g.Ok? {
      AlignedIsMod(g.value.0, 1);
      if InRange(st.mem, g.value.0, |bs|) {
        BytesStored(st.(heap := g.value.1), g.value.0, bs, |bs|);
        assert bs[..|bs|] == bs;
      }
    }
  }

  lemma {:induction false} BytesStored(st: State, q: nat, bs: bytes, n: nat)
    requires n <= |bs| && InRange(st.mem, q, |bs|)
    ensures StoreElems(st, q, Leaf(IntS(W1)), DenoteBytes(bs), n) == Ok(st.(mem := Write(st.mem, q, bs[..n])))
  {
    hide Write, Store, ElemsSize;
    if n == 0 {
      NothingWritten(st.mem, q);
    } else {
      var sa := st.(mem := Write(st.mem, q, bs[..n - 1]));
      BytesStored(st, q, bs, n - 1);
      ElemsSizeIsProduct(Leaf(IntS(W1)), n - 1);
      ByteStored(sa, q + (n - 1), bs[n - 1]);
      WriteTwice(st.mem, q, bs[..n - 1], [bs[n - 1]]);
      assert bs[..n - 1] + [bs[n - 1]] == bs[..n];
    }
  }

  lemma NothingWritten(m: bytes, q: nat)
    requires InRange(m, q, 0)
    ensures Write(m, q, []) == m
  {
  }

  lemma ByteStored(st: State, p: nat, b: byte)
    requires InRange(st.mem, p, 1)
    ensures Store(st, p, Leaf(IntS(W1)), SInt(b)) == Ok(st.(mem := Write(st.mem, p, [b])))
  {
    assert LittleEndian(1, b) == [b] + LittleEndian(0, b / 256) == [b];
  }

  lemma {:induction false} DenoteElemsOk(e: Type, vs: seq<Value>, n: nat)
    requires n <= |vs|
    ensures DenoteElems(e, vs, n).Ok? <==> forall i :: 0 <= i < n ==> Denote(InMemory, e, vs[i]).Ok?
  {
    if n > 0 {
      DenoteElemsOk(e, vs, n - 1);
    }
  }

  lemma {:induction false} StoreElemsStops(st: State, p: nat, elem: Shape, xs: seq<Sem>, i: nat, n: nat)
    requires i <= n <= |xs| && StoreElems(st, p, elem, xs, i).Err?
    ensures StoreElems(st, p, elem, xs, n).Err?
    decreases n
  {
    if i < n {
      StoreElemsStops(st, p, elem, xs, i, n - 1);
    }
  }

  method AllocStoreList(mem: array<byte>, e: Type, vs: seq<Value>, a: Allocator) returns (r: Result<(u32, u32)>)
    modifies mem, a
    ensures Placed(r, old(StateOf(mem, a)), e, VList(vs), StateOf(mem, a))
    decreases e, 3
  {
    hide Placed, ElemsStored, Within, Despec, Valid, ElemsSize, Size, Align, Aligned, Checked, IsAlignOf, IsSizeOf;
    ghost var st := StateOf(mem, a);
    RefusedPlaced(st, e, vs);
    var size := SizeOf(e);
    SizeKnown(size, e);
    ElemsSizeIsProduct(Checked(e), |vs|);
    if size.Err? || |vs| > 0xFFFF_FFFF || |vs| * size.value > 0xFFFF_FFFF {
      return Err(Rejected);
    }
    var align := Alignment(e);
    AlignKnown(align, e);
    var byteLen: u32 := |vs| * size.value;
    var q :- a.Grow(align.value, byteLen);
    AlignedIsMod(q, align.value);
    if q % align.value != 0 || q + byteLen > mem.Length {
      return Err(Rejected);
    }
    ghost var sa := StateOf(mem, a);
    var stored := StoreElements(mem, q, e, vs, size.value, a);
    ElemsPlaced(stored, st, e, vs, q, sa, StateOf(mem, a));
    return if stored.Ok? then Ok((q, |vs|)) else Err(stored.fault);
  }

  /** n elements have no layout, or the allocator gives no usable block. */
  ghost predicate ListRefused(st: State, elem: Shape, n: nat) {
    || !Valid(elem) || Size(elem) >= TWO_32 || n >= TWO_32 || ElemsSize(elem, n) >= TWO_32
    || var g := Grow(st.heap, Align(elem), ElemsSize(elem, n));
       g.Err? || !Aligned(g.value.0, Align(elem)) || !InRange(st.mem, g.value.0, ElemsSize(elem, n))
  }

  lemma RefusedPlaced(st: State, e: Type, vs: seq<Value>)
    ensures ListRefused(st, Checked(e), |vs|) ==> forall sb :: Placed(Err(Rejected), st, e, VList(vs), sb)
  {
  }

  lemma ElemsPlaced(r: Result<()>, st: State, e: Type, vs: seq<Value>, q: u32, sa: State, sb: State)
    requires Checked(e) == Despec(e) && !ListRefused(st, Despec(e), |vs|)
    requires Grow(st.heap, Align(Despec(e)), ElemsSize(Despec(e), |vs|)) == Ok((q as nat, sa.heap)) && sa.mem == st.mem
    requires ElemsStored(r, sa, q, e, vs, sb)
    ensures Placed(if r.Ok? then Ok((q, |vs|)) else Err(r.fault), st, e, VList(vs), sb)
  {
    hide Despec, Within, Align, Aligned, Size, ElemsSize, StoreElems, Valid;
  }

  /** The first i elements are stored. */
  ghost predicate ElemsSoFar(st: State, q: nat, e: Type, vs: seq<Value>, i: nat, sb: State) {
    && i <= |vs|
    && (forall j :: 0 <= j < i ==> Denote(InMemory, e, vs[j]).Ok?)
    && var d := DenoteElems(e, vs, |vs|);
       d.Ok? ==> StoreElems(st, q, Despec(e), d.value, i) == Ok(sb)
  }

  /** All elements are stored, or one could not be. */
  ghost predicate ElemsStored(r: Result<()>, st: State, q: nat, e: Type, vs: seq<Value>, sb: State) {
    var d := DenoteElems(e, vs, |vs|);
    && (r.Ok? ==> d.Ok? && StoreElems(st, q, Despec(e), d.value, |vs|) == Ok(sb))
    && (r.Err? && |st.mem| < TWO_32 ==>
      r.fault == Rejected && (d.Err? || StoreElems(st, q, Despec(e), d.value, |vs|).Err?))
  }

  /** The loop of allocStoreList. */
  method StoreElements(mem: array<byte>, q: u32, e: Type, vs: seq<Value>, size: u32, a: Allocator)
    returns (r: Result<()>)
    modifies mem, a
    requires Within(e, 0) && Valid(Despec(e)) && size == Size(Despec(e)) && Aligned(q, Align(Despec(e)))
    requires q + ElemsSize(Despec(e), |vs|) <= mem.Length
    ensures ElemsStored(r, old(StateOf(mem, a)), q, e, vs, StateOf(mem, a))
    decreases e, 2
  {
    hide Stored, ElemsSoFar, ElemsStored, Ready, Within, Despec, Valid, DenoteElems, Denote, StoreElems,
         ElemsSize, Size, Align, Aligned;
    ghost var st, elem := StateOf(mem, a), Despec(e);
    ElemsBegin(st, q, e, vs);
    var elemPtr := q;
    for i := 0 to |vs|
      invariant i < |vs| ==> elemPtr == q + ElemsSize(elem, i)
      invariant ElemsSoFar(st, q, e, vs, i, StateOf(mem, a))
    {
      ghost var sa := StateOf(mem, a);
      ElementReady(mem.Length, q, e, i, |vs|);
      r := StoreValue(mem, elemPtr, e, vs[i], a);
      ElementStored(r, st, q, e, vs, i, sa, StateOf(mem, a));
      if r.Err? {
        return;
      }
      if i + 1 < |vs| {
        elemPtr :- CheckedAdd(elemPtr, size);
      }
    }
    ElemsFinished(st, q, e, vs, StateOf(mem, a));
    return Ok(());
  }

  lemma ElemsBegin(st: State, q: nat, e: Type, vs: seq<Value>)
    ensures ElemsSoFar(st, q, e, vs, 0, st)
    ensures ElemsSize(Despec(e), 0) == 0
    ensures |st.mem| >= TWO_32 ==> forall f, sb :: ElemsStored(Err(f), st, q, e, vs, sb)
  {
  }

  lemma NextElem(st: State, q: nat, elem: Shape, xs: seq<Sem>, i: nat)
    requires i < |xs| && StoreElems(st, q, elem, xs, i).Ok?
    ensures StoreElems(st, q, elem, xs, i + 1) == Store(StoreElems(st, q, elem, xs, i).value, q + ElemsSize(elem, i),
      elem, xs[i])
  {
  }

  /** One element stored after the first i, or an element that could not be. */
  lemma ElementStored(r: Result<()>, st: State, q: nat, e: Type, vs: seq<Value>, i: nat, sa: State, sb: State)
    requires i < |vs| && |sa.mem| == |st.mem| && ElemsSoFar(st, q, e, vs, i, sa)
    requires Stored(r, sa, q + ElemsSize(Despec(e), i), e, vs[i], sb)
    ensures r.Ok? ==> ElemsSoFar(st, q, e, vs, i + 1, sb)
    ensures r.Err? ==> ElemsStored(r, st, q, e, vs, sb)
  {
    hide Store, StoreElems, ElemsSize, Despec, Denote, DenoteElems;
    var d := DenoteElems(e, vs, |vs|);
    if d.Ok? {
      DenoteElemsAt(e, vs, |vs|);
      NextElem(st, q, Despec(e), d.value, i);
      if r.Err? && |st.mem| < TWO_32 {
        StoreElemsStops(st, q, Despec(e), d.value, i + 1, |vs|);
      }
    }
  }

  lemma ElemsFinished(st: State, q: nat, e: Type, vs: seq<Value>, sb: State)
    requires ElemsSoFar(st, q, e, vs, |vs|, sb)
    ensures ElemsStored(Ok(()), st, q, e, vs, sb)
  {
    DenoteElemsOk(e, vs, |vs|);
  }

  // ---- records and tuples ----

  lemma {:induction false} DenoteAllOk(path: Path, ts: seq<Type>, vs: seq<Value>, n: nat)
    requires n <= |ts| == |vs|
    ensures DenoteAll(path, ts, vs, n).Ok? <==> forall i :: 0 <= i < n ==> Denote(path, ts[i], vs[i]).Ok?
  {
    if n > 0 {
      DenoteAllOk(path, ts, vs, n - 1);
    }
  }

  lemma {:induction false} StoreFieldsStops(st: State, p: nat, fs: seq<Shape>, xs: seq<Sem>, i: nat, n: nat)
    requires i <= n <= |fs| == |xs| && StoreFields(st, p, fs, xs, i).Err?
    ensures StoreFields(st, p, fs, xs, n).Err?
    decreases n
  {
    if i < n {
      StoreFieldsStops(st, p, fs, xs, i, n - 1);
    }
  }

  /** The first i fields are stored. */
  ghost predicate FieldsSoFar(st: State, p: nat, ts: seq<Type>, vs: seq<Value>, i: nat, sb: State) {
    && i <= |ts| == |vs|
    && (forall j :: 0 <= j < i ==> Denote(InMemory, ts[j], vs[j]).Ok?)
    && var d := DenoteAll(InMemory, ts, vs, |ts|);
       d.Ok? ==> StoreFields(st, p, DespecAll(ts), d.value, i) == Ok(sb)
  }

  lemma FieldsBegin(st: State, p: nat, ts: seq<Type>, vs: seq<Value>)
    requires |ts| == |vs|
    ensures FieldsSoFar(st, p, ts, vs, 0, st)
    ensures FieldsEnd(DespecAll(ts), 0) == 0
  {
  }

  lemma NextField(st: State, p: nat, fs: seq<Shape>, xs: seq<Sem>, i: nat)
    requires i < |fs| == |xs| && StoreFields(st, p, fs, xs, i).Ok?
    ensures StoreFields(st, p, fs, xs, i + 1) == Store(StoreFields(st, p, fs, xs, i).value, p + FieldOffset(fs, i),
      fs[i], xs[i])
  {
  }

  /** One field stored after the first i, or a field that could not be. */
  lemma FieldStored(r: Result<()>, st: State, p: nat, t: Type, ts: seq<Type>, vs: seq<Value>, i: nat, sa: State,
                    sb: State)
    requires (t == RecordT(ts) || t == TupleT(ts)) && FieldsSoFar(st, p, ts, vs, i, sa) && i < |ts|
      && |sa.mem| == |st.mem|
    requires Stored(r, sa, p + FieldOffset(DespecAll(ts), i), ts[i], vs[i], sb)
    ensures r.Ok? ==> FieldsSoFar(st, p, ts, vs, i + 1, sb)
    ensures r.Err? ==> Stored(r, st, p, t, VList(vs), sb)
  {
    hide Store, StoreFields, FieldOffset, Despec, Denote, DenoteAll;
    var d, fs := DenoteAll(InMemory, ts, vs, |ts|), DespecAll(ts);
    assert fs[i] == Despec(ts[i]);
    if d.Ok? {
      DenoteAllAt(InMemory, ts, vs, |ts|);
      NextField(st, p, fs, d.value, i);
    }
    if r.Err? && |st.mem| < TWO_32 {
      if d.Ok? {
        StoreFieldsStops(st, p, fs, d.value, i + 1, |ts|);
      }
      FieldsStopped(r, st, p, t, ts, vs, sb);
    }
  }

  lemma ProductFailures(st: State, p: nat, t: Type, ts: seq<Type>, v: Value)
    requires t == RecordT(ts) || t == TupleT(ts)
    ensures !v.VList? || |v.vs| != |ts| ==> forall sb :: Stored(Err(Rejected), st, p, t, v, sb)
    ensures |st.mem| >= TWO_32 ==> forall f, sb :: Stored(Err(f), st, p, t, v, sb)
  {
  }

  lemma FieldsStopped(r: Result<()>, st: State, p: nat, t: Type, ts: seq<Type>, vs: seq<Value>, sb: State)
    requires (t == RecordT(ts) || t == TupleT(ts)) && |vs| == |ts|
    requires r == Err(Rejected)
    requires var d := DenoteAll(InMemory, ts, vs, |ts|);
             d.Err? || StoreFields(st, p, DespecAll(ts), d.value, |ts|).Err?
    ensures Stored(r, st, p, t, VList(vs), sb)
  {
  }

  lemma FieldsFinished(st: State, p: nat, t: Type, ts: seq<Type>, vs: seq<Value>, sb: State)
    requires (t == RecordT(ts) || t == TupleT(ts)) && FieldsSoFar(st, p, ts, vs, |ts|, sb)
    ensures Stored(Ok(()), st, p, t, VList(vs), sb)
  {
    DenoteAllOk(InMemory, ts, vs, |ts|);
  }

  /** storeRecord and storeTuple. */
  method StoreProductValue(mem: array<byte>, ptr: u32, ghost t: Type, ts: seq<Type>, v: Value,
                           a: Allocator) returns (r: Result<()>)
    requires t == RecordT(ts) || t == TupleT(ts)
    modifies mem, a
    ensures Ready(mem.Length, ptr, t) ==> Stored(r, old(StateOf(mem, a)), ptr, t, v, StateOf(mem, a))
    decreases ts, 0
  {
    hide Stored, Ready, FieldsSoFar, Within, Despec, DespecAll, Checked, Valid, FieldsEnd, FieldOffset,
         Size, Align, AlignUp, Aligned, CheckedAlign, Denote;
    ghost var st, fs, ready := StateOf(mem, a), DespecAll(ts), Ready(mem.Length, ptr, t);
    ProductFailures(st, ptr, t, ts, v);
    if !v.VList? || |v.vs| != |ts| {
      return Err(Rejected);
    }
    var vs := v.vs;
    FieldsBegin(st, ptr, ts, vs);
    var offset := ptr;
    for i := 0 to |ts|
      invariant ready ==> offset == ptr + FieldsEnd(fs, i) && FieldsSoFar(st, ptr, ts, vs, i, StateOf(mem, a))
    {
      ghost var sa := StateOf(mem, a);
      if ready {
        FieldReady(mem.Length, ptr, t, ts, i);
        FieldReached(mem.Length, ptr, t, ts, i);
      }
      var align :- Alignment(ts[i]);
      CheckedAlignExact(offset, align);
      offset :- CheckedAlign(offset, align);
      r := StoreValue(mem, offset, ts[i], vs[i], a);
      if ready {
        FieldStored(r, st, ptr, t, ts, vs, i, sa, StateOf(mem, a));
      }
      if r.Err? {
        return;
      }
      var size :- SizeOf(ts[i]);
      offset :- CheckedAdd(offset, size);
    }
    if ready {
      FieldsFinished(st, ptr, t, ts, vs, StateOf(mem, a));
    }
    return Ok(());
  }

  // ---- variants, options, results and enums ----

  /** The outcome of storing what a case carries, if anything. */
  ghost predicate StoredCase(r: Result<()>, st: State, p: nat, c: Case, v: Value, sb: State) {
    var x := DenoteCase(InMemory, c, v);
    && (r.Ok? ==> x.Ok? && Store(st, p, DespecCase(c), x.value) == Ok(sb))
    && (r.Err? && |st.mem| < TWO_32 ==> r.fault == Rejected && (x.Err? || Store(st, p, DespecCase(c), x.value).Err?))
  }

  lemma EmptyStored(st: State, p: nat, v: Value)
    ensures StoredCase(Ok(()), st, p, Empty, v, st)
  {
  }

  lemma CarryingStored(r: Result<()>, st: State, p: nat, t: Type, v: Value, sb: State)
    ensures StoredCase(r, st, p, Carrying(t), v, sb) <==> Stored(r, st, p, t, v, sb)
  {
  }

  /** The case that a value of a sum takes and what it carries; `Mismatch` when the
      value has the wrong dynamic type. */
  datatype Taken = Mismatch | Take(disc: nat, carried: Value)

  ghost function Choice(t: Type, v: Value): (k: Taken)
    ensures k.Take? ==> k.disc < |CasesOf(t)|
  {
    match t
    case VariantT(cs) => if v.VVariant? && v.disc < |cs| then Take(v.disc, v.payload) else Mismatch
    case OptionT(e) => Take(if v.Nil? then 0 else 1, v)
    case ResultT(ok, err) => if v.VResult? then Take(if v.isErr then 1 else 0, v.carried) else Mismatch
    case _ => Mismatch
  }

  /** A nil payload is refused only in a variant, and only when it is stored. */
  lemma ChoiceDenote(path: Path, t: Type, v: Value)
    requires Choice(t, v).Take?
    ensures var k := Choice(t, v); var c := CasesOf(t)[k.disc]; var x := DenoteCase(path, c, k.carried);
      Denote(path, t, v)
      == if path.InMemory? && t.VariantT? && c.Carrying? && k.carried.Nil? then Err(Rejected)
         else if x.Ok? then Ok(SSum(k.disc, x.value)) else Err(x.fault)
  {
  }

  /** Discriminant stored, then the payload, or one of them could not be. */
  lemma SumStored(r: Result<()>, st: State, p: nat, t: Type, v: Value, sa: State, sb: State)
    requires Choice(t, v).Take?
    requires !(t.VariantT? && CasesOf(t)[Choice(t, v).disc].Carrying? && Choice(t, v).carried.Nil?)
    requires var k, ss := Choice(t, v), DespecCases(CasesOf(t));
      && Poke(st, p, LittleEndian(DiscBytes(|ss|), k.disc)) == Ok(sa)
      && StoredCase(r, sa, p + PayloadOffset(ss), CasesOf(t)[k.disc], k.carried, sb)
    ensures Stored(r, st, p, t, v, sb)
  {
    hide Denote, DenoteCase, Despec, DespecCase, PayloadOffset, DiscBytes;
    CasesShape(t);
    ChoiceDenote(InMemory, t, v);
    var k, ss := Choice(t, v), DespecCases(CasesOf(t));
    assert ss[k.disc] == DespecCase(CasesOf(t)[k.disc]);
    StoreOfSum(st, p, ss, k.disc, sa);
  }

  lemma StoreOfSum(st: State, p: nat, ss: seq<Shape>, d: nat, sa: State)
    requires d < |ss| && Poke(st, p, LittleEndian(DiscBytes(|ss|), d)) == Ok(sa)
    ensures forall x :: Store(st, p, Sum(ss), SSum(d, x)) == Store(sa, p + PayloadOffset(ss), ss[d], x)
  {
  }

  lemma SumFailures(st: State, p: nat, t: Type, v: Value)
    requires IsSum(t)
    ensures Choice(t, v).Mismatch? ==> forall sb :: Stored(Err(Rejected), st, p, t, v, sb)
    ensures t.VariantT? && v.VVariant? && v.disc < |t.cases| && t.cases[v.disc].Carrying? && v.payload.Nil? ==>
      forall sb :: Stored(Err(Rejected), st, p, t, v, sb)
    ensures |st.mem| >= TWO_32 ==> forall f, sb :: Stored(Err(f), st, p, t, v, sb)
  {
  }

  method StorePayload(mem: array<byte>, ptr: u32, c: Case, v: Value, a: Allocator) returns (r: Result<()>)
    modifies mem, a
    ensures (c.Carrying? ==> Ready(mem.Length, ptr, c.t)) ==>
      StoredCase(r, old(StateOf(mem, a)), ptr, c, v, StateOf(mem, a))
    decreases c, 0
  {
    ghost var st := StateOf(mem, a);
    if c.Carrying? {
      r := StoreValue(mem, ptr, c.t, v, a);
      CarryingStored(r, st, ptr, c.t, v, StateOf(mem, a));
    } else {
      r := Ok(());
      EmptyStored(st, ptr, v);
    }
  }

  method StoreVariant(mem: array<byte>, ptr: u32, cs: seq<Case>, v: Value, a: Allocator) returns (r: Result<()>)
    modifies mem, a
    ensures Ready(mem.Length, ptr, VariantT(cs)) ==> Stored(r, old(StateOf(mem, a)), ptr, VariantT(cs), v,
      StateOf(mem, a))
    decreases VariantT(cs), 0
  {
    hide Ready, Stored, StoredCase, Valid, MaxAlign, AlignUp, Aligned, CheckedAlign, PayloadOffset, DespecCases,
         LittleEndian, DiscriminantType;
    ghost var st, t, ss := StateOf(mem, a), VariantT(cs), DespecCases(cs);
    ghost var ready := Ready(mem.Length, ptr, t);
    SumFailures(st, ptr, t, v);
    if !v.VVariant? || v.disc >= |cs| {
      return Err(Rejected);
    }
    if ready {
      CaseReady(mem.Length, ptr, t, v.disc);
      CaseSizes(mem.Length, ptr, cs);
    }
    var disc :- DiscriminantType(|cs|);
    var discSize := SizePrimitive(disc);
    var _ :- StoreInt(mem, ptr, v.disc, discSize);
    var offset :- CheckedAdd(ptr, discSize);
    var align :- MaxCaseAlignment(cs);
    CheckedAlignExact(offset, align);
    offset :- CheckedAlign(offset, align);
    if cs[v.disc].Carrying? && v.payload.Nil? {
      return Err(Rejected);
    }
    ghost var sa := StateOf(mem, a);
    assert cs[v.disc].Carrying? ==> cs[v.disc] == Carrying(cs[v.disc].t);
    r := StorePayload(mem, offset, cs[v.disc], v.payload, a);
    if ready {
      SumStored(r, st, ptr, t, v, sa, StateOf(mem, a));
    }
  }

  method StoreOption(mem: array<byte>, ptr: u32, e: Type, v: Value, a: Allocator) returns (r: Result<()>)
    modifies mem, a
    ensures Ready(mem.Length, ptr, OptionT(e)) ==> Stored(r, old(StateOf(mem, a)), ptr, OptionT(e), v, StateOf(mem, a))
    decreases OptionT(e), 0
  {
    hide Ready, Stored, StoredCase, Valid, MaxAlign, AlignUp, Aligned, CheckedAlign, PayloadOffset, DespecCases,
      LittleEndian;
    ghost var st, t := StateOf(mem, a), OptionT(e);
    ghost var ready := Ready(mem.Length, ptr, t);
    SumFailures(st, ptr, t, v);
    var disc := if v.Nil? then 0 else 1;
    if ready {
      CaseReady(mem.Length, ptr, t, disc);
      OptionAlign(mem.Length, ptr, e);
    }
    var _ :- StoreInt(mem, ptr, disc, 1);
    var offset :- CheckedAdd(ptr, 1);
    var align :- Alignment(e);
    CheckedAlignExact(offset, align);
    offset :- CheckedAlign(offset, align);
    ghost var sa := StateOf(mem, a);
    if disc == 1 {
      r := StoreValue(mem, offset, e, v, a);
      CarryingStored(r, sa, offset, e, v, StateOf(mem, a));
    } else {
      r := Ok(());
      EmptyStored(sa, offset, v);
    }
    if ready {
      SumStored(r, st, ptr, t, v, sa, StateOf(mem, a));
    }
  }

  method StoreResult(mem: array<byte>, ptr: u32, ok: Case, err: Case, v: Value, a: Allocator) returns (r: Result<()>)
    modifies mem, a
    ensures Ready(mem.Length, ptr, ResultT(ok, err)) ==> Stored(r, old(StateOf(mem, a)), ptr, ResultT(ok, err), v,
      StateOf(mem, a))
    decreases ResultT(ok, err), 0
  {
    hide Ready, Stored, StoredCase, Valid, MaxAlign, AlignUp, Aligned, CheckedAlign, PayloadOffset, DespecCases,
      LittleEndian;
    ghost var st, t := StateOf(mem, a), ResultT(ok, err);
    ghost var ready := Ready(mem.Length, ptr, t);
    SumFailures(st, ptr, t, v);
    if !v.VResult? {
      return Err(Rejected);
    }
    var disc := if v.isErr then 1 else 0;
    if ready {
      CaseReady(mem.Length, ptr, t, disc);
      ResultAlign(mem.Length, ptr, ok, err);
    }
    var _ :- StoreInt(mem, ptr, disc, 1);
    var offset :- CheckedAdd(ptr, 1);
    var align :- ArmsAlignment(ok, err);
    CheckedAlignExact(offset, align);
    offset :- CheckedAlign(offset, align);
    ghost var sa := StateOf(mem, a);
    if v.isErr {
      r := StorePayload(mem, offset, err, v.carried, a);
    } else {
      r := StorePayload(mem, offset, ok, v.carried, a);
    }
    if ready {
      SumStored(r, st, ptr, t, v, sa, StateOf(mem, a));
    }
  }

  method StoreEnum(mem: array<byte>, ptr: u32, names: u32, v: Value, ghost a: Allocator) returns (r: Result<()>)
    modifies mem
    ensures Ready(mem.Length, ptr, EnumT(names)) ==> Stored(r, old(StateOf(mem, a)), ptr, EnumT(names), v,
      StateOf(mem, a))
  {
    hide Ready, Stored, LittleEndian, DiscriminantType;
    ghost var st := StateOf(mem, a);
    EarlyFailures(st, ptr, EnumT(names), v);
    if !v.VU32? || v.u >= names {
      return Err(Rejected);
    }
    DiscriminantHoldsCases(names);
    var disc := DiscriminantType(names).value;
    r := StoreInt(mem, ptr, v.u, SizePrimitive(disc));
    if Ready(mem.Length, ptr, EnumT(names)) {
      EnumStored(r, st, ptr, names, v.u, StateOf(mem, a));
    }
  }

  lemma EnumStored(r: Result<()>, st: State, p: nat, names: u32, d: u32, sb: State)
    requires d < names && Ready(|st.mem|, p, EnumT(names))
    requires r == if p + DiscBytes(names) <= |st.mem| then Ok(()) else Err(InnerCheck)
    requires r.Ok? ==> sb == st.(mem := Write(st.mem, p, LittleEndian(DiscBytes(names), d)))
    ensures Stored(r, st, p, EnumT(names), VU32(d), sb)
  {
    hide Align, AlignUp, Size, Aligned;
    EnumSize(names);
    assert Units(names)[d] == Unit;
    if r.Ok? {
      StoreOfSum(st, p, Units(names), d, sb);
    }
  }

  method StoreFlags(mem: array<byte>, ptr: u32, labels: nat, v: Value, ghost a: Allocator) returns (r: Result<()>)
    modifies mem
    ensures Ready(mem.Length, ptr, FlagsT(labels)) ==> Stored(r, old(StateOf(mem, a)), ptr, FlagsT(labels), v,
      StateOf(mem, a))
  {
    ghost var st := StateOf(mem, a);
    if !v.VU32? {
      return Err(Rejected);
    }
    var size :- FlagsBytes(labels);
    r := StoreInt(mem, ptr, v.u, size);
    if Ready(mem.Length, ptr, FlagsT(labels)) {
      ScalarStored(r, st, ptr, FlagsT(labels), v, FlagsS(FlagsWidth(labels)), v.u, StateOf(mem, a));
    }
  }

  method StoreHandle(mem: array<byte>, ptr: u32, v: Value, ghost a: Allocator) returns (r: Result<()>)
    modifies mem
    ensures Ready(mem.Length, ptr, HandleT) ==> Stored(r, old(StateOf(mem, a)), ptr, HandleT, v, StateOf(mem, a))
  {
    ghost var st := StateOf(mem, a);
    if !v.VU32? {
      return Err(Rejected);
    }
    r := StoreInt(mem, ptr, v.u, 4);
    if Ready(mem.Length, ptr, HandleT) {
      ScalarStored(r, st, ptr, HandleT, v, IntS(W4), v.u, StateOf(mem, a));
    }
  }

  // ---- any type ----

  method StoreValue(mem: array<byte>, ptr: u32, t: Type, v: Value, a: Allocator) returns (r: Result<()>)
    modifies mem, a
    ensures Ready(mem.Length, ptr, t) ==> Stored(r, old(StateOf(mem, a)), ptr, t, v, StateOf(mem, a))
    decreases t, 1
  {
    hide Stored, StateOf;
    match t {
      case PrimT(p) => r := StorePrimitive(mem, ptr, p, v, a);
      case ListT(e) => r := StoreListValue(mem, ptr, e, v, a);
      case RecordT(ts) => r := StoreProductValue(mem, ptr, t, ts, v, a);
      case TupleT(ts) => r := StoreProductValue(mem, ptr, t, ts, v, a);
      case VariantT(cs) => r := StoreVariant(mem, ptr, cs, v, a);
      case FlagsT(labels) => r := StoreFlags(mem, ptr, labels, v, a);
      case EnumT(names) => r := StoreEnum(mem, ptr, names, v, a);
      case OptionT(e) => r := StoreOption(mem, ptr, e, v, a);
      case ResultT(ok, err) => r := StoreResult(mem, ptr, ok, err, v, a);
      case HandleT => r := StoreHandle(mem, ptr, v, a);
      case OtherT => r := Err(Rejected);
    }
  }

  /** THE STORE ENTRY POINT. Alignment and bounds are checked once; after that,
      in a memory shorter than 2^32 bytes, no inner check of bounds or overflow
      can fail, and the outcome is exactly the reference `StoreValueAt`. */
  method StoreTop(mem: array<byte>, ptr: u32, t: Type, v: Value, a: Allocator) returns (r: Result<()>)
    modifies mem, a
    ensures r.Ok? ==> StoreValueAt(old(StateOf(mem, a)), ptr, t, v) == Ok(StateOf(mem, a))
    ensures r.Err? && mem.Length < TWO_32 ==> r.fault == Rejected && StoreValueAt(old(StateOf(mem, a)), ptr, t, v).Err?
  {
    hide Stored, Ready, StoreValueAt, Checked, IsAlignOf, IsSizeOf, Aligned, Within, Valid, Size, Align;
    ghost var st := StateOf(mem, a);
    var align := Alignment(t);
    var size := SizeOf(t);
    TopRefused(st, ptr, t, v, align, size);
    if align.Err? || size.Err? {
      return Err(Rejected);
    }
    AlignedIsMod(ptr, align.value);
    if ptr % align.value != 0 || ptr + size.value > mem.Length {
      return Err(Rejected);
    }
    r := StoreValue(mem, ptr, t, v, a);
    TopStored(r, st, ptr, t, v, align, size, StateOf(mem, a));
  }

  lemma TopRefused(st: State, p: nat, t: Type, v: Value, align: Result<u32>, size: Result<u32>)
    requires IsAlignOf(align, Checked(t)) && IsSizeOf(size, Checked(t))
    ensures align.Ok? ==> IsAlignment(align.value)
    ensures Refused(|st.mem|, p, align, size) ==> StoreValueAt(st, p, t, v).Err?
  {
  }

  lemma TopStored(r: Result<()>, st: State, p: nat, t: Type, v: Value, align: Result<u32>, size: Result<u32>, sb: State)
    requires IsAlignOf(align, Checked(t)) && IsSizeOf(size, Checked(t))
    requires (align.Ok? ==> IsAlignment(align.value)) && !Refused(|st.mem|, p, align, size)
    requires Ready(|st.mem|, p, t) ==> Stored(r, st, p, t, v, sb)
    ensures r.Ok? ==> StoreValueAt(st, p, t, v) == Ok(sb)
    ensures r.Err? && |st.mem| < TWO_32 ==> r.fault == Rejected && StoreValueAt(st, p, t, v).Err?
  {
    assert Within(t, 0);
  }
}
