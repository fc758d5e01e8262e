/** The reference semantics of storing and loading: what every byte of linear
    memory holds after `Store`, through blocks handed out by the guest's
    allocator, and what `Load` reads back. */
module Memory {
  import opened Base
  import opened Shapes
  import Utf8

  const MAX_LIST_ELEMENTS: nat := 0x10_0000

  // ---- the allocator ----

  /** One answer of the guest's `cabi_realloc`: a pointer, or a trap. */
  datatype Reply = Refuse | At(ptr: u32)

  /** A granted request. */
  datatype Block = Block(ptr: nat, align: nat, size: nat)

  /** An allocator is the answers it is going to give, one for each request,
      and the requests it has granted so far. Quantifying over heaps
      quantifies over every behaviour of every allocator. */
  datatype Heap = Heap(replies: seq<Reply>, blocks: seq<Block>)

  datatype State = State(mem: bytes, heap: Heap)

  function Grow(h: Heap, align: nat, size: nat): (r: Result<(nat, Heap)>)
    ensures r.Ok? ==> r.value.0 < TWO_32
    ensures r.Ok? ==> r.value.1.blocks == h.blocks + [Block(r.value.0, align, size)]
  {
    if h.replies == [] || h.replies[0].Refuse? then Err(Rejected)
    else Ok((h.replies[0].ptr, Heap(h.replies[1..], h.blocks + [Block(h.replies[0].ptr, align, size)])))
  }

  // ---- bytes ----

  predicate InRange(m: bytes, p: nat, n: nat) {
    p + n <= |m|
  }

  function Write(m: bytes, p: nat, bs: bytes): (r: bytes)
    requires InRange(m, p, |bs|)
    ensures |r| == |m|
  {
    m[..p] + bs + m[p + |bs|..]
  }

  function Poke(st: State, p: nat, bs: bytes): Result<State> {
    if InRange(st.mem, p, |bs|) then Ok(st.(mem := Write(st.mem, p, bs))) else Err(InnerCheck)
  }

  function Peek(m: bytes, p: nat, n: nat): Result<bytes> {
    if InRange(m, p, n) then Ok(m[p..p + n]) else Err(InnerCheck)
  }

  // ---- storing ----

  function Store(st: State, p: nat, s: Shape, x: Sem): (r: Result<State>)
    ensures r.Ok? ==> |r.value.mem| == |st.mem|
    decreases s, 0
  {
    match s
    case Leaf(l) => if x.SInt? then StoreScalar(st, p, l, x.n) else Err(Rejected)
    case Text => if x.SText? then StoreText(st, p, x.bs) else Err(Rejected)
    case List(elem) => if x.SList? then StoreList(st, p, elem, x.elems) else Err(Rejected)
    case Product(fs) => if x.SProduct? then StoreProduct(st, p, fs, x.fields) else Err(Rejected)
    case Sum(cs) =>
      if x.SSum? then StoreSum(st, p, DiscBytes(|cs|), PayloadOffset(cs), cs, x.disc, x.payload) else Err(Rejected)
    case Bad => Err(Rejected)
  }

  function StoreScalar(st: State, p: nat, l: Scalar, n: nat): Result<State> {
    if Accepts(l, n) then Poke(st, p, LittleEndian(ScalarBytes(l), n)) else Err(Rejected)
  }

  /** The bytes go to a new block; their address and number go to `p`. */
  function StoreText(st: State, p: nat, bs: bytes): Result<State> {
    var (q, st1) :- PlaceText(st, bs);
    Poke(st1, p, LittleEndian(4, q) + LittleEndian(4, |bs|))
  }

  function StoreList(st: State, p: nat, elem: Shape, xs: seq<Sem>): (r: Result<State>)
    ensures r.Ok? ==> |r.value.mem| == |st.mem|
    decreases elem, 3
  {
    var (q, st1) :- PlaceList(st, elem, xs);
    Poke(st1, p, LittleEndian(4, q) + LittleEndian(4, |xs|))
  }

  /** A discriminant of b bytes and, `off` bytes further on, the payload. */
  function StoreSum(st: State, p: nat, b: nat, off: nat, cs: seq<Shape>, d: nat, x: Sem): (r: Result<State>)
    ensures r.Ok? ==> |r.value.mem| == |st.mem|
    decreases cs, 0
  {
    if d >= |cs| then Err(Rejected) else
    var st1 :- Poke(st, p, LittleEndian(b, d));
    Store(st1, p + off, cs[d], x)
  }

  function StoreProduct(st: State, p: nat, fs: seq<Shape>, xs: seq<Sem>): (r: Result<State>)
    ensures r.Ok? ==> |r.value.mem| == |st.mem|
    decreases fs, 1
  {
    if |fs| == |xs| then StoreFields(st, p, fs, xs, |fs|) else Err(Rejected)
  }

  /** The first n fields. */
  function StoreFields(st: State, p: nat, fs: seq<Shape>, xs: seq<Sem>, n: nat): (r: Result<State>)
    requires n <= |fs| == |xs|
    ensures r.Ok? ==> |r.value.mem| == |st.mem|
    decreases fs, 0, n
  {
    if n == 0 then Ok(st) else
    var st1 :- StoreFields(st, p, fs, xs, n - 1);
    Store(st1, p + FieldOffset(fs, n - 1), fs[n - 1], xs[n - 1])
  }

  /** The first n elements, one after the other from `p` on. */
  function StoreElems(st: State, p: nat, elem: Shape, xs: seq<Sem>, n: nat): (r: Result<State>)
    requires n <= |xs|
    ensures r.Ok? ==> |r.value.mem| == |st.mem|
    decreases elem, 1, n
  {
    if n == 0 then Ok(st) else
    var st1 :- StoreElems(st, p, elem, xs, n - 1);
    Store(st1, p + ElemsSize(elem, n - 1), elem, xs[n - 1])
  }

  /** Copies text into a new block and says where it is. */
  function PlaceText(st: State, bs: bytes): (r: Result<(nat, State)>)
    ensures r.Ok? ==> |r.value.1.mem| == |st.mem|
    ensures r.Ok? ==> |bs| < TWO_32 && r.value.0 < TWO_32
  {
    if |bs| >= TWO_32 then Err(Rejected) else
    var (q, h) :- Grow(st.heap, 1, |bs|);
    if InRange(st.mem, q, |bs|) then Ok((q, State(Write(st.mem, q, bs), h))) else Err(Rejected)
  }

  /** Stores the elements into a new block and says where it is. */
  function PlaceList(st: State, elem: Shape, xs: seq<Sem>): (r: Result<(nat, State)>)
    ensures r.Ok? ==> |r.value.1.mem| == |st.mem|
    ensures r.Ok? ==> |xs| < TWO_32 && r.value.0 < TWO_32
    decreases elem, 2, |xs|
  {
    if !Valid(elem) || Size(elem) >= TWO_32 || |xs| >= TWO_32 || ElemsSize(elem, |xs|) >= TWO_32 then Err(Rejected) else
    var (q, h) :- Grow(st.heap, Align(elem), ElemsSize(elem, |xs|));
    if !Aligned(q, Align(elem)) || !InRange(st.mem, q, ElemsSize(elem, |xs|)) then Err(Rejected) else
    var st1 :- StoreElems(st.(heap := h), q, elem, xs, |xs|);
    Ok((q, st1))
  }

  // ---- loading ----

  /** What a scalar of some shape reads as, from the bits found in memory. */
  function ReadScalar(s: Scalar, n: nat): Result<nat> {
    match s
    case BoolS => Ok(if n != 0 then 1 else 0)
    case CharS => if UnicodeScalar(n) then Ok(n) else Err(Rejected)
    case _ => Ok(n)
  }

  function Load(m: bytes, p: nat, s: Shape): Result<Sem>
    decreases s, 0
  {
    match s
    case Leaf(l) => LoadScalar(m, p, l)
    case Text => LoadTextRef(m, p)
    case List(elem) => LoadListRef(m, p, elem)
    case Product(fs) => LoadProduct(m, p, fs)
    case Sum(cs) => LoadSum(m, p, DiscBytes(|cs|), PayloadOffset(cs), cs)
    case Bad => Err(Rejected)
  }

  function LoadScalar(m: bytes, p: nat, l: Scalar): Result<Sem> {
    var bs :- Peek(m, p, ScalarBytes(l));
    var n :- ReadScalar(l, FromLittleEndian(bs));
    Ok(SInt(n))
  }

  function LoadTextRef(m: bytes, p: nat): Result<Sem> {
    var q :- Peek(m, p, 4);
    var n :- Peek(m, p + 4, 4);
    LoadText(m, FromLittleEndian(q), FromLittleEndian(n))
  }

  function LoadListRef(m: bytes, p: nat, elem: Shape): Result<Sem>
    decreases elem, 3
  {
    var q :- Peek(m, p, 4);
    var n :- Peek(m, p + 4, 4);
    LoadList(m, FromLittleEndian(q), FromLittleEndian(n), elem)
  }

  function LoadProduct(m: bytes, p: nat, fs: seq<Shape>): Result<Sem>
    decreases fs, 1
  {
    var xs :- LoadFields(m, p, fs, |fs|);
    Ok(SProduct(xs))
  }

  function LoadSum(m: bytes, p: nat, b: nat, off: nat, cs: seq<Shape>): Result<Sem>
    decreases cs, 0
  {
    var bs :- Peek(m, p, b);
    var d := FromLittleEndian(bs);
    if d >= |cs| then Err(Rejected) else
    var x :- Load(m, p + off, cs[d]);
    Ok(SSum(d, x))
  }

  function LoadFields(m: bytes, p: nat, fs: seq<Shape>, n: nat): (r: Result<seq<Sem>>)
    requires n <= |fs|
    ensures r.Ok? ==> |r.value| == n
    decreases fs, 0, n
  {
    if n == 0 then Ok([]) else
    var xs :- LoadFields(m, p, fs, n - 1);
    var x :- Load(m, p + FieldOffset(fs, n - 1), fs[n - 1]);
    Ok(xs + [x])
  }

  function LoadElems(m: bytes, p: nat, elem: Shape, n: nat): (r: Result<seq<Sem>>)
    ensures r.Ok? ==> |r.value| == n
    decreases elem, 1, n
  {
    if n == 0 then Ok([]) else
    var xs :- LoadElems(m, p, elem, n - 1);
    var x :- Load(m, p + ElemsSize(elem, n - 1), elem);
    Ok(xs + [x])
  }

  function LoadText(m: bytes, q: nat, n: nat): Result<Sem> {
    if InRange(m, q, n) && Utf8.Valid(m[q..q + n]) then Ok(SText(m[q..q + n])) else Err(Rejected)
  }

  function LoadList(m: bytes, q: nat, n: nat, elem: Shape): Result<Sem>
    decreases elem, 2, n
  {
    if || !Valid(elem) || Size(elem) >= TWO_32 || ElemsSize(elem, n) >= TWO_32 || n > MAX_LIST_ELEMENTS
       || !InRange(m, q, ElemsSize(elem, n)) || !Aligned(q, Align(elem))
    then Err(Rejected)
    else
      var xs :- LoadElems(m, q, elem, n);
      Ok(SList(xs))
  }

  // ---- what comes back ----

  /** A value lives in linear memory, or in a list of core values whose lists
      and text live in linear memory. */
  datatype Path = InMemory | InCore

  /** The bits of a scalar that survive: memory keeps the bytes of the scalar;
      a core value keeps a flags bitset whole. */
  function Kept(path: Path, s: Scalar, n: nat): nat {
    if path.InCore? && s.FlagsS? then n else Low(ScalarBytes(s), n)
  }

  /** What loading, or lifting, a stored value gives: the value with its
      integers cut to their width, unless some text is not UTF-8 or some list
      is too long to be loaded. */
  function Readback(path: Path, s: Shape, x: Sem): Result<Sem>
    decreases s, 0
  {
    match s
    case Leaf(l) => if x.SInt? then Ok(SInt(Kept(path, l, x.n))) else Err(Rejected)
    case Text => if x.SText? && Utf8.Valid(x.bs) then Ok(x) else Err(Rejected)
    case List(elem) => if x.SList? then ReadbackList(elem, x.elems) else Err(Rejected)
    case Product(fs) => if x.SProduct? then ReadbackProduct(path, fs, x.fields) else Err(Rejected)
    case Sum(cs) => if x.SSum? then ReadbackSum(path, cs, x.disc, x.payload) else Err(Rejected)
    case Bad => Err(Rejected)
  }

  function ReadbackList(elem: Shape, xs: seq<Sem>): Result<Sem>
    decreases elem, 2
  {
    if |xs| > MAX_LIST_ELEMENTS then Err(Rejected) else
    var ys :- ReadbackElems(elem, xs, |xs|);
    Ok(SList(ys))
  }

  function ReadbackProduct(path: Path, fs: seq<Shape>, xs: seq<Sem>): Result<Sem>
    decreases fs, 1
  {
    if |fs| != |xs| then Err(Rejected) else
    var ys :- ReadbackFields(path, fs, xs, |fs|);
    Ok(SProduct(ys))
  }

  function ReadbackSum(path: Path, cs: seq<Shape>, d: nat, x: Sem): Result<Sem>
    decreases cs, 0
  {
    if d >= |cs| then Err(Rejected) else
    var y :- Readback(path, cs[d], x);
    Ok(SSum(d, y))
  }

  function ReadbackFields(path: Path, fs: seq<Shape>, xs: seq<Sem>, n: nat): (r: Result<seq<Sem>>)
    requires n <= |fs| == |xs|
    ensures r.Ok? ==> |r.value| == n
    decreases fs, 0, n
  {
    if n == 0 then Ok([]) else
    var ys :- ReadbackFields(path, fs, xs, n - 1);
    var y :- Readback(path, fs[n - 1], xs[n - 1]);
    Ok(ys + [y])
  }

  function ReadbackElems(elem: Shape, xs: seq<Sem>, n: nat): (r: Result<seq<Sem>>)
    requires n <= |xs|
    ensures r.Ok? ==> |r.value| == n
    decreases elem, 1, n
  {
    if n == 0 then Ok([]) else
    var ys :- ReadbackElems(elem, xs, n - 1);
    var y :- Readback(InMemory, elem, xs[n - 1]);
    Ok(ys + [y])
  }

  // ---- the checked entry points ----

  /** The alignment and bounds that are checked once, before anything is read
      or written. */
  predicate Fits(m: bytes, p: nat, s: Shape) {
    Valid(s) && Aligned(p, Align(s)) && InRange(m, p, Size(s))
  }

  function StoreAt(st: State, p: nat, s: Shape, x: Sem): Result<State> {
    if Size(s) < TWO_32 && Fits(st.mem, p, s) then Store(st, p, s, x) else Err(Rejected)
  }

  function LoadAt(m: bytes, p: nat, s: Shape): Result<Sem> {
    if Size(s) < TWO_32 && Fits(m, p, s) then Load(m, p, s) else Err(Rejected)
  }
}
