/** The flat round trip: lifting what was lowered gives the value back, for any
    nesting of sums whose cases are joined to wider core types. */
module FlatRoundTrip {
  import opened Base
  import opened Shapes
  import opened Memory
  import opened MemoryFacts
  import opened MemoryRoundTrip
  import opened Flat

  /** Core values of the right kinds whose bits fit them. */
  predicate Typed(cvs: seq<CoreVal>, ks: seq<Kind>) {
    && |cvs| == |ks|
    && forall i :: 0 <= i < |ks| ==> cvs[i].kind == ks[i] && cvs[i].bits < KindSpan(ks[i])
  }

  /** LOWERING EMITS EXACTLY THE FLATTENED KINDS, and touches nothing but new
      blocks. */
  lemma {:induction false} LowerTyped(st: State, s: Shape, x: Sem, r: Lowered)
    requires Lower(st, s, x) == Ok(r)
    ensures Typed(r.cvs, Flatten(s))
    ensures OnlyChanges(st, r.st, 0, 0)
    decreases s, 0
  {
    match s
    case Leaf(l) =>
    case Text =>
      var (q, sa) := PlaceText(st, x.bs).value;
      PlaceTextChanges(st, x.bs, q, sa);
    case List(elem) =>
      var (q, sa) := PlaceList(st, elem, x.elems).value;
      PlaceListChanges(st, elem, x.elems, q, sa);
    case Product(fs) => LowerFieldsTyped(st, fs, x.fields, |fs|, r);
    case Sum(cs) =>
      var a := Lower(st, cs[x.disc], x.payload).value;
      LowerTyped(st, cs[x.disc], x.payload, a);
      JoinCovers(cs, |cs|, x.disc);
      WidenTyped(a.cvs, Flatten(cs[x.disc]), JoinCases(cs, |cs|));
  }

  lemma {:induction false} LowerFieldsTyped(st: State, fs: seq<Shape>, xs: seq<Sem>, n: nat, r: Lowered)
    requires n <= |fs| == |xs| && LowerFields(st, fs, xs, n) == Ok(r)
    ensures Typed(r.cvs, FlattenFields(fs, n))
    ensures OnlyChanges(st, r.st, 0, 0)
    decreases fs, 0, n
  {
    if n > 0 {
      var a := LowerFields(st, fs, xs, n - 1).value;
      var b := Lower(a.st, fs[n - 1], xs[n - 1]).value;
      LowerFieldsTyped(st, fs, xs, n - 1, a);
      LowerTyped(a.st, fs[n - 1], xs[n - 1], b);
      ChangesCompose(st, a.st, b.st, 0, 0, 0, 0, 0, 0);
    }
  }

  lemma WidenTyped(cvs: seq<CoreVal>, ks: seq<Kind>, joined: seq<Kind>)
    requires Typed(cvs, ks) && |ks| <= |joined|
    requires forall i :: 0 <= i < |ks| ==> Join(ks[i], joined[i]) == joined[i]
    ensures Typed(Widen(cvs, joined), joined)
    ensures Narrow(Widen(cvs, joined), ks) == cvs
  {
    forall i | 0 <= i < |joined|
      ensures Widen(cvs, joined)[i].kind == joined[i] && Widen(cvs, joined)[i].bits < KindSpan(joined[i])
    {
    }
  }

  lemma LiftScalarKept(l: Scalar, n: u64)
    requires Accepts(l, n)
    ensures LiftScalar(l, n) == Ok(Kept(InCore, l, n))
  {
  }

  /** Lifting, with any memory that holds the new blocks, gives `Readback`. */
  lemma {:induction false} LowerLift(st: State, s: Shape, x: Sem, r: Lowered, m: bytes)
    requires Lower(st, s, x) == Ok(r) && |r.cvs| == |Flatten(s)|
    requires Holds(m, st.heap, r.st, 0, 0)
    ensures Lift(m, s, r.cvs) == Readback(InCore, s, x)
    decreases s, 0
  {
    match s
    case Leaf(l) => LiftScalarKept(l, x.n);
    case Text =>
      var (q, sa) := PlaceText(st, x.bs).value;
      PlacedText(st, x.bs, q, sa, m);
    case List(elem) =>
      var (q, sa) := PlaceList(st, elem, x.elems).value;
      PlacedList(st, elem, x.elems, q, sa, m);
    case Product(fs) => LowerLiftFields(st, fs, x.fields, |fs|, r, m);
    case Sum(cs) => LowerLiftSum(st, cs, x.disc, x.payload, r, m);
  }

  lemma {:induction false} LowerLiftSum(st: State, cs: seq<Shape>, d: u32, x: Sem, r: Lowered, m: bytes)
    requires d < |cs| && LowerSum(st, cs, d, x) == Ok(r)
    requires Holds(m, st.heap, r.st, 0, 0)
    ensures LiftSum(m, cs, r.cvs) == ReadbackSum(InCore, cs, d, x)
    decreases cs, 0
  {
    var a := Lower(st, cs[d], x).value;
    var joined := JoinCases(cs, |cs|);
    LowerTyped(st, cs[d], x, a);
    JoinCovers(cs, |cs|, d);
    WidenTyped(a.cvs, Flatten(cs[d]), joined);
    assert r.cvs[1..] == Widen(a.cvs, joined);
    LowerLift(st, cs[d], x, a, m);
  }

  lemma {:induction false} LowerLiftFields(st: State, fs: seq<Shape>, xs: seq<Sem>, n: nat, r: Lowered, m: bytes)
    requires n <= |fs| == |xs| && LowerFields(st, fs, xs, n) == Ok(r) && |r.cvs| == |FlattenFields(fs, n)|
    requires Holds(m, st.heap, r.st, 0, 0)
    ensures LiftFields(m, fs, r.cvs, n) == ReadbackFields(InCore, fs, xs, n)
    decreases fs, 0, n
  {
    if n > 0 {
      var a := LowerFields(st, fs, xs, n - 1).value;
      var b := Lower(a.st, fs[n - 1], xs[n - 1]).value;
      LowerFieldsTyped(st, fs, xs, n - 1, a);
      LowerTyped(a.st, fs[n - 1], xs[n - 1], b);
      var k := |FlattenFields(fs, n - 1)|;
      assert r.cvs[..k] == a.cvs && r.cvs[k..] == b.cvs;
      EarlierHolds(m, st.heap, a.st, b.st, 0, 0, 0, 0, 0, 0);
      LaterHolds(m, st.heap, a.st.heap, b.st, 0, 0, 0, 0);
      LowerLiftFields(st, fs, xs, n - 1, a, m);
      LowerLift(a.st, fs[n - 1], xs[n - 1], b, m);
    }
  }

  /** THE FLAT ROUND TRIP, spilled or not. Whenever `LowerTop` succeeds and the
      allocator kept its contract, `LiftTop` gives `Readback`. */
  lemma LowerTopLiftTop(st: State, s: Shape, x: Sem, r: Lowered)
    requires LowerTop(st, s, x) == Ok(r) && Separated(st.heap, r.st.heap, 0, 0)
    ensures |r.cvs| == if Spills(s) then 1 else |Flatten(s)|
    ensures LiftTop(r.st.mem, s, r.cvs) == Readback(if Spills(s) then InMemory else InCore, s, x)
  {
    if Spills(s) {
      var (p, h) := Grow(st.heap, Align(s), Size(s)).value;
      var sa := st.(heap := h);
      StoreChanges(sa, p, s, x, r.st);
      assert r.st.heap.blocks[|st.heap.blocks|] == Block(p, Align(s), Size(s));
      StoreAtLoadAt(sa, p, s, x, r.st);
    } else {
      LowerTyped(st, s, x, r);
      LowerLift(st, s, x, r, r.st.mem);
    }
  }
}
