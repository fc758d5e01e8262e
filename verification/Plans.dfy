/** flat.go's entry points and plan.go: lowering and lifting of one parameter or
    result, with spilling, by the per-call tree walk and by plans compiled once.
    Both are proved to be the same reference function. */
module Plans {
  import opened Base
  import opened Shapes
  import opened Memory
  import opened MemoryFacts
  import opened Values
  import opened ValueFacts
  import opened Flat
  import opened FlatRoundTrip
  import opened Layout
  import opened Flattening
  import opened Footprint
  import opened Storing
  import opened Loading
  import opened Lowering
  import opened Lifting

  // ---- the reference on host values ----

  function PathOf(t: Type): Path {
    if Spills(Despec(t)) then InMemory else InCore
  }

  /** A value that is too wide is stored in a block of its own. */
  function LowerValue(st: State, t: Type, v: Value): Result<Lowered> {
    if !Valid(Despec(t)) then Err(Rejected) else
    var x :- Denote(PathOf(t), t, v);
    if Spills(Despec(t)) then Spill(st, Checked(t), x) else Lower(st, Despec(t), x)
  }

  function Width(t: Type): nat {
    if Spills(Despec(t)) then 1 else |Flatten(Despec(t))|
  }

  function LiftValue(m: bytes, t: Type, cvs: seq<CoreVal>): Result<Value>
    requires |cvs| == Width(t)
  {
    if !Valid(Despec(t)) then Err(Rejected)
    else if Spills(Despec(t)) then LoadValueAt(m, Low(4, cvs[0].bits), t)
    else
      var x :- Lift(m, Despec(t), cvs);
      Ok(Reify(InCore, t, x))
  }

  /** THE HOST-VALUE ROUND TRIP THROUGH CORE VALUES. For every type, value and
      well-behaved allocator, on both sides of the spill limit, lifting what was
      lowered gives the value back if and only if it is faithful. */
  lemma LoweredValueReturns(st: State, t: Type, v: Value, r: Lowered)
    requires LowerValue(st, t, v) == Ok(r) && Separated(st.heap, r.st.heap, 0, 0)
    ensures |r.cvs| == Width(t)
    ensures LiftValue(r.st.mem, t, r.cvs) == Ok(v) <==> Faithful(PathOf(t), t, v)
  {
    hide LowerValue, LiftValue, LowerTop, LiftTop, Readback, Reify, Despec, Denote, Faithful, Spills;
    LoweredTop(st, t, v, r);
    var x := Denote(PathOf(t), t, v).value;
    LowerTopLiftTop(st, Despec(t), x, r);
    LiftedTop(r.st.mem, t, r.cvs);
    ReturnedIffFaithful(PathOf(t), t, v);
  }

  lemma LoweredTop(st: State, t: Type, v: Value, r: Lowered)
    requires LowerValue(st, t, v) == Ok(r)
    ensures Denote(PathOf(t), t, v).Ok? && LowerTop(st, Despec(t), Denote(PathOf(t), t, v).value) == Ok(r)
    ensures Valid(Despec(t)) && (Spills(Despec(t)) ==> Checked(t) == Despec(t))
    ensures PathOf(t) == if Spills(Despec(t)) then InMemory else InCore
  {
    hide Lower, Flatten, Denote, Despec;
  }

  lemma LiftedTop(m: bytes, t: Type, cvs: seq<CoreVal>)
    requires Valid(Despec(t)) && (Spills(Despec(t)) ==> Checked(t) == Despec(t)) && |cvs| == Width(t)
    ensures var x := LiftTop(m, Despec(t), cvs);
      LiftValue(m, t, cvs) == if x.Ok? then Ok(Reify(PathOf(t), t, x.value)) else Err(x.fault)
  {
    hide Lift, Flatten, Reify, Despec;
  }

  // ---- lowering one value ----

  /** The outcome of spilling `v` to a block. */
  ghost predicate Spilled(r: Result<u32>, st: State, t: Type, v: Value, sb: State) {
    var x := Denote(InMemory, t, v);
    && (r.Ok? ==> x.Ok? && Spill(st, Checked(t), x.value) == Ok(Lowered([CoreVal(I32, r.value)], sb)))
    && (r.Err? && |st.mem| < TWO_32 ==> r.fault == Rejected && (x.Err? || Spill(st, Checked(t), x.value).Err?))
  }

  method SpillValue(v: Value, t: Type, mem: array<byte>, a: Allocator) returns (r: Result<u32>)
    modifies mem, a
    ensures Spilled(r, old(StateOf(mem, a)), t, v, StateOf(mem, a))
  {
    hide StoreValueAt, Spilled, Checked, IsAlignOf, IsSizeOf, Valid, Size, Align;
    ghost var st := StateOf(mem, a);
    var align := Alignment(t);
    var size := SizeOf(t);
    SpillRefused(st, t, v, align, size);
    if align.Err? || size.Err? {
      return Err(Rejected);
    }
    var p :- a.Grow(align.value, size.value);
    ghost var sa := StateOf(mem, a);
    var stored := StoreTop(mem, p, t, v, a);
    SpillStored(stored, st, t, v, p, align, size, sa, StateOf(mem, a));
    return if stored.Ok? then Ok(p) else Err(stored.fault);
  }

  lemma SpillRefused(st: State, t: Type, v: Value, align: Result<u32>, size: Result<u32>)
    requires IsAlignOf(align, Checked(t)) && IsSizeOf(size, Checked(t))
    ensures align.Err? || size.Err? || Grow(st.heap, align.value, size.value).Err? ==>
      forall sb :: Spilled(Err(Rejected), st, t, v, sb)
  {
  }

  lemma SpillStored(r: Result<()>, st: State, t: Type, v: Value, p: u32, align: Result<u32>, size: Result<u32>,
                    sa: State, sb: State)
    requires IsAlignOf(align, Checked(t)) && IsSizeOf(size, Checked(t)) && align.Ok? && size.Ok?
    requires Grow(st.heap, align.value, size.value) == Ok((p as nat, sa.heap)) && sa.mem == st.mem
    requires r.Ok? ==> StoreValueAt(sa, p, t, v) == Ok(sb)
    requires r.Err? && |st.mem| < TWO_32 ==> r.fault == Rejected && StoreValueAt(sa, p, t, v).Err?
    ensures Spilled(if r.Ok? then Ok(p) else Err(r.fault), st, t, v, sb)
  {
  }

  /** The outcome of appending what `v` lowers to. */
  ghost predicate Appended(r: Result<seq<CoreVal>>, dst: seq<CoreVal>, st: State, t: Type, v: Value, sb: State) {
    var x := LowerValue(st, t, v);
    && (r.Ok? ==> x.Ok? && r.value == dst + x.value.cvs && x.value.st == sb)
    && (r.Err? && |st.mem| < TWO_32 ==> r.fault == Rejected && x.Err?)
  }

  /** LowerFlatInto: the per-call tree walk. */
  method LowerFlatInto(dst: seq<CoreVal>, v: Value, t: Type, mem: array<byte>, a: Allocator)
    returns (r: Result<seq<CoreVal>>)
    modifies mem, a
    ensures Appended(r, dst, old(StateOf(mem, a)), t, v, StateOf(mem, a))
  {
    hide Appended, Spilled, LoweredAs, Despec, Valid, Flatten;
    ghost var st := StateOf(mem, a);
    if t.PrimT? && t.prim != Str {
      var cv := LowerPrimitiveCore(v, t.prim);
      PrimAppended(cv, dst, st, t.prim, v);
      return if cv.Ok? then Ok(dst + [cv.value]) else Err(cv.fault);
    }
    var flat := FlattenType(t);
    if flat.Err? {
      InvalidAppended(dst, st, t, v);
      return Err(Rejected);
    }
    if |flat.value| > MAX_FLAT_PARAMS {
      var p := SpillValue(v, t, mem, a);
      SpillAppended(p, dst, st, t, v, StateOf(mem, a));
      return if p.Ok? then Ok(dst + [CoreVal(I32, p.value)]) else Err(p.fault);
    }
    var cvs := LowerFlatImpl(v, t, mem, a);
    FlatAppended(cvs, dst, st, t, v, StateOf(mem, a));
    return if cvs.Ok? then Ok(dst + cvs.value) else cvs;
  }

  lemma PrimAppended(cv: Result<CoreVal>, dst: seq<CoreVal>, st: State, p: Prim, v: Value)
    requires p != Str
    requires var x := DenotePrim(p, v);
             if cv.Ok? then x == Ok(SInt(cv.value.bits)) && cv.value.kind ==
               ScalarKind(ScalarOf(p)) && Accepts(ScalarOf(p), cv.value.bits)
             else cv.fault == Rejected && x.Err?
    ensures Appended(if cv.Ok? then Ok(dst + [cv.value]) else Err(cv.fault), dst, st, PrimT(p), v, st)
  {
    assert Flatten(Despec(PrimT(p))) == [ScalarKind(ScalarOf(p))];
    if cv.Ok? {
      assert Lower(st, Leaf(ScalarOf(p)), SInt(cv.value.bits)) == Ok(Lowered([cv.value], st));
    }
  }

  lemma InvalidAppended(dst: seq<CoreVal>, st: State, t: Type, v: Value)
    requires !Valid(Despec(t))
    ensures forall sb :: Appended(Err(Rejected), dst, st, t, v, sb)
  {
  }

  lemma SpillAppended(p: Result<u32>, dst: seq<CoreVal>, st: State, t: Type, v: Value, sb: State)
    requires Valid(Despec(t)) && |Flatten(Despec(t))| > MAX_FLAT_PARAMS && Spilled(p, st, t, v, sb)
    ensures Appended(if p.Ok? then Ok(dst + [CoreVal(I32, p.value)]) else Err(p.fault), dst, st, t, v, sb)
  {
    hide Denote, Spill, Checked, Despec, Flatten, Valid;
  }

  lemma FlatAppended(cvs: Result<seq<CoreVal>>, dst: seq<CoreVal>, st: State, t: Type, v: Value, sb: State)
    requires Valid(Despec(t)) && |Flatten(Despec(t))| <= MAX_FLAT_PARAMS && LoweredAs(cvs, st, t, v, sb)
    ensures Appended(if cvs.Ok? then Ok(dst + cvs.value) else cvs, dst, st, t, v, sb)
  {
    hide Denote, Lower, Checked, Despec, Flatten, Valid;
  }

  // ---- compiled lowering ----

  /** LowerStep: a plan made once for a parameter type. */
  datatype LowerStep = LowerPrimitive(prim: Prim) | LowerString | LowerHandle | LowerComposite(t: Type, spills: bool)

  ghost predicate PlansLowering(s: LowerStep, t: Type) {
    match s
    case LowerPrimitive(p) => p != Str && t == PrimT(p)
    case LowerString => t == PrimT(Str)
    case LowerHandle => t == HandleT
    case LowerComposite(u, spills) => u == t && Valid(Despec(t)) && spills == Spills(Despec(t))
  }

  method CompileLower(t: Type) returns (s: Result<LowerStep>)
    ensures s.Ok? <==> Valid(Despec(t))
    ensures s.Ok? ==> PlansLowering(s.value, t)
  {
    hide Despec, Valid, Flatten;
    LeafValid(t);
    if t.PrimT? {
      return Ok(if t.prim == Str then LowerString else LowerPrimitive(t.prim));
    }
    if t.HandleT? {
      return Ok(LowerHandle);
    }
    var flat :- FlattenType(t);
    return Ok(LowerComposite(t, |flat| > MAX_FLAT_PARAMS));
  }

  lemma LeafValid(t: Type)
    ensures t.PrimT? || t.HandleT? ==> Valid(Despec(t))
  {
  }

  /** THE COMPILED PLAN REFINES THE TREE WALK: the same contract as
      `LowerFlatInto`, in values, memory, allocator and success. */
  method LowerStepLower(s: LowerStep, ghost t: Type, dst: seq<CoreVal>, v: Value, mem: array<byte>, a: Allocator)
    returns (r: Result<seq<CoreVal>>)
    requires PlansLowering(s, t)
    modifies mem, a
    ensures Appended(r, dst, old(StateOf(mem, a)), t, v, StateOf(mem, a))
  {
    hide Appended, Spilled, LoweredAs, Despec, Valid, Flatten;
    ghost var st := StateOf(mem, a);
    match s {
      case LowerPrimitive(p) =>
        var cv := LowerPrimitiveCore(v, p);
        PrimAppended(cv, dst, st, p, v);
        return if cv.Ok? then Ok(dst + [cv.value]) else Err(cv.fault);
      case LowerString =>
        TextFailures(dst, st, v);
        if !v.VString? {
          return Err(Rejected);
        }
        var placed := AllocStoreString(mem, v.s, a);
        TextAppended(placed, dst, st, v.s, StateOf(mem, a));
        return if placed.Ok? then Ok(dst + [CoreVal(I32, placed.value.0), CoreVal(I32, placed.value.1)])
          else Err(placed.fault);
      case LowerHandle =>
        HandleAppended(dst, st, v);
        if !v.VU32? {
          return Err(Rejected);
        }
        return Ok(dst + [CoreVal(I32, v.u)]);
      case LowerComposite(u, spills) =>
        if spills {
          var p := SpillValue(v, u, mem, a);
          SpillAppended(p, dst, st, t, v, StateOf(mem, a));
          return if p.Ok? then Ok(dst + [CoreVal(I32, p.value)]) else Err(p.fault);
        }
        var cvs := LowerFlatImpl(v, u, mem, a);
        FlatAppended(cvs, dst, st, t, v, StateOf(mem, a));
        return if cvs.Ok? then Ok(dst + cvs.value) else cvs;
    }
  }

  lemma TextFailures(dst: seq<CoreVal>, st: State, v: Value)
    ensures !v.VString? ==> Appended(Err(Rejected), dst, st, PrimT(Str), v, st)
  {
    assert Flatten(Despec(PrimT(Str))) == [I32, I32];
  }

  lemma TextAppended(r: Result<(u32, u32)>, dst: seq<CoreVal>, st: State, s: bytes, sb: State)
    requires var x := PlaceText(st, s[..Low(4, |s|)]);
             if r.Ok? then x == Ok((r.value.0, sb)) && r.value.1 == Low(4, |s|) else r.fault == Rejected && x.Err?
    ensures Appended(if r.Ok? then Ok(dst + [CoreVal(I32, r.value.0), CoreVal(I32, r.value.1)])
      else Err(r.fault), dst, st, PrimT(Str), VString(s), sb)
  {
    hide PlaceText;
    assert Flatten(Despec(PrimT(Str))) == [I32, I32];
    assert Denote(InCore, PrimT(Str), VString(s)) == Ok(SText(s[..Low(4, |s|)]));
  }

  lemma HandleAppended(dst: seq<CoreVal>, st: State, v: Value)
    ensures Appended(if v.VU32? then Ok(dst + [CoreVal(I32, v.u)]) else Err(Rejected), dst, st, HandleT, v, st)
  {
    assert Flatten(Despec(HandleT)) == [I32];
    if v.VU32? {
      assert Lower(st, Leaf(IntS(W4)), SInt(v.u)) == Ok(Lowered([CoreVal(I32, v.u)], st));
    }
  }

  // ---- lifting one value ----

  /** The outcome of lifting a value from core values. */
  ghost predicate Returns(r: Result<Value>, m: bytes, x: Result<Value>) {
    && (r.Ok? ==> x == r)
    && (r.Err? && |m| < TWO_32 ==> r.fault == Rejected && x.Err?)
  }

  /** LiftFlat. Values of other kinds than the flattened ones would panic. */
  method LiftFlat(vals: seq<CoreVal>, t: Type, mem: array<byte>) returns (r: Result<Value>)
    requires Valid(Despec(t)) ==>
      if Spills(Despec(t)) then |vals| == 1 ==> vals[0].kind == I32 else Kinds(vals) == Flatten(Despec(t))
    ensures |vals| == Width(t) ==> Returns(r, mem[..], LiftValue(mem[..], t, vals))
    ensures Spills(Despec(t)) && |vals| != 1 ==> r == Err(Rejected)
  {
    hide Lifted, Returns, LoadValueAt, Despec, Valid, Flatten;
    var flat := FlattenType(t);
    LiftRefused(mem[..], t, vals);
    if flat.Err? {
      return Err(Rejected);
    }
    if |flat.value| > MAX_FLAT_PARAMS {
      if |vals| != 1 {
        return Err(Rejected);
      }
      r := LoadTop(mem, AsI32(vals[0]), t);
      SpillLifted(r, mem[..], t, vals);
      return;
    }
    r := LiftFlatValues(vals, t, mem);
    FlatLifted(r, mem[..], t, vals);
  }

  /** Lifting from a slice of core values, through a raw iterator. */
  method LiftFlatValues(vals: seq<CoreVal>, t: Type, mem: array<byte>) returns (r: Result<Value>)
    requires Valid(Despec(t)) && Kinds(vals) == Flatten(Despec(t))
    ensures Lifted(r, mem[..], t, vals)
  {
    hide Lifted, Despec, Valid, Flatten;
    var vi := new ValueIter.Raw(vals);
    assert vals[0..0 + |vals|] == vals;
    r := LiftFlatImpl(vi, t, mem);
  }

  lemma LiftRefused(m: bytes, t: Type, vals: seq<CoreVal>)
    ensures !Valid(Despec(t)) && |vals| == Width(t) ==> Returns(Err(Rejected), m, LiftValue(m, t, vals))
  {
  }

  lemma SpillLifted(r: Result<Value>, m: bytes, t: Type, vals: seq<CoreVal>)
    requires Valid(Despec(t)) && Spills(Despec(t)) && |vals| == 1
    requires var x := LoadValueAt(m, Low(4, vals[0].bits), t);
             (r.Ok? ==> x == r) && (r.Err? && |m| < TWO_32 ==> r.fault == Rejected && x.Err?)
    ensures Returns(r, m, LiftValue(m, t, vals))
  {
  }

  lemma FlatLifted(r: Result<Value>, m: bytes, t: Type, vals: seq<CoreVal>)
    requires Valid(Despec(t)) && !Spills(Despec(t)) && Lifted(r, m, t, vals)
    ensures Returns(r, m, LiftValue(m, t, vals))
  {
  }

  // ---- compiled lifting of results ----

  /** A result that is wider than one core value is loaded from the pointer that
      the guest returned. */
  function LiftResultValue(m: bytes, t: Type, cvs: seq<CoreVal>): Result<Value>
    requires |cvs| == ResultWidth(t)
  {
    if !Valid(Despec(t)) then Err(Rejected)
    else if |Flatten(Despec(t))| > MAX_FLAT_RESULTS then LoadValueAt(m, Low(4, cvs[0].bits), t)
    else
      var x :- Lift(m, Despec(t), cvs);
      Ok(Reify(InCore, t, x))
  }

  function ResultWidth(t: Type): nat {
    if |Flatten(Despec(t))| > MAX_FLAT_RESULTS then 1 else |Flatten(Despec(t))|
  }

  /** The kinds of the core values that carry a result. */
  function ResultKinds(t: Type): (ks: seq<Kind>)
    ensures |ks| == ResultWidth(t)
  {
    if |Flatten(Despec(t))| > MAX_FLAT_RESULTS then [I32] else Flatten(Despec(t))
  }

  datatype LiftStep = LiftPrimitive(prim: Prim) | LiftHandle | LiftSpilled(t: Type) | LiftFlatAgg(t: Type)

  ghost predicate PlansLifting(s: LiftStep, t: Type) {
    match s
    case LiftPrimitive(p) => p != Str && t == PrimT(p)
    case LiftHandle => t == HandleT
    case LiftSpilled(u) => u == t && Valid(Despec(t)) && |Flatten(Despec(t))| > MAX_FLAT_RESULTS
    case LiftFlatAgg(u) => u == t && Valid(Despec(t)) && |Flatten(Despec(t))| <= MAX_FLAT_RESULTS
  }

  method CompileLift(t: Type) returns (s: Result<LiftStep>)
    ensures s.Ok? <==> Valid(Despec(t))
    ensures s.Ok? ==> PlansLifting(s.value, t)
  {
    hide Despec, Valid, Flatten;
    LeafValid(t);
    TextKinds();
    if t.PrimT? {
      return Ok(if t.prim == Str then LiftSpilled(t) else LiftPrimitive(t.prim));
    }
    if t.HandleT? {
      return Ok(LiftHandle);
    }
    var flat :- FlattenType(t);
    return Ok(if |flat| > MAX_FLAT_RESULTS then LiftSpilled(t) else LiftFlatAgg(t));
  }

  lemma TextKinds()
    ensures Flatten(Despec(PrimT(Str))) == [I32, I32]
  {
  }

  /** THE COMPILED PLAN REFINES load-if-wider-than-one-else-lift. */
  method LiftStepLift(s: LiftStep, ghost t: Type, vals: seq<CoreVal>, mem: array<byte>) returns (r: Result<Value>)
    requires PlansLifting(s, t) && Kinds(vals) == ResultKinds(t)
    ensures Returns(r, mem[..], LiftResultValue(mem[..], t, vals))
  {
    hide Lifted, Returns, LoadValueAt, Despec, Valid, Flatten, LiftResultValue;
    WordKinds(t);
    assert forall i :: 0 <= i < |vals| ==> Kinds(vals)[i] == vals[i].kind;
    match s {
      case LiftPrimitive(p) =>
        r := LiftScalarPrimitive(vals[0], p);
        PrimLifted(mem[..], vals[0], p);
        assert vals == [vals[0]];
        ResultLifted(r, mem[..], t, vals);
      case LiftHandle =>
        r := Ok(VU32(AsI32(vals[0])));
        HandleLifted(r, mem[..], vals);
      case LiftSpilled(u) =>
        r := LoadTop(mem, AsI32(vals[0]), u);
        ResultLoaded(r, mem[..], t, vals);
      case LiftFlatAgg(u) =>
        r := LiftFlatValues(vals, u, mem);
        ResultLifted(r, mem[..], t, vals);
    }
  }

  lemma WordKinds(t: Type)
    ensures t.PrimT? && t.prim != Str ==> Flatten(Despec(t)) == [ScalarKind(ScalarOf(t.prim))] && Valid(Despec(t))
    ensures t.HandleT? ==> Flatten(Despec(t)) == [I32] && Valid(Despec(t))
  {
  }

  lemma ResultLifted(r: Result<Value>, m: bytes, t: Type, vals: seq<CoreVal>)
    requires Valid(Despec(t)) && |Flatten(Despec(t))| <= MAX_FLAT_RESULTS && Lifted(r, m, t, vals)
    ensures Returns(r, m, LiftResultValue(m, t, vals))
  {
  }

  lemma HandleLifted(r: Result<Value>, m: bytes, vals: seq<CoreVal>)
    requires |vals| == 1 && r == Ok(VU32(Low(4, vals[0].bits)))
    ensures Returns(r, m, LiftResultValue(m, HandleT, vals))
  {
  }

  lemma ResultLoaded(r: Result<Value>, m: bytes, t: Type, vals: seq<CoreVal>)
    requires Valid(Despec(t)) && |Flatten(Despec(t))| > MAX_FLAT_RESULTS && |vals| == 1
    requires var x := LoadValueAt(m, Low(4, vals[0].bits), t);
             (r.Ok? ==> x == r) && (r.Err? && |m| < TWO_32 ==> r.fault == Rejected && x.Err?)
    ensures Returns(r, m, LiftResultValue(m, t, vals))
  {
  }
}
