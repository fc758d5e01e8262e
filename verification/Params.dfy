/** Whole parameter lists: the signature that FlattenFunc gives, the export side
    that lowers a list (instance.go) and the import side that lifts it
    (host_import.go). A list is passed like the tuple of its parameters, on both
    sides of the limit of 16 core values. */
module Params {
  import opened Base
  import opened Shapes
  import opened ShapeFacts
  import opened Memory
  import opened MemoryFacts
  import opened Values
  import opened Flat
  import opened FlatRoundTrip
  import opened Layout
  import opened Flattening
  import opened Storing
  import opened Loading
  import opened Lowering
  import opened Lifting
  import opened Plans
  import opened ValueFacts

  // ---- signatures ----

  datatype Context = ToLift | ToLower | OtherContext

  /** The core types of a parameter list. */
  function ParamKinds(ts: seq<Type>): seq<Kind> {
    if Spills(Despec(TupleT(ts))) then [I32] else Flatten(Despec(TupleT(ts)))
  }

  /** The core signature of a function: wide parameters go behind one pointer;
      wide results behind a returned pointer when lifting, and behind a pointer
      that the caller passes last when lowering. */
  function CoreSignature(ps: seq<Type>, rs: seq<Type>, ctx: Context): Result<(seq<Kind>, seq<Kind>)> {
    var results := Flatten(Despec(TupleT(rs)));
    if !Valid(Despec(TupleT(ps))) || !Valid(Despec(TupleT(rs))) then Err(Rejected)
    else if |results| <= MAX_FLAT_RESULTS then Ok((ParamKinds(ps), results))
    else if ctx.ToLift? then Ok((ParamKinds(ps), [I32]))
    else if ctx.ToLower? then Ok((ParamKinds(ps) + [I32], []))
    else Err(Rejected)
  }

  method FlattenFunc(ps: seq<Type>, rs: seq<Type>, ctx: Context) returns (r: Result<(seq<Kind>, seq<Kind>)>)
    ensures r.Ok? <==> CoreSignature(ps, rs, ctx).Ok?
    ensures r.Ok? ==> r == CoreSignature(ps, rs, ctx)
    ensures r.Ok? ==>
      var pf, rf := FlattenFields(DespecAll(ps), |ps|), FlattenFields(DespecAll(rs), |rs|);
      && r.value.0 == (if |pf| <= 16 then pf else [I32]) + (if |rf| > 1 && ctx == ToLower then [I32] else [])
      && r.value.1 == if |rf| <= 1 then rf else if ctx == ToLift then [I32] else []
    ensures r.Ok? <==>
      && (forall i :: 0 <= i < |ps| ==> Valid(Despec(ps[i]))) && (forall i :: 0 <= i < |rs| ==> Valid(Despec(rs[i])))
      && (|FlattenFields(DespecAll(rs), |rs|)| <= 1 || ctx == ToLift || ctx == ToLower)
  {
    hide Valid, Flatten;
    TupleShape(ps);
    TupleShape(rs);
    var params :- FlattenTypes(ps);
    var results :- FlattenTypes(rs);
    if |params| > MAX_FLAT_PARAMS {
      params := [I32];
    }
    if |results| > MAX_FLAT_RESULTS {
      if ctx == ToLift {
        results := [I32];
      } else if ctx == ToLower {
        params := params + [I32];
        results := [];
      } else {
        return Err(Rejected);
      }
    }
    return Ok((params, results));
  }

  lemma TupleShape(ts: seq<Type>)
    ensures Despec(TupleT(ts)) == Product(DespecAll(ts))
    ensures Flatten(Despec(TupleT(ts))) == FlattenFields(DespecAll(ts), |ts|)
    ensures Valid(Despec(TupleT(ts))) <==> forall i :: 0 <= i < |ts| ==> Valid(Despec(ts[i]))
  {
    hide Despec;
    TupleIs(ts);
    assert forall i :: 0 <= i < |ts| ==> DespecAll(ts)[i] == Despec(ts[i]);
  }

  lemma TupleIs(ts: seq<Type>)
    ensures Despec(TupleT(ts)) == Product(DespecAll(ts))
  {
  }

  /** A parameter spills on its own only if the whole list does. */
  lemma SingleSpills(ts: seq<Type>, i: nat)
    requires i < |ts| && Spills(Despec(ts[i]))
    ensures Spills(Despec(TupleT(ts)))
  {
    hide Flatten, Despec;
    TupleShape(ts);
    NextFlat(DespecAll(ts), i);
    assert DespecAll(ts)[i] == Despec(ts[i]);
    FlatPrefix(DespecAll(ts), i + 1, |ts|);
  }

  lemma NextFlat(fs: seq<Shape>, i: nat)
    requires i < |fs|
    ensures FlattenFields(fs, i + 1) == FlattenFields(fs, i) + Flatten(fs[i])
  {
  }

  // ---- the round trip of a list ----

  /** THE PARAMETER LIST ROUND TRIP. Lowered by the exporter and lifted by the
      importer, on either side of the limit, a list comes back equal exactly
      when it is faithful, and the core values have exactly the kinds of the
      signature, so that the count check never fires. */
  lemma ParamsReturn(st: State, ps: seq<Type>, vs: seq<Value>, r: Lowered)
    requires LowerValue(st, TupleT(ps), VList(vs)) == Ok(r) && Separated(st.heap, r.st.heap, 0, 0)
    ensures Kinds(r.cvs) == ParamKinds(ps)
    ensures LiftValue(r.st.mem, TupleT(ps), r.cvs) == Ok(VList(vs)) <==>
      Faithful(PathOf(TupleT(ps)), TupleT(ps), VList(vs))
  {
    hide LowerValue, LiftValue, Faithful, Despec, Denote;
    LoweredValueReturns(st, TupleT(ps), VList(vs), r);
    LoweredKinds(st, TupleT(ps), VList(vs), r);
  }

  // ---- the depth check of a spilled list ----

  /** Lowering as it would be without the depth check that storing makes. */
  function LowerAnyDepth(st: State, t: Type, v: Value): Result<Lowered> {
    if !Valid(Despec(t)) then Err(Rejected) else
    var x :- Denote(PathOf(t), t, v);
    if Spills(Despec(t)) then Spill(st, Despec(t), x) else Lower(st, Despec(t), x)
  }

  /** WHERE SPILLING SHOWS. A list that could be lowered is refused for its depth
      if and only if it spills and one of its types, which becomes an element of
      a tuple, is one level too deep for that. A list that does not spill is
      never refused, however deep its types are. */
  lemma RefusedForDepthIff(st: State, ps: seq<Type>, vs: seq<Value>)
    requires LowerAnyDepth(st, TupleT(ps), VList(vs)).Ok?
    ensures LowerValue(st, TupleT(ps), VList(vs)).Err?
       <==> Spills(Despec(TupleT(ps))) && exists i :: 0 <= i < |ps| && !RefWithin(ps[i], 0)
    ensures LowerValue(st, TupleT(ps), VList(vs)).Ok? ==>
      LowerValue(st, TupleT(ps), VList(vs)) == LowerAnyDepth(st, TupleT(ps), VList(vs))
  {
    hide Lower, Denote, Flatten, Despec, RefWithin, StoreAt;
    TupleDepth(ps);
  }

  /** Whatever the values and the state, such a list is refused. */
  lemma TooDeepRefused(st: State, ps: seq<Type>, vs: seq<Value>, i: nat)
    requires i < |ps| && !RefWithin(ps[i], 0) && Spills(Despec(TupleT(ps)))
    ensures LowerValue(st, TupleT(ps), VList(vs)).Err?
  {
    hide Lower, Denote, Flatten, Despec, RefWithin, StoreAt;
    TupleDepth(ps);
  }

  lemma TupleDepth(ps: seq<Type>)
    ensures Checked(TupleT(ps)) == if forall i :: 0 <= i < |ps| ==> RefWithin(ps[i], 0) then Despec(TupleT(ps)) else Bad
  {
    hide Despec;
  }

  /** n one-element tuples around a u32, and a value of that type. */
  function Nest(n: nat): Type {
    if n == 0 then PrimT(U32) else TupleT([Nest(n - 1)])
  }

  function NestValue(n: nat, u: u32): Value {
    if n == 0 then VU32(u) else VList([NestValue(n - 1, u)])
  }

  lemma {:induction false} NestFacts(path: Path, n: nat, u: u32, depth: nat)
    ensures Valid(Despec(Nest(n))) && Flatten(Despec(Nest(n))) == [I32]
    ensures Denote(path, Nest(n), NestValue(n, u)).Ok?
    ensures n > 0 ==> (Within(Nest(n), depth) <==> depth + n <= MAX_TYPE_DEPTH + 1)
    ensures Nest(n).PrimT? <==> n == 0
    decreases n
  {
    if n > 0 {
      NestFacts(path, n - 1, u, depth + 1);
      NestOnce(path, Nest(n - 1), NestValue(n - 1, u));
    }
  }

  lemma NestOnce(path: Path, t: Type, v: Value)
    requires Denote(path, t, v).Ok?
    ensures Valid(Despec(TupleT([t]))) <==> Valid(Despec(t))
    ensures Flatten(Despec(TupleT([t]))) == Flatten(Despec(t))
    ensures Denote(path, TupleT([t]), VList([v])) == Ok(SProduct([Denote(path, t, v).value]))
  {
    hide Flatten, Despec, Denote, Valid;
    TupleShape([t]);
    assert DespecAll([t])[0] == Despec(t);
    OneField(DespecAll([t]));
    OneElement(path, t, v);
  }

  lemma OneField(fs: seq<Shape>)
    requires |fs| == 1
    ensures FlattenFields(fs, 1) == Flatten(fs[0])
  {
    assert FlattenFields(fs, 0) == [];
  }

  lemma OneElement(path: Path, t: Type, v: Value)
    requires Denote(path, t, v).Ok?
    ensures Denote(path, TupleT([t]), VList([v])) == Ok(SProduct([Denote(path, t, v).value]))
  {
    var x := Denote(path, t, v).value;
    assert DenoteAll(path, [t], [v], 0) == Ok([]);
    assert [t][0] == t && [v][0] == v && [] + [x] == [x];
    assert DenoteAll(path, [t], [v], 1) == Ok([x]);
  }

  /** A list for each side: a type 65 deep passes the depth check on its own and
      lowers to one core value when it is alone; behind 16 more parameters the
      list spills and is refused. */
  lemma DepthOnBothSides(st: State, u: u32)
    ensures Within(Nest(65), 0) && !RefWithin(Nest(65), 0)
    ensures LowerValue(st, TupleT([Nest(65)]), VList([NestValue(65, u)])).Ok?
    ensures var ps := [Nest(65)] + seq(16, i => PrimT(U32)); var vs := [NestValue(65, u)] + seq(16, i => VU32(u));
      && Valid(Despec(TupleT(ps))) && Spills(Despec(TupleT(ps)))
      && (forall i :: 0 <= i < 17 ==> Within(ps[i], 0) && Denote(InMemory, ps[i], vs[i]).Ok?)
      && LowerValue(st, TupleT(ps), VList(vs)).Err?
  {
    hide Despec, Flatten, Denote, LowerValue, Within, Valid;
    NestFacts(InMemory, 65, u, 0);
    NestFacts(InMemory, 65, u, 1);
    NestFacts(InMemory, 0, u, 0);
    var ps := [Nest(65)] + seq(16, i => PrimT(U32));
    TupleShape(ps);
    var fs := DespecAll(ps);
    forall i | 0 <= i < 17 ensures fs[i] == Despec(ps[i]) && |Flatten(fs[i])| == 1 && Valid(Despec(ps[i])) {
      assert ps[i] == if i == 0 then Nest(65) else Nest(0);
    }
    EachOne(fs, 17);
    TooDeepRefused(st, ps, [NestValue(65, u)] + seq(16, i => VU32(u)), 0);
    PrimWithin();
    NestLowers(st, 65, u);
  }

  lemma PrimWithin()
    ensures Within(PrimT(U32), 0) && Nest(0) == PrimT(U32)
  {
  }

  lemma {:induction false} EachOne(fs: seq<Shape>, n: nat)
    requires n <= |fs| && forall i :: 0 <= i < n ==> |Flatten(fs[i])| == 1
    ensures |FlattenFields(fs, n)| == n
  {
    hide Flatten;
    if n == 0 {
      NoFields(fs);
    } else {
      EachOne(fs, n - 1);
      NextFlat(fs, n - 1);
    }
  }

  lemma NoFields(fs: seq<Shape>)
    ensures FlattenFields(fs, 0) == []
  {
  }

  /** However deep, a list of one such parameter is lowered. */
  lemma NestLowers(st: State, n: nat, u: u32)
    ensures LowerValue(st, TupleT([Nest(n)]), VList([NestValue(n, u)])).Ok?
  {
    hide Despec, Flatten, Denote, Lower;
    NestFacts(InCore, n, u, 0);
    NestOnce(InCore, Nest(n), NestValue(n, u));
    NestLower(st, n + 1, u);
    assert Nest(n + 1) == TupleT([Nest(n)]) && NestValue(n + 1, u) == VList([NestValue(n, u)]);
  }

  lemma {:induction false} NestLower(st: State, n: nat, u: u32)
    ensures Denote(InCore, Nest(n), NestValue(n, u)).Ok?
    ensures Lower(st, Despec(Nest(n)), Denote(InCore, Nest(n), NestValue(n, u)).value).Ok?
  {
    if n > 0 {
      NestLower(st, n - 1, u);
      OneElement(InCore, Nest(n - 1), NestValue(n - 1, u));
      TupleShape([Nest(n - 1)]);
      var fs := DespecAll([Nest(n - 1)]);
      var x := Denote(InCore, Nest(n - 1), NestValue(n - 1, u)).value;
      assert fs[0] == Despec(Nest(n - 1));
      assert LowerFields(st, fs, [x], 0) == Ok(Lowered([], st));
      assert LowerFields(st, fs, [x], 1).Ok?;
    }
  }

  lemma LoweredKinds(st: State, t: Type, v: Value, r: Lowered)
    requires LowerValue(st, t, v) == Ok(r)
    ensures Kinds(r.cvs) == if Spills(Despec(t)) then [I32] else Flatten(Despec(t))
  {
    hide Lower, Flatten, Denote, Despec, Store;
    LoweredTop(st, t, v, r);
    if !Spills(Despec(t)) {
      LowerTyped(st, Despec(t), Denote(InCore, t, v).value, r);
    }
  }

  // ---- the export side ----

  /** computeBoundExportABI: one plan for each parameter, and whether the list
      spills. */
  datatype ExportABI = ExportABI(steps: seq<Result<LowerStep>>, spills: bool)

  ghost predicate BoundTo(abi: ExportABI, ts: seq<Type>) {
    && |abi.steps| == |ts|
    && (forall i :: 0 <= i < |ts| ==> (abi.steps[i].Ok? <==> Valid(Despec(ts[i]))))
    && (forall i :: 0 <= i < |ts| && abi.steps[i].Ok? ==> PlansLowering(abi.steps[i].value, ts[i]))
    && (Valid(Despec(TupleT(ts))) ==> abi.spills == Spills(Despec(TupleT(ts))))
  }

  method ComputeBoundExportABI(ts: seq<Type>) returns (abi: ExportABI)
    ensures BoundTo(abi, ts)
  {
    hide Valid, Flatten, Despec, PlansLowering;
    TupleShape(ts);
    var steps: seq<Result<LowerStep>> := [];
    var rawFlat := 0;
    for i := 0 to |ts|
      invariant |steps| == i
      invariant forall j :: 0 <= j < i ==> (steps[j].Ok? <==> Valid(Despec(ts[j])))
      invariant forall j :: 0 <= j < i && steps[j].Ok? ==> PlansLowering(steps[j].value, ts[j])
      invariant Valid(Despec(TupleT(ts))) ==> rawFlat == |FlattenFields(DespecAll(ts), i)|
    {
      var step := CompileLower(ts[i]);
      steps := steps + [step];
      var flat := FlattenType(ts[i]);
      NextFlat(DespecAll(ts), i);
      assert DespecAll(ts)[i] == Despec(ts[i]);
      if flat.Ok? {
        rawFlat := rawFlat + |flat.value|;
      }
    }
    return ExportABI(steps, rawFlat > MAX_FLAT_PARAMS);
  }

  /** lowerParams: a list is lowered exactly as the tuple of its parameters. */
  method LowerParams(abi: ExportABI, ts: seq<Type>, vs: seq<Value>, mem: array<byte>,
                     a: Allocator) returns (r: Result<seq<CoreVal>>)
    requires BoundTo(abi, ts)
    modifies mem, a
    ensures Appended(r, [], old(StateOf(mem, a)), TupleT(ts), VList(vs), StateOf(mem, a))
  {
    hide Valid, Flatten, Despec, PlansLowering, Appended, LowerValue, Spilled, DespecAll;
    ghost var st := StateOf(mem, a);
    TupleShape(ts);
    CountWrong(st, ts, vs);
    if |vs| != |ts| {
      return Err(Rejected);
    }
    if abi.spills {
      for i := 0 to |ts|
        invariant StateOf(mem, a) == st
        invariant forall j :: 0 <= j < i ==> abi.steps[j].Ok?
      {
        if abi.steps[i].Err? {
          InvalidAppended([], st, TupleT(ts), VList(vs));
          return Err(Rejected);
        }
      }
      var p := SpillValue(VList(vs), TupleT(ts), mem, a);
      SpillAppended(p, [], st, TupleT(ts), VList(vs), StateOf(mem, a));
      assert p.Ok? ==> [] + [CoreVal(I32, p.value)] == [CoreVal(I32, p.value)];
      return if p.Ok? then Ok([CoreVal(I32, p.value)]) else Err(p.fault);
    }
    r := LowerEachParam(abi, ts, vs, mem, a);
  }

  lemma CountWrong(st: State, ts: seq<Type>, vs: seq<Value>)
    ensures |vs| != |ts| ==> Appended(Err(Rejected), [], st, TupleT(ts), VList(vs), st)
  {
  }

  /** The loop of lowerParams. */
  method LowerEachParam(abi: ExportABI, ts: seq<Type>, vs: seq<Value>, mem: array<byte>,
                        a: Allocator) returns (r: Result<seq<CoreVal>>)
    requires BoundTo(abi, ts) && !abi.spills && |vs| == |ts|
    modifies mem, a
    ensures Appended(r, [], old(StateOf(mem, a)), TupleT(ts), VList(vs), StateOf(mem, a))
  {
    hide Valid, Flatten, Despec, PlansLowering, Appended, LoweredAs, Lowering.FieldsSoFar, DespecAll;
    ghost var st, t, valid := StateOf(mem, a), TupleT(ts), Valid(Despec(TupleT(ts)));
    TupleShape(ts);
    Lowering.FieldsBegin(st, t, ts, VList(vs));
    var cvs: seq<CoreVal> := [];
    for i := 0 to |ts|
      invariant forall j :: 0 <= j < i ==> abi.steps[j].Ok?
      invariant |mem[..]| == |st.mem|
      invariant valid ==> Lowering.FieldsSoFar(st, ts, vs, i, cvs, StateOf(mem, a))
    {
      ghost var sa := StateOf(mem, a);
      if abi.steps[i].Err? {
        InvalidAppended([], st, t, VList(vs));
        return Err(Rejected);
      }
      r := LowerStepLower(abi.steps[i].value, ts[i], cvs, vs[i], mem, a);
      if valid {
        ParamLowered(r, st, ts, vs, i, cvs, sa, StateOf(mem, a));
      } else {
        ParamInvalid(r, cvs, sa, st, ts[i], vs[i], t, VList(vs), StateOf(mem, a));
      }
      if r.Err? {
        return;
      }
      cvs := r.value;
    }
    Lowering.FieldsFinished(st, t, ts, vs, cvs, StateOf(mem, a));
    FlatAppended(Ok(cvs), [], st, t, VList(vs), StateOf(mem, a));
    assert [] + cvs == cvs;
    return Ok(cvs);
  }

  /** One parameter lowered by its own plan, after the first i. */
  lemma ParamLowered(r: Result<seq<CoreVal>>, st: State, ts: seq<Type>, vs: seq<Value>, i: nat, cvs: seq<CoreVal>,
                     sa: State, sb: State)
    requires Valid(Despec(TupleT(ts))) && !Spills(Despec(TupleT(ts))) && i < |ts| == |vs|
    requires |sa.mem| == |st.mem| && Lowering.FieldsSoFar(st, ts, vs, i, cvs, sa)
      && Appended(r, cvs, sa, ts[i], vs[i], sb)
    ensures r.Ok? ==> Lowering.FieldsSoFar(st, ts, vs, i + 1, r.value, sb)
    ensures r.Err? ==> Appended(r, [], st, TupleT(ts), VList(vs), sb)
  {
    hide Appended, Despec, Valid, Lowering.FieldsSoFar, LoweredAs, Flatten;
    if Spills(Despec(ts[i])) {
      SingleSpills(ts, i);
    }
    TupleShape(ts);
    Unappended(r, cvs, sa, ts[i], vs[i], sb);
    if r.Ok? {
      FieldLowered(Ok(r.value[|cvs|..]), st, TupleT(ts), ts, vs, i, cvs, sa, sb);
    } else {
      FieldLowered(r, st, TupleT(ts), ts, vs, i, cvs, sa, sb);
      FlatAppended(r, [], st, TupleT(ts), VList(vs), sb);
    }
  }

  /** What a parameter that does not spill appends is what it lowers to. */
  lemma Unappended(r: Result<seq<CoreVal>>, dst: seq<CoreVal>, st: State, t: Type, v: Value, sb: State)
    requires Valid(Despec(t)) && !Spills(Despec(t)) && Appended(r, dst, st, t, v, sb)
    ensures r.Ok? ==> |r.value| >= |dst| && r.value == dst + r.value[|dst|..] && LoweredAs(Ok(r.value[|dst|..]), st, t,
      v, sb)
    ensures r.Err? ==> LoweredAs(r, st, t, v, sb)
  {
    hide Denote, Lower, Despec, Valid, Flatten;
  }

  lemma ParamInvalid(r: Result<seq<CoreVal>>, dst: seq<CoreVal>, sa: State, st: State, pt: Type, pv: Value,
                     t: Type, v: Value, sb: State)
    requires !Valid(Despec(t)) && Appended(r, dst, sa, pt, pv, sb) && |sa.mem| == |st.mem|
    ensures r.Err? ==> Appended(r, [], st, t, v, sb)
  {
    hide Denote, Lower, Spill, Despec, Valid, Flatten;
  }

  // ---- the import side ----

  /** The raw bits on the core stack, tagged with the kinds they are read at. */
  function Tagged(stack: seq<u64>, ks: seq<Kind>): (cvs: seq<CoreVal>)
    requires |ks| <= |stack|
    ensures Kinds(cvs) == ks
  {
    seq(|ks|, i requires 0 <= i < |ks| => CoreVal(ks[i], stack[i]))
  }

  /** The exporter's bits, tagged by the importer, are the exporter's values. */
  lemma TaggedBits(cvs: seq<CoreVal>, ks: seq<Kind>)
    requires Kinds(cvs) == ks
    ensures Tagged(seq(|cvs|, i requires 0 <= i < |cvs| => cvs[i].bits), ks) == cvs
  {
    forall i | 0 <= i < |cvs| ensures cvs[i].kind == ks[i] {
      assert Kinds(cvs)[i] == ks[i];
    }
  }

  /** The outcome of lifting a list of arguments. */
  ghost predicate ArgsReturned(r: Result<seq<Value>>, m: bytes, x: Result<Value>) {
    && (r.Ok? ==> x == Ok(VList(r.value)))
    && (r.Err? && |m| < TWO_32 ==> r.fault == Rejected && x.Err?)
  }

  /** liftHostArgsPlanned, for a list that does not spill: parameter by
      parameter from a moving position on the stack. */
  method LiftHostArgs(ts: seq<Type>, stack: seq<u64>, mem: array<byte>) returns (r: Result<seq<Value>>)
    requires Valid(Despec(TupleT(ts))) && !Spills(Despec(TupleT(ts)))
    ensures var ks := Flatten(Despec(TupleT(ts)));
      if |ks| <= |stack| then ArgsReturned(r, mem[..], LiftValue(mem[..], TupleT(ts), Tagged(stack, ks))) else r.Err?
  {
    hide Valid, Flatten, Despec, Lifted, Lifting.FieldsSoFar, Returns, LiftValue;
    TupleShape(ts);
    ghost var m, t, ks := mem[..], TupleT(ts), Flatten(Despec(TupleT(ts)));
    ghost var cvs := if |ks| <= |stack| then Tagged(stack, ks) else [];
    ghost var fs := DespecAll(ts);
    Lifting.FieldsBegin(m, ts, cvs);
    var args, pos := [], 0;
    for i := 0 to |ts|
      invariant pos == |FlattenFields(fs, i)| <= |stack|
      invariant |ks| <= |stack| ==> Lifting.FieldsSoFar(m, ts, i, cvs, args)
    {
      assert fs[i] == Despec(ts[i]);
      NextFlat(fs, i);
      FlatPrefix(fs, i, |ts|);
      FlatPrefix(fs, i + 1, |ts|);
      if Spills(Despec(ts[i])) {
        SingleSpills(ts, i);
      }
      var flat := FlattenType(ts[i]);
      if pos + |flat.value| > |stack| {
        return Err(Rejected);
      }
      var own := Tagged(stack[pos..], flat.value);
      var v := LiftFlat(own, ts[i], mem);
      if |ks| <= |stack| {
        OwnWindow(stack, ks, pos, flat.value);
        ReturnedLifted(v, m, ts[i], own);
        FieldLifted(v, m, t, ts, i, cvs, args);
      }
      if v.Err? {
        if |ks| <= |stack| {
          ArgsLifted(Err(v.fault), Err(v.fault), m, t, cvs);
        }
        return Err(v.fault);
      }
      args := args + [v.value];
      pos := pos + |flat.value|;
    }
    Lifting.FieldsFinished(m, t, ts, cvs, args);
    ArgsLifted(Ok(args), Ok(VList(args)), m, t, cvs);
    return Ok(args);
  }

  /** The values of one parameter are a window of the values of all. */
  lemma OwnWindow(stack: seq<u64>, ks: seq<Kind>, pos: nat, own: seq<Kind>)
    requires pos + |own| <= |ks| <= |stack| && ks[pos..pos + |own|] == own
    ensures Tagged(stack[pos..], own) == Tagged(stack, ks)[pos..pos + |own|]
  {
    assert forall k :: 0 <= k < |own| ==> own[k] == ks[pos + k];
  }

  lemma ReturnedLifted(r: Result<Value>, m: bytes, t: Type, cvs: seq<CoreVal>)
    requires Valid(Despec(t)) && !Spills(Despec(t)) && |cvs| == |Flatten(Despec(t))|
      && Returns(r, m, LiftValue(m, t, cvs))
    ensures Lifted(r, m, t, cvs)
  {
    hide Flatten, Despec, Lift, Reify, Valid;
  }

  lemma ArgsLifted(r: Result<seq<Value>>, v: Result<Value>, m: bytes, t: Type, cvs: seq<CoreVal>)
    requires Valid(Despec(t)) && !Spills(Despec(t)) && Lifted(v, m, t, cvs)
    requires v == if r.Ok? then Ok(VList(r.value)) else Err(r.fault)
    ensures ArgsReturned(r, m, LiftValue(m, t, cvs))
  {
    hide Flatten, Despec, Lift, Reify, Valid;
  }

  /** liftHostArgsSpilled: the tuple of the parameters, loaded from the pointer
      that the caller passed. */
  method LiftHostArgsSpilled(ts: seq<Type>, ptr: u32, mem: array<byte>) returns (r: Result<seq<Value>>)
    requires Valid(Despec(TupleT(ts))) && Spills(Despec(TupleT(ts)))
    ensures ArgsReturned(r, mem[..], LiftValue(mem[..], TupleT(ts), [CoreVal(I32, ptr)]))
  {
    hide Valid, Flatten, Despec, LoadAt;
    var v :- LoadTop(mem, ptr, TupleT(ts));
    TupleLoaded(mem[..], ptr, ts);
    return Ok(v.vs);
  }

  /** What is loaded as a tuple is a list of as many values. */
  lemma TupleLoaded(m: bytes, p: nat, ts: seq<Type>)
    requires LoadValueAt(m, p, TupleT(ts)).Ok?
    ensures LoadValueAt(m, p, TupleT(ts)).value.VList?
    ensures |LoadValueAt(m, p, TupleT(ts)).value.vs| == |ts|
  {
    var s := Checked(TupleT(ts));
    TupleShape(ts);
    assert Valid(s);
    assert s == Product(DespecAll(ts));
    assert LoadAt(m, p, s) == Load(m, p, s) == LoadProduct(m, p, DespecAll(ts));
  }

  // ---- results ----

  /** A wide result is encoded in memory, a narrow one in a core value. */
  function ResultPath(t: Type): Path {
    if |Flatten(Despec(t))| > MAX_FLAT_RESULTS then InMemory else InCore
  }

  /** What a host result becomes: bytes behind the out-pointer when it is wider
      than one core value, or that value. */
  function LowerResultValue(st: State, t: Type, v: Value, out: nat): Result<Lowered> {
    if !Valid(Despec(t)) then Err(Rejected)
    else if ResultPath(t).InMemory? then
      var sb :- StoreValueAt(st, out, t, v);
      Ok(Lowered([], sb))
    else LowerValue(st, t, v)
  }

  /** lowerHostResultsPlanned, for one result. */
  method LowerHostResult(t: Type, v: Value, out: u32, mem: array<byte>, a: Allocator) returns (r: Result<seq<CoreVal>>)
    requires Valid(Despec(t))
    modifies mem, a
    ensures var x := LowerResultValue(old(StateOf(mem, a)), t, v, out);
      && (r.Ok? ==> x == Ok(Lowered(r.value, StateOf(mem, a))))
      && (r.Err? && mem.Length < TWO_32 ==> r.fault == Rejected && x.Err?)
  {
    hide LowerValue, StoreValueAt, Valid, Despec, Flatten;
    var flat := FlattenType(t);
    if |flat.value| > MAX_FLAT_RESULTS {
      var s :- StoreTop(mem, out, t, v, a);
      return Ok([]);
    }
    r := LowerFlatInto([], v, t, mem, a);
    if r.Ok? {
      ghost var x := LowerValue(old(StateOf(mem, a)), t, v).value;
      assert [] + x.cvs == x.cvs && x == Lowered(r.value, StateOf(mem, a));
    }
  }

  /** THE RESULT ROUND TRIP. A result that a host function returned, wide or not,
      is lifted back equal by the side that receives it if and only if it is
      faithful. */
  lemma ResultReturns(st: State, t: Type, v: Value, out: u32, r: Lowered)
    requires LowerResultValue(st, t, v, out) == Ok(r)
    requires if ResultPath(t).InMemory? then Separated(st.heap, r.st.heap, out, Size(Despec(t)))
      else Separated(st.heap, r.st.heap, 0, 0)
    ensures var cvs := if ResultPath(t).InMemory? then [CoreVal(I32, out)] else r.cvs;
      |cvs| == ResultWidth(t) && (LiftResultValue(r.st.mem, t, cvs) == Ok(v) <==> Faithful(ResultPath(t), t, v))
  {
    hide Despec, Flatten, Faithful, Lift, Reify, LowerValue, StoreValueAt, LoadValueAt, Size, Valid;
    if ResultPath(t).InMemory? {
      StoredValueReturns(st, out, t, v, r.st);
      Pow256Values();
    } else {
      NarrowNotSpilled(st, t, v, r);
      LoweredValueReturns(st, t, v, r);
    }
  }

  lemma NarrowNotSpilled(st: State, t: Type, v: Value, r: Lowered)
    requires LowerValue(st, t, v) == Ok(r) && !ResultPath(t).InMemory?
    ensures PathOf(t) == ResultPath(t) && Plans.Width(t) == ResultWidth(t)
    ensures |r.cvs| == Plans.Width(t) ==> LiftResultValue(r.st.mem, t, r.cvs) == LiftValue(r.st.mem, t, r.cvs)
  {
    hide Despec, Flatten, Lift, Reify;
  }
}
