/** layout.go, the validator: descriptors that refer to each other through type
    indices, and the walk that layout, loading and storing make before they
    recurse. `Flatten` has no such guard of its own. */
module TypeTable {
  import opened Base
  import opened Values

  /** A type reference: inline, by index, or with neither. */
  datatype Ref = Inline(prim: Prim) | Index(i: u32) | Neither

  /** A case payload or a result arm may be missing. */
  datatype Arm = NoType | OfType(ref: Ref)

  datatype Desc =
    | PrimD(prim: Prim)
    | ListD(elem: Ref)
    | RecordD(fields: seq<Ref>)
    | TupleD(elems: seq<Ref>)
    | VariantD(cases: seq<Arm>)
    | OptionD(some: Ref)
    | ResultD(ok: Arm, err: Arm)
    | FlagsD(labels: nat)
    | EnumD(names: u32)
    | HandleD
    | OtherD

  /** What the resolver answers; an index outside the map resolves to nil. */
  type Table = map<u32, Desc>

  /** The references the walk follows: none inside a list. */
  function Refs(d: Desc): seq<Ref> {
    match d
    case RecordD(rs) => rs
    case TupleD(rs) => rs
    case VariantD(arms) => ArmRefs(arms)
    case OptionD(r) => [r]
    case ResultD(ok, err) => ArmRefs([ok, err])
    case _ => []
  }

  function ArmRefs(arms: seq<Arm>): seq<Ref> {
    if arms == [] then [] else (if arms[0].OfType? then [arms[0].ref] else []) + ArmRefs(arms[1..])
  }

  // ---- what acceptance means ----

  /** `path` is a chain of indices, each a reference of the descriptor before it. */
  predicate Chain(table: Table, d: Desc, path: seq<u32>)
    decreases |path|
  {
    path == [] || (Index(path[0]) in Refs(d) && path[0] in table && Chain(table, table[path[0]], path[1..]))
  }

  /** The descriptor at the end of a chain. */
  function Target(table: Table, d: Desc, path: seq<u32>): Desc
    requires Chain(table, d, path)
    decreases |path|
  {
    if path == [] then d else Target(table, table[path[0]], path[1..])
  }

  predicate Resolves(table: Table, d: Desc) {
    forall r :: r in Refs(d) ==> r.Inline? || (r.Index? && r.i in table)
  }

  /** Every chain is at most 64 long and ends where all references resolve. */
  ghost predicate WellFormed(table: Table, d: Desc) {
    forall path :: Chain(table, d, path) ==> |path| <= MAX_TYPE_DEPTH && Resolves(table, Target(table, d, path))
  }

  /** The same, walked without any set of visited indices. */
  predicate Accepts(table: Table, d: Desc, depth: nat)
    decreases MAX_TYPE_DEPTH + 1 - depth, 1
  {
    depth <= MAX_TYPE_DEPTH && forall r :: r in Refs(d) ==> RefAccepted(table, r, depth)
  }

  predicate RefAccepted(table: Table, r: Ref, depth: nat)
    requires depth <= MAX_TYPE_DEPTH
    decreases MAX_TYPE_DEPTH + 1 - depth, 0
  {
    match r
    case Inline(_) => true
    case Index(i) => i in table && Accepts(table, table[i], depth + 1)
    case Neither => false
  }

  lemma {:induction false} AcceptedAlong(table: Table, d: Desc, path: seq<u32>, depth: nat)
    requires Chain(table, d, path) && Accepts(table, d, depth)
    ensures depth + |path| <= MAX_TYPE_DEPTH && Accepts(table, Target(table, d, path), depth + |path|)
    decreases |path|
  {
    if path != [] {
      assert RefAccepted(table, Index(path[0]), depth);
      AcceptedAlong(table, table[path[0]], path[1..], depth + 1);
    }
  }

  lemma AcceptedResolves(table: Table, d: Desc, depth: nat)
    requires Accepts(table, d, depth)
    ensures Resolves(table, d)
  {
    forall r | r in Refs(d) ensures r.Inline? || (r.Index? && r.i in table) {
      assert RefAccepted(table, r, depth);
    }
  }

  /** What is not accepted has a chain that is too long or ends badly. */
  lemma {:induction false} Offender(table: Table, d: Desc, depth: nat) returns (path: seq<u32>)
    requires !Accepts(table, d, depth) && depth <= MAX_TYPE_DEPTH + 1
    ensures Chain(table, d, path)
    ensures depth + |path| > MAX_TYPE_DEPTH || !Resolves(table, Target(table, d, path))
    decreases MAX_TYPE_DEPTH + 1 - depth
  {
    path := [];
    if depth <= MAX_TYPE_DEPTH {
      var r :| r in Refs(d) && !RefAccepted(table, r, depth);
      if r.Index? && r.i in table {
        var rest := Offender(table, table[r.i], depth + 1);
        path := [r.i] + rest;
        assert path[1..] == rest;
      }
    }
  }

  /** The walk accepts exactly the well-formed descriptors. */
  lemma AcceptsExactly(table: Table, d: Desc)
    ensures Accepts(table, d, 0) <==> WellFormed(table, d)
  {
    if Accepts(table, d, 0) {
      forall path | Chain(table, d, path)
        ensures |path| <= MAX_TYPE_DEPTH && Resolves(table, Target(table, d, path))
      {
        AcceptedAlong(table, d, path, 0);
        AcceptedResolves(table, Target(table, d, path), |path|);
      }
    } else {
      var path := Offender(table, d, 0);
    }
  }

  /** On a cycle nothing is accepted, at any depth. */
  lemma {:induction false} CycleRefused(table: Table, d: Desc, cycle: seq<u32>, depth: nat)
    requires cycle != [] && Chain(table, d, cycle) && Target(table, d, cycle) == d
    ensures !Accepts(table, d, depth)
    decreases MAX_TYPE_DEPTH + 1 - depth
  {
    if Accepts(table, d, depth) {
      AcceptedAlong(table, d, cycle, depth);
      CycleRefused(table, d, cycle, depth + |cycle|);
    }
  }

  lemma {:induction false} ChainExtends(table: Table, d: Desc, path: seq<u32>, i: u32)
    requires Chain(table, d, path) && Index(i) in Refs(Target(table, d, path)) && i in table
    ensures Chain(table, d, path + [i]) && Target(table, d, path + [i]) == table[i]
    decreases |path|
  {
    if path == [] {
      assert ([] + [i])[1..] == [];
    } else {
      ChainExtends(table, table[path[0]], path[1..], i);
      assert (path + [i])[1..] == path[1..] + [i];
    }
  }

  lemma {:induction false} ChainSuffix(table: Table, d: Desc, path: seq<u32>, j: nat)
    requires Chain(table, d, path) && j < |path|
    ensures path[j] in table && Chain(table, table[path[j]], path[j + 1..])
    ensures Target(table, table[path[j]], path[j + 1..]) == Target(table, d, path)
    decreases |path|
  {
    if j > 0 {
      ChainSuffix(table, table[path[0]], path[1..], j - 1);
      assert path[1..][j..] == path[j + 1..];
    }
  }

  /** An index that is already on the stack cannot be accepted below it. */
  lemma VisitedRefused(table: Table, d: Desc, stack: seq<u32>, i: u32, depth: nat)
    requires Chain(table, d, stack) && Index(i) in Refs(Target(table, d, stack)) && i in stack
    ensures i in table && !Accepts(table, table[i], depth)
  {
    var j :| 0 <= j < |stack| && stack[j] == i;
    ChainSuffix(table, d, stack, j);
    ChainExtends(table, table[i], stack[j + 1..], i);
    CycleRefused(table, table[i], stack[j + 1..] + [i], depth);
  }

  // ---- the code ----

  class Visiting {
    var on: set<u32>

    constructor ()
      ensures on == {}
    {
      on := {};
    }
  }

  ghost function Elems(stack: seq<u32>): set<u32> {
    set i | i in stack
  }

  lemma ElemsSnoc(stack: seq<u32>, i: u32)
    ensures Elems(stack + [i]) == Elems(stack) + {i}
    ensures i in Elems(stack) <==> i in stack
  {
  }

  /** VALIDATION IS EXACT, on any table, cyclic or not. */
  method ValidateLayoutType(table: Table, d: Desc) returns (ok: bool)
    ensures ok <==> WellFormed(table, d)
  {
    var visiting := new Visiting();
    assert Elems([]) == {};
    ok := ValidateLayoutDesc(table, d, 0, visiting, d, []);
    AcceptsExactly(table, d);
  }

  /** The visiting set holds the indices on the way from the root. It never
      changes a verdict: what it refuses is refused at the depth limit too. */
  method ValidateLayoutDesc(table: Table, d: Desc, depth: nat, visiting: Visiting, ghost root: Desc,
                            ghost stack: seq<u32>) returns (ok: bool)
    requires Chain(table, root, stack) && Target(table, root, stack) == d && visiting.on == Elems(stack)
    requires depth <= MAX_TYPE_DEPTH + 1
    modifies visiting
    ensures visiting.on == old(visiting.on)
    ensures ok <==> Accepts(table, d, depth)
    decreases MAX_TYPE_DEPTH + 1 - depth, 1
  {
    if depth > MAX_TYPE_DEPTH {
      return false;
    }
    var refs := Refs(d);
    for k := 0 to |refs|
      invariant visiting.on == old(visiting.on)
      invariant forall j :: 0 <= j < k ==> RefAccepted(table, refs[j], depth)
    {
      var good := ValidateRef(table, refs[k], depth, visiting, root, stack);
      if !good {
        return false;
      }
    }
    return true;
  }

  method ValidateRef(table: Table, r: Ref, depth: nat, visiting: Visiting, ghost root: Desc,
                     ghost stack: seq<u32>) returns (ok: bool)
    requires Chain(table, root, stack) && visiting.on == Elems(stack)
    requires r in Refs(Target(table, root, stack)) && depth <= MAX_TYPE_DEPTH
    modifies visiting
    ensures visiting.on == old(visiting.on)
    ensures ok <==> RefAccepted(table, r, depth)
    decreases MAX_TYPE_DEPTH + 1 - depth, 0
  {
    hide Elems, Target, Chain, Refs, Accepts;
    if r.Inline? {
      return true;
    }
    if r.Neither? {
      return false;
    }
    ElemsSnoc(stack, r.i);
    if r.i in visiting.on {
      VisitedRefused(table, root, stack, r.i, depth + 1);
      return false;
    }
    if r.i !in table {
      return false;
    }
    ChainExtends(table, root, stack, r.i);
    visiting.on := visiting.on + {r.i};
    ok := ValidateLayoutDesc(table, table[r.i], depth + 1, visiting, root, stack + [r.i]);
    visiting.on := visiting.on - {r.i};
  }

  // ---- what acceptance is for ----

  /** The tree below an accepted descriptor. The recursion ends because it was
      accepted; so do the unchecked size, alignment and flatten recursions, which
      make the same calls. What a list holds plays no part in them. */
  function Tree(table: Table, d: Desc, depth: nat): Type
    requires Accepts(table, d, depth)
    decreases MAX_TYPE_DEPTH + 1 - depth, 2
  {
    match d
    case PrimD(p) => PrimT(p)
    case ListD(_) => ListT(PrimT(U8))
    case RecordD(rs) => RecordT(Trees(table, rs, depth))
    case TupleD(rs) => TupleT(Trees(table, rs, depth))
    case VariantD(arms) =>
      ArmRefsAll(arms);
      VariantT(seq(|arms|, k requires 0 <= k < |arms| => ArmTree(table, arms[k], depth)))
    case OptionD(r) => OptionT(RefTree(table, r, depth))
    case ResultD(ok, err) =>
      ArmRefsAll([ok, err]);
      assert [ok, err][0] == ok && [ok, err][1] == err;
      ResultT(ArmTree(table, ok, depth), ArmTree(table, err, depth))
    case FlagsD(n) => FlagsT(n)
    case EnumD(n) => EnumT(n)
    case HandleD => HandleT
    case OtherD => OtherT
  }

  function Trees(table: Table, rs: seq<Ref>, depth: nat): (ts: seq<Type>)
    requires depth <= MAX_TYPE_DEPTH && forall r :: r in rs ==> RefAccepted(table, r, depth)
    ensures |ts| == |rs|
    decreases MAX_TYPE_DEPTH + 1 - depth, 1
  {
    seq(|rs|, k requires 0 <= k < |rs| => RefTree(table, rs[k], depth))
  }

  function ArmTree(table: Table, a: Arm, depth: nat): Case
    requires depth <= MAX_TYPE_DEPTH && (a.OfType? ==> RefAccepted(table, a.ref, depth))
    decreases MAX_TYPE_DEPTH + 1 - depth, 1
  {
    if a.OfType? then Carrying(RefTree(table, a.ref, depth)) else Empty
  }

  function RefTree(table: Table, r: Ref, depth: nat): Type
    requires depth <= MAX_TYPE_DEPTH && RefAccepted(table, r, depth)
    decreases MAX_TYPE_DEPTH + 1 - depth, 0
  {
    match r
    case Inline(p) => PrimT(p)
    case Index(i) => Tree(table, table[i], depth + 1)
  }

  lemma {:induction false} ArmRefsAll(arms: seq<Arm>)
    ensures forall k :: 0 <= k < |arms| && arms[k].OfType? ==> arms[k].ref in ArmRefs(arms)
  {
    if arms != [] {
      ArmRefsAll(arms[1..]);
      forall k | 0 <= k < |arms| && arms[k].OfType? ensures arms[k].ref in ArmRefs(arms) {
        if k > 0 {
          assert arms[1..][k - 1] == arms[k];
        }
      }
    }
  }

  /** The tree of an accepted descriptor passes the depth check on trees. */
  lemma {:induction false} TreeWithin(table: Table, d: Desc, depth: nat)
    requires Accepts(table, d, depth)
    ensures Within(Tree(table, d, depth), depth)
    decreases MAX_TYPE_DEPTH + 1 - depth, 3
  {
    match d
    case RecordD(rs) => TreesWithin(table, rs, depth);
    case TupleD(rs) => TreesWithin(table, rs, depth);
    case VariantD(arms) =>
      ArmRefsAll(arms);
      forall k | 0 <= k < |arms| ensures CaseWithin(ArmTree(table, arms[k], depth), depth) {
        ArmTreeWithin(table, arms[k], depth);
      }
    case OptionD(r) =>
      assert r in Refs(d);
      RefTreeWithin(table, r, depth);
    case ResultD(ok, err) =>
      ArmRefsAll([ok, err]);
      assert [ok, err][0] == ok && [ok, err][1] == err;
      ArmTreeWithin(table, ok, depth);
      ArmTreeWithin(table, err, depth);
    case _ =>
  }

  lemma {:induction false} TreesWithin(table: Table, rs: seq<Ref>, depth: nat)
    requires depth <= MAX_TYPE_DEPTH && forall r :: r in rs ==> RefAccepted(table, r, depth)
    ensures forall k :: 0 <= k < |rs| ==> RefWithin(Trees(table, rs, depth)[k], depth)
    decreases MAX_TYPE_DEPTH + 1 - depth, 2
  {
    forall k | 0 <= k < |rs| ensures RefWithin(RefTree(table, rs[k], depth), depth) {
      RefTreeWithin(table, rs[k], depth);
    }
  }

  lemma {:induction false} ArmTreeWithin(table: Table, a: Arm, depth: nat)
    requires depth <= MAX_TYPE_DEPTH && (a.OfType? ==> RefAccepted(table, a.ref, depth))
    ensures CaseWithin(ArmTree(table, a, depth), depth)
    decreases MAX_TYPE_DEPTH + 1 - depth, 2
  {
    if a.OfType? {
      RefTreeWithin(table, a.ref, depth);
    }
  }

  lemma {:induction false} RefTreeWithin(table: Table, r: Ref, depth: nat)
    requires depth <= MAX_TYPE_DEPTH && RefAccepted(table, r, depth)
    ensures RefWithin(RefTree(table, r, depth), depth)
    decreases MAX_TYPE_DEPTH + 1 - depth, 1
  {
    if r.Index? {
      TreeWithin(table, table[r.i], depth + 1);
    }
  }
}
