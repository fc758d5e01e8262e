/** flatten.go: the core types of a type, computed position by position over
    the cases, and of a whole function signature with its spill rules. */
module Flattening {
  import opened Base
  import opened Shapes
  import opened Values
  import opened Flat
  import opened Layout

  // ---- the join of several core types ----

  /** The pairwise `Join` of the first n, from left to right. */
  function JoinAll(ks: seq<Kind>, n: nat): Kind
    requires 0 < n <= |ks|
  {
    if n == 1 then ks[0] else Join(JoinAll(ks, n - 1), ks[n - 1])
  }

  lemma {:induction false} JoinAllCases(ks: seq<Kind>, n: nat)
    requires 0 < n <= |ks|
    ensures JoinAll(ks, n)
         == if forall i :: 0 <= i < n ==> ks[i] == ks[0] then ks[0]
            else if forall i :: 0 <= i < n ==> ks[i] == I32 || ks[i] == F32 then I32
            else I64
  {
    if n > 1 {
      JoinAllCases(ks, n - 1);
    }
  }

  /** The one-pass join with its two flags is the pairwise join. */
  method JoinCoreTypes(types: seq<Kind>) returns (k: Kind)
    ensures k == if types == [] then I32 else JoinAll(types, |types|)
    ensures types != [] && (forall i :: 0 <= i < |types| ==> types[i] == types[0]) ==> k == types[0]
    ensures (exists i :: 0 <= i < |types| && types[i] != types[0]) ==>
      k == if forall i :: 0 <= i < |types| ==> types[i] == I32 || types[i] == F32 then I32 else I64
  {
    if |types| == 0 {
      return I32;
    }
    var all := types[0];
    var allSame, allI32OrF32 := true, true;
    for i := 0 to |types|
      invariant allSame <==> forall j :: 0 <= j < i ==> types[j] == all
      invariant allI32OrF32 <==> forall j :: 0 <= j < i ==> types[j] == I32 || types[j] == F32
    {
      if types[i] != all {
        allSame := false;
      }
      if types[i] != I32 && types[i] != F32 {
        allI32OrF32 := false;
      }
    }
    JoinAllCases(types, |types|);
    if allSame {
      return all;
    }
    if allI32OrF32 {
      return I32;
    }
    return I64;
  }

  /** The kinds that the first n cases have at position i. */
  function Candidates(flats: seq<seq<Kind>>, n: nat, i: nat): seq<Kind>
    requires n <= |flats|
  {
    if n == 0 then [] else Candidates(flats, n - 1, i) + (if i < |flats[n - 1]| then [flats[n - 1][i]] else [])
  }

  /** Folding `JoinFlats` over the cases, as `JoinCases` does. */
  function FoldFlats(flats: seq<seq<Kind>>, n: nat): seq<Kind>
    requires n <= |flats|
  {
    if n == 0 then [] else JoinFlats(FoldFlats(flats, n - 1), flats[n - 1])
  }

  lemma {:induction false} JoinAllSnoc(ks: seq<Kind>, k: Kind, n: nat)
    requires 0 < n <= |ks|
    ensures JoinAll(ks + [k], n) == JoinAll(ks, n)
  {
    if n > 1 {
      JoinAllSnoc(ks, k, n - 1);
    }
  }

  /** Joining the candidates of each position is joining the cases one after
      the other. */
  lemma {:induction false} CandidatesJoin(flats: seq<seq<Kind>>, n: nat, i: nat)
    requires n <= |flats|
    ensures Candidates(flats, n, i) != [] <==> i < |FoldFlats(flats, n)|
    ensures i < |FoldFlats(flats, n)| ==>
      FoldFlats(flats, n)[i] == JoinAll(Candidates(flats, n, i), |Candidates(flats, n, i)|)
  {
    hide Candidates, FoldFlats, JoinAll, JoinFlats, Join;
    if n == 0 {
      NoCases(flats, i);
    } else {
      CandidatesJoin(flats, n - 1, i);
      OneCaseMore(flats, n, i);
      JoinFlatsAt(FoldFlats(flats, n - 1), flats[n - 1], i);
      if i < |flats[n - 1]| {
        JoinOneMore(Candidates(flats, n - 1, i), flats[n - 1][i]);
      }
    }
  }

  lemma NoCases(flats: seq<seq<Kind>>, i: nat)
    ensures Candidates(flats, 0, i) == [] && FoldFlats(flats, 0) == []
  {
  }

  lemma OneCaseMore(flats: seq<seq<Kind>>, n: nat, i: nat)
    requires 0 < n <= |flats|
    ensures FoldFlats(flats, n) == JoinFlats(FoldFlats(flats, n - 1), flats[n - 1])
    ensures i < |flats[n - 1]| ==> Candidates(flats, n, i) == Candidates(flats, n - 1, i) + [flats[n - 1][i]]
    ensures i >= |flats[n - 1]| ==> Candidates(flats, n, i) == Candidates(flats, n - 1, i)
  {
  }

  /** What a position of two joined cases holds. */
  lemma JoinFlatsAt(a: seq<Kind>, b: seq<Kind>, i: nat)
    ensures i < |JoinFlats(a, b)| <==> i < |a| || i < |b|
    ensures i < |JoinFlats(a, b)| ==>
      JoinFlats(a, b)[i] == if i < |a| && i < |b| then Join(a[i], b[i]) else if i < |a| then a[i] else b[i]
  {
  }

  /** One candidate more. */
  lemma JoinOneMore(c: seq<Kind>, k: Kind)
    ensures JoinAll(c + [k], |c| + 1) == if c == [] then k else Join(JoinAll(c, |c|), k)
  {
    if c != [] {
      JoinAllSnoc(c, k, |c|);
    }
  }

  /** The position-by-position loops of flattenVariant and flattenResult. */
  method JoinByPosition(flats: seq<seq<Kind>>) returns (joined: seq<Kind>)
    ensures joined == FoldFlats(flats, |flats|)
  {
    var maxLen := 0;
    for j := 0 to |flats|
      invariant maxLen == |FoldFlats(flats, j)|
    {
      if |flats[j]| > maxLen {
        maxLen := |flats[j]|;
      }
    }
    joined := [];
    for i := 0 to maxLen
      invariant joined == FoldFlats(flats, |flats|)[..i]
    {
      var candidates := [];
      for j := 0 to |flats|
        invariant candidates == Candidates(flats, j, i)
      {
        if i < |flats[j]| {
          candidates := candidates + [flats[j][i]];
        }
      }
      CandidatesJoin(flats, |flats|, i);
      var k := JoinCoreTypes(candidates);
      joined := joined + [k];
    }
  }

  // ---- types ----

  function FlattenPrimitive(p: Prim): seq<Kind> {
    match p
    case Bool => [I32]
    case U8 | U16 | U32 | S8 | S16 | S32 => [I32]
    case S64 | U64 => [I64]
    case Float32 => [F32]
    case Float64 => [F64]
    case Char => [I32]
    case Str => [I32, I32]
    case ErrorContext => [I32]
  }

  /** `r` is the flattening of `s`, or an error when `s` is invalid. */
  predicate IsFlatOf(r: Result<seq<Kind>>, s: Shape) {
    (r.Ok? <==> Valid(s)) && (r.Ok? ==> r.value == Flatten(s))
  }

  method FlattenType(t: Type) returns (r: Result<seq<Kind>>)
    ensures IsFlatOf(r, Despec(t))
    ensures t == PrimT(Float32) ==> r == Ok([F32])
    ensures t == PrimT(Float64) ==> r == Ok([F64])
    ensures t == PrimT(S64) || t == PrimT(U64) ==> r == Ok([I64])
    ensures t == PrimT(Str) || t.ListT? ==> r == Ok([I32, I32])
    ensures t.PrimT? && t.prim != Float32 && t.prim != Float64 && t.prim != S64 && t.prim != U64 && t.prim != Str ==>
      r == Ok([I32])
    ensures t.HandleT? || (t.FlagsT? && 0 < t.labels <= 32) || (t.EnumT? && t.names > 0) ==> r == Ok([I32])
    ensures t.OtherT? || (t.FlagsT? && !(0 < t.labels <= 32)) || (t.EnumT? && t.names == 0) ==> r == Err(Rejected)
    decreases t, 1
  {
    match t {
      case PrimT(p) => r := Ok(FlattenPrimitive(p));
      case ListT(_) => r := Ok([I32, I32]);
      case RecordT(ts) => r := FlattenTypes(ts);
      case TupleT(ts) => r := FlattenTypes(ts);
      case VariantT(cs) => r := FlattenVariant(cs);
      case FlagsT(n) => r := if 0 < n <= 32 then Ok([I32]) else Err(Rejected);
      case EnumT(n) =>
        UnitsFlat(n, n);
        UnitsLayout(n, n);
        r := if n == 0 then Err(Rejected) else Ok([I32]);
      case OptionT(e) => r := FlattenOption(e);
      case ResultT(ok, err) => r := FlattenResult(ok, err);
      case HandleT => r := Ok([I32]);
      case OtherT => r := Err(Rejected);
    }
  }

  method FlattenOption(e: Type) returns (r: Result<seq<Kind>>)
    ensures IsFlatOf(r, Sum([Unit, Despec(e)]))
    decreases OptionT(e), 0
  {
    UnitLayout();
    TwoCasesFlat(Unit, Despec(e));
    TwoCases(Unit, Despec(e));
    var flat :- FlattenType(e);
    assert JoinFlats([], flat) == flat;
    r := Ok([I32] + flat);
  }

  lemma {:induction false} UnitsFlat(n: nat, k: nat)
    requires k <= n
    ensures JoinCases(Units(n), k) == []
  {
    if k > 0 {
      UnitsFlat(n, k - 1);
      UnitLayout();
    }
  }

  lemma TwoCasesFlat(a: Shape, b: Shape)
    ensures JoinCases([a, b], 2) == JoinFlats(Flatten(a), Flatten(b))
  {
    var cs := [a, b];
    assert JoinCases(cs, 1) == JoinFlats(JoinCases(cs, 0), Flatten(cs[0])) == Flatten(a);
  }

  /** flattenRecord and flattenTuple. */
  method FlattenTypes(ts: seq<Type>) returns (r: Result<seq<Kind>>)
    ensures IsFlatOf(r, Product(DespecAll(ts)))
    decreases ts, 0
  {
    ghost var fs := DespecAll(ts);
    var flat := [];
    for i := 0 to |ts|
      invariant forall j :: 0 <= j < i ==> Valid(fs[j])
      invariant flat == FlattenFields(fs, i)
    {
      assert fs[i] == Despec(ts[i]);
      var f :- FlattenType(ts[i]);
      flat := flat + f;
    }
    return Ok(flat);
  }

  method FlattenVariant(cs: seq<Case>) returns (r: Result<seq<Kind>>)
    ensures IsFlatOf(r, Sum(DespecCases(cs)))
    decreases VariantT(cs), 0
  {
    ghost var ss := DespecCases(cs);
    DiscriminantHoldsCases(|cs|);
    UnitLayout();
    var disc :- DiscriminantType(|cs|);
    var flats: seq<seq<Kind>> := [];
    for i := 0 to |cs|
      invariant forall j :: 0 <= j < i ==> Valid(ss[j])
      invariant FoldFlats(flats, |flats|) == JoinCases(ss, i)
    {
      var c := cs[i];
      assert ss[i] == DespecCase(c);
      if c.Carrying? {
        assert c == Carrying(c.t);
        var f :- FlattenType(c.t);
        FoldFlatsSnoc(flats, f, |flats|);
        flats := flats + [f];
      } else {
        assert JoinFlats(JoinCases(ss, i), []) == JoinCases(ss, i);
      }
    }
    var joined := JoinByPosition(flats);
    return Ok(FlattenPrimitive(disc) + joined);
  }

  lemma {:induction false} FoldFlatsSnoc(flats: seq<seq<Kind>>, f: seq<Kind>, n: nat)
    requires n <= |flats|
    ensures FoldFlats(flats + [f], n) == FoldFlats(flats, n)
  {
    if n > 0 {
      FoldFlatsSnoc(flats, f, n - 1);
    }
  }

  method FlattenResult(ok: Case, err: Case) returns (r: Result<seq<Kind>>)
    ensures IsFlatOf(r, Sum([DespecCase(ok), DespecCase(err)]))
    decreases ResultT(ok, err), 0
  {
    UnitLayout();
    TwoCases(DespecCase(ok), DespecCase(err));
    TwoCasesFlat(DespecCase(ok), DespecCase(err));
    var okFlat, errFlat := [], [];
    if ok.Carrying? {
      okFlat :- FlattenType(ok.t);
    }
    if err.Carrying? {
      errFlat :- FlattenType(err.t);
    }
    var joined := JoinByPosition([okFlat, errFlat]);
    ghost var flats := [okFlat, errFlat];
    assert FoldFlats(flats, 1) == JoinFlats(FoldFlats(flats, 0), okFlat) == okFlat;
    assert FoldFlats(flats, 2) == JoinFlats(okFlat, errFlat);
    return Ok([I32] + joined);
  }
}
