/** Whole calls over a handle table: the host-import wrapper that lends its
    borrowed arguments (host_import.go), the delegate that mints scoped borrows
    for a call between components (graph.go), and drops that run a destructor
    (resource.go). Callees and destructors do anything that the table allows,
    including further calls. Each method does what `Ledger.Do` says, so that the
    results about runs in `LedgerRuns` and `LedgerLoans` hold of the code. */
module Calls {
  import opened Base
  import opened Ledger
  import opened LedgerFacts
  import opened LedgerRuns
  import opened LedgerLoans
  import opened Resources

  /** What a run leaves of the objects of a table: new entries are numbered on,
      and scopes stay where they are. */
  twostate predicate Framed(t: HandleTable)
    reads t
  {
    && |old(t.past.fates)| <= |t.past.fates|
    && (forall e :: e in t.entries.Values ==> e in old(t.entries.Values) || (fresh(e) && e.id >= |old(t.past.fates)|))
    && old(t.scopes) <= t.scopes
    && forall i :: |old(t.scopes)| <= i < |t.scopes| ==> fresh(t.scopes[i])
  }

  /** A loan that a wrapper remembers, to release it by handle. */
  datatype LentHandle = LentHandle(typeIdx: u32, h: u32)

  /** The remembered handles, with the entries that were lent. */
  ghost predicate Remembers(lent: seq<LentHandle>, marks: seq<Lent>) {
    |lent| == |marks| && forall i :: 0 <= i < |lent| ==> lent[i].typeIdx == marks[i].typeIdx && lent[i].h == marks[i].h
  }

  // ---- host calls ----

  /** The lifting loop of the wrapper. */
  method LiftArgs(t: HandleTable, args: seq<Arg>) returns (ok: bool, lent: seq<LentHandle>, ghost marks: seq<Lent>)
    requires t.Valid()
    modifies t`entries, t`free, t`past, t.entries.Values
    ensures t.Valid() && Framed(t) && t.entries.Values <= old(t.entries.Values)
    ensures Lifting(ok, t.View(), marks) == Lifted(old(t.View()), args, |args|) && Remembers(lent, marks)
    ensures ok <==> Liftable(old(t.View()), args)
  {
    hide HandleTable.Valid, HandleTable.View, Liftable, LiftOne, Lifted, Sound;
    ok, lent, marks := true, [], [];
    LiftableIff(t.View(), args);
    LiftedNext(t.View(), args, 0);
    var i := 0;
    while i < |args| && ok
      invariant 0 <= i <= |args|
      invariant t.Valid() && Framed(t) && t.entries.Values <= old(t.entries.Values)
      invariant Lifting(ok, t.View(), marks) == Lifted(old(t.View()), args, i) && Remembers(lent, marks)
    {
      LiftedNext(old(t.View()), args, i + 1);
      ok, lent, marks := LiftArg(t, args[i], lent, marks);
      i := i + 1;
    }
    if !ok {
      FailedStays(old(t.View()), args, i, |args|);
    }
  }

  lemma {:induction false} FailedStays(g: Book, args: seq<Arg>, i: nat, n: nat)
    requires i <= n <= |args| && !Lifted(g, args, i).ok
    ensures Lifted(g, args, n) == Lifted(g, args, i)
    decreases n
  {
    if i < n {
      FailedStays(g, args, i, n - 1);
    }
  }

  /** Lifting one argument. A borrow is lent and remembered before it is read. */
  method LiftArg(t: HandleTable, arg: Arg, was: seq<LentHandle>, ghost wasMarks: seq<Lent>)
    returns (ok: bool, lent: seq<LentHandle>, ghost marks: seq<Lent>)
    requires t.Valid() && Remembers(was, wasMarks)
    modifies t`entries, t`free, t`past, t.entries.Values
    ensures t.Valid() && t.entries.Values <= old(t.entries.Values) && t.scopes == old(t.scopes)
    ensures |old(t.past.fates)| <= |t.past.fates|
    ensures Lifting(ok, t.View(), marks) == LiftOne(old(t.View()), wasMarks, arg) && Remembers(lent, marks)
    ensures arg.OwnArg? ==>
      && (ok <==>
            && arg.h in old(t.entries) && old(t.entries)[arg.h].resource
            && old(t.entries)[arg.h].typeIdx == arg.typeIdx && old(t.entries)[arg.h].own
            && old(t.entries[arg.h].lendCount) == 0)
      && t.entries == (if ok then old(t.entries) - {arg.h} else old(t.entries)) && lent == was
    ensures arg.BorrowArg? ==>
      && (ok <==> arg.h in t.entries && t.entries[arg.h].resource && t.entries[arg.h].typeIdx == arg.typeIdx)
      && t.entries == old(t.entries) && lent == (if ok then was + [LentHandle(arg.typeIdx, arg.h)] else was)
      && forall k :: k in t.entries ==>
           t.entries[k].lendCount == old(t.entries[k].lendCount) + if ok && k == arg.h then 1 else 0
    ensures arg.PlainArg? ==> ok == arg.lifts && t.View() == old(t.View()) && lent == was
  {
    hide HandleTable.Valid, HandleTable.View, Remembers;
    lent, marks := was, wasMarks;
    match arg {
      case OwnArg(typeIdx, h) =>
        ViewIs(t);
        var r := t.TakeOwn(typeIdx, h);
        ViewIs(t);
        ok := r.Ok?;
      case BorrowArg(typeIdx, h) => ok, lent, marks := LendArg(t, typeIdx, h, was, wasMarks);
      case PlainArg(lifts) => ok := lifts;
    }
  }

  method LendArg(t: HandleTable, typeIdx: u32, h: u32, was: seq<LentHandle>, ghost wasMarks: seq<Lent>)
    returns (ok: bool, lent: seq<LentHandle>, ghost marks: seq<Lent>)
    requires t.Valid() && Remembers(was, wasMarks)
    modifies t`past, t.entries.Values
    ensures t.Valid() && |old(t.past.fates)| <= |t.past.fates|
    ensures Lifting(ok, t.View(), marks) == LiftOne(old(t.View()), wasMarks, BorrowArg(typeIdx, h))
      && Remembers(lent, marks)
    ensures ok <==> h in t.entries && t.entries[h].resource && t.entries[h].typeIdx == typeIdx
    ensures lent == if ok then was + [LentHandle(typeIdx, h)] else was
    ensures forall k :: k in t.entries ==>
      t.entries[k].lendCount == old(t.entries[k].lendCount) + if ok && k == h then 1 else 0
  {
    hide HandleTable.Valid, HandleTable.View;
    ghost var g := t.View();
    lent, marks := was, wasMarks;
    ViewIs(t);
    var l := t.Lend(typeIdx, h);
    ViewIs(t);
    if l.Ok? {
      lent := lent + [LentHandle(typeIdx, h)];
      marks := marks + [Lent(typeIdx, h, g.rows[h].id)];
    }
    var r := t.Rep(typeIdx, h);
    ok := r.Ok?;
  }

  lemma ViewIs(t: HandleTable)
    ensures t.View().fates == t.past.fates && t.View().closed == t.closed && t.View().dtors == t.dtors
    ensures |t.View().borrows| == |t.scopes|
    ensures forall h :: h in t.entries <==> h in t.View().rows
    ensures forall h :: h in t.entries ==> t.View().rows[h] == RowOf(t.entries[h])
  {
  }

  /** The deferred releases. While the table is open each of them reaches the very
      entry that was lent, whatever happened to the table since. */
  method Release(t: HandleTable, lent: seq<LentHandle>, ghost marks: seq<Lent>)
    requires t.Valid() && Remembers(lent, marks) && Honest(t.View(), marks) && Loans(marks, |marks|) <= t.past.owed
    modifies t`past, t.entries.Values
    ensures t.Valid() && t.View() == Released(old(t.View()), marks, |marks|)
    ensures t.past.owed == old(t.past.owed) - Loans(marks, |marks|)
    ensures |t.past.fates| == |old(t.past.fates)|
  {
    hide HandleTable.Valid, HandleTable.View, Honest, Loans, Released, ReleasedOne, Sound, Later;
    ghost var g := t.View();
    SoundView(t);
    ReleasedLater(g, marks, 0);
    NoneReleased(g, marks);
    for i := 0 to |lent|
      invariant t.Valid() && t.View() == Released(g, marks, i)
    {
      ReleasedLater(g, marks, i);
      ReleasedNext(g, marks, i + 1);
      NextOwed(g.owed, marks, i + 1);
      StillHonest(g, t.View(), marks, 0);
      HonestAt(t, marks, i);
      var _ := t.Unlend(lent[i].typeIdx, lent[i].h, marks[i].id);
    }
    ReleasedLater(g, marks, |marks|);
    ReleasedFates(g, marks, |marks|);
    SoundView(t);
  }

  lemma SoundView(t: HandleTable)
    requires t.Valid()
    ensures t.Shaped() && Sound(t.View()) && t.View().owed == t.past.owed && t.View().leaked == t.past.leaked
    ensures t.View().fates == t.past.fates
  {
  }

  lemma {:induction false} ReleasedFates(g: Book, lent: seq<Lent>, n: nat)
    requires n <= |lent|
    ensures Released(g, lent, n).fates == g.fates
  {
    hide Released, ReleasedOne;
    if n == 0 {
      NoneReleased(g, lent);
    } else {
      ReleasedNext(g, lent, n);
      ReleasedFates(g, lent, n - 1);
      ReleasedOneFates(Released(g, lent, n - 1), lent[n - 1]);
    }
  }

  lemma ReleasedOneFates(g: Book, l: Lent)
    ensures ReleasedOne(g, l).fates == g.fates
  {
  }

  lemma HonestAt(t: HandleTable, marks: seq<Lent>, i: nat)
    requires Honest(t.View(), marks) && i < |marks|
    ensures marks[i].h in t.entries && t.entries[marks[i].h].id == marks[i].id ==>
      Found(t.View(), marks[i].typeIdx, marks[i].h)
    ensures t.View().owed == t.past.owed
  {
  }

  /** A host call: lift, run the callee, release. It succeeds exactly when every
      argument can be lifted; when one cannot, the wrapper has not yet deferred
      the releases, and the loans it made stay. */
  method RunHostCall(t: HandleTable, args: seq<Arg>, callee: seq<Op>) returns (ok: bool)
    requires t.Valid() && Enough(t.View(), Mints(callee, |callee|))
    modifies t, t.entries.Values, t.scopes
    ensures t.Valid() && Framed(t) && t.View() == Do(old(t.View()), HostCall(args, callee))
    ensures ok <==> Liftable(old(t.View()), args)
    decreases callee, 2
  {
    hide HandleTable.Valid, HandleTable.View, HandleTable.Shaped, Remembers, Mints, DoAll, Do, Lifted, Liftable, Honest,
      Loans, Sound, Later, Released;
    ghost var g := t.View();
    SoundView(t);
    DoIs(g, HostCall(args, callee));
    LiftedLater(g, args, |args|);
    var lent; ghost var marks;
    ok, lent, marks := LiftArgs(t, args);
    ghost var a := Lifted(g, args, |args|);
    LaterSound(g, a.book, 0);
    if !ok {
      GiveUp(t, marks, g);
      return;
    }
    RunLifted(t, lent, marks, callee, g);
  }

  /** The call proper, and the releases that were deferred. */
  method RunLifted(t: HandleTable, lent: seq<LentHandle>, ghost marks: seq<Lent>, callee: seq<Op>, ghost g: Book)
    requires t.Valid() && Enough(t.View(), Mints(callee, |callee|)) && Remembers(lent, marks)
    requires Honest(t.View(), marks) && t.View().owed == g.owed + Loans(marks, |marks|)
    modifies t, t.entries.Values, t.scopes
    ensures t.Valid() && Framed(t)
    ensures t.View() == Released(DoAll(old(t.View()), callee, |callee|), marks, |marks|)
    decreases callee, 1
  {
    hide HandleTable.Valid, HandleTable.View, HandleTable.Shaped, Remembers, Mints, DoAll, Honest, Loans, Sound, Later,
      Released;
    ghost var lifted := t.View();
    SoundView(t);
    RunKeeps(lifted, callee, |callee|);
    RunOps(t, callee);
    StillOwed(t, g, lifted, marks, Mints(callee, |callee|));
    Release(t, lent, marks);
  }

  /** After the callee the loans of the call are still owed, and remembered. */
  lemma StillOwed(t: HandleTable, g: Book, lifted: Book, marks: seq<Lent>, n: nat)
    requires t.Valid() && Sound(lifted) && Outcome(lifted, t.View(), n) && Honest(lifted, marks)
    requires lifted.owed == g.owed + Loans(marks, |marks|)
    ensures Honest(t.View(), marks) && Loans(marks, |marks|) <= t.past.owed
  {
    hide HandleTable.Valid, HandleTable.View, Honest, Loans, Sound, Later;
    SoundView(t);
    StillHonest(lifted, t.View(), marks, n);
  }

  /** The loans of a wrapper that gives up are owed no longer. */
  ghost method GiveUp(t: HandleTable, marks: seq<Lent>, g: Book)
    requires t.Valid() && Sound(g) && Later(g, t.View(), 0) && t.View().leaked == g.leaked
    requires t.View().owed == g.owed + Loans(marks, |marks|) && Honest(t.View(), marks)
    modifies t`past
    ensures t.Valid() && t.View() == GivenUp(Lifting(false, old(t.View()), marks))
    ensures |t.past.fates| == |old(t.past.fates)|
  {
    hide Loans, Sound, Later, Honest, Rows, Counts, Linked, Distinct;
    GivenUpLater(g, Lifting(false, t.View(), marks));
    LaterSound(g, GivenUp(Lifting(false, t.View(), marks)), 0);
    t.past := t.past.(owed := t.past.owed - Loans(marks, |marks|), leaked := t.past.leaked + Loans(marks, |marks|));
  }

  // ---- delegated calls ----

  /** A call delegated to the component that owns the table: borrows are minted
      for a scope of the call's own, and the call traps exactly when the callee
      came back and that scope still counts one. */
  method RunDelegated(t: HandleTable, params: seq<Param>, callee: seq<Op>, fails: bool) returns (trap: bool)
    requires t.Valid() && Enough(t.View(), |params| + Mints(callee, |callee|))
    modifies t, t.entries.Values, t.scopes
    ensures t.Valid() && Framed(t) && t.View() == Do(old(t.View()), Delegated(params, callee, fails))
    ensures trap <==> Traps(old(t.View()), params, callee, fails)
    decreases callee, 1
  {
    hide HandleTable.Valid, HandleTable.View, HandleTable.Shaped, Mints, DoAll, Do, Sound, Later, Minted, Linked,
      Distinct, RowOf;
    ghost var g := t.View();
    SoundView(t);
    DoIs(g, Delegated(params, callee, fails));
    MintedLater(g, params);
    LaterSound(g, Minted(g, params), |params|);
    var scope := MintFor(t, params);
    RunOps(t, callee);
    ViewIs(t);
    trap := scope != null && !fails && scope.numBorrows > 0;
    if scope != null {
      CountIs(t, scope, |g.borrows|);
    }
  }

  /** The handles of a delegated call, and its scope when it has a borrow. */
  method MintFor(t: HandleTable, params: seq<Param>) returns (scope: Scope?)
    requires t.Valid() && Enough(t.View(), |params|)
    modifies t
    ensures t.Valid() && Framed(t) && t.View() == Minted(old(t.View()), params)
    ensures scope != null <==> HasBorrow(params)
    ensures scope != null ==> var k := |old(t.View()).borrows|; k < |t.scopes| && t.scopes[k] == scope
  {
    hide HandleTable.Valid, HandleTable.View, HandleTable.Shaped, Sound, Later, MintAll, Linked, Distinct, RowOf;
    ghost var g := t.View();
    SoundView(t);
    ViewIs(t);
    scope := null;
    if HasBorrow(params) {
      ScopeMade(g);
      LaterSound(g, g.(borrows := g.borrows + [0]), 0);
      scope := t.NewScope();
      StillValid(t);
    }
    MintParams(t, params, scope, |g.borrows|);
  }

  lemma StillValid(t: HandleTable)
    requires t.Shaped() && Sound(t.View())
    ensures t.Valid()
  {
  }

  lemma CountIs(t: HandleTable, scope: Scope, k: nat)
    requires k < |t.scopes| && t.scopes[k] == scope
    ensures k < |t.View().borrows| && t.View().borrows[k] == scope.numBorrows
  {
  }

  method MintParams(t: HandleTable, params: seq<Param>, scope: Scope?, ghost k: nat)
    requires t.Valid() && Enough(t.View(), |params|)
    requires HasBorrow(params) ==> k < |t.scopes| && t.scopes[k] == scope
    modifies t`entries, t`next, t`free, t`past, if scope == null then {} else {scope}
    ensures t.Valid() && t.View() == MintAll(old(t.View()), k, params, |params|)
    ensures |old(t.past.fates)| <= |t.past.fates|
    ensures forall e :: e in t.entries.Values ==>
      e in old(t.entries.Values) || (fresh(e) && e.id >= |old(t.past.fates)|)
  {
    hide HandleTable.Valid, HandleTable.View, Sound, MintAll, MintOne, MintedFor;
    ghost var g := t.View();
    SoundView(t);
    ViewIs(t);
    MintAllNext(g, k, params, 0);
    for i := 0 to |params|
      invariant t.Valid() && t.View() == MintAll(g, k, params, i) && |old(t.past.fates)| <= |t.past.fates|
      invariant forall e :: e in t.entries.Values ==>
      e in old(t.entries.Values) || (fresh(e) && e.id >= |old(t.past.fates)|)
    {
      MintAllKeeps(g, k, params, i);
      MintedSound(g, t.View(), k, i);
      MintAllNext(g, k, params, i + 1);
      MintOneKeeps(t.View(), k, params, i);
      MintParam(t, params[i], scope, k);
    }
  }

  method MintParam(t: HandleTable, p: Param, scope: Scope?, ghost k: nat)
    requires t.Valid() && Room(t.View()) && MintedFor(t.View(), MintOne(t.View(), k, p), k, 1)
    requires p.BorrowParam? ==> k < |t.scopes| && t.scopes[k] == scope
    modifies t`entries, t`next, t`free, t`past, if scope == null then {} else {scope}
    ensures t.Valid() && t.View() == MintOne(old(t.View()), k, p) && |old(t.past.fates)| <= |t.past.fates|
    ensures forall e :: e in t.entries.Values ==>
      e in old(t.entries.Values) || (fresh(e) && e.id >= |old(t.past.fates)|)
  {
    hide HandleTable.Valid, HandleTable.View, Sound, Added, Counting, MintedFor;
    ViewIs(t);
    FatesMinted(t.View(), MintOne(t.View(), k, p), k);
    match p {
      case OwnParam(typeIdx, rep) => var _ := t.Add(typeIdx, rep, true);
      case BorrowParam(typeIdx, rep) => var _ := t.NewBorrowScoped(typeIdx, rep, scope, k);
      case OtherParam =>
    }
    ViewIs(t);
  }

  lemma FatesMinted(b: Book, b': Book, k: nat)
    requires MintedFor(b, b', k, 1)
    ensures |b.fates| <= |b'.fates|
  {
  }

  // ---- runs ----

  /** The operations of a guest or a host, one after the other. */
  method RunOps(t: HandleTable, ops: seq<Op>)
    requires t.Valid() && Enough(t.View(), Mints(ops, |ops|))
    modifies t, t.entries.Values, t.scopes
    ensures t.Valid() && Framed(t) && t.View() == DoAll(old(t.View()), ops, |ops|)
    decreases ops, 0
  {
    hide HandleTable.Valid, HandleTable.View, Mints, DoAll, Do, Sound, Later;
    ghost var g := t.View();
    SoundView(t);
    DoAllIs(g, ops, 0);
    for i := 0 to |ops|
      invariant t.Valid() && Framed(t) && t.View() == DoAll(g, ops, i)
    {
      RunKeeps(g, ops, i);
      LaterSound(g, t.View(), Mints(ops, i));
      MintsUpTo(ops, i + 1);
      DoAllIs(g, ops, i + 1);
      RunOp(t, ops[i]);
    }
  }

  method RunOp(t: HandleTable, op: Op)
    requires t.Valid() && Enough(t.View(), MintsOf(op))
    modifies t, t.entries.Values, t.scopes
    ensures t.Valid() && Framed(t) && t.View() == Do(old(t.View()), op)
    decreases op, 0
  {
    hide HandleTable.Valid, HandleTable.View, Mints, MintsOf, DoAll, Do, Sound, Later;
    DoIs(t.View(), op);
    ghost var g := t.View();
    SoundView(t);
    OpKeeps(g, op);
    FatesLater(g, Do(g, op), MintsOf(op));
    match op {
      case NewOwn(typeIdx, rep) => var _ := t.Add(typeIdx, rep, true);
      case NewBorrow(typeIdx, rep) => var _ := t.Add(typeIdx, rep, false);
      case Drop(typeIdx, h) => var _ := t.Drop(typeIdx, h);
      case Take(typeIdx, h) => var _ := t.TakeOwn(typeIdx, h);
      case DropByHandle(h) => var _ := t.DropOwned(h);
      case DropDtor(h, dtor, fails) => var _ := DropOwnedWithDtor(t, h, dtor, fails);
      case HostCall(args, callee) => var _ := RunHostCall(t, args, callee);
      case Delegated(params, callee, fails) => var _ := RunDelegated(t, params, callee, fails);
      case CloseTable => var _, _ := t.Close({});
    }
    ViewIs(t);
  }

  lemma FatesLater(g: Book, g': Book, n: nat)
    requires Later(g, g', n)
    ensures |g.fates| <= |g'.fates|
  {
  }

  /** The handle names the same entry in both tables. */
  predicate StillNames(g: Book, ran: Book, h: u32) {
    h in g.rows && h in ran.rows && ran.rows[h].id == g.rows[h].id
  }

  /** dropOwnedWithDtor: the destructor runs with the table unlocked and does
      anything; only then is the handle consumed, after its identity, but not its
      lend count, is checked again. */
  method DropOwnedWithDtor(t: HandleTable, h: u32, dtor: seq<Op>, fails: bool) returns (r: Result<u32>)
    requires t.Valid() && Enough(t.View(), Mints(dtor, |dtor|))
    modifies t, t.entries.Values, t.scopes
    ensures t.Valid() && Framed(t) && t.View() == Do(old(t.View()), DropDtor(h, dtor, fails))
    ensures r.Ok? <==> CanDropOwned(old(t.View()), h) && (old(t.View()).rows[h].typeIdx in old(t.dtors) ==>
      !fails && StillNames(old(t.View()), DoAll(old(t.View()), dtor, |dtor|), h))
    ensures r.Ok? ==> r.value == old(t.View()).rows[h].rep && h !in t.entries
    ensures r.Ok? ==>
      h in old(t.entries) && old(t.entries)[h].resource && old(t.entries)[h].own && old(t.entries[h].lendCount) == 0
    ensures r.Ok? && old(t.entries)[h].typeIdx in old(t.dtors) ==>
      var ran := DoAll(old(t.View()), dtor, |dtor|);
      !fails && h in ran.rows && ran.rows[h].id == old(t.entries)[h].id
    decreases dtor, 1
  {
    hide HandleTable.Valid, HandleTable.View, HandleTable.Shaped, Mints, DoAll, Do, Sound, Later, Retired, FinishDrop;
    ghost var g := t.View();
    SoundView(t);
    ViewIs(t);
    DoIs(g, DropDtor(h, dtor, fails));
    Numbers(t);
    ghost var was, minted := t.entries, |t.past.fates|;
    DropKeeps(g, h, dtor, fails);
    LaterSound(g, Do(g, DropDtor(h, dtor, fails)), Mints(dtor, |dtor|));
    if h !in t.entries {
      return Err(Rejected);
    }
    var e := t.entries[h];
    if !e.resource || !e.own || e.lendCount != 0 {
      return Err(Rejected);
    }
    if e.typeIdx in t.dtors {
      RunOps(t, dtor);
      if fails {
        FailedDrop(g, h, t.View());
        return Err(Rejected);
      }
    }
    NoDestructor(g, h, t.View());
    r := Consume(t, h, e, g, was, minted);
  }

  /** The end of dropOwnedWithDtor: the handle is consumed if it still names the
      entry it named. */
  method Consume(t: HandleTable, h: u32, e: Entry, ghost g: Book, ghost was: map<u32, Entry>, ghost minted: nat)
    returns (r: Result<u32>)
    requires t.Valid() && h in g.rows && g.rows[h].id == e.id && Sound(FinishDrop(g, h, t.View(), false))
    requires h in was && was[h] == e && (forall k :: k in was ==> was[k].id < minted)
    requires forall j, k :: j in was && k in was && was[j].id == was[k].id ==> was[j] == was[k]
    requires forall e :: e in t.entries.Values ==> e in was.Values || e.id >= minted
    modifies t`entries, t`free, t`past
    ensures t.Valid() && t.View() == FinishDrop(g, h, old(t.View()), false)
    ensures t.entries.Values <= old(t.entries.Values) && |t.past.fates| == |old(t.past.fates)|
    ensures r.Ok? <==> StillNames(g, old(t.View()), h)
    ensures r.Ok? ==> r.value == e.rep && h !in t.entries
  {
    hide HandleTable.Valid, HandleTable.View, Sound, Retired;
    ViewIs(t);
    SoundView(t);
    SameEntry(t, h, was, minted);
    if h !in t.entries || t.entries[h] != e {
      return Err(Rejected);
    }
    RetiredFates(t.View(), h);
    t.Retire(h, Dropped);
    StillValid(t);
    ViewIs(t);
    return Ok(e.rep);
  }

  lemma RetiredFates(g: Book, h: u32)
    requires h in g.rows
    ensures |Retired(g, h, Dropped).fates| == |g.fates|
  {
  }

  lemma FailedDrop(g: Book, h: u32, ran: Book)
    requires h in g.rows
    ensures FinishDrop(g, h, ran, true) == ran
  {
  }

  lemma NoDestructor(g: Book, h: u32, ran: Book)
    requires h in g.rows
    ensures ran == g ==> FinishDrop(g, h, ran, false) == Retired(g, h, Dropped)
  {
  }

  /** A handle names the entry it named before exactly when it names one of the
      same number. */
  lemma SameEntry(t: HandleTable, h: u32, was: map<u32, Entry>, minted: nat)
    requires h in was && (forall k :: k in was ==> was[k].id < minted)
    requires forall j, k :: j in was && k in was && was[j].id == was[k].id ==> was[j] == was[k]
    requires forall e :: e in t.entries.Values ==> e in was.Values || e.id >= minted
    ensures h in t.entries ==> (t.entries[h] == was[h] <==> t.entries[h].id == was[h].id)
  {
    if h in t.entries {
      assert t.entries[h] in t.entries.Values;
    }
  }

  /** The numbers of live entries. */
  lemma Numbers(t: HandleTable)
    requires t.Valid()
    ensures forall k :: k in t.entries ==> t.entries[k].id < |t.past.fates|
    ensures forall j, k :: j in t.entries && k in t.entries && t.entries[j].id == t.entries[k].id ==>
      t.entries[j] == t.entries[k]
  {
    var g := t.View();
    assert Fated(g.rows, g.fates);
    forall k | k in t.entries ensures t.entries[k].id < |t.past.fates| && g.fates[t.entries[k].id] == Live(k) {
      assert k in g.rows && g.rows[k] == RowOf(t.entries[k]);
    }
  }

  /** ANY RUN of operations, calls and drops with destructors keeps the table's
      invariant and owes at its end exactly the loans it owed before; it leaves a
      loan behind if and only if some lifting in it fails after a lend. */
  method Perform(t: HandleTable, ops: seq<Op>)
    requires t.Valid() && Enough(t.View(), Mints(ops, |ops|))
    modifies t, t.entries.Values, t.scopes
    ensures t.Valid() && t.View() == DoAll(old(t.View()), ops, |ops|)
    ensures t.past.owed == old(t.past.owed)
    ensures t.past.leaked == old(t.past.leaked) <==> forall l :: !Leaks(old(t.View()), ops, |ops|, l)
    ensures FatesKept(old(t.past.fates), t.past.fates)
  {
    hide HandleTable.Valid, HandleTable.View, Mints, DoAll, Sound, Leaks, FatesKept;
    ghost var g := t.View();
    SoundView(t);
    RunKeeps(g, ops, |ops|);
    RestoredIff(g, ops);
    RunOps(t, ops);
    SoundView(t);
  }
}
