/** When a call gives back what it lent. A wrapper that fails to lift an argument
    has not deferred the releases of the ones before it (host_import.go): those
    loans are never released. This module says which calls do so, for every run,
    and what becomes of the handle. */
module LedgerLoans {
  import opened Base
  import opened Ledger
  import opened LedgerFacts
  import opened LedgerRuns

  // ---- which arguments are lifted ----

  predicate Names(arg: Arg, h: u32) {
    !arg.PlainArg? && arg.h == h
  }

  /** The j-th argument cannot be lifted after the ones before it: a borrow of
      something that is not a live resource of its type, or was taken by an
      argument before it; an own of something that cannot be taken, or that an
      argument before it takes or borrows. */
  predicate Fails(g: Book, args: seq<Arg>, j: nat)
    requires j < |args|
  {
    match args[j]
    case PlainArg(lifts) => !lifts
    case BorrowArg(ty, h) => !Found(g, ty, h) || exists i :: 0 <= i < j && args[i].OwnArg? && args[i].h == h
    case OwnArg(ty, h) => !CanTake(g, ty, h) || exists i :: 0 <= i < j && Names(args[i], h)
  }

  predicate Liftable(g: Book, args: seq<Arg>) {
    forall j :: 0 <= j < |args| ==> !Fails(g, args, j)
  }

  predicate FirstFails(g: Book, args: seq<Arg>, j: nat) {
    j < |args| && Fails(g, args, j) && forall i :: 0 <= i < j ==> !Fails(g, args, i)
  }

  /** The loan is of one of the first n arguments. */
  predicate LentBy(g: Book, args: seq<Arg>, n: nat, l: Loan)
    requires n <= |args|
  {
    && l.h in g.rows && g.rows[l.h].id == l.id
    && exists i :: 0 <= i < n && args[i].BorrowArg? && args[i].h == l.h
  }

  /** How often the first n arguments borrow a handle. */
  function Borrows(args: seq<Arg>, n: nat, h: u32): nat
    requires n <= |args|
  {
    if n == 0 then 0 else Borrows(args, n - 1, h) + if args[n - 1].BorrowArg? && args[n - 1].h == h then 1 else 0
  }

  lemma {:induction false} BorrowsAny(args: seq<Arg>, n: nat, h: u32)
    requires n <= |args|
    ensures Borrows(args, n, h) > 0 <==> exists i :: 0 <= i < n && args[i].BorrowArg? && args[i].h == h
  {
    if n > 0 {
      BorrowsAny(args, n - 1, h);
    }
  }

  /** The table after the first n arguments were lifted: the taken handles are
      gone, and the others are lent as often as they are borrowed. */
  ghost predicate LiftedRows(g: Book, rows: map<u32, Row>, args: seq<Arg>, n: nat)
    requires n <= |args|
  {
    && (forall h :: h in rows <==> h in g.rows && forall i :: 0 <= i < n && args[i].OwnArg? ==> args[i].h != h)
    && (forall h :: h in rows ==> rows[h] == g.rows[h].(lends := g.rows[h].lends + Borrows(args, n, h)))
  }

  /** What has been lent are the borrows among the first n arguments. */
  ghost predicate LentIs(g: Book, args: seq<Arg>, n: nat, lent: seq<Lent>)
    requires n <= |args|
  {
    forall l :: l in Loans(lent, |lent|) <==> LentBy(g, args, n, l)
  }

  /** LIFTING SUCCEEDS IF AND ONLY IF NO ARGUMENT FAILS, and what it has lent by
      then, or by the first argument that fails, are the borrows before. */
  lemma {:induction false} LiftedExact(g: Book, args: seq<Arg>, n: nat)
    requires n <= |args|
    ensures var a := Lifted(g, args, n);
      && (a.ok <==> forall j :: 0 <= j < n ==> !Fails(g, args, j))
      && (a.ok ==> LiftedRows(g, a.book.rows, args, n) && LentIs(g, args, n, a.lent))
      && (!a.ok ==> exists j: nat :: FirstFails(g, args, j) && j < n && LentIs(g, args, j, a.lent))
  {
    hide Fails, LentIs, LiftedRows, Lifted, LiftOne;
    LiftedNext(g, args, n);
    if n == 0 {
      NothingLifted(g, args);
    } else {
      LiftedExact(g, args, n - 1);
      var a := Lifted(g, args, n - 1);
      if a.ok {
        FailsAfter(g, a.book, a.lent, args, n - 1);
        if LiftOne(a.book, a.lent, args[n - 1]).ok {
          RowsAfter(g, a.book, a.lent, args, n - 1);
          LentAfter(g, a.book, a.lent, args, n - 1);
        } else {
          assert FirstFails(g, args, n - 1);
        }
      }
    }
  }

  lemma NothingLifted(g: Book, args: seq<Arg>)
    ensures LiftedRows(g, g.rows, args, 0) && LentIs(g, args, 0, [])
  {
  }

  lemma FailsAfter(g: Book, book: Book, lent: seq<Lent>, args: seq<Arg>, n: nat)
    requires n < |args| && LiftedRows(g, book.rows, args, n)
    ensures LiftOne(book, lent, args[n]).ok <==> !Fails(g, args, n)
    ensures !LiftOne(book, lent, args[n]).ok ==> LiftOne(book, lent, args[n]).lent == lent
  {
    if !args[n].PlainArg? {
      BorrowsAny(args, n, args[n].h);
    }
  }

  lemma RowsAfter(g: Book, book: Book, lent: seq<Lent>, args: seq<Arg>, n: nat)
    requires n < |args| && LiftedRows(g, book.rows, args, n) && LiftOne(book, lent, args[n]).ok
    ensures LiftedRows(g, LiftOne(book, lent, args[n]).book.rows, args, n + 1)
  {
    hide CanTake;
  }

  lemma LentAfter(g: Book, book: Book, lent: seq<Lent>, args: seq<Arg>, n: nat)
    requires n < |args| && LiftedRows(g, book.rows, args, n) && LiftOne(book, lent, args[n]).ok
    requires LentIs(g, args, n, lent)
    ensures LentIs(g, args, n + 1, LiftOne(book, lent, args[n]).lent)
  {
    match args[n]
    case BorrowArg(ty, h) => OneMoreLent(lent, Lent(ty, h, book.rows[h].id));
    case OwnArg(_, _) =>
    case PlainArg(_) =>
  }

  lemma LiftableIff(g: Book, args: seq<Arg>)
    ensures Lifted(g, args, |args|).ok <==> Liftable(g, args)
  {
    hide Fails, Lifted;
    LiftedExact(g, args, |args|);
  }

  // ---- which runs leave a loan behind ----

  /** The operation, started on this table, makes a wrapper give up after it has
      lent this loan: an argument after the borrow is the first that fails. */
  ghost predicate LeaksIn(g: Book, op: Op, l: Loan)
    decreases op, 0
  {
    match op
    case HostCall(args, callee) =>
      if Liftable(g, args) then Leaks(Lifted(g, args, |args|).book, callee, |callee|, l)
      else exists j: nat :: FirstFails(g, args, j) && LentBy(g, args, j, l)
    case Delegated(params, callee, _) => Leaks(Minted(g, params), callee, |callee|, l)
    case DropDtor(h, dtor, _) => CanDropOwned(g, h) && g.rows[h].typeIdx in g.dtors && Leaks(g, dtor, |dtor|, l)
    case NewOwn(_, _) | NewBorrow(_, _) | Drop(_, _) | Take(_, _) | DropByHandle(_) | CloseTable => false
  }

  ghost predicate Leaks(g: Book, ops: seq<Op>, n: nat, l: Loan)
    requires n <= |ops|
    decreases ops, n
  {
    n > 0 && (Leaks(g, ops, n - 1, l) || LeaksIn(DoAll(g, ops, n - 1), ops[n - 1], l))
  }

  lemma LeaksIs(g: Book, ops: seq<Op>, n: nat, l: Loan)
    requires n <= |ops|
    ensures Leaks(g, ops, n, l) <==> n > 0 && (Leaks(g, ops, n - 1, l) || LeaksIn(DoAll(g, ops, n - 1), ops[n - 1], l))
  {
  }

  lemma LeaksInIs(g: Book, op: Op, l: Loan)
    ensures op.HostCall? ==> (LeaksIn(g, op, l) <==>
      if Liftable(g, op.args) then Leaks(Lifted(g, op.args, |op.args|).book, op.callee, |op.callee|, l)
      else exists j: nat :: FirstFails(g, op.args, j) && LentBy(g, op.args, j, l))
    ensures op.Delegated? ==> (LeaksIn(g, op, l) <==> Leaks(Minted(g, op.params), op.callee, |op.callee|, l))
    ensures op.DropDtor? ==> (LeaksIn(g, op, l) <==>
      CanDropOwned(g, op.h) && g.rows[op.h].typeIdx in g.dtors && Leaks(g, op.dtor, |op.dtor|, l))
    ensures !op.HostCall? && !op.Delegated? && !op.DropDtor? ==> !LeaksIn(g, op, l)
  {
  }

  /** WHICH LOANS ARE NEVER RELEASED: exactly those of a wrapper, anywhere in the
      run, that gives up after lending. */
  lemma {:induction false} LeakedIff(g: Book, ops: seq<Op>, n: nat, l: Loan)
    requires Sound(g) && n <= |ops| && Enough(g, Mints(ops, |ops|))
    ensures DoAll(g, ops, n).leaked[l] > g.leaked[l] <==> Leaks(g, ops, n, l)
    decreases ops, n
  {
    hide Sound, Later, DoAll, Mints, Leaks;
    DoAllIs(g, ops, n);
    LeaksIs(g, ops, n, l);
    if n > 0 {
      var ran := DoAll(g, ops, n - 1);
      LeakedIff(g, ops, n - 1, l);
      RunKeeps(g, ops, n - 1);
      LaterSound(g, ran, Mints(ops, n - 1));
      MintsUpTo(ops, n);
      OpLeaksIff(ran, ops[n - 1], l);
      OpKeeps(ran, ops[n - 1]);
      LaterSound(ran, Do(ran, ops[n - 1]), MintsOf(ops[n - 1]));
    }
  }

  lemma {:induction false} OpLeaksIff(g: Book, op: Op, l: Loan)
    requires Sound(g) && Enough(g, MintsOf(op))
    ensures Do(g, op).leaked[l] > g.leaked[l] <==> LeaksIn(g, op, l)
    decreases op, 1
  {
    hide Sound, Later, MintsOf, Do, LeaksIn;
    DoIs(g, op);
    LeaksInIs(g, op, l);
    match op
    case HostCall(args, callee) => CallLeaksIff(g, args, callee, l);
    case Delegated(params, callee, fails) =>
      MintedLater(g, params);
      LaterSound(g, Minted(g, params), |params|);
      LeakedIff(Minted(g, params), callee, |callee|, l);
    case DropDtor(h, dtor, fails) => LeakedIff(g, dtor, |dtor|, l);
    case NewOwn(_, _) | NewBorrow(_, _) | Drop(_, _) | Take(_, _) | DropByHandle(_) | CloseTable =>
  }

  lemma {:induction false} CallLeaksIff(g: Book, args: seq<Arg>, callee: seq<Op>, l: Loan)
    requires Sound(g) && Enough(g, Mints(callee, |callee|))
    ensures Do(g, HostCall(args, callee)).leaked[l] > g.leaked[l] <==> LeaksIn(g, HostCall(args, callee), l)
    decreases callee, |callee| + 1
  {
    hide Sound, Later, Do, Mints, Lifted, Released, Honest, Loans, LeaksIn, Leaks, Fails, LentBy, LiftedRows;
    DoIs(g, HostCall(args, callee));
    LeaksInIs(g, HostCall(args, callee), l);
    LiftedLater(g, args, |args|);
    LiftedExact(g, args, |args|);
    var a := Lifted(g, args, |args|);
    LaterSound(g, a.book, 0);
    if a.ok {
      var ran := DoAll(a.book, callee, |callee|);
      RunKeeps(a.book, callee, |callee|);
      CalleeDone(g, a, ran, Mints(callee, |callee|));
      LeakedIff(a.book, callee, |callee|, l);
    } else {
      GivenUpLater(g, a);
      var j: nat :| FirstFails(g, args, j) && j < |args| && LentIs(g, args, j, a.lent);
      OneFirst(g, args, j);
    }
  }

  lemma OneFirst(g: Book, args: seq<Arg>, j: nat)
    requires FirstFails(g, args, j)
    ensures forall k: nat :: FirstFails(g, args, k) ==> k == j
    ensures !Liftable(g, args)
  {
    hide Fails;
    forall k: nat | FirstFails(g, args, k) ensures k == j {
      assert !(k < j) && !(j < k);
    }
  }

  /** LOANS ARE RESTORED IF AND ONLY IF NO LIFTING FAILS AFTER A LEND: then, and
      only then, no loan is left behind; and every entry that is still live has
      the lend count it had. */
  lemma RestoredIff(g: Book, ops: seq<Op>)
    requires Sound(g) && Enough(g, Mints(ops, |ops|))
    ensures DoAll(g, ops, |ops|).leaked == g.leaked <==> forall l :: !Leaks(g, ops, |ops|, l)
  {
    hide Sound, Later, DoAll, Mints, Leaks;
    var ran := DoAll(g, ops, |ops|);
    RunKeeps(g, ops, |ops|);
    LaterSound(g, ran, Mints(ops, |ops|));
    if l: Loan :| Leaks(g, ops, |ops|, l) {
      LeakedIff(g, ops, |ops|, l);
    } else {
      forall l: Loan ensures ran.leaked[l] == g.leaked[l] {
        LeakedIff(g, ops, |ops|, l);
        MoreOf(g.leaked, ran.leaked, l);
      }
      SameLoans(g.leaked, ran.leaked);
    }
  }

  lemma SameLoans(a: multiset<Loan>, b: multiset<Loan>)
    requires forall l: Loan :: b[l] == a[l]
    ensures a == b
  {
  }

  lemma MoreOf(a: multiset<Loan>, b: multiset<Loan>, l: Loan)
    requires a <= b
    ensures a[l] <= b[l]
  {
  }

  /** The lend count of an entry that outlives a run grows by exactly the loans of
      it that the run leaves behind. */
  lemma LendsChange(g: Book, ops: seq<Op>, h: u32)
    requires Sound(g) && Enough(g, Mints(ops, |ops|))
    requires var ran := DoAll(g, ops, |ops|); h in g.rows && h in ran.rows && ran.rows[h].id == g.rows[h].id
    ensures var ran, l := DoAll(g, ops, |ops|), Loan(h, g.rows[h].id);
      && ran.rows[h].lends == g.rows[h].lends + ran.leaked[l] - g.leaked[l]
      && (ran.rows[h].lends == g.rows[h].lends <==> !Leaks(g, ops, |ops|, l))
  {
    hide Later, DoAll, Mints, Leaks, Partitioned, Fated, Scoped, BorrowsCounted, AllLive, Known;
    var ran := DoAll(g, ops, |ops|);
    RunKeeps(g, ops, |ops|);
    LaterSound(g, ran, Mints(ops, |ops|));
    LeakedIff(g, ops, |ops|, Loan(h, g.rows[h].id));
  }

  // ---- what becomes of the handle ----

  /** The handle still names the entry, and the entry is lent. */
  predicate Stuck(g: Book, h: u32, id: nat) {
    h in g.rows && g.rows[h].id == id && g.leaked[Loan(h, id)] > 0
  }

  lemma StuckIsLent(g: Book, h: u32, id: nat)
    requires Sound(g) && Stuck(g, h, id)
    ensures g.rows[h].lends > 0 && !g.closed
    ensures !CanDropOwned(g, h) && forall ty :: !CanTake(g, ty, h) && !CanDrop(g, ty, h)
  {
  }

  /** A LOAN LEFT BEHIND KEEPS ITS HANDLE FOREVER: whatever is done with the table,
      until it is closed the entry stays live and lent, so that it can be neither
      taken nor dropped. */
  lemma {:induction false} StuckForever(g: Book, ops: seq<Op>, n: nat, h: u32, id: nat)
    requires Sound(g) && Stuck(g, h, id) && n <= |ops| && Enough(g, Mints(ops, |ops|))
    ensures var ran := DoAll(g, ops, n);
      ran.closed || (Stuck(ran, h, id) && !CanDropOwned(ran, h)
        && forall ty :: !CanTake(ran, ty, h) && !CanDrop(ran, ty, h))
    decreases ops, n
  {
    hide Sound, Later, DoAll, Mints, Stuck, CanDropOwned, CanTake, CanDrop;
    DoAllIs(g, ops, n);
    RunKeeps(g, ops, n);
    LaterSound(g, DoAll(g, ops, n), Mints(ops, n));
    if n > 0 {
      var ran := DoAll(g, ops, n - 1);
      StuckForever(g, ops, n - 1, h, id);
      RunKeeps(g, ops, n - 1);
      LaterSound(g, ran, Mints(ops, n - 1));
      MintsUpTo(ops, n);
      OpKeeps(ran, ops[n - 1]);
      StaysClosed(ran, Do(ran, ops[n - 1]), MintsOf(ops[n - 1]));
      if !ran.closed {
        StillStuck(ran, ops[n - 1], h, id);
      }
    }
    if !DoAll(g, ops, n).closed {
      StuckIsLent(DoAll(g, ops, n), h, id);
    }
  }

  lemma StaysClosed(g: Book, g': Book, n: nat)
    requires Later(g, g', n)
    ensures g.closed ==> g'.closed
  {
  }

  lemma StuckLater(g: Book, g': Book, n: nat, h: u32, id: nat)
    requires Later(g, g', n) && Stuck(g, h, id) && h in g'.rows && g'.rows[h].id == id
    ensures Stuck(g', h, id)
  {
    MoreOf(g.leaked, g'.leaked, Loan(h, id));
  }

  lemma {:induction false} StillStuck(g: Book, op: Op, h: u32, id: nat)
    requires Sound(g) && Stuck(g, h, id) && Enough(g, MintsOf(op))
    ensures Do(g, op).closed || Stuck(Do(g, op), h, id)
    decreases op, 1
  {
    hide Sound, Later, MintsOf, Do, DoAll, Mints, Lifted, Released;
    DoIs(g, op);
    OpKeeps(g, op);
    StuckIsLent(g, h, id);
    match op
    case HostCall(args, callee) => StuckInCall(g, args, callee, h, id);
    case Delegated(params, callee, fails) =>
      MintedLater(g, params);
      LaterSound(g, Minted(g, params), |params|);
      MintedStays(g, params, h);
      StuckLater(g, Minted(g, params), |params|, h, id);
      StuckForever(Minted(g, params), callee, |callee|, h, id);
    case DropDtor(k, dtor, fails) =>
      if CanDropOwned(g, k) && g.rows[k].typeIdx in g.dtors {
        StuckForever(g, dtor, |dtor|, h, id);
      }
    case NewOwn(_, _) | NewBorrow(_, _) => AddedStays(g, h);
    case Drop(_, _) | Take(_, _) | DropByHandle(_) | CloseTable =>
  }

  lemma AddedStays(g: Book, h: u32)
    requires Sound(g) && Room(g) && h in g.rows
    ensures !g.closed ==> NextIndex(g) != h
  {
    hide Sound;
    AddedSound(g, true, 0, 0, true, None);
  }

  lemma {:induction false} StuckInCall(g: Book, args: seq<Arg>, callee: seq<Op>, h: u32, id: nat)
    requires Sound(g) && Stuck(g, h, id) && Enough(g, Mints(callee, |callee|))
    ensures Do(g, HostCall(args, callee)).closed || Stuck(Do(g, HostCall(args, callee)), h, id)
    decreases callee, |callee| + 1
  {
    hide Sound, Later, MintsOf, Do, DoAll, Mints, Lifted, Released, Honest, Loans, Stuck;
    DoIs(g, HostCall(args, callee));
    LiftedLater(g, args, |args|);
    var a := Lifted(g, args, |args|);
    LaterSound(g, a.book, 0);
    LiftedStuck(g, args, |args|, h, id);
    if a.ok {
      var ran := DoAll(a.book, callee, |callee|);
      StuckForever(a.book, callee, |callee|, h, id);
      ReleasedSame(ran, a.lent, |a.lent|, h, id);
    } else {
      GivenUpStuck(a, h, id);
    }
  }

  lemma GivenUpStuck(a: Lifting, h: u32, id: nat)
    requires Stuck(a.book, h, id)
    ensures Stuck(GivenUp(a), h, id)
  {
  }

  lemma {:induction false} LiftedStuck(g: Book, args: seq<Arg>, n: nat, h: u32, id: nat)
    requires Sound(g) && Stuck(g, h, id) && n <= |args|
    ensures Stuck(Lifted(g, args, n).book, h, id)
  {
    hide Sound, Later, Stuck, Honest, Lifted, LiftOne, Loans;
    LiftedNext(g, args, n);
    if n > 0 {
      LiftedStuck(g, args, n - 1, h, id);
      LiftedLater(g, args, n - 1);
      var a := Lifted(g, args, n - 1);
      LaterSound(g, a.book, 0);
      LiftOneStuck(a.book, a.lent, args[n - 1], h, id);
    }
  }

  lemma LiftOneStuck(book: Book, lent: seq<Lent>, arg: Arg, h: u32, id: nat)
    requires Sound(book) && Stuck(book, h, id)
    ensures Stuck(LiftOne(book, lent, arg).book, h, id)
  {
    hide Sound;
    StuckIsLent(book, h, id);
  }

  /** Releasing changes lend counts only. */
  lemma {:induction false} ReleasedSame(g: Book, lent: seq<Lent>, n: nat, h: u32, id: nat)
    requires n <= |lent|
    ensures var b := Released(g, lent, n);
      b.closed == g.closed && b.leaked == g.leaked && (Stuck(g, h, id) ==> Stuck(b, h, id))
  {
    hide Released, ReleasedOne, Stuck;
    if n == 0 {
      assert Released(g, lent, 0) == g by {
        NoneReleased(g, lent);
      }
    } else {
      ReleasedNext(g, lent, n);
      ReleasedSame(g, lent, n - 1, h, id);
      ReleasedOneSame(Released(g, lent, n - 1), lent[n - 1], h, id);
    }
  }

  lemma NoneReleased(g: Book, lent: seq<Lent>)
    ensures Released(g, lent, 0) == g
  {
  }

  lemma ReleasedOneSame(g: Book, l: Lent, h: u32, id: nat)
    ensures var b := ReleasedOne(g, l);
      b.closed == g.closed && b.leaked == g.leaked && (Stuck(g, h, id) ==> Stuck(b, h, id))
  {
  }

  lemma MintedStays(g: Book, params: seq<Param>, h: u32)
    requires Sound(g) && Enough(g, |params|) && h in g.rows
    ensures h in Minted(g, params).rows && Minted(g, params).rows[h] == g.rows[h]
  {
    hide Sound, Later;
    if HasBorrow(params) {
      ScopeMade(g);
      LaterSound(g, g.(borrows := g.borrows + [0]), 0);
      MintAllStays(g.(borrows := g.borrows + [0]), |g.borrows|, params, |params|, h);
    } else {
      MintAllStays(g, |g.borrows|, params, |params|, h);
    }
  }

  lemma {:induction false} MintAllStays(g: Book, k: nat, params: seq<Param>, n: nat, h: u32)
    requires Sound(g) && n <= |params| && Enough(g, |params|) && (HasBorrow(params) ==> k < |g.borrows|) && h in g.rows
    ensures var b := MintAll(g, k, params, n); h in b.rows && b.rows[h] == g.rows[h]
  {
    hide Sound, MintedFor, MintAll, MintOne;
    MintAllNext(g, k, params, n);
    if n > 0 {
      MintAllStays(g, k, params, n - 1, h);
      MintAllKeeps(g, k, params, n - 1);
      var b := MintAll(g, k, params, n - 1);
      MintedSound(g, b, k, n - 1);
      MintOneStays(b, k, params[n - 1], h);
    }
  }

  lemma MintAllNext(g: Book, k: nat, params: seq<Param>, n: nat)
    requires n <= |params|
    ensures MintAll(g, k, params, n) == if n == 0 then g else MintOne(MintAll(g, k, params, n - 1), k, params[n - 1])
  {
  }

  lemma MintOneStays(b: Book, k: nat, p: Param, h: u32)
    requires Sound(b) && Room(b) && h in b.rows
    ensures h in MintOne(b, k, p).rows && MintOne(b, k, p).rows[h] == b.rows[h]
  {
    hide Sound;
    AddedStays(b, h);
  }

  lemma MintedSound(g: Book, b: Book, k: nat, n: nat)
    requires MintedFor(g, b, k, n)
    ensures Sound(b) && (g.closed ==> b.closed) && b.next <= g.next + n && |b.borrows| == |g.borrows|
  {
  }

  // ---- a drop that loses a loan ----

  /** Every loan that was left behind is of an entry that is still live. */
  ghost predicate NothingLost(g: Book) {
    g.closed || AllLive(g.rows, g.leaked)
  }

  /** WHEN A DROP LOSES A LOAN. The end of dropOwnedWithDtor does not look at the
      lend count again. If the run of the destructor loses nothing, the drop
      loses a loan if and only if the destructor comes back without an error, with
      the table open, and left behind a loan of the very entry that is dropped. */
  lemma DropLosesIff(g: Book, h: u32, dtor: seq<Op>, fails: bool)
    requires Sound(g) && Enough(g, Mints(dtor, |dtor|)) && CanDropOwned(g, h) && g.rows[h].typeIdx in g.dtors
    ensures var ran := DoAll(g, dtor, |dtor|);
      NothingLost(Do(g, DropDtor(h, dtor, fails))) <==>
        NothingLost(ran) && (fails || ran.closed || !Leaks(g, dtor, |dtor|, Loan(h, g.rows[h].id)))
  {
    hide Sound, Later, DoAll, Mints, Do, Leaks;
    var ran, l := DoAll(g, dtor, |dtor|), Loan(h, g.rows[h].id);
    DoIs(g, DropDtor(h, dtor, fails));
    UnlentOwesNothing(g, h);
    LeakedIff(g, dtor, |dtor|, l);
    RunKeeps(g, dtor, |dtor|);
    if ran.closed {
      ClosedEmpty(g, ran, Mints(dtor, |dtor|));
    }
  }

  lemma ClosedEmpty(g: Book, g': Book, n: nat)
    requires Later(g, g', n) && g'.closed
    ensures g'.rows == map[]
  {
  }

  /** Without a destructor, and with one that leaves none of the handle's loans
      behind, nothing is lost that was not lost before. */
  lemma PlainDropKeeps(g: Book, h: u32, dtor: seq<Op>, fails: bool)
    requires Sound(g) && CanDropOwned(g, h) && g.rows[h].typeIdx !in g.dtors
    ensures NothingLost(Do(g, DropDtor(h, dtor, fails))) <==> NothingLost(g)
  {
    hide Sound;
    UnlentOwesNothing(g, h);
  }

  // ---- the scope of a delegated call ----

  /** THE EXIT CHECK. While the table is open, a delegated call traps if and only
      if it has a borrowed parameter, its callee came back without an error, and
      a borrow of the call's scope is still live. */
  lemma TrapsIff(g: Book, params: seq<Param>, callee: seq<Op>, fails: bool)
    requires Sound(g) && Enough(g, |params| + Mints(callee, |callee|))
    requires !DoAll(Minted(g, params), callee, |callee|).closed
    ensures var after := DoAll(Minted(g, params), callee, |callee|);
      Traps(g, params, callee, fails) <==>
        HasBorrow(params) && !fails && exists h :: h in after.rows && after.rows[h].scope == Some(|g.borrows|)
  {
    hide Sound, Later, DoAll, Mints;
    MintedLater(g, params);
    LaterSound(g, Minted(g, params), |params|);
    RunKeeps(Minted(g, params), callee, |callee|);
    var after := DoAll(Minted(g, params), callee, |callee|);
    LaterSound(Minted(g, params), after, Mints(callee, |callee|));
    if HasBorrow(params) {
      ScopeCounted(g, params);
      ScopeCounts(after, |g.borrows|);
    }
  }

  lemma ScopeCounted(g: Book, params: seq<Param>)
    requires Sound(g) && Enough(g, |params|) && HasBorrow(params)
    ensures |Minted(g, params).borrows| == |g.borrows| + 1
  {
    hide Sound, Later;
    var g0 := g.(borrows := g.borrows + [0]);
    ScopeMade(g);
    LaterSound(g, g0, 0);
    MintAllKeeps(g0, |g.borrows|, params, |params|);
    MintedSound(g0, MintAll(g0, |g.borrows|, params, |params|), |g.borrows|, |params|);
  }

  /** The borrows that carry the call's scope are those minted for its parameters:
      none there was before, and none that the callee mints. */
  lemma ScopeIsTheCalls(g: Book, params: seq<Param>, callee: seq<Op>, h: u32)
    requires Sound(g) && Enough(g, |params| + Mints(callee, |callee|)) && HasBorrow(params)
    requires var after := DoAll(Minted(g, params), callee, |callee|);
      h in after.rows && after.rows[h].scope == Some(|g.borrows|)
    ensures var after := DoAll(Minted(g, params), callee, |callee|);
      |g.fates| <= after.rows[h].id < |Minted(g, params).fates|
  {
    hide Sound, DoAll, Mints, Minted, FatesKept, RowsKept, Scoped, Fated;
    var m := Minted(g, params);
    var after := DoAll(m, callee, |callee|);
    MintedLater(g, params);
    ScopeCounted(g, params);
    RunKeeps(m, callee, |callee|);
    LaterTwice(g, m, after, |params|, Mints(callee, |callee|));
    IdsKnown(g);
    IdsKnown(after);
    if after.rows[h].id < |g.fates| {
      LiveBetween(g, g, after, h);
      SameRow(g.rows, after.rows, h);
      OldScope(g, h);
    }
  }

  lemma OldScope(g: Book, h: u32)
    requires Sound(g) && h in g.rows
    ensures g.rows[h].scope != Some(|g.borrows|)
  {
  }

  /** Each borrowed parameter gets a live borrow of its own representation, in the
      call's scope, and each owned one a live own outside of it; neither is lent. */
  lemma BorrowsMinted(g: Book, params: seq<Param>, i: nat)
    requires Sound(g) && !g.closed && Enough(g, |params|) && i < |params| && params[i].BorrowParam?
    ensures exists h :: h in Minted(g, params).rows && var row := Minted(g, params).rows[h];
      row.resource && row.typeIdx == params[i].typeIdx && row.rep == params[i].rep && !row.own
      && row.scope == Some(|g.borrows|) && row.lends == 0
  {
    hide Sound, MintAll;
    ParamMinted(g, params, i);
  }

  lemma OwnsMinted(g: Book, params: seq<Param>, i: nat)
    requires Sound(g) && !g.closed && Enough(g, |params|) && i < |params| && params[i].OwnParam?
    ensures exists h :: h in Minted(g, params).rows && var row := Minted(g, params).rows[h];
      row.resource && row.typeIdx == params[i].typeIdx && row.rep == params[i].rep && row.own
      && row.scope == None && row.lends == 0
  {
    hide Sound, MintAll;
    ParamMinted(g, params, i);
  }

  lemma ParamMinted(g: Book, params: seq<Param>, i: nat)
    requires Sound(g) && !g.closed && Enough(g, |params|) && i < |params| && !params[i].OtherParam?
    ensures exists h :: h in Minted(g, params).rows && IsMintOf(Minted(g, params).rows[h], params[i], |g.borrows|)
  {
    hide Sound, Later, MintAll, IsMintOf;
    var k := |g.borrows|;
    if HasBorrow(params) {
      ScopeMade(g);
      LaterSound(g, g.(borrows := g.borrows + [0]), 0);
      OneMinted(g.(borrows := g.borrows + [0]), k, params, |params|, i);
      assert Minted(g, params) == MintAll(g.(borrows := g.borrows + [0]), k, params, |params|);
    } else {
      OneMinted(g, k, params, |params|, i);
      assert Minted(g, params) == MintAll(g, k, params, |params|);
    }
    var h :| h in Minted(g, params).rows && IsMintOf(Minted(g, params).rows[h], params[i], k);
  }

  predicate IsMintOf(row: Row, p: Param, k: nat) {
    match p
    case OwnParam(ty, rep) => row == Row(row.id, true, ty, rep, true, None, 0)
    case BorrowParam(ty, rep) => row == Row(row.id, true, ty, rep, false, Some(k), 0)
    case OtherParam => false
  }

  lemma {:induction false} OneMinted(g: Book, k: nat, params: seq<Param>, n: nat, i: nat)
    requires Sound(g) && !g.closed && n <= |params| && Enough(g, |params|) && (HasBorrow(params) ==> k < |g.borrows|)
    requires i < n && !params[i].OtherParam?
    ensures exists h :: h in MintAll(g, k, params, n).rows && IsMintOf(MintAll(g, k, params, n).rows[h], params[i], k)
    ensures !MintAll(g, k, params, n).closed
  {
    hide Sound, MintedFor, IsMintOf, MintAll, MintOne;
    MintAllNext(g, k, params, n);
    MintAllOpen(g, k, params, n);
    MintAllOpen(g, k, params, n - 1);
    MintAllKeeps(g, k, params, n - 1);
    var b := MintAll(g, k, params, n - 1);
    MintedSound(g, b, k, n - 1);
    if i == n - 1 {
      MintIs(b, k, params[i]);
    } else {
      OneMinted(g, k, params, n - 1, i);
      var h :| h in b.rows && IsMintOf(b.rows[h], params[i], k);
      MintOneStays(b, k, params[n - 1], h);
    }
  }

  lemma MintIs(b: Book, k: nat, p: Param)
    requires !p.OtherParam? && !b.closed
    ensures var b' := MintOne(b, k, p); NextIndex(b) in b'.rows && IsMintOf(b'.rows[NextIndex(b)], p, k)
  {
  }

  lemma {:induction false} MintAllOpen(g: Book, k: nat, params: seq<Param>, n: nat)
    requires n <= |params|
    ensures MintAll(g, k, params, n).closed == g.closed
  {
    if n > 0 {
      MintAllOpen(g, k, params, n - 1);
    }
  }

  // ---- the failing runs ----

  /** One handle passed twice, borrowed and then owned. */
  function LendThenTake(ty: u32, h: u32): seq<Arg> {
    [BorrowArg(ty, h), OwnArg(ty, h)]
  }

  /** In every table, for every handle that could be taken: the lend succeeds, the
      take then fails, and from then on the handle can be neither taken nor
      dropped (`StuckForever`). */
  lemma LendThenTakeSticks(g: Book, ty: u32, h: u32, callee: seq<Op>)
    requires Sound(g) && CanTake(g, ty, h)
    ensures var g', l := Do(g, HostCall(LendThenTake(ty, h), callee)), Loan(h, g.rows[h].id);
      && Sound(g') && !g'.closed && g'.rows == g.rows[h := g.rows[h].(lends := 1)]
      && Stuck(g', h, l.id) && LeaksIn(g, HostCall(LendThenTake(ty, h), callee), l)
      && !CanTake(g', ty, h) && !CanDrop(g', ty, h) && !CanDropOwned(g', h)
  {
    hide Sound, Later, Honest, Do, LeaksIn;
    var args, l := LendThenTake(ty, h), Loan(h, g.rows[h].id);
    LiftedNext(g, args, 0);
    LiftedNext(g, args, 1);
    LiftedNext(g, args, 2);
    var a := Lifted(g, args, 2);
    OneMoreLent([], Lent(ty, h, l.id));
    assert !a.ok && a.book == LentOut(g, h) && Loans(a.lent, |a.lent|) == multiset{} + multiset{l};
    DoIs(g, HostCall(args, callee));
    LeaksInIs(g, HostCall(args, callee), l);
    assert !Fails(g, args, 0);
    assert FirstFails(g, args, 1) && LentBy(g, args, 1, l);
    LiftedLater(g, args, 2);
    GivenUpLater(g, a);
    LaterSound(g, GivenUp(a), 0);
    MoreOf(g.leaked, g.leaked + multiset{l}, l);
    StuckIsLent(GivenUp(a), h, l.id);
  }

  /** A destructor that does this with its own handle, and comes back: in every
      table the drop loses the loan. */
  lemma DestructorLosesLoan(g: Book, h: u32)
    requires Sound(g) && Enough(g, 0) && CanDropOwned(g, h) && g.rows[h].typeIdx in g.dtors
    ensures var dtor := [HostCall(LendThenTake(g.rows[h].typeIdx, h), [])];
      var g' := Do(g, DropDtor(h, dtor, false));
      h !in g'.rows && Loan(h, g.rows[h].id) in g'.leaked && !NothingLost(g')
  {
    hide Sound, Later, Do, DoAll, Leaks, LeaksIn, Mints, MintsOf;
    var call := HostCall(LendThenTake(g.rows[h].typeIdx, h), []);
    var dtor, l := [call], Loan(h, g.rows[h].id);
    LendThenTakeSticks(g, g.rows[h].typeIdx, h, []);
    DoAllIs(g, dtor, 1);
    DoAllIs(g, dtor, 0);
    LeaksIs(g, dtor, 1, l);
    DoIs(g, call);
    NothingMinted(dtor);
    DoIs(g, DropDtor(h, dtor, false));
    DropLosesIff(g, h, dtor, false);
  }

  lemma NothingMinted(dtor: seq<Op>)
    requires |dtor| == 1 && dtor[0].HostCall? && dtor[0].callee == []
    ensures Mints(dtor, 1) == 0
  {
    hide Mints, MintsOf;
    DoAllIs(Empty({}), dtor, 1);
    DoAllIs(Empty({}), dtor, 0);
    DoIs(Empty({}), dtor[0]);
    DoAllIs(Empty({}), [], 0);
  }

  /** The table of a new instance. */
  function Empty(dtors: set<u32>): Book {
    Book(map[], [], 1, false, dtors, [], [], multiset{}, multiset{})
  }

  /** There are such tables: one handle of a type with a destructor. */
  lemma OneHandle(ty: u32, rep: u32)
    ensures Sound(Empty({ty})) && NothingLost(Empty({ty}))
    ensures var g := Do(Empty({ty}), NewOwn(ty, rep));
      && Sound(g) && NothingLost(g) && CanTake(g, ty, 1) && CanDropOwned(g, 1) && g.rows[1].typeIdx in g.dtors
      && Enough(g, 0)
  {
    var e := Empty({ty});
    assert Sound(e);
    AddedSound(e, true, ty, rep, true, None);
  }
}
