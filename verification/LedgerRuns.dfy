/** Runs over the handle table: what any run keeps, which calls leave a loan that
    nobody releases, and what such a loan does to its handle. */
module LedgerRuns {
  import opened Base
  import opened Ledger
  import opened LedgerFacts

  // ---- what is left of the past ----

  /** A fate is final: only a live entry meets another one. */
  ghost predicate FatesKept(f: seq<Fate>, f': seq<Fate>) {
    |f| <= |f'| && forall i :: 0 <= i < |f| ==> f'[i] == f[i] || (f[i].Live? && !f'[i].Live?)
  }

  /** An entry that is still there has changed in its lend count at most. */
  ghost predicate RowsKept(rows: map<u32, Row>, rows': map<u32, Row>) {
    forall h :: h in rows && h in rows' && rows'[h].id == rows[h].id ==> rows'[h] == rows[h].(lends := rows'[h].lends)
  }

  /** Entries minted since carry scopes made since. */
  ghost predicate NewScopes(minted: nat, scopes: nat, rows': map<u32, Row>) {
    forall h :: h in rows' && rows'[h].id >= minted && rows'[h].scope.Some? ==> rows'[h].scope.value >= scopes
  }

  /** What every run keeps, apart from the loans that are owed. */
  ghost predicate Later(g: Book, g': Book, n: nat) {
    && Sound(g') && (g.closed ==> g'.closed) && g'.next <= g.next + n && g'.dtors == g.dtors
    && |g.borrows| <= |g'.borrows| && g.leaked <= g'.leaked
    && FatesKept(g.fates, g'.fates) && RowsKept(g.rows, g'.rows) && NewScopes(|g.fates|, |g.borrows|, g'.rows)
  }

  /** An entry that is live at the end of two runs was live between them. */
  lemma LiveBetween(g: Book, g1: Book, g2: Book, h: u32)
    requires Fated(g1.rows, g1.fates) && Fated(g2.rows, g2.fates) && FatesKept(g1.fates, g2.fates)
    requires h in g2.rows && g2.rows[h].id < |g1.fates|
    ensures h in g1.rows && g1.rows[h].id == g2.rows[h].id
  {
    var id := g2.rows[h].id;
    assert g2.fates[id] == Live(h);
    assert g1.fates[id] == Live(h);
  }

  lemma FatesKeptTwice(f: seq<Fate>, f1: seq<Fate>, f2: seq<Fate>)
    requires FatesKept(f, f1) && FatesKept(f1, f2)
    ensures FatesKept(f, f2)
  {
  }

  lemma IdsKnown(g: Book)
    requires Sound(g)
    ensures Fated(g.rows, g.fates) && forall h :: h in g.rows ==> g.rows[h].id < |g.fates|
  {
  }

  lemma LaterTwice(g: Book, g1: Book, g2: Book, n: nat, m: nat)
    requires Sound(g) && Later(g, g1, n) && Later(g1, g2, m)
    ensures Later(g, g2, n + m)
  {
    hide Sound, Fated, FatesKept, RowsKept, NewScopes;
    IdsKnown(g);
    IdsKnown(g1);
    IdsKnown(g2);
    FatesKeptTwice(g.fates, g1.fates, g2.fates);
    FatesGrow(g.fates, g1.fates);
    RowsKeptTwice(g, g1, g2);
    NewScopesTwice(g, g1, g2);
  }

  lemma FatesGrow(f: seq<Fate>, f': seq<Fate>)
    requires FatesKept(f, f')
    ensures |f| <= |f'|
  {
  }

  lemma RowsKeptTwice(g: Book, g1: Book, g2: Book)
    requires Fated(g1.rows, g1.fates) && Fated(g2.rows, g2.fates) && FatesKept(g1.fates, g2.fates)
    requires |g.fates| <= |g1.fates| && (forall h :: h in g.rows ==> g.rows[h].id < |g.fates|)
    requires RowsKept(g.rows, g1.rows) && RowsKept(g1.rows, g2.rows)
    ensures RowsKept(g.rows, g2.rows)
  {
    hide Fated, FatesKept;
    forall h | h in g.rows && h in g2.rows && g2.rows[h].id == g.rows[h].id
      ensures g2.rows[h] == g.rows[h].(lends := g2.rows[h].lends)
    {
      LiveBetween(g, g1, g2, h);
    }
  }

  lemma NewScopesTwice(g: Book, g1: Book, g2: Book)
    requires Fated(g1.rows, g1.fates) && Fated(g2.rows, g2.fates) && FatesKept(g1.fates, g2.fates)
    requires |g.fates| <= |g1.fates| && |g.borrows| <= |g1.borrows|
    requires RowsKept(g1.rows, g2.rows)
    requires NewScopes(|g.fates|, |g.borrows|, g1.rows) && NewScopes(|g1.fates|, |g1.borrows|, g2.rows)
    ensures NewScopes(|g.fates|, |g.borrows|, g2.rows)
  {
    hide Fated, FatesKept;
    forall h | h in g2.rows && g2.rows[h].id >= |g.fates| && g2.rows[h].scope.Some?
      ensures g2.rows[h].scope.value >= |g.borrows|
    {
      if g2.rows[h].id < |g1.fates| {
        LiveBetween(g, g1, g2, h);
      }
    }
  }

  lemma Unmoved(g: Book)
    requires Sound(g)
    ensures Later(g, g, 0)
  {
  }

  // ---- one operation ----

  lemma AddedLater(g: Book, typeIdx: u32, rep: u32, own: bool)
    requires Sound(g) && Room(g)
    ensures var g' := Added(g, true, typeIdx, rep, own, None);
      Later(g, g', 1) && g'.owed == g.owed && g'.leaked == g.leaked
  {
    hide Sound;
    AddedSound(g, true, typeIdx, rep, own, None);
    IdsKnown(g);
  }

  lemma BorrowLater(g: Book, typeIdx: u32, rep: u32, k: nat)
    requires Sound(g) && Room(g) && k < |g.borrows|
    ensures var g' := Added(Counting(g, k), true, typeIdx, rep, false, Some(k));
      && Sound(g') && (g.closed ==> g'.closed) && g'.next <= g.next + 1 && g'.dtors == g.dtors
      && |g'.borrows| == |g.borrows| && g'.leaked == g.leaked && g'.owed == g.owed
      && FatesKept(g.fates, g'.fates) && RowsKept(g.rows, g'.rows)
      && forall h :: h in g'.rows && g'.rows[h].id >= |g.fates| ==> g'.rows[h].scope == Some(k)
  {
    hide Sound;
    BorrowSound(g, typeIdx, rep, k);
    IdsKnown(g);
  }

  lemma RetiredLater(g: Book, h: u32, fate: Fate)
    requires Sound(g) && h in g.rows && !fate.Live? && Sound(Retired(g, h, fate))
    ensures Later(g, Retired(g, h, fate), 0)
  {
    hide Sound;
    IdsKnown(g);
  }

  lemma TakenLater(g: Book, typeIdx: u32, h: u32)
    requires Sound(g)
    ensures Later(g, TakenOut(g, typeIdx, h), 0)
  {
    hide Sound, Later, Retired;
    TakenSound(g, typeIdx, h);
    if CanTake(g, typeIdx, h) {
      RetiredLater(g, h, Taken);
    } else {
      Unmoved(g);
    }
  }

  lemma DroppedOwnedLater(g: Book, h: u32)
    requires Sound(g)
    ensures Later(g, DroppedOwned(g, h), 0)
  {
    hide Sound, Later, Retired;
    DroppedOwnedSound(g, h);
    if CanDropOwned(g, h) {
      RetiredLater(g, h, Dropped);
    } else {
      Unmoved(g);
    }
  }

  lemma DroppedLater(g: Book, typeIdx: u32, h: u32)
    requires Sound(g)
    ensures Later(g, DroppedOut(g, typeIdx, h), 0)
  {
    hide Sound;
    DroppedSound(g, typeIdx, h);
    IdsKnown(g);
  }

  lemma LentLater(g: Book, h: u32)
    requires Sound(g) && h in g.rows
    ensures Later(g, LentOut(g, h), 0)
  {
    hide Sound;
    LentSound(g, h);
    IdsKnown(g);
  }

  lemma ClosedLater(g: Book)
    requires Sound(g)
    ensures Later(g, Closed(g), 0) && Closed(g).owed == g.owed
  {
    hide Sound;
    ClosedSound(g);
    Unmoved(g);
    IdsKnown(g);
  }

  // ---- the loans of a call ----

  /** What a wrapper remembers of a loan is the type of the entry that it lent. */
  ghost predicate Honest(g: Book, lent: seq<Lent>) {
    forall i :: 0 <= i < |lent| ==>
      && lent[i].id < |g.fates|
      && (lent[i].h in g.rows && g.rows[lent[i].h].id == lent[i].id ==> Found(g, lent[i].typeIdx, lent[i].h))
  }

  lemma StillHonest(g: Book, g': Book, lent: seq<Lent>, n: nat)
    requires Sound(g) && Honest(g, lent) && Later(g, g', n)
    ensures Honest(g', lent)
  {
    hide Sound;
    IdsKnown(g);
    IdsKnown(g');
    forall i | 0 <= i < |lent| && lent[i].h in g'.rows && g'.rows[lent[i].h].id == lent[i].id
      ensures Found(g', lent[i].typeIdx, lent[i].h)
    {
      LiveBetween(g, g, g', lent[i].h);
    }
  }

  lemma LoansPrefix(lent: seq<Lent>, l: Lent, n: nat)
    requires n <= |lent|
    ensures Loans(lent + [l], n) == Loans(lent, n)
  {
    if n > 0 {
      LoansPrefix(lent, l, n - 1);
    }
  }

  lemma OneMoreLent(lent: seq<Lent>, l: Lent)
    ensures Loans(lent + [l], |lent + [l]|) == Loans(lent, |lent|) + multiset{l.Of()}
  {
    LoansPrefix(lent, l, |lent|);
  }

  /** Lifting arguments, as far as it comes. */
  lemma {:induction false} LiftedLater(g: Book, args: seq<Arg>, n: nat)
    requires Sound(g) && n <= |args|
    ensures var a := Lifted(g, args, n);
      && Later(g, a.book, 0) && a.book.leaked == g.leaked && a.book.owed == g.owed + Loans(a.lent, |a.lent|)
      && Honest(a.book, a.lent)
  {
    hide Sound, Later, Honest, Lifted, LiftOne, Loans;
    LiftedNext(g, args, n);
    if n == 0 {
      Unmoved(g);
      NothingLent(g);
    } else {
      LiftedLater(g, args, n - 1);
      var a := Lifted(g, args, n - 1);
      if a.ok {
        LaterSound(g, a.book, 0);
        LiftOneLater(a.book, a.lent, args[n - 1], g.owed);
        LaterTwice(g, a.book, LiftOne(a.book, a.lent, args[n - 1]).book, 0, 0);
      }
    }
  }

  lemma LiftedNext(g: Book, args: seq<Arg>, n: nat)
    requires n <= |args|
    ensures n == 0 ==> Lifted(g, args, n) == Lifting(true, g, [])
    ensures n > 0 ==> var a := Lifted(g, args, n - 1);
      Lifted(g, args, n) == if a.ok then LiftOne(a.book, a.lent, args[n - 1]) else a
  {
  }

  lemma NothingLent(g: Book)
    ensures Loans([], 0) == multiset{} && g.owed + multiset{} == g.owed && Honest(g, [])
  {
  }

  lemma LaterSound(g: Book, g': Book, n: nat)
    requires Later(g, g', n)
    ensures Sound(g') && (g.closed ==> g'.closed) && g'.next <= g.next + n
    ensures |g.borrows| <= |g'.borrows| && g.leaked <= g'.leaked
  {
  }

  lemma LiftOneLater(book: Book, lent: seq<Lent>, arg: Arg, owed: multiset<Loan>)
    requires Sound(book) && Honest(book, lent) && book.owed == owed + Loans(lent, |lent|)
    ensures var a := LiftOne(book, lent, arg);
      && Later(book, a.book, 0) && a.book.leaked == book.leaked && a.book.owed == owed + Loans(a.lent, |a.lent|)
      && Honest(a.book, a.lent)
  {
    hide Sound, Later, Honest;
    Unmoved(book);
    match arg
    case OwnArg(ty, h) =>
      TakenLater(book, ty, h);
      StillHonest(book, TakenOut(book, ty, h), lent, 0);
    case BorrowArg(ty, h) =>
      if Found(book, ty, h) {
        LentLater(book, h);
        StillHonest(book, LentOut(book, h), lent, 0);
        HonestOneMore(book, lent, ty, h);
        OneMoreLent(lent, Lent(ty, h, book.rows[h].id));
      }
    case PlainArg(_) =>
  }

  lemma HonestOneMore(book: Book, lent: seq<Lent>, ty: u32, h: u32)
    requires Sound(book) && Found(book, ty, h) && Honest(LentOut(book, h), lent)
    ensures Honest(LentOut(book, h), lent + [Lent(ty, h, book.rows[h].id)])
  {
    hide Sound;
    IdsKnown(book);
  }

  /** The deferred releases: each reaches the very entry that was lent, whatever
      happened to the table since. */
  lemma {:induction false} ReleasedLater(g: Book, lent: seq<Lent>, n: nat)
    requires Sound(g) && Honest(g, lent) && n <= |lent| && Loans(lent, |lent|) <= g.owed
    ensures var b := Released(g, lent, n);
      Later(g, b, 0) && b.leaked == g.leaked && b.owed == g.owed - Loans(lent, n)
  {
    hide Sound, Later, Honest, Loans, Released, ReleasedOne;
    if n == 0 {
      NothingReleased(g, lent);
    } else {
      ReleasedNext(g, lent, n);
      ReleasedLater(g, lent, n - 1);
      var b := Released(g, lent, n - 1);
      LaterSound(g, b, 0);
      StillHonest(g, b, lent, 0);
      NextOwed(g.owed, lent, n);
      ReleasedOneLater(b, lent, n - 1);
      LaterTwice(g, b, ReleasedOne(b, lent[n - 1]), 0, 0);
    }
  }

  lemma NothingReleased(g: Book, lent: seq<Lent>)
    requires Sound(g)
    ensures Later(g, g, 0) && Released(g, lent, 0) == g && g.owed - Loans(lent, 0) == g.owed
  {
  }

  lemma ReleasedNext(g: Book, lent: seq<Lent>, n: nat)
    requires 0 < n <= |lent|
    ensures Released(g, lent, n) == ReleasedOne(Released(g, lent, n - 1), lent[n - 1])
  {
  }

  lemma NextOwed(owed: multiset<Loan>, lent: seq<Lent>, n: nat)
    requires 0 < n <= |lent| && Loans(lent, |lent|) <= owed
    ensures var b := owed - Loans(lent, n - 1);
      lent[n - 1].Of() in b && b - multiset{lent[n - 1].Of()} == owed - Loans(lent, n)
  {
    LoansMonotone(lent, n, |lent|);
  }

  lemma {:induction false} LoansMonotone(lent: seq<Lent>, n: nat, m: nat)
    requires n <= m <= |lent|
    ensures Loans(lent, n) <= Loans(lent, m)
    decreases m - n
  {
    if n < m {
      LoansMonotone(lent, n + 1, m);
    }
  }

  lemma ReleasedOneLater(g: Book, lent: seq<Lent>, i: nat)
    requires Sound(g) && Honest(g, lent) && i < |lent| && lent[i].Of() in g.owed
    ensures var b := ReleasedOne(g, lent[i]);
      Later(g, b, 0) && b.owed == g.owed - multiset{lent[i].Of()} && b.leaked == g.leaked
  {
    hide Sound;
    ReleasedOneSound(g, lent[i]);
    IdsKnown(g);
  }

  /** A wrapper that gives up leaves its loans to nobody. */
  lemma GivenUpLater(g: Book, a: Lifting)
    requires Sound(g) && Later(g, a.book, 0) && a.book.leaked == g.leaked
    requires a.book.owed == g.owed + Loans(a.lent, |a.lent|) && Honest(a.book, a.lent)
    ensures Later(g, GivenUp(a), 0) && GivenUp(a).owed == g.owed
    ensures GivenUp(a).leaked == g.leaked + Loans(a.lent, |a.lent|)
  {
    hide Partition, Fated, Scoped, BorrowsCounted, Carrying, FatesKept, RowsKept, NewScopes, Counted, AllLive, Known,
      Loans, Honest;
    var part := Loans(a.lent, |a.lent|);
    LentKnown(a.book, a.lent, |a.lent|);
    Moved(a.book.rows, g.owed, g.leaked, part, |a.book.fates|, !a.book.closed);
    assert g.owed + part - part == g.owed;
  }

  /** Loans that are no longer owed but still counted. */
  lemma Moved(rows: map<u32, Row>, owed: multiset<Loan>, leaked: multiset<Loan>, part: multiset<Loan>, minted: nat,
              open: bool)
    requires Counted(rows, owed + part, leaked) && Known(owed + part, minted) && Known(leaked, minted)
      && Known(part, minted)
    requires open ==> AllLive(rows, owed + part)
    ensures Counted(rows, owed, leaked + part) && Known(owed, minted) && Known(leaked + part, minted)
    ensures open ==> AllLive(rows, owed)
  {
  }

  lemma {:induction false} LentKnown(g: Book, lent: seq<Lent>, n: nat)
    requires Honest(g, lent) && n <= |lent|
    ensures Known(Loans(lent, n), |g.fates|)
  {
    if n > 0 {
      LentKnown(g, lent, n - 1);
    }
  }

  // ---- delegated calls ----

  /** The scope that a call makes for itself counts nothing at first. */
  lemma ScopeMade(g: Book)
    requires Sound(g)
    ensures var g' := g.(borrows := g.borrows + [0]); Later(g, g', 0)
  {
    hide Partition, Fated, Counted, AllLive;
    CarryingNone(g.rows, |g.borrows|);
    Unmoved(g);
  }

  /** Minting for a call: the new borrows, and no other handle, carry the scope
      of the call. */
  ghost predicate MintedFor(g: Book, g': Book, k: nat, n: nat) {
    && Sound(g') && (g.closed ==> g'.closed) && g'.next <= g.next + n && g'.dtors == g.dtors
    && |g.borrows| == |g'.borrows| && g.leaked == g'.leaked && g.owed == g'.owed
    && FatesKept(g.fates, g'.fates) && RowsKept(g.rows, g'.rows)
    && forall h :: h in g'.rows && g'.rows[h].id >= |g.fates| ==>
         && g'.rows[h].resource
         && (g'.rows[h].scope == if g'.rows[h].own then None else Some(k))
  }

  lemma {:induction false} MintAllKeeps(g: Book, k: nat, params: seq<Param>, n: nat)
    requires Sound(g) && n <= |params| && Enough(g, |params|) && (HasBorrow(params) ==> k < |g.borrows|)
    ensures MintedFor(g, MintAll(g, k, params, n), k, n)
  {
    hide Sound;
    IdsKnown(g);
    if n > 0 {
      MintAllKeeps(g, k, params, n - 1);
      var b := MintAll(g, k, params, n - 1);
      MintOneKeeps(b, k, params, n - 1);
      MintedTwice(g, b, MintOne(b, k, params[n - 1]), k, n - 1);
    }
  }

  lemma MintOneKeeps(g: Book, k: nat, params: seq<Param>, i: nat)
    requires Sound(g) && i < |params| && Room(g) && (HasBorrow(params) ==> k < |g.borrows|)
    ensures MintedFor(g, MintOne(g, k, params[i]), k, 1)
  {
    hide Sound, Added;
    IdsKnown(g);
    match params[i]
    case OwnParam(ty, rep) => AddedLater(g, ty, rep, true); AddedRow(g, ty, rep, true, None);
    case BorrowParam(ty, rep) =>
      BorrowLater(g, ty, rep, k);
      AddedRow(Counting(g, k), ty, rep, false, Some(k));
    case OtherParam =>
  }

  lemma AddedRow(g: Book, ty: u32, rep: u32, own: bool, scope: Option<nat>)
    requires forall h :: h in g.rows ==> g.rows[h].id < |g.fates|
    ensures var g' := Added(g, true, ty, rep, own, scope);
      && |g'.borrows| == |g.borrows|
      && forall h :: h in g'.rows && g'.rows[h].id >= |g.fates| ==>
           g'.rows[h].resource && g'.rows[h].own == own && g'.rows[h].scope == scope
  {
  }

  lemma MintedTwice(g: Book, g1: Book, g2: Book, k: nat, n: nat)
    requires Sound(g) && MintedFor(g, g1, k, n) && MintedFor(g1, g2, k, 1)
    ensures MintedFor(g, g2, k, n + 1)
  {
    hide Sound, Fated, FatesKept, RowsKept;
    IdsKnown(g);
    IdsKnown(g1);
    IdsKnown(g2);
    FatesKeptTwice(g.fates, g1.fates, g2.fates);
    FatesGrow(g.fates, g1.fates);
    RowsKeptTwice(g, g1, g2);
    forall h | h in g2.rows && g2.rows[h].id >= |g.fates|
      ensures g2.rows[h].resource && g2.rows[h].scope == if g2.rows[h].own then None else Some(k)
    {
      if g2.rows[h].id < |g1.fates| {
        LiveBetween(g, g1, g2, h);
        SameRow(g1.rows, g2.rows, h);
      }
    }
  }

  lemma SameRow(rows: map<u32, Row>, rows': map<u32, Row>, h: u32)
    requires RowsKept(rows, rows') && h in rows && h in rows' && rows'[h].id == rows[h].id
    ensures rows'[h] == rows[h].(lends := rows'[h].lends)
  {
  }

  lemma MintedLater(g: Book, params: seq<Param>)
    requires Sound(g) && Enough(g, |params|)
    ensures Later(g, Minted(g, params), |params|) && Minted(g, params).owed == g.owed
      && Minted(g, params).leaked == g.leaked
  {
    hide Sound, FatesKept, RowsKept;
    IdsKnown(g);
    if HasBorrow(params) {
      var g0 := g.(borrows := g.borrows + [0]);
      ScopeMade(g);
      MintAllKeeps(g0, |g.borrows|, params, |params|);
    } else {
      MintAllKeeps(g, |g.borrows|, params, |params|);
      NoneScoped(g, params, |params|);
    }
  }

  /** Without a borrowed parameter no scope is given to a handle. */
  lemma {:induction false} NoneScoped(g: Book, params: seq<Param>, n: nat)
    requires n <= |params| && !HasBorrow(params)
    requires forall h :: h in g.rows ==> g.rows[h].id < |g.fates|
    ensures var b := MintAll(g, |g.borrows|, params, n);
      && |g.fates| <= |b.fates| && (forall h :: h in b.rows ==> b.rows[h].id < |b.fates|)
      && forall h :: h in b.rows && b.rows[h].id >= |g.fates| ==> b.rows[h].scope == None
  {
    if n > 0 {
      NoneScoped(g, params, n - 1);
    }
  }

  // ---- every run ----

  /** What an operation, and a run, makes of a sound table. */
  ghost predicate Outcome(g: Book, g': Book, n: nat) {
    Later(g, g', n) && g'.owed == g.owed
  }

  lemma {:induction false} OpKeeps(g: Book, op: Op)
    requires Sound(g) && Enough(g, MintsOf(op))
    ensures Outcome(g, Do(g, op), MintsOf(op))
    decreases op, 1
  {
    hide Sound, Later, MintsOf, Do;
    DoIs(g, op);
    match op
    case NewOwn(ty, rep) => AddedLater(g, ty, rep, true);
    case NewBorrow(ty, rep) => AddedLater(g, ty, rep, false);
    case Drop(ty, h) => DroppedLater(g, ty, h);
    case Take(ty, h) => TakenLater(g, ty, h);
    case DropByHandle(h) => DroppedOwnedLater(g, h);
    case DropDtor(h, dtor, fails) => DropKeeps(g, h, dtor, fails);
    case HostCall(args, callee) => CallKeeps(g, args, callee);
    case Delegated(params, callee, fails) =>
      MintedLater(g, params);
      LaterSound(g, Minted(g, params), |params|);
      RunKeeps(Minted(g, params), callee, |callee|);
      LaterTwice(g, Minted(g, params), DoAll(Minted(g, params), callee, |callee|), |params|, Mints(callee, |callee|));
    case CloseTable => ClosedLater(g);
  }

  /** Do and MintsOf, one step. */
  lemma DoIs(g: Book, op: Op)
    ensures op.NewOwn? ==> Do(g, op) == Added(g, true, op.typeIdx, op.rep, true, None) && MintsOf(op) == 1
    ensures op.NewBorrow? ==> Do(g, op) == Added(g, true, op.typeIdx, op.rep, false, None) && MintsOf(op) == 1
    ensures op.Drop? ==> Do(g, op) == DroppedOut(g, op.typeIdx, op.h) && MintsOf(op) == 0
    ensures op.Take? ==> Do(g, op) == TakenOut(g, op.typeIdx, op.h) && MintsOf(op) == 0
    ensures op.DropByHandle? ==> Do(g, op) == DroppedOwned(g, op.h) && MintsOf(op) == 0
    ensures op.CloseTable? ==> Do(g, op) == Closed(g) && MintsOf(op) == 0
    ensures op.DropDtor? ==>
      && MintsOf(op) == Mints(op.dtor, |op.dtor|)
      && Do(g, op) == if !CanDropOwned(g, op.h) then g
                      else if g.rows[op.h].typeIdx !in g.dtors then Retired(g, op.h, Dropped)
                      else FinishDrop(g, op.h, DoAll(g, op.dtor, |op.dtor|), op.fails)
    ensures op.HostCall? ==>
      && MintsOf(op) == Mints(op.callee, |op.callee|)
      && var a := Lifted(g, op.args, |op.args|);
         Do(g, op) == if a.ok then Released(DoAll(a.book, op.callee, |op.callee|), a.lent, |a.lent|) else GivenUp(a)
    ensures op.Delegated? ==>
      && MintsOf(op) == |op.params| + Mints(op.callee, |op.callee|)
      && Do(g, op) == DoAll(Minted(g, op.params), op.callee, |op.callee|)
  {
  }

  lemma {:induction false} DropKeeps(g: Book, h: u32, dtor: seq<Op>, fails: bool)
    requires Sound(g) && Enough(g, Mints(dtor, |dtor|))
    ensures Outcome(g, Do(g, DropDtor(h, dtor, fails)), Mints(dtor, |dtor|))
    decreases dtor, |dtor| + 1
  {
    hide Sound, Later, Do, Mints, Retired;
    DoIs(g, DropDtor(h, dtor, fails));
    Unmoved(g);
    MoreRoom(g, g, 0, Mints(dtor, |dtor|));
    if CanDropOwned(g, h) {
      UnlentOwesNothing(g, h);
      if g.rows[h].typeIdx in g.dtors {
        RunKeeps(g, dtor, |dtor|);
        var ran := DoAll(g, dtor, |dtor|);
        LaterSound(g, ran, Mints(dtor, |dtor|));
        if !fails && h in ran.rows && ran.rows[h].id == g.rows[h].id {
          LaterRow(g, ran, Mints(dtor, |dtor|), h);
          RetiredKeeps(g, ran, h, Mints(dtor, |dtor|));
        }
      } else {
        RetiredKeeps(g, g, h, 0);
        MoreRoom(g, Retired(g, h, Dropped), 0, Mints(dtor, |dtor|));
      }
    }
  }

  lemma MoreRoom(g: Book, g': Book, n: nat, m: nat)
    requires Later(g, g', n) && n <= m
    ensures Later(g, g', m)
  {
  }

  lemma LaterRow(g: Book, g': Book, n: nat, h: u32)
    requires Later(g, g', n) && h in g.rows && h in g'.rows && g'.rows[h].id == g.rows[h].id
    ensures g'.rows[h] == g.rows[h].(lends := g'.rows[h].lends)
  {
  }

  /** An entry to which nothing is owed is dropped at the end of a run. */
  lemma RetiredKeeps(g: Book, ran: Book, h: u32, n: nat)
    requires Sound(g) && Outcome(g, ran, n) && h in g.rows && h in ran.rows && ran.rows[h].id == g.rows[h].id
    requires ran.rows[h].scope == None && g.owed[Loan(h, g.rows[h].id)] == 0
    ensures Outcome(g, Retired(ran, h, Dropped), n)
    ensures Retired(ran, h, Dropped).leaked == ran.leaked
  {
    hide Sound, Later;
    LaterSound(g, ran, n);
    RetiredSound(ran, h, Dropped);
    RetiredLater(ran, h, Dropped);
    LaterTwice(g, ran, Retired(ran, h, Dropped), n, 0);
  }

  lemma {:induction false} CallKeeps(g: Book, args: seq<Arg>, callee: seq<Op>)
    requires Sound(g) && Enough(g, Mints(callee, |callee|))
    ensures Outcome(g, Do(g, HostCall(args, callee)), Mints(callee, |callee|))
    decreases callee, |callee| + 1
  {
    hide Sound, Later, Do, Mints, Lifted, Released, Honest, Loans;
    DoIs(g, HostCall(args, callee));
    LiftedLater(g, args, |args|);
    var a := Lifted(g, args, |args|);
    LaterSound(g, a.book, 0);
    if a.ok {
      RunKeeps(a.book, callee, |callee|);
      CalleeDone(g, a, DoAll(a.book, callee, |callee|), Mints(callee, |callee|));
    } else {
      GivenUpLater(g, a);
      MoreRoom(g, GivenUp(a), 0, Mints(callee, |callee|));
    }
  }

  /** Whatever the callee did, the releases give back exactly the loans of the
      call, each to the entry that was lent. */
  lemma CalleeDone(g: Book, a: Lifting, ran: Book, n: nat)
    requires Sound(g) && Later(g, a.book, 0) && Honest(a.book, a.lent) && Outcome(a.book, ran, n)
    requires a.book.owed == g.owed + Loans(a.lent, |a.lent|)
    ensures var b := Released(ran, a.lent, |a.lent|);
      Outcome(g, b, n) && b.leaked == ran.leaked
  {
    hide Sound, Later, Released, Honest, Loans;
    LaterSound(g, a.book, 0);
    LaterSound(a.book, ran, n);
    StillHonest(a.book, ran, a.lent, n);
    ReleasedLater(ran, a.lent, |a.lent|);
    LaterTwice(g, a.book, ran, 0, n);
    LaterTwice(g, ran, Released(ran, a.lent, |a.lent|), n, 0);
    assert g.owed + Loans(a.lent, |a.lent|) - Loans(a.lent, |a.lent|) == g.owed;
  }

  /** ANY RUN KEEPS THE INVARIANT, owes at its end exactly the loans that were
      owed before it, and changes no fate. */
  lemma {:induction false} RunKeeps(g: Book, ops: seq<Op>, n: nat)
    requires Sound(g) && n <= |ops| && Enough(g, Mints(ops, |ops|))
    ensures Outcome(g, DoAll(g, ops, n), Mints(ops, n))
    decreases ops, n
  {
    hide Sound, Later, DoAll, Mints;
    DoAllIs(g, ops, n);
    if n == 0 {
      Unmoved(g);
    } else {
      RunKeeps(g, ops, n - 1);
      var ran := DoAll(g, ops, n - 1);
      LaterSound(g, ran, Mints(ops, n - 1));
      MintsUpTo(ops, n);
      OpKeeps(ran, ops[n - 1]);
      LaterTwice(g, ran, Do(ran, ops[n - 1]), Mints(ops, n - 1), MintsOf(ops[n - 1]));
    }
  }

  lemma DoAllIs(g: Book, ops: seq<Op>, n: nat)
    requires n <= |ops|
    ensures DoAll(g, ops, n) == if n == 0 then g else Do(DoAll(g, ops, n - 1), ops[n - 1])
    ensures Mints(ops, n) == if n == 0 then 0 else Mints(ops, n - 1) + MintsOf(ops[n - 1])
  {
  }

  lemma {:induction false} MintsUpTo(ops: seq<Op>, n: nat)
    requires n <= |ops|
    ensures Mints(ops, n) <= Mints(ops, |ops|)
    decreases |ops| - n
  {
    if n < |ops| {
      MintsUpTo(ops, n + 1);
    }
  }
}
