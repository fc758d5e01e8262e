/** The meaning of the handle table on values: what each operation, each call
    that lends and each drop with a destructor makes of a table, and what holds
    over every run of them. `Resources` and `Calls` prove that the code does
    exactly this. */
module Ledger {
  import opened Base

  /** What became of an entry: live under a handle, or gone for good. */
  datatype Fate = Live(h: u32) | Taken | Dropped | Drained

  /** A live entry, numbered in the order of minting. `resource` is false for
      the other kinds of entries; a scope is the number of a call. */
  datatype Row = Row(id: nat, resource: bool, typeIdx: u32, rep: u32, own: bool, scope: Option<nat>, lends: nat)

  /** A lend of the entry that a handle named then. */
  datatype Loan = Loan(h: u32, id: nat)

  /** The table, the borrows that each call scope counts, the fate of every entry
      minted, the loans whose release is still to come, and the loans that nobody
      is going to release. */
  datatype Book = Book(
    rows: map<u32, Row>, free: seq<u32>, next: u32, closed: bool, dtors: set<u32>,
    borrows: seq<nat>, fates: seq<Fate>, owed: multiset<Loan>, leaked: multiset<Loan>)

  // ---- the invariant ----

  /** Live handles and free indices partition the indices issued so far. */
  ghost predicate Partition(rows: map<u32, Row>, free: seq<u32>, next: u32) {
    && 1 <= next
    && (forall h :: h in rows ==> 1 <= h < next)
    && (forall i :: 0 <= i < |free| ==> 1 <= free[i] < next && free[i] !in rows)
    && (forall i, j :: 0 <= i < j < |free| ==> free[i] != free[j])
    && (forall h: u32 :: 1 <= h < next ==> h in rows || h in free)
  }

  ghost predicate Partitioned(g: Book) {
    if g.closed then g.rows == map[] && g.free == [] else Partition(g.rows, g.free, g.next)
  }

  /** Every entry minted is live under exactly one handle, or has one other fate. */
  ghost predicate Fated(rows: map<u32, Row>, fates: seq<Fate>) {
    && (forall h :: h in rows ==> rows[h].id < |fates| && fates[rows[h].id] == Live(h))
    && (forall i :: 0 <= i < |fates| && fates[i].Live? ==> fates[i].h in rows && rows[fates[i].h].id == i)
  }

  /** The lend count of an entry is the number of its loans. */
  ghost predicate Counted(rows: map<u32, Row>, owed: multiset<Loan>, leaked: multiset<Loan>) {
    forall h :: h in rows ==> rows[h].lends == owed[Loan(h, rows[h].id)] + leaked[Loan(h, rows[h].id)]
  }

  /** Loans are of entries that were minted. */
  ghost predicate Known(loans: multiset<Loan>, minted: nat) {
    forall l :: l in loans ==> l.id < minted
  }

  /** Loans name live handles, and the entries those handles had when lent. */
  ghost predicate AllLive(rows: map<u32, Row>, loans: multiset<Loan>) {
    forall l :: l in loans ==> l.h in rows && rows[l.h].id == l.id
  }

  /** The handles that carry a scope. */
  ghost function Carrying(rows: map<u32, Row>, k: nat): set<u32> {
    set h | h in rows && rows[h].scope == Some(k)
  }

  ghost predicate Scoped(rows: map<u32, Row>, scopes: nat) {
    forall h :: h in rows && rows[h].scope.Some? ==> rows[h].scope.value < scopes && !rows[h].own
  }

  /** The count of a scope is the number of live handles that carry it. */
  ghost predicate BorrowsCounted(rows: map<u32, Row>, borrows: seq<nat>) {
    forall k :: 0 <= k < |borrows| ==> borrows[k] == |Carrying(rows, k)|
  }

  ghost predicate Sound(g: Book) {
    && Partitioned(g) && Fated(g.rows, g.fates) && Counted(g.rows, g.owed, g.leaked)
    && Known(g.owed, |g.fates|) && Known(g.leaked, |g.fates|)
    && Scoped(g.rows, |g.borrows|)
    && (!g.closed ==> AllLive(g.rows, g.owed) && BorrowsCounted(g.rows, g.borrows))
  }

  /** There is an index left to issue; there are n of them. */
  predicate Room(g: Book) {
    g.closed || g.free != [] || g.next < 0xFFFF_FFFF
  }

  predicate Enough(g: Book, n: nat) {
    g.closed || g.next + n <= 0xFFFF_FFFF
  }

  // ---- the operations ----

  function NextIndex(g: Book): u32 {
    if g.free == [] then g.next else g.free[|g.free| - 1]
  }

  /** A new entry: under a freed index first, else under the next one; a closed
      table stays as it is. */
  function Added(g: Book, resource: bool, typeIdx: u32, rep: u32, own: bool, scope: Option<nat>): Book {
    if g.closed then g
    else
      g.(rows := g.rows[NextIndex(g) := Row(|g.fates|, resource, typeIdx, rep, own, scope, 0)],
         free := if g.free == [] then [] else g.free[..|g.free| - 1],
         next := if g.free == [] then (g.next + 1) % 0x1_0000_0000 else g.next,
         fates := g.fates + [Live(NextIndex(g))])
  }

  function Counting(g: Book, k: nat): Book {
    if k < |g.borrows| then g.(borrows := g.borrows[k := g.borrows[k] + 1]) else g
  }

  /** The entry of a handle is gone. */
  function Retired(g: Book, h: u32, fate: Fate): Book
    requires h in g.rows
  {
    var id := g.rows[h].id;
    g.(rows := g.rows - {h}, free := g.free + [h], fates := if id < |g.fates| then g.fates[id := fate] else g.fates)
  }

  /** lookup: a live resource of the type. */
  predicate Found(g: Book, typeIdx: u32, h: u32) {
    h in g.rows && g.rows[h].resource && g.rows[h].typeIdx == typeIdx
  }

  predicate CanTake(g: Book, typeIdx: u32, h: u32) {
    Found(g, typeIdx, h) && g.rows[h].own && g.rows[h].lends == 0
  }

  function TakenOut(g: Book, typeIdx: u32, h: u32): Book {
    if CanTake(g, typeIdx, h) then Retired(g, h, Taken) else g
  }

  predicate CanDrop(g: Book, typeIdx: u32, h: u32) {
    Found(g, typeIdx, h) && g.rows[h].lends == 0 && (g.rows[h].own || g.rows[h].scope.Some?)
  }

  /** The scope of a borrow stops counting it. */
  function Uncounted(g: Book, h: u32): Book
    requires h in g.rows
  {
    var s := g.rows[h].scope;
    if !g.rows[h].own && s.Some? && s.value < |g.borrows| && g.borrows[s.value] > 0
    then g.(borrows := g.borrows[s.value := g.borrows[s.value] - 1]) else g
  }

  function DroppedOut(g: Book, typeIdx: u32, h: u32): Book {
    if CanDrop(g, typeIdx, h) then Retired(Uncounted(g, h), h, Dropped) else g
  }

  predicate CanDropOwned(g: Book, h: u32) {
    h in g.rows && g.rows[h].resource && g.rows[h].own && g.rows[h].lends == 0
  }

  function DroppedOwned(g: Book, h: u32): Book {
    if CanDropOwned(g, h) then Retired(g, h, Dropped) else g
  }

  /** One more lend, to be released. */
  function LentOut(g: Book, h: u32): Book
    requires h in g.rows
  {
    g.(rows := g.rows[h := g.rows[h].(lends := g.rows[h].lends + 1)], owed := g.owed + multiset{Loan(h, g.rows[h].id)})
  }

  /** A loan that a wrapper remembers. It knows the type and the handle; `id` is
      the entry that it lent. */
  datatype Lent = Lent(typeIdx: u32, h: u32, id: nat) {
    function Of(): Loan {
      Loan(h, id)
    }
  }

  /** Unlend: one lend less of whatever the handle names now, if it is a lent
      resource of the type. */
  function Unlent(g: Book, typeIdx: u32, h: u32): Book {
    if Found(g, typeIdx, h) && g.rows[h].lends > 0
    then g.(rows := g.rows[h := g.rows[h].(lends := g.rows[h].lends - 1)]) else g
  }

  function ReleasedOne(g: Book, l: Lent): Book {
    Unlent(g, l.typeIdx, l.h).(owed := g.owed - multiset{l.Of()})
  }

  function Released(g: Book, lent: seq<Lent>, n: nat): Book
    requires n <= |lent|
  {
    if n == 0 then g else ReleasedOne(Released(g, lent, n - 1), lent[n - 1])
  }

  function Loans(lent: seq<Lent>, n: nat): multiset<Loan>
    requires n <= |lent|
  {
    if n == 0 then multiset{} else Loans(lent, n - 1) + multiset{lent[n - 1].Of()}
  }

  function DrainedFates(fates: seq<Fate>): (f: seq<Fate>)
    ensures |f| == |fates|
  {
    seq(|fates|, i requires 0 <= i < |fates| => if fates[i].Live? then Drained else fates[i])
  }

  function Closed(g: Book): Book {
    if g.closed then g else g.(rows := map[], free := [], closed := true, fates := DrainedFates(g.fates))
  }

  // ---- calls and runs ----

  /** An argument of a host call, as the guest passes it; lifting an argument
      that is no handle can fail too. */
  datatype Arg = OwnArg(typeIdx: u32, h: u32) | BorrowArg(typeIdx: u32, h: u32) | PlainArg(lifts: bool)

  /** An argument of a delegated call, resources reduced to representations; a
      borrow of a resource that the callee itself defines stays as it is. */
  datatype Param = OwnParam(typeIdx: u32, rep: u32) | BorrowParam(typeIdx: u32, rep: u32) | OtherParam

  /** What guests and hosts do with a table. A callee, and a destructor, does
      anything; a delegated callee and a destructor can fail. */
  datatype Op =
    | NewOwn(typeIdx: u32, rep: u32)
    | NewBorrow(typeIdx: u32, rep: u32)
    | Drop(typeIdx: u32, h: u32)
    | Take(typeIdx: u32, h: u32)
    | DropByHandle(h: u32)
    | DropDtor(h: u32, dtor: seq<Op>, fails: bool)
    | HostCall(args: seq<Arg>, callee: seq<Op>)
    | Delegated(params: seq<Param>, callee: seq<Op>, fails: bool)
    | CloseTable

  /** Where the lifting of some arguments has come to. */
  datatype Lifting = Lifting(ok: bool, book: Book, lent: seq<Lent>)

  function LiftOne(book: Book, lent: seq<Lent>, arg: Arg): Lifting {
    match arg
    case OwnArg(ty, h) => Lifting(CanTake(book, ty, h), TakenOut(book, ty, h), lent)
    case BorrowArg(ty, h) =>
      if Found(book, ty, h) then Lifting(true, LentOut(book, h), lent + [Lent(ty, h, book.rows[h].id)])
      else Lifting(false, book, lent)
    case PlainArg(lifts) => Lifting(lifts, book, lent)
  }

  /** The first n arguments, up to the first that fails. */
  function Lifted(g: Book, args: seq<Arg>, n: nat): Lifting
    requires n <= |args|
  {
    if n == 0 then Lifting(true, g, []) else
    var a := Lifted(g, args, n - 1);
    if a.ok then LiftOne(a.book, a.lent, args[n - 1]) else a
  }

  /** The wrapper gives up before it has deferred the releases. */
  function GivenUp(a: Lifting): Book {
    a.book.(owed := a.book.owed - Loans(a.lent, |a.lent|), leaked := a.book.leaked + Loans(a.lent, |a.lent|))
  }

  predicate HasBorrow(params: seq<Param>) {
    exists i :: 0 <= i < |params| && params[i].BorrowParam?
  }

  function MintOne(g: Book, k: nat, p: Param): Book {
    match p
    case OwnParam(ty, rep) => Added(g, true, ty, rep, true, None)
    case BorrowParam(ty, rep) => Added(Counting(g, k), true, ty, rep, false, Some(k))
    case OtherParam => g
  }

  function MintAll(g: Book, k: nat, params: seq<Param>, n: nat): Book
    requires n <= |params|
  {
    if n == 0 then g else MintOne(MintAll(g, k, params, n - 1), k, params[n - 1])
  }

  /** The handles of a delegated call are minted in the callee's table, borrows
      for a scope of the call's own. */
  function Minted(g: Book, params: seq<Param>): Book {
    MintAll(if HasBorrow(params) then g.(borrows := g.borrows + [0]) else g, |g.borrows|, params, |params|)
  }

  function Do(g: Book, op: Op): Book
    decreases op, 0
  {
    match op
    case NewOwn(ty, rep) => Added(g, true, ty, rep, true, None)
    case NewBorrow(ty, rep) => Added(g, true, ty, rep, false, None)
    case Drop(ty, h) => DroppedOut(g, ty, h)
    case Take(ty, h) => TakenOut(g, ty, h)
    case DropByHandle(h) => DroppedOwned(g, h)
    case DropDtor(h, dtor, fails) =>
      if !CanDropOwned(g, h) then g
      else if g.rows[h].typeIdx !in g.dtors then Retired(g, h, Dropped)
      else FinishDrop(g, h, DoAll(g, dtor, |dtor|), fails)
    case HostCall(args, callee) =>
      var a := Lifted(g, args, |args|);
      if a.ok then Released(DoAll(a.book, callee, |callee|), a.lent, |a.lent|) else GivenUp(a)
    case Delegated(params, callee, _) => DoAll(Minted(g, params), callee, |callee|)
    case CloseTable => Closed(g)
  }

  /** After the destructor: the handle is consumed if it still names the same
      entry, whatever its lend count is now. */
  function FinishDrop(g: Book, h: u32, ran: Book, fails: bool): Book
    requires h in g.rows
  {
    if !fails && h in ran.rows && ran.rows[h].id == g.rows[h].id then Retired(ran, h, Dropped) else ran
  }

  /** The first n operations. */
  function DoAll(g: Book, ops: seq<Op>, n: nat): Book
    requires n <= |ops|
    decreases ops, n
  {
    if n == 0 then g else Do(DoAll(g, ops, n - 1), ops[n - 1])
  }

  /** A delegated call traps when its callee comes back and its scope still
      counts a borrow. */
  predicate Traps(g: Book, params: seq<Param>, callee: seq<Op>, fails: bool) {
    var after := DoAll(Minted(g, params), callee, |callee|);
    HasBorrow(params) && !fails && |g.borrows| < |after.borrows| && after.borrows[|g.borrows|] > 0
  }

  /** Handles that a run mints at most. */
  function Mints(ops: seq<Op>, n: nat): nat
    requires n <= |ops|
    decreases ops, n
  {
    if n == 0 then 0 else Mints(ops, n - 1) + MintsOf(ops[n - 1])
  }

  function MintsOf(op: Op): nat
    decreases op, 0
  {
    match op
    case NewOwn(_, _) | NewBorrow(_, _) => 1
    case DropDtor(_, dtor, _) => Mints(dtor, |dtor|)
    case HostCall(_, callee) => Mints(callee, |callee|)
    case Delegated(params, callee, _) => |params| + Mints(callee, |callee|)
    case Drop(_, _) | Take(_, _) | DropByHandle(_) | CloseTable => 0
  }
}
