/** resource.go: the handle table of a component instance, with its entries and
    the tasks that count call-scoped borrows as objects. Each method is proved to
    do what `Ledger` says of the table's value, `View`, and to keep `Valid`. */
module Resources {
  import opened Base
  import opened Ledger
  import opened LedgerFacts

  /** The part of a task that counts the borrows minted for its call. */
  class Scope {
    var numBorrows: nat

    constructor ()
      ensures numBorrows == 0
    {
      numBorrows := 0;
    }
  }

  /** resourceEntry; `resource` is false for the other kinds of entries. Entries
      are numbered in the order of minting, scopes in the order of making. */
  class Entry {
    const resource: bool
    const typeIdx: u32
    const rep: u32
    const own: bool
    const scope: Scope?
    var lendCount: nat
    ghost const id: nat
    ghost const scopeId: Option<nat>

    constructor (resource: bool, typeIdx: u32, rep: u32, own: bool, scope: Scope?, ghost id: nat,
                 ghost scopeId: Option<nat>)
      ensures this.resource == resource && this.typeIdx == typeIdx && this.rep == rep && this.own == own
        && this.scope == scope
      ensures lendCount == 0 && this.id == id && this.scopeId == scopeId
    {
      this.resource, this.typeIdx, this.rep, this.own, this.scope := resource, typeIdx, rep, own, scope;
      this.id, this.scopeId := id, scopeId;
      lendCount := 0;
    }
  }

  ghost function RowOf(e: Entry): Row
    reads e
  {
    Row(e.id, e.resource, e.typeIdx, e.rep, e.own, e.scopeId, e.lendCount)
  }

  ghost function Rows(entries: map<u32, Entry>): (rows: map<u32, Row>)
    reads entries.Values
    ensures rows.Keys == entries.Keys
  {
    map h | h in entries :: RowOf(entries[h])
  }

  ghost function Counts(scopes: seq<Scope>): (counts: seq<nat>)
    reads scopes
    ensures |counts| == |scopes| && forall k :: 0 <= k < |scopes| ==> counts[k] == scopes[k].numBorrows
  {
    if scopes == [] then [] else Counts(scopes[..|scopes| - 1]) + [scopes[|scopes| - 1].numBorrows]
  }

  /** No two handles share an entry. */
  ghost predicate Distinct(entries: map<u32, Entry>) {
    forall h, k :: h in entries && k in entries && entries[h] == entries[k] ==> h == k
  }

  /** The scope of an entry is the one that its number names. */
  ghost predicate Linked(entries: map<u32, Entry>, scopes: seq<Scope>) {
    forall h :: h in entries ==> LinkedTo(entries[h], scopes)
  }

  ghost predicate LinkedTo(e: Entry, scopes: seq<Scope>) {
    if e.scopeId.Some? then e.scopeId.value < |scopes| && scopes[e.scopeId.value] == e.scope else e.scope == null
  }

  lemma EntryAdded(entries: map<u32, Entry>, scopes: seq<Scope>, h: u32, e: Entry)
    requires Distinct(entries) && Linked(entries, scopes) && LinkedTo(e, scopes) && e !in entries.Values
    ensures Distinct(entries[h := e]) && Linked(entries[h := e], scopes)
    ensures Rows(entries[h := e]) == Rows(entries)[h := RowOf(e)]
  {
    forall k | k in entries ensures entries[k] != e {
      assert entries[k] in entries.Values;
    }
  }

  lemma EntryRemoved(entries: map<u32, Entry>, scopes: seq<Scope>, h: u32)
    requires Distinct(entries) && Linked(entries, scopes) && h in entries
    ensures Distinct(entries - {h}) && Linked(entries - {h}, scopes)
    ensures Rows(entries - {h}) == Rows(entries) - {h}
  {
  }

  /** What the table does not record: the fates of entries, and the loans. */
  datatype Past = Past(fates: seq<Fate>, owed: multiset<Loan>, leaked: multiset<Loan>)

  /** A new resource entry, not lent. */
  ghost predicate MintedAs(e: Entry, typeIdx: u32, rep: u32, own: bool)
    reads e
  {
    e.resource && e.typeIdx == typeIdx && e.rep == rep && e.own == own && e.lendCount == 0
  }

  class HandleTable {
    var entries: map<u32, Entry>
    var next: u32
    var free: seq<u32>
    var closed: bool
    /** Resource types with a destructor, and those whose destructor is the host's. */
    var dtors: set<u32>
    var hostDtors: set<u32>

    ghost var scopes: seq<Scope>
    ghost var past: Past

    constructor ()
      ensures Valid() && View() == Book(map[], [], 1, false, {}, [], [], multiset{}, multiset{})
    {
      entries, next, free, closed := map[], 1, [], false;
      dtors, hostDtors := {}, {};
      scopes, past := [], Past([], multiset{}, multiset{});
    }

    /** The value of the table. */
    ghost function View(): Book
      reads this, entries.Values, scopes
    {
      Book(Rows(entries), free, next, closed, dtors, Counts(scopes), past.fates, past.owed, past.leaked)
    }

    ghost predicate Shaped()
      reads this
    {
      && Distinct(entries) && Linked(entries, scopes)
      && forall i, j :: 0 <= i < j < |scopes| ==> scopes[i] != scopes[j]
    }

    ghost predicate Valid()
      reads this, entries.Values, scopes
    {
      Shaped() && Sound(View())
    }

    /** addEntry: a freed index first, else the next one; 0 once closed. */
    method AddEntry(e: Entry) returns (h: u32)
      requires Shaped() && LinkedTo(e, scopes) && e !in entries.Values && e.lendCount == 0 && e.id == |past.fates|
      modifies this`entries, this`next, this`free, this`past
      ensures Shaped() && View() == Added(old(View()), e.resource, e.typeIdx, e.rep, e.own, e.scopeId)
      ensures h == if closed then 0 else NextIndex(old(View()))
      ensures entries == if closed then old(entries) else old(entries)[h := e]
      ensures !closed && old(free) != [] ==>
        h == old(free)[|old(free)| - 1] && free == old(free)[..|old(free)| - 1] && next == old(next)
      ensures !closed && old(free) == [] ==>
        h == old(next) && free == [] && next == if old(next) == 0xFFFF_FFFF then 0 else old(next) + 1
    {
      hide Rows, Distinct, Linked;
      if closed {
        return 0;
      }
      EntryAdded(entries, scopes, NextIndex(View()), e);
      if |free| > 0 {
        h := free[|free| - 1];
        free := free[..|free| - 1];
      } else {
        h := next;
        next := (next + 1) % 0x1_0000_0000;
      }
      entries := entries[h := e];
      past := past.(fates := past.fates + [Live(h)]);
    }

    /** add: a resource handle that is not scoped to a call. */
    method Add(typeIdx: u32, rep: u32, own: bool) returns (h: u32)
      requires Valid() && Room(View())
      modifies this`entries, this`next, this`free, this`past
      ensures Valid() && View() == Added(old(View()), true, typeIdx, rep, own, None)
      ensures h == if closed then 0 else NextIndex(old(View()))
      ensures !closed ==> h != 0 && h !in old(entries)
      ensures !closed ==>
        && h in entries && entries == old(entries)[h := entries[h]]
        && MintedAs(entries[h], typeIdx, rep, own) && entries[h].scope == null
      ensures forall e :: e in entries.Values ==> e in old(entries.Values) || (fresh(e) && e.id == old(|past.fates|))
    {
      hide Sound;
      AddedSound(View(), true, typeIdx, rep, own, None);
      var e := new Entry(true, typeIdx, rep, own, null, |past.fates|, None);
      h := AddEntry(e);
    }

    /** The scope of a new call; nothing is counted for it yet. */
    method NewScope() returns (s: Scope)
      requires Shaped()
      modifies this`scopes
      ensures Shaped() && View() == old(View()).(borrows := old(View()).borrows + [0])
      ensures fresh(s) && scopes == old(scopes) + [s]
    {
      hide Distinct, Rows;
      s := new Scope();
      CountsSnoc(scopes, s);
      LinkedStill(entries, scopes, s);
      scopes := scopes + [s];
    }

    /** NewBorrowScoped: the scope counts the borrow while it is live. */
    method NewBorrowScoped(typeIdx: u32, rep: u32, scope: Scope, ghost k: nat) returns (h: u32)
      requires Valid() && Room(View()) && k < |scopes| && scopes[k] == scope
      modifies this`entries, this`next, this`free, this`past, scope
      ensures Valid() && View() == Added(Counting(old(View()), k), true, typeIdx, rep, false, Some(k))
      ensures h == if closed then 0 else NextIndex(old(View()))
      ensures !closed ==> h != 0 && h !in old(entries)
      ensures !closed ==>
        && h in entries && entries == old(entries)[h := entries[h]]
        && MintedAs(entries[h], typeIdx, rep, false) && entries[h].scope == scope
      ensures scope.numBorrows == old(scope.numBorrows) + 1
      ensures forall e :: e in entries.Values ==> e in old(entries.Values) || (fresh(e) && e.id == old(|past.fates|))
    {
      hide Sound, Distinct, Linked, Rows, Counts;
      BorrowSound(View(), typeIdx, rep, k);
      Count(scope, k);
      var e := new Entry(true, typeIdx, rep, false, scope, |past.fates|, Some(k));
      h := AddEntry(e);
    }

    /** scope.numBorrows++ */
    method Count(scope: Scope, ghost k: nat)
      requires Shaped() && k < |scopes| && scopes[k] == scope
      modifies scope
      ensures View() == Counting(old(View()), k)
    {
      hide Distinct, Linked;
      scope.numBorrows := scope.numBorrows + 1;
      assert Counts(scopes) == old(Counts(scopes))[k := old(Counts(scopes))[k] + 1];
    }

    /** scope.numBorrows-- */
    method Uncount(scope: Scope, ghost k: nat)
      requires Shaped() && k < |scopes| && scopes[k] == scope && scope.numBorrows > 0
      modifies scope
      ensures View() == old(View()).(borrows := old(View()).borrows[k := old(View()).borrows[k] - 1])
    {
      hide Distinct, Linked;
      scope.numBorrows := scope.numBorrows - 1;
      assert Counts(scopes) == old(Counts(scopes))[k := old(Counts(scopes))[k] - 1];
    }

    /** lookup: the live resource entry of a handle, if it is of the type. */
    function Lookup(typeIdx: u32, h: u32): Result<Entry>
      reads this`entries
    {
      if h in entries && entries[h].resource && entries[h].typeIdx == typeIdx then Ok(entries[h]) else Err(Rejected)
    }

    method Rep(typeIdx: u32, h: u32) returns (r: Result<u32>)
      ensures r.Ok? <==> Found(View(), typeIdx, h)
      ensures r.Ok? <==> h in entries && entries[h].resource && entries[h].typeIdx == typeIdx
      ensures r.Ok? ==> r.value == entries[h].rep
    {
      var e :- Lookup(typeIdx, h);
      return Ok(e.rep);
    }

    method IsOwn(typeIdx: u32, h: u32) returns (r: Result<bool>)
      ensures r.Ok? <==> Found(View(), typeIdx, h)
      ensures r.Ok? <==> h in entries && entries[h].resource && entries[h].typeIdx == typeIdx
      ensures r.Ok? ==> r.value == entries[h].own
    {
      var e :- Lookup(typeIdx, h);
      return Ok(e.own);
    }

    /** Removes a live entry: its index is free again. */
    method Retire(h: u32, ghost fate: Fate)
      requires Shaped() && h in entries
      modifies this`entries, this`free, this`past
      ensures Shaped() && View() == Retired(old(View()), h, fate)
      ensures entries == old(entries) - {h} && free == old(free) + [h]
    {
      hide Rows, Distinct, Linked;
      EntryRemoved(entries, scopes, h);
      RowAt(entries, h);
      past := past.(fates := if entries[h].id < |past.fates| then past.fates[entries[h].id := fate] else past.fates);
      entries := entries - {h};
      free := free + [h];
    }

    /** TakeOwn: succeeds exactly for an owning handle of the type that is not
        lent, and then the entry is gone for good. */
    method TakeOwn(typeIdx: u32, h: u32) returns (r: Result<u32>)
      requires Valid()
      modifies this`entries, this`free, this`past
      ensures Valid() && View() == TakenOut(old(View()), typeIdx, h)
      ensures r.Ok? <==> CanTake(old(View()), typeIdx, h)
      ensures r.Ok? <==>
        && h in old(entries) && old(entries)[h].resource && old(entries)[h].typeIdx == typeIdx
        && old(entries)[h].own && old(entries[h].lendCount) == 0
      ensures r.Ok? ==> r.value == old(entries)[h].rep && entries == old(entries) - {h} && free == old(free) + [h]
      ensures r.Err? ==> entries == old(entries) && free == old(free)
      ensures entries.Values <= old(entries.Values)
    {
      hide Sound, Rows, Distinct, Linked, Retired;
      TakenSound(View(), typeIdx, h);
      RowAt(entries, h);
      var e :- Lookup(typeIdx, h);
      if !e.own || e.lendCount != 0 {
        return Err(Rejected);
      }
      Retire(h, Taken);
      return Ok(e.rep);
    }

    /** Drop: succeeds exactly for a handle of the type that is not lent and is
        either owning or scoped to a call; the scope stops counting it. */
    method Drop(typeIdx: u32, h: u32) returns (r: Result<()>)
      requires Valid()
      modifies this`entries, this`free, this`past, scopes
      ensures Valid() && View() == DroppedOut(old(View()), typeIdx, h)
      ensures r.Ok? <==> CanDrop(old(View()), typeIdx, h)
      ensures r.Ok? <==>
        && h in old(entries) && old(entries)[h].resource && old(entries)[h].typeIdx == typeIdx
        && old(entries[h].lendCount) == 0 && (old(entries)[h].own || old(entries)[h].scope != null)
      ensures r.Ok? ==> entries == old(entries) - {h} && free == old(free) + [h]
      ensures r.Err? ==> entries == old(entries) && free == old(free)
      ensures forall s :: s in scopes ==>
        s.numBorrows == old(s.numBorrows) - if r.Ok? && !old(entries)[h].own && old(entries)[h].scope == s then 1 else 0
      ensures entries.Values <= old(entries.Values)
    {
      hide Sound, Rows, Distinct, Linked, Retired;
      DroppedSound(View(), typeIdx, h);
      RowAt(entries, h);
      var e :- Lookup(typeIdx, h);
      if e.lendCount != 0 {
        return Err(Rejected);
      }
      if !e.own {
        if e.scope == null {
          ScopeOf(entries, scopes, h);
          return Err(Rejected);
        }
        ScopeOf(entries, scopes, h);
        BorrowDropped(View(), h);
        Uncount(e.scope, e.scopeId.value);
        Retire(h, Dropped);
        return Ok(());
      }
      Retire(h, Dropped);
      return Ok(());
    }

    /** DropOwned: like Drop, by the handle alone, and never a borrow. */
    method DropOwned(h: u32) returns (r: Result<u32>)
      requires Valid()
      modifies this`entries, this`free, this`past
      ensures Valid() && View() == DroppedOwned(old(View()), h)
      ensures r.Ok? <==> CanDropOwned(old(View()), h)
      ensures r.Ok? <==>
        h in old(entries) && old(entries)[h].resource && old(entries)[h].own && old(entries[h].lendCount) == 0
      ensures r.Ok? ==> r.value == old(entries)[h].rep && entries == old(entries) - {h} && free == old(free) + [h]
      ensures r.Err? ==> entries == old(entries) && free == old(free)
      ensures entries.Values <= old(entries.Values)
    {
      hide Sound, Rows, Distinct, Linked, Retired;
      DroppedOwnedSound(View(), h);
      if h !in entries {
        return Err(Rejected);
      }
      RowAt(entries, h);
      var e := entries[h];
      if !e.resource || !e.own || e.lendCount != 0 {
        return Err(Rejected);
      }
      Retire(h, Dropped);
      return Ok(e.rep);
    }

    /** The lend count of one entry. */
    method SetLends(h: u32, n: nat)
      requires Shaped() && h in entries
      modifies entries[h]
      ensures forall k :: k in entries ==> entries[k].lendCount == if k == h then n else old(entries[k].lendCount)
      ensures View() == old(View()).(rows := old(View()).rows[h := old(View()).rows[h].(lends := n)])
    {
      hide Rows, Linked, Counts;
      RowAt(entries, h);
      entries[h].lendCount := n;
      RowsRelent(h);
    }

    /** Lend: blocks TakeOwn and Drop of the entry until it is released. */
    method Lend(typeIdx: u32, h: u32) returns (r: Result<()>)
      requires Valid()
      modifies this`past, entries.Values
      ensures Valid() && (r.Ok? <==> Found(old(View()), typeIdx, h))
      ensures View() == if r.Ok? then LentOut(old(View()), h) else old(View())
      ensures r.Ok? <==> h in entries && entries[h].resource && entries[h].typeIdx == typeIdx
      ensures forall k :: k in entries ==>
        entries[k].lendCount == old(entries[k].lendCount) + if r.Ok? && k == h then 1 else 0
    {
      hide Sound, Rows, Linked, Distinct, Counts;
      RowAt(entries, h);
      var e :- Lookup(typeIdx, h);
      LentSound(View(), h);
      SetLends(h, e.lendCount + 1);
      past := past.(owed := past.owed + multiset{Loan(h, e.id)});
      return Ok(());
    }

    /** Unlend: for a loan that is owed it reaches the entry that was lent. */
    method Unlend(typeIdx: u32, h: u32, ghost id: nat) returns (r: Result<()>)
      requires Valid()
      requires Loan(h, id) in past.owed
      requires !closed && h in entries && entries[h].id == id ==> Found(View(), typeIdx, h)
      modifies this`past, entries.Values
      ensures Valid() && View() == ReleasedOne(old(View()), Lent(typeIdx, h, id))
      ensures r.Ok? <==> Found(old(View()), typeIdx, h) && old(View()).rows[h].lends > 0
      ensures !closed ==> r.Ok? && h in entries && entries[h].id == id
      ensures forall k :: k in entries ==>
        entries[k].lendCount == old(entries[k].lendCount) - if r.Ok? && k == h then 1 else 0
    {
      hide Sound, Rows, Linked, Distinct, Counts, Unlent, Loans;
      RowAt(entries, h);
      ReleasedOneSound(View(), Lent(typeIdx, h, id));
      if !closed {
        ReleaseReaches(View(), Lent(typeIdx, h, id));
      }
      r := OneLess(typeIdx, h);
      Forget(h, id);
    }

    /** The loan is owed no longer. */
    ghost method Forget(h: u32, id: nat)
      modifies this`past
      ensures View() == old(View()).(owed := old(View()).owed - multiset{Loan(h, id)})
    {
      hide Rows, Counts;
      past := past.(owed := past.owed - multiset{Loan(h, id)});
    }

    /** One lend less of the entry, if there is one. */
    method OneLess(typeIdx: u32, h: u32) returns (r: Result<()>)
      requires Shaped()
      modifies entries.Values
      ensures View() == Unlent(old(View()), typeIdx, h)
      ensures r.Ok? <==>
        && h in entries && entries[h].resource && entries[h].typeIdx == typeIdx && old(entries[h].lendCount) > 0
      ensures forall k :: k in entries ==>
        entries[k].lendCount == old(entries[k].lendCount) - if r.Ok? && k == h then 1 else 0
    {
      hide Rows, Linked, Distinct, Counts;
      RowAt(entries, h);
      var e :- Lookup(typeIdx, h);
      if e.lendCount == 0 {
        return Err(Rejected);
      }
      SetLends(h, e.lendCount - 1);
      return Ok(());
    }

    /** The lend count of one entry has changed. */
    twostate lemma RowsRelent(h: u32)
      requires h in entries && entries == old(entries) && Distinct(entries)
      requires forall e :: e in entries.Values && e != entries[h] ==> e.lendCount == old(e.lendCount)
      ensures Rows(entries) == old(Rows(entries))[h := old(Rows(entries))[h].(lends := entries[h].lendCount)]
    {
      forall k | k in entries && k != h ensures entries[k] in entries.Values && entries[k] != entries[h] {
      }
    }

    /** The destructor that close runs for an entry is the host's. */
    predicate HostOwned(e: Entry)
      reads this`dtors, this`hostDtors
    {
      e.resource && e.own && e.typeIdx in hostDtors && e.typeIdx in dtors
    }

    /** close: the table is emptied, and every live owning handle with a host
        destructor is destroyed exactly once, even when some of them fail; the
        first failure is reported. `failing` are the entries whose destructor
        fails. A second close destroys nothing. */
    method Close(failing: set<Entry>) returns (run: seq<Entry>, firstErr: Entry?)
      requires Valid()
      modifies this`entries, this`free, this`closed, this`past
      ensures Valid() && closed && View() == Closed(old(View()))
      ensures old(closed) ==> run == [] && firstErr == null
      ensures OnceEach(run) && forall e :: e in run <==>
        e in old(entries.Values) && e.resource && e.own && e.typeIdx in hostDtors && e.typeIdx in dtors
      ensures if firstErr == null then forall e :: e in run ==> e !in failing else FirstFailing(run, failing, firstErr)
      ensures entries == map[]
    {
      hide Sound, FirstFailing, OnceEach, Linked, Distinct, DrainedFates, Rows;
      ClosedSound(View());
      if closed {
        ClosedEmpty(View());
        run, firstErr := [], null;
        FirstOfNone(failing);
        return;
      }
      var live := entries.Values;
      Drain();
      run, firstErr := RunHostDtors(live, failing);
    }

    method Drain()
      requires Shaped() && !closed
      modifies this`entries, this`free, this`closed, this`past
      ensures Shaped() && View() == Closed(old(View())) && closed && entries == map[]
    {
      hide Linked, DrainedFates;
      NoneLinked(scopes);
      closed, free, entries := true, [], map[];
      past := past.(fates := DrainedFates(past.fates));
    }

    /** The loop of close, in any order. */
    method RunHostDtors(live: set<Entry>, failing: set<Entry>) returns (run: seq<Entry>, firstErr: Entry?)
      ensures OnceEach(run) && forall e :: e in run <==> e in live && HostOwned(e)
      ensures if firstErr == null then forall e :: e in run ==> e !in failing else FirstFailing(run, failing, firstErr)
    {
      run, firstErr := [], null;
      var pending := live;
      while pending != {}
        invariant pending <= live && OnceEach(run)
        invariant forall e :: e in run <==> e in live && e !in pending && HostOwned(e)
        invariant if firstErr == null then forall e :: e in run ==> e !in failing
          else FirstFailing(run, failing, firstErr)
        decreases pending
      {
        var e :| e in pending;
        pending := pending - {e};
        if HostOwned(e) {
          RunOneMore(run, failing, firstErr, e);
          ghost var before := run;
          run := run + [e];
          assert forall x :: x in run <==> x in before || x == e;
          if e in failing && firstErr == null {
            firstErr := e;
          }
        }
      }
    }
  }

  lemma RowAt(entries: map<u32, Entry>, h: u32)
    ensures h in entries <==> h in Rows(entries)
    ensures h in entries ==> Rows(entries)[h] == RowOf(entries[h])
  {
  }

  lemma CountsSnoc(scopes: seq<Scope>, s: Scope)
    ensures Counts(scopes + [s]) == Counts(scopes) + [s.numBorrows]
  {
    assert (scopes + [s])[..|scopes|] == scopes;
  }

  lemma LinkedStill(entries: map<u32, Entry>, scopes: seq<Scope>, s: Scope)
    requires Linked(entries, scopes)
    ensures Linked(entries, scopes + [s])
  {
  }

  lemma NoneLinked(scopes: seq<Scope>)
    ensures Linked(map[], scopes)
  {
  }

  lemma ScopeOf(entries: map<u32, Entry>, scopes: seq<Scope>, h: u32)
    requires Linked(entries, scopes) && h in entries
    ensures LinkedTo(entries[h], scopes)
  {
  }

  lemma ClosedEmpty(g: Book)
    requires Sound(g) && g.closed
    ensures g.rows == map[] && Closed(g) == g
  {
  }

  ghost predicate OnceEach(run: seq<Entry>) {
    forall i, j :: 0 <= i < j < |run| ==> run[i] != run[j]
  }

  lemma FirstOfNone(failing: set<Entry>)
    ensures OnceEach([]) && forall e :: e in [] ==> e !in failing
  {
  }

  lemma RunOneMore(run: seq<Entry>, failing: set<Entry>, first: Entry?, e: Entry)
    requires OnceEach(run) && e !in run
    requires if first == null then forall x :: x in run ==> x !in failing else FirstFailing(run, failing, first)
    ensures OnceEach(run + [e])
    ensures first != null ==> FirstFailing(run + [e], failing, first)
    ensures first == null && e in failing ==> FirstFailing(run + [e], failing, e)
  {
    if first != null {
      var i :| 0 <= i < |run| && run[i] == first && forall j :: 0 <= j < i ==> run[j] !in failing;
      assert (run + [e])[i] == first && forall j :: 0 <= j < i ==> (run + [e])[j] !in failing;
    } else {
      assert (run + [e])[|run|] == e;
    }
  }

  /** `e` is the first of `run` that fails. */
  ghost predicate FirstFailing(run: seq<Entry>, failing: set<Entry>, e: Entry) {
    e in failing && exists i :: 0 <= i < |run| && run[i] == e && forall j :: 0 <= j < i ==> run[j] !in failing
  }
}
