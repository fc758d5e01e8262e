/** What every operation of the handle table keeps. */
module LedgerFacts {
  import opened Base
  import opened Ledger

  // ---- indices ----

  lemma PartitionPop(rows: map<u32, Row>, free: seq<u32>, next: u32, row: Row)
    requires Partition(rows, free, next) && free != []
    ensures var n := |free| - 1;
            free[n] > 0 && free[n] !in rows && Partition(rows[free[n] := row], free[..n], next)
  {
    var n := |free| - 1;
    forall h: u32 | 1 <= h < next ensures h in rows[free[n] := row] || h in free[..n] {
      if h !in rows && h != free[n] {
        var i :| 0 <= i < |free| && free[i] == h;
        assert free[..n][i] == h;
      }
    }
  }

  lemma PartitionNext(rows: map<u32, Row>, next: u32, row: Row)
    requires Partition(rows, [], next)
    ensures next > 0 && next !in rows
    ensures next < 0xFFFF_FFFF ==> Partition(rows[next := row], [], next + 1)
    ensures !Partition(rows[next := row], [], 0)
  {
  }

  lemma PartitionPush(rows: map<u32, Row>, free: seq<u32>, next: u32, h: u32)
    requires Partition(rows, free, next) && h in rows
    ensures Partition(rows - {h}, free + [h], next)
  {
    var free' := free + [h];
    assert free'[|free|] == h;
    forall k: u32 | 1 <= k < next ensures k in rows - {h} || k in free' {
      if k in free {
        var i :| 0 <= i < |free| && free[i] == k;
        assert free'[i] == k;
      }
    }
  }

  lemma PartitionSame(rows: map<u32, Row>, free: seq<u32>, next: u32, h: u32, row: Row)
    requires Partition(rows, free, next) && h in rows
    ensures Partition(rows[h := row], free, next)
  {
  }

  // ---- scopes ----

  /** A new entry counts for the scope it carries and for no other. */
  lemma CarryingAdded(rows: map<u32, Row>, h: u32, row: Row, k: nat)
    requires h !in rows
    ensures |Carrying(rows[h := row], k)| == |Carrying(rows, k)| + if row.scope == Some(k) then 1 else 0
  {
    if row.scope == Some(k) {
      assert Carrying(rows[h := row], k) == Carrying(rows, k) + {h};
    } else {
      assert Carrying(rows[h := row], k) == Carrying(rows, k);
    }
  }

  /** An entry that leaves stops counting for the scope it carried. */
  lemma CarryingRemoved(rows: map<u32, Row>, h: u32, k: nat)
    requires h in rows
    ensures |Carrying(rows - {h}, k)| == |Carrying(rows, k)| - if rows[h].scope == Some(k) then 1 else 0
  {
    if rows[h].scope == Some(k) {
      assert Carrying(rows - {h}, k) == Carrying(rows, k) - {h};
    } else {
      assert Carrying(rows - {h}, k) == Carrying(rows, k);
    }
  }

  lemma CarryingSame(rows: map<u32, Row>, h: u32, row: Row, k: nat)
    requires h in rows && row.scope == rows[h].scope
    ensures Carrying(rows[h := row], k) == Carrying(rows, k)
  {
  }

  lemma CarryingNone(rows: map<u32, Row>, scopes: nat)
    requires Scoped(rows, scopes)
    ensures |Carrying(rows, scopes)| == 0
  {
    assert Carrying(rows, scopes) == {};
  }

  // ---- one operation ----

  /** addEntry keeps the invariant while there is an index left; when all
      2^32 - 1 indices are live the counter wraps, and the partition is lost. */
  lemma AddedSound(g: Book, resource: bool, typeIdx: u32, rep: u32, own: bool, scope: Option<nat>)
    requires Sound(g) && Room(g) && scope == None
    ensures var g' := Added(g, resource, typeIdx, rep, own, scope);
      && Sound(g') && g'.next <= g.next + 1
      && (!g.closed ==> NextIndex(g) > 0 && NextIndex(g) !in g.rows)
  {
    hide Partition, Fated, Counted, AllLive, BorrowsCounted, Carrying;
    if !g.closed {
      var row := Row(|g.fates|, resource, typeIdx, rep, own, scope, 0);
      AddedPartition(g, row);
      AddedFated(g.rows, g.fates, NextIndex(g), row);
      AddedUnlent(g, NextIndex(g), row);
      AddedUncounted(g.rows, NextIndex(g), row, g.borrows);
    }
  }

  lemma AddedPartition(g: Book, row: Row)
    requires !g.closed && Partition(g.rows, g.free, g.next) && Room(g)
    ensures NextIndex(g) > 0 && NextIndex(g) !in g.rows
    ensures var free := if g.free == [] then [] else g.free[..|g.free| - 1];
      var next := if g.free == [] then (g.next + 1) % 0x1_0000_0000 else g.next;
      Partition(g.rows[NextIndex(g) := row], free, next) && next <= g.next + 1
  {
    if g.free == [] {
      PartitionNext(g.rows, g.next, row);
    } else {
      PartitionPop(g.rows, g.free, g.next, row);
    }
  }

  lemma AddWraps(g: Book, resource: bool, typeIdx: u32, rep: u32, own: bool, scope: Option<nat>)
    requires Partitioned(g) && !Room(g)
    ensures !Partitioned(Added(g, resource, typeIdx, rep, own, scope))
  {
    PartitionNext(g.rows, g.next, Row(|g.fates|, resource, typeIdx, rep, own, scope, 0));
  }

  lemma AddedFated(rows: map<u32, Row>, fates: seq<Fate>, h: u32, row: Row)
    requires Fated(rows, fates) && h !in rows && row.id == |fates|
    ensures Fated(rows[h := row], fates + [Live(h)])
  {
  }

  lemma AddedUnlent(g: Book, h: u32, row: Row)
    requires Counted(g.rows, g.owed, g.leaked) && Known(g.owed, |g.fates|) && Known(g.leaked, |g.fates|)
    requires AllLive(g.rows, g.owed) && h !in g.rows && row.id == |g.fates| && row.lends == 0
    ensures Counted(g.rows[h := row], g.owed, g.leaked) && AllLive(g.rows[h := row], g.owed)
    ensures Known(g.owed, |g.fates| + 1) && Known(g.leaked, |g.fates| + 1)
  {
    assert Loan(h, row.id) !in g.owed && Loan(h, row.id) !in g.leaked;
  }

  lemma AddedUncounted(rows: map<u32, Row>, h: u32, row: Row, borrows: seq<nat>)
    requires BorrowsCounted(rows, borrows) && h !in rows && row.scope == None
    ensures BorrowsCounted(rows[h := row], borrows)
  {
    forall k | 0 <= k < |borrows| ensures borrows[k] == |Carrying(rows[h := row], k)| {
      CarryingAdded(rows, h, row, k);
    }
  }

  /** A borrow minted for a scope, which counts it. */
  lemma BorrowSound(g: Book, typeIdx: u32, rep: u32, k: nat)
    requires Sound(g) && Room(g) && k < |g.borrows|
    ensures var g' := Added(Counting(g, k), true, typeIdx, rep, false, Some(k));
      && Sound(g') && g'.next <= g.next + 1
      && (!g.closed ==> NextIndex(g) > 0 && NextIndex(g) !in g.rows)
  {
    hide Partition, Fated, Counted, AllLive, BorrowsCounted, Carrying;
    if !g.closed {
      var h, row := NextIndex(g), Row(|g.fates|, true, typeIdx, rep, false, Some(k), 0);
      AddedPartition(g, row);
      AddedFated(g.rows, g.fates, h, row);
      AddedUnlent(g, h, row);
      AddedCounted(g.rows, h, row, g.borrows, k);
    }
  }

  lemma AddedCounted(rows: map<u32, Row>, h: u32, row: Row, borrows: seq<nat>, k: nat)
    requires BorrowsCounted(rows, borrows) && h !in rows && row.scope == Some(k) && k < |borrows|
    ensures BorrowsCounted(rows[h := row], borrows[k := borrows[k] + 1])
  {
    var borrows' := borrows[k := borrows[k] + 1];
    forall j | 0 <= j < |borrows'| ensures borrows'[j] == |Carrying(rows[h := row], j)| {
      CarryingAdded(rows, h, row, j);
    }
  }

  /** An entry without owed loans and without a scope goes. */
  lemma RetiredSound(g: Book, h: u32, fate: Fate)
    requires Sound(g) && h in g.rows && !fate.Live?
    requires g.owed[Loan(h, g.rows[h].id)] == 0 && g.rows[h].scope == None
    ensures Sound(Retired(g, h, fate))
  {
    hide Partition, Fated, Counted, AllLive, BorrowsCounted, Carrying;
    PartitionPush(g.rows, g.free, g.next, h);
    RetiredFated(g.rows, g.fates, h, fate);
    RetiredLoans(g.rows, g.owed, g.leaked, h);
    RetiredUncounted(g.rows, h, g.borrows);
  }

  lemma RetiredLoans(rows: map<u32, Row>, owed: multiset<Loan>, leaked: multiset<Loan>, h: u32)
    requires h in rows && owed[Loan(h, rows[h].id)] == 0 && Counted(rows, owed, leaked)
    ensures Counted(rows - {h}, owed, leaked) && (AllLive(rows, owed) ==> AllLive(rows - {h}, owed))
  {
  }

  lemma RetiredFated(rows: map<u32, Row>, fates: seq<Fate>, h: u32, fate: Fate)
    requires Fated(rows, fates) && h in rows && !fate.Live?
    ensures rows[h].id < |fates| && Fated(rows - {h}, fates[rows[h].id := fate])
  {
  }

  lemma RetiredUncounted(rows: map<u32, Row>, h: u32, borrows: seq<nat>)
    requires BorrowsCounted(rows, borrows) && h in rows && rows[h].scope == None
    ensures BorrowsCounted(rows - {h}, borrows)
  {
    forall k | 0 <= k < |borrows| ensures borrows[k] == |Carrying(rows - {h}, k)| {
      CarryingRemoved(rows, h, k);
    }
  }

  /** A borrow that its scope counts goes, and is no longer counted. */
  lemma BorrowDropped(g: Book, h: u32)
    requires Sound(g) && h in g.rows && g.rows[h].lends == 0 && g.rows[h].scope.Some?
    ensures var k := g.rows[h].scope.value;
      && k < |g.borrows| && g.borrows[k] > 0
      && Uncounted(g, h) == g.(borrows := g.borrows[k := g.borrows[k] - 1])
      && Sound(Retired(Uncounted(g, h), h, Dropped))
  {
    hide Partition, Fated, Counted, AllLive, BorrowsCounted, Carrying;
    PartitionPush(g.rows, g.free, g.next, h);
    RetiredFated(g.rows, g.fates, h, Dropped);
    UnlentOwesNothing(g, h);
    RetiredLoans(g.rows, g.owed, g.leaked, h);
    RetiredCounted(g.rows, h, g.borrows, g.rows[h].scope.value);
  }

  lemma RetiredCounted(rows: map<u32, Row>, h: u32, borrows: seq<nat>, k: nat)
    requires BorrowsCounted(rows, borrows) && h in rows && rows[h].scope == Some(k) && k < |borrows|
    ensures borrows[k] > 0 && BorrowsCounted(rows - {h}, borrows[k := borrows[k] - 1])
  {
    assert h in Carrying(rows, k);
    var borrows' := borrows[k := borrows[k] - 1];
    forall j | 0 <= j < |borrows'| ensures borrows'[j] == |Carrying(rows - {h}, j)| {
      CarryingRemoved(rows, h, j);
    }
  }

  lemma UnlentOwesNothing(g: Book, h: u32)
    requires Sound(g) && h in g.rows && g.rows[h].lends == 0
    ensures g.owed[Loan(h, g.rows[h].id)] == 0 == g.leaked[Loan(h, g.rows[h].id)]
    ensures g.rows[h].own ==> g.rows[h].scope == None
  {
  }

  /** A HANDLE OF ANOTHER TYPE is refused by every operation that names a type,
      and the table stays as it was. */
  lemma WrongTypeRefused(g: Book, typeIdx: u32, h: u32)
    requires h in g.rows ==> g.rows[h].typeIdx != typeIdx
    ensures !Found(g, typeIdx, h) && !CanTake(g, typeIdx, h) && !CanDrop(g, typeIdx, h)
    ensures TakenOut(g, typeIdx, h) == g && DroppedOut(g, typeIdx, h) == g && Unlent(g, typeIdx, h) == g
    ensures Do(g, Take(typeIdx, h)) == g && Do(g, Drop(typeIdx, h)) == g
    ensures forall lent :: LiftOne(g, lent, OwnArg(typeIdx, h)) == Lifting(false, g, lent)
    ensures forall lent :: LiftOne(g, lent, BorrowArg(typeIdx, h)) == Lifting(false, g, lent)
  {
  }

  lemma TakenSound(g: Book, typeIdx: u32, h: u32)
    requires Sound(g)
    ensures Sound(TakenOut(g, typeIdx, h))
  {
    hide Sound;
    if CanTake(g, typeIdx, h) {
      UnlentOwesNothing(g, h);
      RetiredSound(g, h, Taken);
    }
  }

  lemma DroppedSound(g: Book, typeIdx: u32, h: u32)
    requires Sound(g)
    ensures Sound(DroppedOut(g, typeIdx, h))
  {
    hide Sound;
    if CanDrop(g, typeIdx, h) {
      UnlentOwesNothing(g, h);
      if g.rows[h].own {
        RetiredSound(g, h, Dropped);
      } else {
        BorrowDropped(g, h);
      }
    }
  }

  lemma DroppedOwnedSound(g: Book, h: u32)
    requires Sound(g)
    ensures Sound(DroppedOwned(g, h))
  {
    hide Sound;
    if CanDropOwned(g, h) {
      UnlentOwesNothing(g, h);
      RetiredSound(g, h, Dropped);
    }
  }

  lemma RelentFacts(g: Book, h: u32, row: Row)
    requires Sound(g) && h in g.rows && row == g.rows[h].(lends := row.lends)
    ensures var rows' := g.rows[h := row];
      && !g.closed && Partition(rows', g.free, g.next) && Fated(rows', g.fates) && Scoped(rows', |g.borrows|)
      && BorrowsCounted(rows', g.borrows)
  {
    PartitionSame(g.rows, g.free, g.next, h, row);
    forall k | 0 <= k < |g.borrows| ensures g.borrows[k] == |Carrying(g.rows[h := row], k)| {
      CarryingSame(g.rows, h, row, k);
    }
  }

  lemma LentSound(g: Book, h: u32)
    requires Sound(g) && h in g.rows
    ensures Sound(LentOut(g, h)) && !g.closed
  {
    hide Partition, Fated, Scoped, BorrowsCounted, Carrying, Counted, AllLive;
    RelentFacts(g, h, g.rows[h].(lends := g.rows[h].lends + 1));
    LentCounted(g.rows, g.owed, g.leaked, h);
    IdKnown(g.rows, g.fates, h);
  }

  lemma IdKnown(rows: map<u32, Row>, fates: seq<Fate>, h: u32)
    requires Fated(rows, fates) && h in rows
    ensures rows[h].id < |fates|
  {
  }

  lemma LentCounted(rows: map<u32, Row>, owed: multiset<Loan>, leaked: multiset<Loan>, h: u32)
    requires Counted(rows, owed, leaked) && AllLive(rows, owed) && h in rows
    ensures var rows', owed' := rows[h := rows[h].(lends := rows[h].lends + 1)], owed + multiset{Loan(h, rows[h].id)};
      Counted(rows', owed', leaked) && AllLive(rows', owed')
  {
  }

  lemma ReturnedCounted(rows: map<u32, Row>, owed: multiset<Loan>, leaked: multiset<Loan>, h: u32)
    requires Counted(rows, owed, leaked) && AllLive(rows, owed) && h in rows && Loan(h, rows[h].id) in owed
    ensures rows[h].lends > 0
    ensures var rows', owed' := rows[h := rows[h].(lends := rows[h].lends - 1)], owed - multiset{Loan(h, rows[h].id)};
      Counted(rows', owed', leaked) && AllLive(rows', owed')
  {
  }

  lemma NothingCounted(owed: multiset<Loan>, leaked: multiset<Loan>)
    ensures Counted(map[], owed, leaked)
  {
  }

  lemma OwedLess(owed: multiset<Loan>, minted: nat, l: Loan)
    requires Known(owed, minted)
    ensures Known(owed - multiset{l}, minted)
  {
  }

  /** Releasing a loan that is owed reaches the entry that was lent, under the
      handle that it was lent by, as long as the table is open. */
  lemma ReleaseReaches(g: Book, l: Lent)
    requires Sound(g) && l.Of() in g.owed && !g.closed
    ensures l.h in g.rows && g.rows[l.h].id == l.id && g.rows[l.h].lends > 0
  {
  }

  lemma ReleasedOneSound(g: Book, l: Lent)
    requires Sound(g) && l.Of() in g.owed
    requires !g.closed && l.h in g.rows && g.rows[l.h].id == l.id ==> Found(g, l.typeIdx, l.h)
    ensures Sound(ReleasedOne(g, l))
  {
    hide Partition, Fated, Scoped, BorrowsCounted, Carrying, Counted, AllLive, Known;
    OwedLess(g.owed, |g.fates|, l.Of());
    if !g.closed {
      ReleaseReaches(g, l);
      RelentFacts(g, l.h, g.rows[l.h].(lends := g.rows[l.h].lends - 1));
      ReturnedCounted(g.rows, g.owed, g.leaked, l.h);
    } else {
      NothingCounted(g.owed - multiset{l.Of()}, g.leaked);
    }
  }

  lemma ClosedSound(g: Book)
    requires Sound(g)
    ensures Sound(Closed(g))
  {
  }

  /** A scope counts something exactly when a live handle carries it. */
  lemma ScopeCounts(g: Book, k: nat)
    requires Sound(g) && !g.closed && k < |g.borrows|
    ensures g.borrows[k] > 0 <==> exists h :: h in g.rows && g.rows[h].scope == Some(k)
  {
    if h :| h in g.rows && g.rows[h].scope == Some(k) {
      assert h in Carrying(g.rows, k);
    }
    if g.borrows[k] > 0 {
      var h :| h in Carrying(g.rows, k);
      assert h in g.rows && g.rows[h].scope == Some(k);
    }
  }
}
