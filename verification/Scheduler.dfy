/** sched.go: the run queue of completion thunks and the parked tasks, and the
    loops that step it. What a thunk or a resumed task does is not known here, so
    a tape says how each one leaves the scheduler; every result holds for every
    tape. When the tape is at its end, the piece of work is still running. */
module Scheduler {

  type Thunk = nat
  type Id = nat

  /** What ran: a queued thunk, or a parked task that was resumed. */
  datatype Work = Ran(th: Thunk) | Resumed(t: Id)

  /** What other code can see and change: the queue, the parked tasks, which
      tasks are ready, and whether the caller's predicate holds. */
  datatype World = World(runq: seq<Thunk>, parked: seq<Id>, ready: set<Id>, pred: bool)

  /** How one piece of work leaves the world, and whether it failed. */
  datatype Outcome = Outcome(after: World, failed: bool)

  /** `Running` stands for a call that has not come back. */
  datatype Verdict = Done | NoWork | Failed | Running

  /** The task is parked, and its condition to go on holds. */
  predicate Waits(w: World, t: Id) {
    t in w.parked && t in w.ready
  }

  /** No queued thunk and no parked task that is ready. */
  predicate Quiescent(w: World) {
    w.runq == [] && forall t :: t in w.parked ==> t !in w.ready
  }

  /** The work that is next: the queue in order, then the task that parked first
      among the ready ones. */
  predicate IsNext(w: World, k: Work) {
    if w.runq != [] then k == Ran(w.runq[0])
    else k.Resumed? && exists i :: 0 <= i < |w.parked| && k.t == w.parked[i] && k.t in w.ready && NoneReady(w, i)
  }

  predicate NoneReady(w: World, n: nat)
    requires n <= |w.parked|
  {
    forall j :: 0 <= j < n ==> w.parked[j] !in w.ready
  }

  /** The world after i pieces of work of the tape. */
  function At(w: World, tape: seq<Outcome>, i: nat): World {
    if 0 < i <= |tape| then tape[i - 1].after else w
  }

  /** One piece of work in a history: where it began, and what ran. */
  datatype Entry = Entry(before: World, work: Work)

  /** A history of work that ends as the tape says, each piece beginning where
      the one before it ended. Work that fails ends it. */
  predicate Follows(h: seq<Entry>, w: World, tape: seq<Outcome>) {
    && |h| <= |tape|
    && (forall i :: 0 <= i < |h| ==> h[i].before == At(w, tape, i))
    && forall i :: 0 <= i < |h| - 1 ==> !tape[i].failed
  }

  /** A history in which every piece of work was the next one. */
  predicate Scheduled(h: seq<Entry>, w: World, tape: seq<Outcome>) {
    Follows(h, w, tape) && forall i :: 0 <= i < |h| ==> IsNext(h[i].before, h[i].work)
  }

  /** What ran was the oldest thunk, and without one the task that parked first
      among the ready ones. */
  predicate OldestFirst(e: Entry) {
    && (e.before.runq != [] ==> e.work == Ran(e.before.runq[0]))
    && (e.before.runq == [] ==> exists i ::
          && 0 <= i < |e.before.parked| && e.work == Resumed(e.before.parked[i]) && e.before.parked[i] in e.before.ready
          && forall j :: 0 <= j < i ==> e.before.parked[j] !in e.before.ready)
  }

  /** In every schedule, at every step. */
  lemma ScheduledOldestFirst(h: seq<Entry>, w: World, tape: seq<Outcome>)
    requires Scheduled(h, w, tape)
    ensures forall n :: 0 <= n < |h| ==> OldestFirst(h[n])
  {
  }

  /** The last of n pieces of work failed. */
  predicate EndsFailed(tape: seq<Outcome>, n: nat) {
    0 < n <= |tape| && tape[n - 1].failed
  }

  class Sched {
    var w: World
    var pumping: bool
    var tape: seq<Outcome>
    ghost var hist: seq<Entry>

    constructor (w: World, tape: seq<Outcome>)
      ensures this.w == w && this.tape == tape && hist == [] && !pumping
    {
      this.w, this.tape, pumping, hist := w, tape, false, [];
    }

    /** Run one thunk or resume one task; `began` is the world before it was
        taken off the queue. */
    method Execute(k: Work, ghost began: World) returns (v: Verdict)
      modifies this
      ensures old(tape) == [] ==> v == Running && hist == old(hist) && tape == []
      ensures old(tape) != [] ==>
        && v == (if old(tape)[0].failed then Failed else Done)
        && w == old(tape)[0].after && tape == old(tape)[1..] && !pumping
        && hist == old(hist) + [Entry(began, k)]
    {
      pumping := true;
      if tape == [] {
        return Running;
      }
      var o := tape[0];
      w, tape := o.after, tape[1..];
      hist := hist + [Entry(began, k)];
      pumping := false;
      v := if o.failed then Failed else Done;
    }

    /** step: no work exactly when the scheduler is quiescent. */
    method Step() returns (v: Verdict)
      modifies this
      ensures v == NoWork <==> old(w).runq == [] && forall t :: t in old(w).parked ==> t !in old(w).ready
      ensures v == NoWork ==> w == old(w) && hist == old(hist) && tape == old(tape) && pumping == old(pumping)
      ensures v == Running ==> old(tape) == [] == tape && hist == old(hist)
      ensures v == Done || v == Failed ==>
        && old(tape) != [] && tape == old(tape)[1..] && w == old(tape)[0].after && !pumping
        && (v == Failed <==> old(tape)[0].failed)
        && exists k :: IsNext(old(w), k) && hist == old(hist) + [Entry(old(w), k)]
      ensures (v == Done || v == Failed) && old(w).runq != [] ==>
        hist == old(hist) + [Entry(old(w), Ran(old(w).runq[0]))]
      ensures (v == Done || v == Failed) && old(w).runq == [] ==> exists i ::
        && 0 <= i < |old(w).parked| && old(w).parked[i] in old(w).ready
        && (forall j :: 0 <= j < i ==> old(w).parked[j] !in old(w).ready)
        && hist == old(hist) + [Entry(old(w), Resumed(old(w).parked[i]))]
    {
      ghost var began := w;
      if |w.runq| > 0 {
        var th := w.runq[0];
        w := w.(runq := w.runq[1..]);
        v := Execute(Ran(th), began);
        assert IsNext(began, Ran(th));
        return;
      }
      for i := 0 to |w.parked|
        invariant w == began && NoneReady(w, i)
        invariant hist == old(hist) && tape == old(tape) && pumping == old(pumping)
      {
        if w.parked[i] in w.ready {
          v := Execute(Resumed(w.parked[i]), began);
          assert IsNext(began, Resumed(began.parked[i]));
          return;
        }
      }
      v := NoWork;
    }

    /** The state after the history h on the tape the scheduler had. */
    ghost predicate After(h: seq<Entry>, hist0: seq<Entry>, w0: World, tape0: seq<Outcome>)
      reads this
    {
      && hist == hist0 + h && |h| <= |tape0|
      && w == At(w0, tape0, |h|) && tape == tape0[|h|..]
    }

    /** driveToQuiescence, for any tape: parked means that at its last look the
        queue was empty, no parked task was ready, and the call was not done. */
    method DriveToQuiescence() returns (v: Verdict)
      modifies this
      ensures v == Done ==> w.pred
      ensures v == NoWork ==> !w.pred && w.runq == [] && forall t :: t in w.parked ==> t !in w.ready
      ensures old(hist) <= hist
      ensures Scheduled(hist[|old(hist)|..], old(w), old(tape))
      ensures forall n :: |old(hist)| <= n < |hist| ==> OldestFirst(hist[n])
      ensures v != Running ==> After(hist[|old(hist)|..], old(hist), old(w), old(tape))
      ensures v == Failed <==> EndsFailed(old(tape), |hist| - |old(hist)|)
    {
      ghost var h: seq<Entry> := [];
      while true
        invariant After(h, old(hist), old(w), old(tape)) && Scheduled(h, old(w), old(tape))
        invariant !EndsFailed(old(tape), |h|)
        decreases |tape|
      {
        assert hist[|old(hist)|..] == h;
        ScheduledOldestFirst(h, old(w), old(tape));
        if w.pred {
          return Done;
        }
        ghost var before := w;
        v := Step();
        if v == Running || v == NoWork {
          return;
        }
        ghost var k :| IsNext(before, k) && hist == old(hist) + h + [Entry(before, k)];
        Extended(h, old(w), old(tape), k);
        h := h + [Entry(before, k)];
        assert hist == old(hist) + h && hist[|old(hist)|..] == h;
        if v == Failed {
          ScheduledOldestFirst(h, old(w), old(tape));
          return;
        }
      }
    }

    /** drive: the same loop, and running out of work is a deadlock. */
    method Drive() returns (v: Verdict, deadlock: bool)
      modifies this
      ensures v == Done ==> w.pred
      ensures deadlock <==> v == NoWork
      ensures deadlock ==> !w.pred && w.runq == [] && forall t :: t in w.parked ==> t !in w.ready
    {
      v := DriveToQuiescence();
      deadlock := v == NoWork;
    }

    /** The first half of pumpSnapshot: as many steps as thunks were queued. It
        runs exactly those thunks, in their order, if and only if each of them
        leaves the next one at the head of the queue. */
    method PumpQueued() returns (v: Verdict)
      modifies this
      ensures old(hist) <= hist && v != NoWork
      ensures Scheduled(hist[|old(hist)|..], old(w), old(tape)) && |hist| <= |old(hist)| + |old(w).runq|
      ensures forall n :: |old(hist)| <= n < |hist| ==> OldestFirst(hist[n])
      ensures v != Running ==> After(hist[|old(hist)|..], old(hist), old(w), old(tape))
      ensures v == Failed <==> EndsFailed(old(tape), |hist| - |old(hist)|)
      ensures v == Done && |hist| < |old(hist)| + |old(w).runq| ==> Quiescent(w)
      ensures v == Done && Works(hist[|old(hist)|..]) == AllRan(old(w).runq) <==> KeepsOrder(old(w), old(tape))
    {
      ghost var h: seq<Entry> := [];
      var n := |w.runq|;
      v := Done;
      while n > 0
        invariant 0 <= n <= |old(w).runq| && v == Done
        invariant After(h, old(hist), old(w), old(tape)) && Scheduled(h, old(w), old(tape))
        invariant !EndsFailed(old(tape), |h|)
        invariant |h| <= |old(w).runq| - n && (|h| < |old(w).runq| - n ==> Quiescent(w))
      {
        assert hist[|old(hist)|..] == h;
        ghost var before := w;
        v := Step();
        if v == Running {
          InOrderIff(h, old(w), old(tape), v);
          ScheduledOldestFirst(h, old(w), old(tape));
          return;
        }
        if v == NoWork {
          v := Done;
        } else {
          ghost var k :| IsNext(before, k) && hist == old(hist) + h + [Entry(before, k)];
          Extended(h, old(w), old(tape), k);
          h := h + [Entry(before, k)];
          assert hist == old(hist) + h && hist[|old(hist)|..] == h;
          if v == Failed {
            InOrderIff(h, old(w), old(tape), v);
            ScheduledOldestFirst(h, old(w), old(tape));
            return;
          }
        }
        n := n - 1;
      }
      assert hist[|old(hist)|..] == h;
      InOrderIff(h, old(w), old(tape), v);
      ScheduledOldestFirst(h, old(w), old(tape));
    }

    /** The tasks that are ready now, in the order they parked. */
    method ReadyNow() returns (ts: seq<Id>)
      ensures ts == ReadyTasks(w)
    {
      ts := [];
      for i := 0 to |w.parked|
        invariant ts == ReadyAmong(w, i)
      {
        if w.parked[i] in w.ready {
          ts := ts + [w.parked[i]];
        }
      }
    }

    /** Resume one task that waits, as the next piece of work after h. */
    method ResumeOne(pt: Id, ghost h: seq<Entry>, ghost hist0: seq<Entry>, ghost w0: World, ghost tape0: seq<Outcome>)
      returns (v: Verdict, ghost e: Entry)
      requires After(h, hist0, w0, tape0) && Follows(h, w0, tape0) && AllSucceed(tape0, |h|)
      modifies this
      ensures e.work == Resumed(pt)
      ensures v == Running ==> |h| == |tape0| && hist == hist0 + h
      ensures v != Running ==>
        && After(h + [e], hist0, w0, tape0) && Follows(h + [e], w0, tape0)
        && (v == Failed <==> EndsFailed(tape0, |h + [e]|)) && (v == Done ==> AllSucceed(tape0, |h + [e]|))
      ensures v != NoWork
    {
      e := Entry(w, Resumed(pt));
      v := Execute(Resumed(pt), w);
      assert hist0 + h + [e] == hist0 + (h + [e]);
    }

    /** The second half of pumpSnapshot: the tasks that are ready when it begins
        are taken in turn, and one that is no longer parked or no longer ready at
        its turn is passed over. */
    method ResumeReady(ts: seq<Id>) returns (v: Verdict, ghost at: seq<nat>, ghost n: nat)
      modifies this
      ensures old(hist) <= hist && v != NoWork
      ensures Follows(hist[|old(hist)|..], old(w), old(tape))
      ensures v != Running ==> After(hist[|old(hist)|..], old(hist), old(w), old(tape))
      ensures Works(hist[|old(hist)|..]) <= AllResumed(Resumptions(ts, old(w), old(tape)))
      ensures v == Failed <==> EndsFailed(old(tape), |hist| - |old(hist)|)
      ensures v == Done <==> AllSucceed(old(tape), |Resumptions(ts, old(w), old(tape))|)
      ensures v == Done ==> Works(hist[|old(hist)|..]) == AllResumed(Resumptions(ts, old(w), old(tape)))
      ensures InTurn(ts, n, at, old(w), old(tape)) && (v == Done ==> n == |ts|)
      ensures |hist| == |old(hist)| + |at|
      ensures forall i :: 0 <= i < |at| ==> hist[|old(hist)| + i].work == Resumed(ts[at[i]])
    {
      hide Follows, Resumptions, Works, AllResumed, InTurn;
      ghost var h: seq<Entry> := [];
      ghost var w0, tape0 := w, tape;
      at, n := [], 0;
      NoTurn(ts, w0, tape0);
      NoTurns(w0, tape0);
      for i := 0 to |ts|
        invariant After(h, old(hist), w0, tape0) && Follows(h, w0, tape0)
        invariant AllSucceed(tape0, |h|)
        invariant Works(h) == AllResumed(Resumptions(ts[..i], w0, tape0))
        invariant n == i && InTurn(ts, n, at, w0, tape0)
        invariant |at| == |h| && forall j :: 0 <= j < |at| ==> at[j] < |ts| && h[j].work == Resumed(ts[at[j]])
      {
        assert hist[|old(hist)|..] == h;
        Turn(ts, i, h, w0, tape0);
        var pt := ts[i];
        if pt !in w.parked || pt !in w.ready {
          TurnPassed(ts, i, at, w0, tape0);
          n := n + 1;
          continue;
        }
        ghost var e;
        v, e := ResumeOne(pt, h, old(hist), w0, tape0);
        if v == Running {
          return;
        }
        TurnTaken(ts, i, h, e, w0, tape0);
        TurnUsed(ts, i, at, w0, tape0);
        h, at, n := h + [e], at + [i], n + 1;
        assert hist[|old(hist)|..] == h;
        if v == Failed {
          return;
        }
      }
      v := Done;
      assert hist[|old(hist)|..] == h;
      AllTurns(ts, h, w0, tape0);
    }

    /** pumpSnapshot. A round does what it is for, running the queued thunks and
        then resuming each task that is ready after them, each once and in order,
        if and only if no thunk displaces the next one and every such task is
        still parked and ready when its turn comes. */
    method PumpSnapshot() returns (v: Verdict)
      modifies this
      ensures old(hist) <= hist && v != NoWork
      ensures Follows(hist[|old(hist)|..], old(w), old(tape))
      ensures v == Failed <==> EndsFailed(old(tape), |hist| - |old(hist)|)
      ensures v == Done ==> After(hist[|old(hist)|..], old(hist), old(w), old(tape))
      ensures v == Done ==> exists m :: RoundAs(hist[|old(hist)|..], m, old(w), old(tape))
      ensures v == Done && Works(hist[|old(hist)|..]) == Round(old(w), old(tape))
        <==> KeepsOrder(old(w), old(tape)) && StayReady(At(old(w), old(tape), |old(w).runq|), Rest(old(w), old(tape)))
    {
      hide KeepsOrder, StayReady, Round, Resumptions, AllRan, AllResumed, AllSucceed, Works, Follows, Scheduled,
        EndsFailed, At, Quiescent;
      v := PumpQueued();
      ghost var h1 := hist[|old(hist)|..];
      if v != Done {
        ShortRound(h1, old(w), old(tape), v);
        return;
      }
      ghost var mid, rest := w, tape;
      var ts := ReadyNow();
      ghost var at, n;
      v, at, n := ResumeReady(ts);
      ghost var h2 := hist[|old(hist) + h1|..];
      assert hist == old(hist) + h1 + h2;
      assert hist[|old(hist)|..] == h1 + h2;
      Joined(h1, h2, old(w), old(tape));
      RoundIff(h1, h2, old(w), old(tape), v);
      if v == Done {
        assert (h1 + h2)[..|h1|] == h1 && (h1 + h2)[|h1|..] == h2;
        assert RoundAs(h1 + h2, |h1|, old(w), old(tape));
      }
    }
  }

  lemma Extended(h: seq<Entry>, w: World, tape: seq<Outcome>, k: Work)
    requires Scheduled(h, w, tape) && |h| < |tape| && !EndsFailed(tape, |h|)
    requires IsNext(At(w, tape, |h|), k)
    ensures Scheduled(h + [Entry(At(w, tape, |h|), k)], w, tape)
  {
  }

  lemma NoTurn(ts: seq<Id>, w: World, tape: seq<Outcome>)
    ensures InTurn(ts, 0, [], w, tape)
  {
  }

  lemma NoTurns(w: World, tape: seq<Outcome>)
    ensures Follows([], w, tape)
    ensures forall ts: seq<Id> :: Works([]) == AllResumed(Resumptions(ts[..0], w, tape))
  {
    assert forall ts: seq<Id> :: ts[..0] == [];
  }

  lemma AllTurns(ts: seq<Id>, h: seq<Entry>, w: World, tape: seq<Outcome>)
    requires Works(h) == AllResumed(Resumptions(ts[..|ts|], w, tape))
    ensures Works(h) == AllResumed(Resumptions(ts, w, tape))
    ensures |h| == |Resumptions(ts, w, tape)|
  {
    assert ts[..|ts|] == ts;
    assert |Works(h)| == |h|;
  }

  /** The turn of the i-th task: when it is passed over the resumed ones stay as
      they are, and otherwise there is another one to resume. */
  lemma {:induction false} Turn(ts: seq<Id>, i: nat, h: seq<Entry>, w: World, tape: seq<Outcome>)
    requires i < |ts| && Works(h) == AllResumed(Resumptions(ts[..i], w, tape))
    ensures Works(h) <= AllResumed(Resumptions(ts, w, tape))
    ensures !Waits(At(w, tape, |h|), ts[i]) ==> Works(h) == AllResumed(Resumptions(ts[..i + 1], w, tape))
    ensures Waits(At(w, tape, |h|), ts[i]) ==> |h| < |Resumptions(ts, w, tape)|
  {
    assert |Works(h)| == |h| == |Resumptions(ts[..i], w, tape)|;
    assert ts[..i + 1][..i] == ts[..i];
    ResumptionsGrow(ts, i, w, tape);
    ResumptionsGrow(ts, i + 1, w, tape);
    PrefixResumed(Resumptions(ts[..i], w, tape), Resumptions(ts, w, tape));
  }

  lemma PrefixResumed(a: seq<Id>, b: seq<Id>)
    requires a <= b
    ensures AllResumed(a) <= AllResumed(b)
  {
  }

  /** The i-th task is the next of the resumed ones. */
  lemma TurnTaken(ts: seq<Id>, i: nat, h: seq<Entry>, e: Entry, w: World, tape: seq<Outcome>)
    requires i < |ts| && Works(h) == AllResumed(Resumptions(ts[..i], w, tape))
    requires Waits(At(w, tape, |h|), ts[i]) && e.work == Resumed(ts[i])
    ensures Works(h + [e]) == AllResumed(Resumptions(ts[..i + 1], w, tape))
    ensures Works(h + [e]) <= AllResumed(Resumptions(ts, w, tape))
  {
    var r := Resumptions(ts[..i], w, tape);
    assert |Works(h)| == |h| == |r|;
    assert ts[..i + 1][..i] == ts[..i];
    assert Resumptions(ts[..i + 1], w, tape) == r + [ts[i]];
    assert Works(h + [e]) == Works(h) + [e.work];
    assert AllResumed(r + [ts[i]]) == AllResumed(r) + [Resumed(ts[i])];
    ResumptionsGrow(ts, i + 1, w, tape);
    PrefixResumed(r + [ts[i]], Resumptions(ts, w, tape));
  }

  function Works(h: seq<Entry>): seq<Work> {
    seq(|h|, i requires 0 <= i < |h| => h[i].work)
  }

  function AllRan(q: seq<Thunk>): seq<Work> {
    seq(|q|, i requires 0 <= i < |q| => Ran(q[i]))
  }

  function AllResumed(ts: seq<Id>): seq<Work> {
    seq(|ts|, i requires 0 <= i < |ts| => Resumed(ts[i]))
  }

  /** The first n pieces of work all come back without failing. */
  predicate AllSucceed(tape: seq<Outcome>, n: nat) {
    n <= |tape| && forall i :: 0 <= i < n ==> !tape[i].failed
  }

  /** No thunk of the queue fails, and each but the last leaves the next thunk of
      the queue at its head. */
  predicate KeepsOrder(w: World, tape: seq<Outcome>) {
    && AllSucceed(tape, |w.runq|)
    && forall i :: 0 < i < |w.runq| ==> At(w, tape, i).runq != [] && At(w, tape, i).runq[0] == w.runq[i]
  }

  /** A round over the queue is in order exactly when the order was kept. */
  lemma InOrderIff(h: seq<Entry>, w: World, tape: seq<Outcome>, v: Verdict)
    requires Scheduled(h, w, tape) && |h| <= |w.runq| && v != NoWork
    requires v == Failed <==> EndsFailed(tape, |h|)
    requires v == Running ==> |h| == |tape| && |h| < |w.runq|
    requires v == Done && |h| < |w.runq| ==> Quiescent(At(w, tape, |h|))
    ensures v == Done && Works(h) == AllRan(w.runq) <==> KeepsOrder(w, tape)
  {
    var n := |w.runq|;
    if v == Done && Works(h) == AllRan(w.runq) {
      assert |Works(h)| == |AllRan(w.runq)|;
      forall i | 0 <= i < n ensures IsNext(At(w, tape, i), Ran(w.runq[i])) {
        assert Works(h)[i] == AllRan(w.runq)[i];
      }
    }
    if KeepsOrder(w, tape) {
      assert v == Done && |h| == n;
      forall i | 0 <= i < n ensures h[i].work == Ran(w.runq[i]) {
        assert IsNext(At(w, tape, i), h[i].work);
      }
    }
  }

  /** Thunks that put more work behind what is queued, and do nothing else to the
      queue, keep the order. */
  lemma {:induction false} AppendingKeepsOrder(w: World, tape: seq<Outcome>)
    requires AllSucceed(tape, |w.runq|)
    requires forall i :: 0 <= i < |w.runq| && At(w, tape, i).runq != [] ==>
      At(w, tape, i).runq[1..] <= At(w, tape, i + 1).runq
    ensures KeepsOrder(w, tape)
  {
    for i := 0 to |w.runq|
      invariant w.runq[i..] <= At(w, tape, i).runq
      invariant forall j :: 0 < j < i ==> At(w, tape, j).runq != [] && At(w, tape, j).runq[0] == w.runq[j]
    {
      assert w.runq[i..][0] == w.runq[i] && w.runq[i..][1..] == w.runq[i + 1..];
      assert At(w, tape, i).runq[0] == w.runq[i];
    }
  }

  /** The tasks among the first n parked ones that are ready, in parking order. */
  function ReadyAmong(w: World, n: nat): seq<Id>
    requires n <= |w.parked|
  {
    if n == 0 then []
    else ReadyAmong(w, n - 1) + if w.parked[n - 1] in w.ready then [w.parked[n - 1]] else []
  }

  function ReadyTasks(w: World): seq<Id> {
    ReadyAmong(w, |w.parked|)
  }

  /** How many of the first n parked tasks are ready. */
  function ReadyBefore(w: World, n: nat): nat
    requires n <= |w.parked|
  {
    if n == 0 then 0 else ReadyBefore(w, n - 1) + if w.parked[n - 1] in w.ready then 1 else 0
  }

  /** The ready tasks stand in parking order: each at the place of how many ready
      ones parked before it, and no others. */
  lemma {:induction false} ReadyInOrder(w: World, n: nat, i: nat)
    requires n <= |w.parked|
    ensures |ReadyAmong(w, n)| == ReadyBefore(w, n)
    ensures i < n && w.parked[i] in w.ready ==>
      ReadyBefore(w, i) < |ReadyAmong(w, n)| && ReadyAmong(w, n)[ReadyBefore(w, i)] == w.parked[i]
  {
    if n > 0 {
      ReadyInOrder(w, n - 1, i);
    }
  }

  lemma {:induction false} ReadyAre(w: World, n: nat, t: Id)
    requires n <= |w.parked|
    ensures t in ReadyAmong(w, n) <==> t in w.parked[..n] && t in w.ready
  {
    if n > 0 {
      ReadyAre(w, n - 1, t);
      assert w.parked[..n] == w.parked[..n - 1] + [w.parked[n - 1]];
    }
  }

  /** Which of these tasks are resumed when they are taken in turn: those that
      are parked and ready when the resumed ones before them have run. */
  function Resumptions(ts: seq<Id>, w: World, tape: seq<Outcome>): (r: seq<Id>)
    ensures |r| <= |ts|
  {
    if ts == [] then []
    else
      var n := |ts| - 1;
      var r := Resumptions(ts[..n], w, tape);
      if Waits(At(w, tape, |r|), ts[n]) then r + [ts[n]] else r
  }

  lemma {:induction false} ResumptionsGrow(ts: seq<Id>, n: nat, w: World, tape: seq<Outcome>)
    requires n <= |ts|
    ensures Resumptions(ts[..n], w, tape) <= Resumptions(ts, w, tape)
    decreases |ts|
  {
    if n < |ts| {
      var m := |ts| - 1;
      ResumptionsGrow(ts[..m], n, w, tape);
      assert ts[..m][..n] == ts[..n];
    } else {
      assert ts[..n] == ts;
    }
  }

  /** No task is resumed more often than it stands among those to be resumed. */
  lemma {:induction false} ResumedAtMostOnce(ts: seq<Id>, w: World, tape: seq<Outcome>)
    ensures multiset(Resumptions(ts, w, tape)) <= multiset(ts)
  {
    if ts != [] {
      var n := |ts| - 1;
      ResumedAtMostOnce(ts[..n], w, tape);
      assert ts == ts[..n] + [ts[n]];
    }
  }

  /** When no two parked tasks are the same, none is resumed twice in the second
      half of a round. */
  lemma EachResumedOnce(w: World, tape: seq<Outcome>, i: nat, j: nat)
    requires forall i, j :: 0 <= i < j < |w.parked| ==> w.parked[i] != w.parked[j]
    requires i < j < |Resumptions(ReadyTasks(w), w, tape)|
    ensures Resumptions(ReadyTasks(w), w, tape)[i] != Resumptions(ReadyTasks(w), w, tape)[j]
  {
    var ts := ReadyTasks(w);
    ResumedAtMostOnce(ts, w, tape);
    ReadyOnce(w, |w.parked|, Resumptions(ts, w, tape)[i]);
    Twice(Resumptions(ts, w, tape), i, j);
  }

  lemma Twice(r: seq<Id>, i: nat, j: nat)
    requires i < j < |r| && multiset(r)[r[i]] <= 1
    ensures r[i] != r[j]
  {
    assert r == r[..j] + r[j..];
    assert r[i] in r[..j] && r[j] in r[j..];
  }

  lemma {:induction false} ReadyOnce(w: World, n: nat, t: Id)
    requires n <= |w.parked|
    requires forall i, j :: 0 <= i < j < |w.parked| ==> w.parked[i] != w.parked[j]
    ensures multiset(ReadyAmong(w, n))[t] <= 1
  {
    if n > 0 {
      ReadyOnce(w, n - 1, t);
      var last := w.parked[n - 1];
      assert last !in w.parked[..n - 1];
      ReadyAre(w, n - 1, last);
      assert multiset(ReadyAmong(w, n - 1))[last] == 0;
    }
  }

  /** The places of those resumed among the first n: in order, each parked and
      ready when the resumed ones before it have run; and any other had its turn
      when it was not parked or not ready. */
  ghost predicate InTurn(ts: seq<Id>, n: nat, at: seq<nat>, w: World, tape: seq<Outcome>) {
    && n <= |ts|
    && (forall i :: 0 <= i < |at| ==> at[i] < n)
    && (forall i, j :: 0 <= i < j < |at| ==> at[i] < at[j])
    && (forall i :: 0 <= i < |at| ==> ts[at[i]] in At(w, tape, i).parked && ts[at[i]] in At(w, tape, i).ready)
    && OthersSkipped(ts, n, at, w, tape)
  }

  ghost predicate OthersSkipped(ts: seq<Id>, n: nat, at: seq<nat>, w: World, tape: seq<Outcome>)
    requires n <= |ts|
  {
    forall k :: 0 <= k < n && k !in at ==> exists i :: 0 <= i <= |at| && Skipped(ts[k], k, i, at, w, tape)
  }

  /** The turn of task t, at place k, came behind the first i that were resumed. */
  predicate Skipped(t: Id, k: nat, i: nat, at: seq<nat>, w: World, tape: seq<Outcome>)
    requires i <= |at|
  {
    && (i > 0 ==> at[i - 1] < k) && (i < |at| ==> k < at[i])
    && (t !in At(w, tape, i).parked || t !in At(w, tape, i).ready)
  }

  /** A task is passed over only because, when its turn came, it was not parked or
      not ready. */
  lemma {:induction false} PassedOver(ts: seq<Id>, w: World, tape: seq<Outcome>, t: Id)
    requires t in ts && t !in Resumptions(ts, w, tape)
    ensures exists i ::
      && 0 <= i <= |Resumptions(ts, w, tape)|
      && (t !in At(w, tape, i).parked || t !in At(w, tape, i).ready)
  {
    var n := |ts| - 1;
    var r := Resumptions(ts[..n], w, tape);
    assert ts == ts[..n] + [ts[n]];
    if t in ts[..n] {
      PassedOver(ts[..n], w, tape, t);
    } else {
      assert t !in At(w, tape, |r|).parked || t !in At(w, tape, |r|).ready;
    }
  }

  lemma TurnPassed(ts: seq<Id>, n: nat, at: seq<nat>, w: World, tape: seq<Outcome>)
    requires InTurn(ts, n, at, w, tape) && n < |ts|
    requires ts[n] !in At(w, tape, |at|).parked || ts[n] !in At(w, tape, |at|).ready
    ensures InTurn(ts, n + 1, at, w, tape)
  {
    hide At;
    assert Skipped(ts[n], n, |at|, at, w, tape);
  }

  lemma TurnUsed(ts: seq<Id>, n: nat, at: seq<nat>, w: World, tape: seq<Outcome>)
    requires InTurn(ts, n, at, w, tape) && n < |ts|
    requires ts[n] in At(w, tape, |at|).parked && ts[n] in At(w, tape, |at|).ready
    ensures InTurn(ts, n + 1, at + [n], w, tape)
  {
    hide At, Skipped, OthersSkipped;
    OthersStill(ts, n, at, w, tape);
  }

  lemma OthersStill(ts: seq<Id>, n: nat, at: seq<nat>, w: World, tape: seq<Outcome>)
    requires n < |ts| && (forall i :: 0 <= i < |at| ==> at[i] < n) && OthersSkipped(ts, n, at, w, tape)
    ensures OthersSkipped(ts, n + 1, at + [n], w, tape)
  {
    hide At, Skipped;
    var more := at + [n];
    assert more[|at|] == n;
    forall k | 0 <= k < n + 1 && k !in more
      ensures exists i :: 0 <= i <= |more| && Skipped(ts[k], k, i, more, w, tape)
    {
      assert k != n && k !in at by {
        assert n in more && forall x :: x in at ==> x in more;
      }
      var i :| 0 <= i <= |at| && Skipped(ts[k], k, i, at, w, tape);
      SkippedStill(ts[k], k, i, at, n, w, tape);
    }
  }

  lemma SkippedStill(t: Id, k: nat, i: nat, at: seq<nat>, n: nat, w: World, tape: seq<Outcome>)
    requires i <= |at| && k < n && Skipped(t, k, i, at, w, tape)
    ensures Skipped(t, k, i, at + [n], w, tape)
  {
  }

  /** Every task that is ready succeeds and leaves the next one parked and ready. */
  predicate StayReady(w: World, tape: seq<Outcome>) {
    var ts := ReadyTasks(w);
    AllSucceed(tape, |ts|) && forall i :: 0 <= i < |ts| ==> Waits(At(w, tape, i), ts[i])
  }

  lemma {:induction false} AllResumedIff(ts: seq<Id>, w: World, tape: seq<Outcome>)
    ensures Resumptions(ts, w, tape) == ts <==> forall i :: 0 <= i < |ts| ==> Waits(At(w, tape, i), ts[i])
    decreases |ts|
  {
    hide At, Waits, Resumptions;
    if ts == [] {
      ResumedNext(ts, w, tape);
    } else {
      var n := |ts| - 1;
      AllResumedIff(ts[..n], w, tape);
      ResumedNext(ts, w, tape);
      assert forall i :: 0 <= i < n ==> ts[..n][i] == ts[i];
    }
  }

  /** All are resumed exactly if all but the last are, and then the last is. */
  lemma ResumedNext(ts: seq<Id>, w: World, tape: seq<Outcome>)
    ensures ts == [] ==> Resumptions(ts, w, tape) == ts
    ensures ts != [] ==>
      var n := |ts| - 1;
      Resumptions(ts, w, tape) == ts <==> Resumptions(ts[..n], w, tape) == ts[..n] && Waits(At(w, tape, n), ts[n])
  {
    hide At, Waits;
    if ts != [] {
      var n := |ts| - 1;
      var r := Resumptions(ts[..n], w, tape);
      assert ts == ts[..n] + [ts[n]];
      if r + [ts[n]] == ts {
        assert r == ts[..n];
      }
    }
  }

  /** The tape that is left when the queued thunks have run. */
  function Rest(w: World, tape: seq<Outcome>): seq<Outcome> {
    if |w.runq| <= |tape| then tape[|w.runq|..] else []
  }

  /** A completed round: m steps in scheduling order, as many as thunks were queued
      unless no work was left, and then the tasks that were ready taken in turn. */
  predicate RoundAs(h: seq<Entry>, m: nat, w: World, tape: seq<Outcome>) {
    && m <= |h| && m <= |w.runq| && m <= |tape| && Scheduled(h[..m], w, tape)
    && (m < |w.runq| ==> Quiescent(At(w, tape, m)))
    && Works(h[m..]) == AllResumed(Resumptions(ReadyTasks(At(w, tape, m)), At(w, tape, m), tape[m..]))
  }

  /** What a round is for: the queued thunks, then the tasks ready after them. */
  function Round(w: World, tape: seq<Outcome>): seq<Work> {
    AllRan(w.runq) + AllResumed(ReadyTasks(At(w, tape, |w.runq|)))
  }

  lemma Joined(h1: seq<Entry>, h2: seq<Entry>, w: World, tape: seq<Outcome>)
    requires Scheduled(h1, w, tape) && !EndsFailed(tape, |h1|)
    requires Follows(h2, At(w, tape, |h1|), tape[|h1|..])
    ensures Follows(h1 + h2, w, tape)
    ensures EndsFailed(tape, |h1 + h2|) <==> EndsFailed(tape[|h1|..], |h2|)
    ensures At(w, tape, |h1 + h2|) == At(At(w, tape, |h1|), tape[|h1|..], |h2|)
    ensures tape[|h1 + h2|..] == tape[|h1|..][|h2|..]
  {
    forall i | 0 <= i < |h1 + h2| ensures (h1 + h2)[i].before == At(w, tape, i) {
      if i >= |h1| {
        assert (h1 + h2)[i] == h2[i - |h1|];
      }
    }
    forall i | 0 <= i < |h1 + h2| - 1 ensures !tape[i].failed {
      if i >= |h1| {
        assert tape[i] == tape[|h1|..][i - |h1|];
      }
    }
  }

  /** A first half that fails or does not come back is not a full round. */
  lemma ShortRound(h: seq<Entry>, w: World, tape: seq<Outcome>, v: Verdict)
    requires v != Done && (v == Done && Works(h) == AllRan(w.runq) <==> KeepsOrder(w, tape))
    ensures !KeepsOrder(w, tape)
  {
  }

  lemma RoundIff(h1: seq<Entry>, h2: seq<Entry>, w: World, tape: seq<Outcome>, v: Verdict)
    requires |h1| <= |w.runq| && |h1| <= |tape| && (Works(h1) == AllRan(w.runq) <==> KeepsOrder(w, tape))
    requires |h1| < |w.runq| ==> Quiescent(At(w, tape, |h1|))
    requires var mid, rest := At(w, tape, |h1|), tape[|h1|..];
      && (v == Done <==> AllSucceed(rest, |Resumptions(ReadyTasks(mid), mid, rest)|))
      && (v == Done ==> Works(h2) == AllResumed(Resumptions(ReadyTasks(mid), mid, rest)))
    ensures v == Done && Works(h1 + h2) == Round(w, tape) <==>
      KeepsOrder(w, tape) && StayReady(At(w, tape, |w.runq|), Rest(w, tape))
  {
    var mid, rest := At(w, tape, |h1|), tape[|h1|..];
    var ts := ReadyTasks(mid);
    assert |Works(h1)| == |h1|;
    if |h1| < |w.runq| {
      if v == Done {
        assert |Works(h2)| == |h2|;
        TooShort(h1, h2, w, tape);
      }
    } else {
      Halves(h1, h2, w, tape);
      AllResumedIff(ts, mid, rest);
      ResumedAll(Resumptions(ts, mid, rest), ts);
    }
  }

  lemma TooShort(h1: seq<Entry>, h2: seq<Entry>, w: World, tape: seq<Outcome>)
    requires |h1| < |w.runq| && Quiescent(At(w, tape, |h1|)) && |h2| <= |ReadyTasks(At(w, tape, |h1|))|
    ensures Works(h1 + h2) != Round(w, tape)
  {
    var ts := ReadyTasks(At(w, tape, |h1|));
    if |ts| > 0 {
      ReadyAre(At(w, tape, |h1|), |At(w, tape, |h1|).parked|, ts[0]);
    }
    assert |Works(h1 + h2)| == |h1|;
  }

  lemma Halves(h1: seq<Entry>, h2: seq<Entry>, w: World, tape: seq<Outcome>)
    requires |h1| == |w.runq|
    ensures Works(h1 + h2) == Round(w, tape) <==>
      Works(h1) == AllRan(w.runq) && Works(h2) == AllResumed(ReadyTasks(At(w, tape, |w.runq|)))
  {
    assert Works(h1 + h2) == Works(h1) + Works(h2);
    assert (Works(h1) + Works(h2))[..|h1|] == Works(h1) && (Works(h1) + Works(h2))[|h1|..] == Works(h2);
    assert Round(w, tape)[..|h1|] == AllRan(w.runq);
    assert Round(w, tape)[|h1|..] == AllResumed(ReadyTasks(At(w, tape, |w.runq|)));
  }

  lemma ResumedAll(r: seq<Id>, ts: seq<Id>)
    ensures AllResumed(r) == AllResumed(ts) <==> r == ts
  {
    if AllResumed(r) == AllResumed(ts) {
      assert |r| == |AllResumed(r)| == |ts|;
      forall i | 0 <= i < |r| ensures r[i] == ts[i] {
        assert AllResumed(r)[i] == AllResumed(ts)[i];
      }
    }
  }

  /** A thunk that runs the rest of the queue itself, as a nested drive does: the
      round then resumes a parked task in place of the second thunk, and resumes
      the same task again in its second half. */
  lemma NestedDriveOvertakes() returns (h: seq<Entry>, start: World, tape: seq<Outcome>)
    ensures |h| == |start.runq| == 2 && Scheduled(h, start, tape) && AllSucceed(tape, 3) && !KeepsOrder(start, tape)
    ensures Works(h) == [Ran(start.runq[0]), Resumed(7)]
    ensures Resumptions(ReadyTasks(At(start, tape, 2)), At(start, tape, 2), tape[2..]) == [7]
  {
    start := World([1, 2], [7], {7}, false);
    var mid := World([], [7], {7}, false);
    tape := [Outcome(mid, false), Outcome(mid, false), Outcome(mid, false)];
    h := [Entry(start, Ran(1)), Entry(mid, Resumed(7))];
    assert NoneReady(mid, 0) && mid.parked[0] == 7;
    assert At(start, tape, 1) == mid;
    OneWaits(mid, tape[2..]);
  }

  lemma OneWaits(w: World, tape: seq<Outcome>)
    requires w.parked == [7] && 7 in w.ready
    ensures ReadyTasks(w) == [7] && Resumptions([7], w, tape) == [7]
  {
    assert ReadyAmong(w, 1) == ReadyAmong(w, 0) + [7];
    assert [7][..0] == [];
    assert Waits(w, 7) && Resumptions([7][..0], w, tape) == [];
  }

  /** The tasks are looked at after the thunks: one that a thunk made ready is
      resumed in the same round, although it was not ready when the round began. */
  lemma MadeReadyByThunk() returns (start: World, tape: seq<Outcome>)
    ensures KeepsOrder(start, tape) && StayReady(At(start, tape, |start.runq|), Rest(start, tape))
    ensures Round(start, tape) == [Ran(1), Resumed(7)] && ReadyTasks(start) == []
  {
    start := World([1], [7], {}, false);
    var mid := World([], [7], {7}, false);
    tape := [Outcome(mid, false), Outcome(mid, false)];
    assert At(start, tape, 1) == mid && Rest(start, tape) == tape[1..];
    assert AllSucceed(tape[1..], 1);
    OneWaits(mid, tape[1..]);
    assert ReadyTasks(start) == ReadyAmong(start, 0) + [];
  }
}
