/** callasync.go, pumpPending: the driver of a pending call runs the scheduler
    until the call is over or there is no work, then takes what came into the
    mailbox, and goes around again when that was something. Other goroutines act
    on the instance between its steps. */
module Pumping {
  import opened Base
  import opened PendingCalls
  import Scheduler

  /** What one time around the loop meets: what other goroutines do before the
      drive is looked at and before the mailbox is taken, which completions apply
      without an error, and which tasks they make ready. */
  datatype Round = Round(
    first: seq<Event>, second: seq<Event>, third: seq<Event>, applies: seq<bool>, ready: set<Scheduler.Id>)

  /** `Unfinished` stands for a pump that is still going when the rounds, or the
      scheduler's tape, are at their end. */
  datatype PumpEnd = Over(outcome: Outcome) | Parked | Unfinished

  /** Events of goroutines other than t. */
  method Others(i: Instance, t: Tid, events: seq<Event>)
    requires i.Inv()
    modifies i
    ensures i.Inv() && Grown(old(i.calls), i.calls, old(i.hist), i.hist) && i.At(t) == old(i.At(t))
  {
    hide Instance.Inv, Grown;
    var theirs: seq<Event> := [];
    for k := 0 to |events|
      invariant forall j :: 0 <= j < |theirs| ==> Actor(theirs[j]) != Some(t)
    {
      if Actor(events[k]) != Some(t) {
        theirs := theirs + [events[k]];
      }
    }
    Run(i, theirs);
  }

  /** finishAsync and releasePendingLease: the call is over with this outcome. */
  method End(i: Instance, t: Tid, events: seq<Event>)
    requires i.Inv() && i.At(t).Finishing?
    modifies i
    ensures i.Inv() && Grown(old(i.calls), i.calls, old(i.hist), i.hist)
    ensures var p := old(i.At(t)).p;
      && i.At(t) == Leaving(p) && p in i.calls && i.calls[p].closed && !i.calls[p].lease
      && i.calls[p].outcome == Some(old(i.At(t)).outcome)
  {
    hide Instance.Inv, Drivers, Conserved, HandlesOwned, AcceptedOnce, NoLostWakeup;
    ghost var calls, hist := i.calls, i.hist;
    i.Finish(t);
    ghost var calls1, hist1 := i.calls, i.hist;
    Others(i, t, events);
    GrownTwice(calls, calls1, i.calls, hist, hist1, i.hist);
    ghost var calls2, hist2 := i.calls, i.hist;
    i.ReleaseLease(t);
    GrownTwice(calls, calls2, i.calls, hist, hist2, i.hist);
  }

  /** applyQueued over the batch; the first error ends it. */
  method ApplyAll(i: Instance, t: Tid, applies: seq<bool>)
    requires i.Inv() && i.At(t).Applying?
    modifies i
    ensures i.Inv() && Grown(old(i.calls), i.calls, old(i.hist), i.hist)
    ensures var was := old(i.At(t));
      || i.At(t) == was.(batch := [], any := was.any || was.batch != [])
      || (was.batch != [] && i.At(t).Finishing? && i.At(t).p == was.p && i.At(t).outcome == Failed)
  {
    hide Instance.Inv, Grown;
    ghost var was := i.At(t);
    Unchanged(i.calls, i.hist);
    var k := 0;
    while i.At(t).batch != []
      invariant i.Inv() && Grown(old(i.calls), i.calls, old(i.hist), i.hist)
      invariant i.At(t).Applying? && i.At(t) == was.(batch := i.At(t).batch, any := i.At(t).any)
      invariant |i.At(t).batch| <= |was.batch| && (i.At(t).any <==> was.any || |i.At(t).batch| < |was.batch|)
      decreases |i.At(t).batch|
    {
      ghost var calls, hist := i.calls, i.hist;
      var ok := k < |applies| && applies[k];
      i.ApplyNext(t, ok);
      GrownTwice(old(i.calls), calls, i.calls, old(i.hist), hist, i.hist);
      if !ok {
        return;
      }
      k := k + 1;
    }
  }

  /** THE PUMP. It leaves the call parked only when nothing is left to do for it:
      the scheduler has no queued thunk and no parked task that is ready, and the
      task is not done. Otherwise the call is over, its lease given back. Whatever
      other goroutines do meanwhile, the invariant holds. The task's result is
      None when it ended with an error of its own. */
  method PumpPending(i: Instance, s: Scheduler.Sched, t: Tid, result: Option<int>, rounds: seq<Round>)
    returns (e: PumpEnd)
    requires i.Inv() && i.At(t).Driving?
    modifies i, s
    ensures i.Inv() && Grown(old(i.calls), i.calls, old(i.hist), i.hist)
    ensures e == Parked ==>
      && s.w.runq == [] && !s.w.pred && (forall u :: u in s.w.parked ==> u !in s.w.ready)
      && i.At(t) == if old(i.At(t)).from == FromStart then Leaving(old(i.At(t)).p) else Checking(old(i.At(t)).p)
    ensures e.Over? ==> var p := old(i.At(t)).p;
      && i.At(t) == Leaving(p) && p in i.calls && i.calls[p].closed && !i.calls[p].lease
      && i.calls[p].outcome == Some(e.outcome)
    ensures e.Over? && e.outcome != Failed ==> result.Some? && e.outcome == Returned(result.value) && s.w.pred
  {
    hide Instance.Inv, Grown;
    Unchanged(i.calls, i.hist);
    ghost var calls, hist;
    for k := 0 to |rounds|
      invariant i.Inv() && Grown(old(i.calls), i.calls, old(i.hist), i.hist)
      invariant i.At(t) == old(i.At(t))
    {
      calls, hist := i.calls, i.hist;
      var v := s.DriveToQuiescence();
      if v == Scheduler.Running {
        return Unfinished;
      }
      Others(i, t, rounds[k].first);
      GrownTwice(old(i.calls), calls, i.calls, old(i.hist), hist, i.hist);
      calls, hist := i.calls, i.hist;
      if v != Scheduler.NoWork {
        var outcome := if v == Scheduler.Done && result.Some? then Returned(result.value) else Failed;
        i.DriveEnd(t, outcome);
        End(i, t, rounds[k].second);
        GrownTwice(old(i.calls), calls, i.calls, old(i.hist), hist, i.hist);
        return Over(outcome);
      }
      i.DrainTake(t, false);
      Others(i, t, rounds[k].second);
      GrownTwice(old(i.calls), calls, i.calls, old(i.hist), hist, i.hist);
      calls, hist := i.calls, i.hist;
      ApplyAll(i, t, rounds[k].applies);
      GrownTwice(old(i.calls), calls, i.calls, old(i.hist), hist, i.hist);
      calls, hist := i.calls, i.hist;
      if i.At(t).Finishing? {
        End(i, t, rounds[k].third);
        GrownTwice(old(i.calls), calls, i.calls, old(i.hist), hist, i.hist);
        return Over(Failed);
      }
      var any := i.At(t).any;
      i.DrainEnd(t);
      if !any {
        return Parked;
      }
      s.w := s.w.(ready := s.w.ready + rounds[k].ready);
    }
    e := Unfinished;
  }
}
