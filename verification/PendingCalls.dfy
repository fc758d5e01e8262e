/** callasync.go: one outstanding asynchronous call of an instance. Goroutines
    interleave at the granularity of the lock: any of them may post a completion
    to the mailbox or cancel, one of them drives. Each method is one critical
    section or one step between two of them; `Run` takes them in any order, so
    what `Inv` states holds over every interleaving. */
module PendingCalls {
  import opened Base

  type CallId = nat
  type AcId = nat
  type Tid = nat

  /** The life of an AsyncCall, the handle on which an import is resolved. */
  datatype CallState = Open | Queued | Applied | Closed

  datatype Completion = Completion(ac: AcId, cancelled: bool, payload: int)

  datatype Outcome = Returned(value: int) | Failed | Cancelled

  /** PendingCall; `doneCloses` and `leaseReleases` count what happened to its
      channel and its lease. */
  datatype Pending = Pending(
    closed: bool, outcome: Option<Outcome>, doneCloses: nat,
    lease: bool, leaseReleases: nat,
    driver: bool, cancelRequested: bool,
    registered: seq<AcId>)

  /** Who holds the execution lease of the instance. */
  datatype Holder = Nobody | SyncCall | AsyncCall(p: CallId)

  /** Where a goroutine is. The pump was entered from CallAsync or from Await. */
  datatype From = FromStart | FromAwait
  datatype Pc =
    | Idle
    | Driving(p: CallId, from: From)
    | Applying(p: CallId, from: From, batch: seq<Completion>, any: bool, nested: bool)
    | Finishing(p: CallId, outcome: Outcome, batch: seq<Completion>)
    | Releasing(p: CallId)
    | Leaving(p: CallId)
    | Checking(p: CallId)
    | Sleeping(p: CallId)
    | Passing(p: CallId)

  type Pcs = map<Tid, Pc>
  type Calls = map<CallId, Pending>

  /** The call that a goroutine drives. */
  function DriverOf(pc: Pc): Option<CallId> {
    match pc
    case Idle | Passing(_) => None
    case _ => Some(pc.p)
  }

  /** The goroutine has not yet finished the call it drives. */
  predicate Unfinished(pc: Pc) {
    pc.Driving? || pc.Applying? || pc.Finishing?
  }

  function BatchOf(pc: Pc): seq<Completion> {
    if pc.Applying? || pc.Finishing? then pc.batch else []
  }

  /** Sleepers that have been signalled, contexts that are done, and watchers
      of those contexts that have not broadcast yet. */
  datatype Wakeups = Wakeups(woken: set<Tid>, ctxDone: set<Tid>, watchers: set<Tid>)

  /** Who drives, or drove, each call; which call a handle is registered with
      and which call accepted its completion; and the completions that each
      call accepted and applied, in order. */
  datatype History = History(
    owner: map<CallId, Tid>, homes: map<AcId, CallId>, acceptedBy: map<AcId, CallId>,
    accepted: map<CallId, seq<Completion>>, applied: map<CallId, seq<Completion>>)

  /** The completions that the driver of p has taken and not yet applied. */
  function InFlight(p: CallId, threads: Pcs, owner: map<CallId, Tid>): seq<Completion> {
    if p in owner && owner[p] in threads && DriverOf(threads[owner[p]]) == Some(p) then BatchOf(threads[owner[p]])
      else []
  }

  // ---- the parts of the invariant ----

  /** A call is open while it is the pending one; its result, its channel and
      its lease change once. */
  ghost predicate Lifecycle(pending: Option<CallId>, lease: Holder, calls: Calls) {
    && (pending.Some? ==> pending.value in calls)
    && (lease.AsyncCall? ==> lease.p in calls)
    && forall p :: p in calls ==>
         && (!calls[p].closed <==> pending == Some(p))
         && (calls[p].closed <==> calls[p].outcome.Some?)
         && calls[p].doneCloses == (if calls[p].closed then 1 else 0)
         && (calls[p].lease <==> lease == AsyncCall(p))
         && calls[p].leaseReleases == (if calls[p].lease then 0 else 1)
         && (!calls[p].closed ==> calls[p].lease)
  }

  /** At most one goroutine drives a call: its owner. The flag of an open call
      is set exactly while somebody drives it, and a finished call that still
      has the lease has an owner about to release it. */
  ghost predicate Drivers(calls: Calls, threads: Pcs, owner: map<CallId, Tid>) {
    && (forall t :: t in threads && DriverOf(threads[t]).Some? ==>
          && threads[t].p in calls && threads[t].p in owner && owner[threads[t].p] == t
          && (!calls[threads[t].p].closed ==> calls[threads[t].p].driver)
          && (Unfinished(threads[t]) ==> !calls[threads[t].p].closed)
          && (threads[t].Releasing? ==> calls[threads[t].p].closed && calls[threads[t].p].lease))
    && (forall t :: t in threads && threads[t].Passing? ==> threads[t].p in calls && calls[threads[t].p].closed)
    && (forall p :: p in calls && calls[p].driver && !calls[p].closed ==>
          p in owner && owner[p] in threads && DriverOf(threads[owner[p]]) == Some(p))
    && (forall p :: p in calls && calls[p].closed && calls[p].lease ==>
          p in owner && owner[p] in threads && threads[owner[p]] == Releasing(p))
  }

  /** Accepted completions are the applied ones, then those in flight, then
      those in the mailbox, in order. */
  ghost predicate Conserved(pending: Option<CallId>, mailbox: seq<Completion>, threads: Pcs, owner: map<CallId, Tid>,
                            accepted: map<CallId, seq<Completion>>, applied: map<CallId, seq<Completion>>) {
    && accepted.Keys == applied.Keys
    && (forall p :: p in accepted ==> applied[p] <= accepted[p])
    && (if pending.Some?
        then pending.value in accepted
          && accepted[pending.value] == applied[pending.value] + InFlight(pending.value, threads, owner) + mailbox
        else mailbox == [])
  }

  /** Every registered handle belongs to one call, and is spent when it is over. */
  ghost predicate HandlesOwned(calls: Calls, acs: map<AcId, CallState>, homes: map<AcId, CallId>) {
    && (forall p, i :: p in calls && 0 <= i < |calls[p].registered| ==>
          calls[p].registered[i] in homes && homes[calls[p].registered[i]] == p)
    && (forall ac :: ac in homes ==>
          && homes[ac] in calls && ac in acs && ac in calls[homes[ac]].registered
          && (calls[homes[ac]].closed ==> acs[ac] == Applied || acs[ac] == Closed))
  }

  /** A handle is accepted at most once in all calls, and by no other call than
      the one it is registered with. */
  ghost predicate AcceptedOnce(pending: Option<CallId>, acs: map<AcId, CallState>, homes: map<AcId, CallId>,
                               acceptedBy: map<AcId, CallId>,
                               accepted: map<CallId, seq<Completion>>, applied: map<CallId, seq<Completion>>) {
    && (forall p, i :: p in accepted && 0 <= i < |accepted[p]| ==>
          var ac := accepted[p][i].ac;
          && ac in acceptedBy && acceptedBy[ac] == p && (ac in homes ==> homes[ac] == p)
          && (pending == Some(p) && p in applied && ac in acs ==> acs[ac] == if i < |applied[p]| then Applied
            else Queued))
    && (forall p, i, j :: p in accepted && 0 <= i < j < |accepted[p]| ==> accepted[p][i].ac != accepted[p][j].ac)
    && (forall ac :: ac in acceptedBy ==> ac in acs && acs[ac] != Open)
  }

  /** Nobody sleeps on a condition that holds unless a wake-up is on its way. */
  ghost predicate NoLostWakeup(mailbox: seq<Completion>, calls: Calls, threads: Pcs, wake: Wakeups) {
    forall t :: t in threads && threads[t].Sleeping? && t !in wake.woken ==>
      && threads[t].p in calls && !calls[threads[t].p].closed && !calls[threads[t].p].cancelRequested
      && mailbox == []
      && (t in wake.ctxDone ==> t in wake.watchers)
  }

  predicate AllWoken(threads: Pcs, woken: set<Tid>) {
    forall t :: t in threads && threads[t].Sleeping? ==> t in woken
  }

  /** What Signal may do to the set of woken sleepers. */
  ghost predicate Signalled(threads: Pcs, was: set<Tid>, now: set<Tid>) {
    || (now == was && AllWoken(threads, was))
    || exists t :: t in threads && threads[t].Sleeping? && t !in was && now == was + {t}
  }

  /** What every step leaves of the past: results are fixed once, histories
      only grow. */
  ghost predicate Grown(calls: Calls, calls': Calls, hist: History, hist': History) {
    && (forall p :: p in calls ==>
          && p in calls'
          && (calls[p].closed ==>
            calls'[p].closed && calls'[p].outcome == calls[p].outcome && calls'[p].registered == calls[p].registered))
    && (forall p :: p in hist.accepted ==> p in hist'.accepted && hist.accepted[p] <= hist'.accepted[p])
    && (forall p :: p in hist.applied ==> p in hist'.applied && hist.applied[p] <= hist'.applied[p])
  }

  /** What a step leaves of the handles there were: each is registered with the
      call it was registered with, or with none. */
  ghost predicate HomesKept(acs: map<AcId, CallState>, acs': map<AcId, CallState>, homes: map<AcId, CallId>,
                            homes': map<AcId, CallId>) {
    forall ac :: ac in acs ==>
      ac in acs' && (ac in homes' <==> ac in homes) && (ac in homes ==> homes'[ac] == homes[ac])
  }

  /** The call p accepted a completion of the handle. */
  ghost predicate Accepts(accepted: map<CallId, seq<Completion>>, p: CallId, ac: AcId) {
    p in accepted && exists k :: 0 <= k < |accepted[p]| && accepted[p][k].ac == ac
  }

  class Instance {
    /** The pending call; the flag asyncActive of the source is set with it and
        cleared with it. */
    var pending: Option<CallId>
    var mailbox: seq<Completion>
    var lease: Holder
    var calls: Calls
    var acs: map<AcId, CallState>
    var threads: Pcs
    var wake: Wakeups
    ghost var hist: History

    constructor ()
      ensures Inv() && calls == map[] && threads == map[] && acs == map[] && lease == Nobody && pending == None
      ensures hist == History(map[], map[], map[], map[], map[])
    {
      pending, mailbox, lease := None, [], Nobody;
      calls, acs, threads := map[], map[], map[];
      wake, hist := Wakeups({}, {}, {}), History(map[], map[], map[], map[], map[]);
    }

    ghost predicate Inv()
      reads this
    {
      && hist.accepted.Keys == calls.Keys
      && Lifecycle(pending, lease, calls)
      && Drivers(calls, threads, hist.owner)
      && Conserved(pending, mailbox, threads, hist.owner, hist.accepted, hist.applied)
      && HandlesOwned(calls, acs, hist.homes)
      && AcceptedOnce(pending, acs, hist.homes, hist.acceptedBy, hist.accepted, hist.applied)
      && NoLostWakeup(mailbox, calls, threads, wake)
    }

    function At(t: Tid): Pc
      reads this`threads
    {
      if t in threads then threads[t] else Idle
    }

    /** No goroutine but t moved. */
    twostate predicate OthersStay(t: Tid)
      reads this`threads
    {
      forall u :: u != t ==> At(u) == old(At(u))
    }

    // ---- waking the driver ----

    /** Cond.Signal: wakes one sleeper that has not been signalled, if any. */
    method Signal()
      modifies this`wake
      ensures wake == old(wake).(woken := wake.woken) && Signalled(threads, old(wake.woken), wake.woken)
    {
      if t :| t in threads && threads[t].Sleeping? && t !in wake.woken {
        wake := wake.(woken := wake.woken + {t});
      }
    }

    /** Cond.Broadcast: wakes every sleeper. */
    method Broadcast()
      modifies this`wake
      ensures wake == old(wake).(woken := wake.woken) && AllWoken(threads, wake.woken)
    {
      wake := wake.(woken := wake.woken + set t | t in threads && threads[t].Sleeping?);
    }

    // ---- resolvers: any goroutine, any time ----

    /** queueExternalCompletion, under the lock. */
    method QueueExternal(c: Completion) returns (ok: bool)
      requires Inv() && c.ac in acs
      modifies this`mailbox, this`acs, this`wake, this`hist
      ensures Inv() && Grown(calls, calls, old(hist), hist)
      ensures ok <==> pending.Some? && old(acs)[c.ac] == Open
      ensures ok ==> mailbox == old(mailbox) + [c] && acs == old(acs)[c.ac := Queued]
      ensures ok ==> pending.value in old(hist.accepted)
      ensures ok ==> hist.accepted == old(hist.accepted)[pending.value := old(hist.accepted)[pending.value] + [c]]
      ensures hist.homes == old(hist.homes) && acs.Keys == old(acs).Keys
      ensures !ok ==> mailbox == old(mailbox) && hist == old(hist)
      ensures !ok ==> acs == if pending == None then old(acs)[c.ac := Closed] else old(acs)
    {
      hide Lifecycle, Drivers, Conserved, HandlesOwned, AcceptedOnce, NoLostWakeup, Signalled, Grown;
      Unchanged(calls, hist);
      if pending == None {
        LateClosed(calls, acs, hist, c.ac);
        acs := acs[c.ac := Closed];
        return false;
      }
      if acs[c.ac] != Open {
        return false;
      }
      var p := pending.value;
      PostConserved(p, mailbox, threads, hist, c);
      PostHandles(calls, acs, hist, c.ac);
      PostAccepted(p, lease, mailbox, calls, threads, acs, hist, c);
      PostAwake(p, lease, mailbox, mailbox + [c], calls, threads, hist, wake);
      PostGrown(p, calls, hist, c);
      acs := acs[c.ac := Queued];
      mailbox := mailbox + [c];
      hist := hist.(accepted := hist.accepted[p := hist.accepted[p] + [c]], acceptedBy := hist.acceptedBy[c.ac := p]);
      Signal();
      return true;
    }

    // ---- the execution lease ----

    /** A synchronous call takes or gives back the lease. */
    method SyncAcquire() returns (ok: bool)
      requires Inv()
      modifies this`lease
      ensures Inv() && (ok <==> old(lease) == Nobody) && lease == if ok then SyncCall else old(lease)
    {
      hide Drivers, Conserved, HandlesOwned, AcceptedOnce, NoLostWakeup;
      ok := lease == Nobody;
      if ok {
        lease := SyncCall;
      }
    }

    method SyncRelease()
      requires Inv()
      modifies this`lease
      ensures Inv() && lease == if old(lease) == SyncCall then Nobody else old(lease)
    {
      hide Drivers, Conserved, HandlesOwned, AcceptedOnce, NoLostWakeup;
      if lease == SyncCall {
        lease := Nobody;
      }
    }

    // ---- starting ----

    /** CallAsync up to the pump: take the lease, publish the call, become its
        driver. Another call that holds the lease makes it fail. */
    method Start(t: Tid, p: CallId) returns (ok: bool)
      requires Inv() && p !in calls && At(t) == Idle
      modifies this
      ensures Inv() && Grown(old(calls), calls, old(hist), hist)
      ensures ok <==> old(lease) == Nobody
      ensures ok ==> pending == Some(p) && threads == old(threads)[t := Driving(p, FromStart)]
      ensures acs == old(acs) && hist.homes == old(hist.homes) && (ok ==> mailbox == [])
      ensures ok ==> lease == AsyncCall(p)
      ensures ok ==> calls == old(calls)[p := Pending(false, None, 0, true, 0, true, false, [])]
      ensures !ok ==> lease == old(lease) && pending == old(pending) && calls == old(calls) && threads == old(threads)
      ensures !ok ==> mailbox == old(mailbox) && hist == old(hist)
      ensures OthersStay(t)
    {
      hide Lifecycle, Drivers, Conserved, HandlesOwned, AcceptedOnce, NoLostWakeup, Grown;
      Unchanged(calls, hist);
      ok := lease == Nobody;
      if ok {
        Publish(t, p);
      }
    }

    method Publish(t: Tid, p: CallId)
      requires Inv() && lease == Nobody && p !in calls && At(t) == Idle
      modifies this`lease, this`pending, this`mailbox, this`calls, this`threads, this`hist
      ensures Inv() && Grown(old(calls), calls, old(hist), hist)
      ensures pending == Some(p) && mailbox == [] && threads == old(threads)[t := Driving(p, FromStart)]
      ensures lease == AsyncCall(p) && calls == old(calls)[p := Pending(false, None, 0, true, 0, true, false, [])]
      ensures hist.homes == old(hist.homes)
      ensures OthersStay(t)
    {
      hide Lifecycle, Drivers, Conserved, HandlesOwned, AcceptedOnce, NoLostWakeup, Grown;
      var c := Pending(false, None, 0, true, 0, true, false, []);
      NothingPending();
      StartDrivers(calls, threads, hist, p, c, t);
      StartLifecycle(calls, p, c);
      StartConserved(mailbox, threads, hist, p, t);
      StartHandles(calls, acs, hist, p, c);
      StartAccepted(acs, hist, p);
      StartAwake(mailbox, calls, threads, wake, p, c, t);
      StartGrown(calls, hist, p, c, t);
      lease, pending, mailbox := AsyncCall(p), Some(p), [];
      calls, threads := calls[p := c], threads[t := Driving(p, FromStart)];
      hist := hist.(owner := hist.owner[p := t], accepted := hist.accepted[p := []], applied := hist.applied[p := []]);
    }

    lemma NothingPending()
      requires Inv() && lease == Nobody
      ensures pending == None
    {
    }

    /** The async wrapper creates a handle; while a call is pending it is
        registered with it (registerAsyncCall). */
    method NewHandle(t: Tid, ac: AcId)
      requires Inv() && ac !in acs
      requires pending.Some? ==> At(t).Driving? && pending == Some(At(t).p)
      modifies this`acs, this`calls, this`hist
      ensures Inv() && Grown(old(calls), calls, old(hist), hist) && acs == old(acs)[ac := Open]
      ensures pending == None ==> calls == old(calls) && hist == old(hist) && ac !in hist.homes
      ensures pending.Some? ==>
        && hist == old(hist).(homes := old(hist).homes[ac := pending.value]) && pending.value in old(calls)
        && calls == old(calls)[pending.value :=
             old(calls)[pending.value].(registered := old(calls)[pending.value].registered + [ac])]
    {
      hide Lifecycle, Drivers, Conserved, HandlesOwned, AcceptedOnce, NoLostWakeup, Grown;
      Unchanged(calls, hist);
      NewIsUnknown(ac);
      NewUnregistered(pending, calls, acs, hist, ac);
      if pending.Some? {
        DriverFacts(t);
        var p := At(t).p;
        var c := calls[p].(registered := calls[p].registered + [ac]);
        Register(pending, mailbox, lease, calls, threads, acs, hist, wake, ac, p, c);
        calls := calls[p := c];
        hist := hist.(homes := hist.homes[ac := p]);
      }
      acs := acs[ac := Open];
    }

    lemma NewIsUnknown(ac: AcId)
      requires Inv() && ac !in acs
      ensures ac !in hist.homes && ac !in hist.acceptedBy
    {
    }

    // ---- the driver's pump ----

    /** What is known where a goroutine drives a call. */
    lemma DriverFacts(t: Tid)
      requires Inv() && DriverOf(At(t)).Some?
      ensures var p := At(t).p;
        && t in threads && p in calls && p in hist.owner && hist.owner[p] == t
        && (Unfinished(At(t)) ==> !calls[p].closed && pending == Some(p))
        && (pending == Some(p) ==>
          && p in hist.accepted && p in hist.applied
          && hist.accepted[p] == hist.applied[p] + BatchOf(At(t)) + mailbox)
        && (pending == Some(p) && !At(t).Sleeping? ==> AllWoken(threads, wake.woken))
    {
    }

    /** The driver moves on without touching anything but its own place. */
    method Move(t: Tid, pc: Pc)
      requires Inv() && DriverOf(At(t)).Some? && DriverOf(pc) == DriverOf(At(t)) && BatchOf(pc) == BatchOf(At(t))
      requires !At(t).Releasing? && !pc.Releasing? && !pc.Sleeping?
      requires Unfinished(pc) ==> pending == Some(At(t).p)
      modifies this`threads
      ensures Inv() && threads == old(threads)[t := pc]
      ensures OthersStay(t)
    {
      hide Lifecycle, Drivers, Conserved, HandlesOwned, AcceptedOnce, NoLostWakeup;
      DriverFacts(t);
      PendingOpen();
      MoveDrivers(calls, threads, hist, t, pc);
      MoveConserved(pending, mailbox, mailbox, threads, hist, hist.applied, t, pc);
      MoveAwake(mailbox, mailbox, calls, threads, wake, t, pc);
      threads := threads[t := pc];
    }

    lemma PendingOpen()
      requires Inv()
      ensures pending.Some? ==> pending.value in calls && !calls[pending.value].closed
    {
    }

    /** driveToQuiescence ends with the task done or failed. */
    method DriveEnd(t: Tid, outcome: Outcome)
      requires Inv() && At(t).Driving?
      modifies this`threads
      ensures Inv() && At(t) == Finishing(old(At(t).p), outcome, [])
      ensures OthersStay(t)
    {
      hide Inv;
      DriverFacts(t);
      Move(t, Finishing(At(t).p, outcome, []));
    }

    /** drainMailbox takes everything, under the lock; the import wrapper does
        so too, inside a drive. */
    method DrainTake(t: Tid, nested: bool)
      requires Inv() && At(t).Driving?
      modifies this`mailbox, this`threads
      ensures Inv() && mailbox == []
      ensures At(t) == Applying(old(At(t).p), old(At(t).from), old(mailbox), false, nested)
      ensures OthersStay(t)
    {
      hide Lifecycle, Drivers, Conserved, HandlesOwned, AcceptedOnce, NoLostWakeup;
      var p := At(t).p;
      var pc := Applying(p, At(t).from, mailbox, false, nested);
      DriverFacts(t);
      assert hist.applied[p] + mailbox + [] == hist.applied[p] + [] + mailbox;
      MoveDrivers(calls, threads, hist, t, pc);
      MoveConserved(pending, mailbox, [], threads, hist, hist.applied, t, pc);
      MoveAwake(mailbox, [], calls, threads, wake, t, pc);
      threads := threads[t := pc];
      mailbox := [];
    }

    /** applyQueued for the next completion in flight. A failure ends the call. */
    method ApplyNext(t: Tid, ok: bool)
      requires Inv() && At(t).Applying? && At(t).batch != []
      modifies this`threads, this`acs, this`hist
      ensures Inv() && Grown(calls, calls, old(hist), hist)
      ensures ok ==> At(t) == old(At(t)).(batch := old(At(t)).batch[1..], any := true)
      ensures ok ==> var p, c := old(At(t)).p, old(At(t)).batch[0];
        p in old(hist.applied) && hist.applied == old(hist.applied)[p := old(hist.applied)[p] + [c]]
      ensures !ok ==> At(t) == Finishing(old(At(t).p), Failed, old(At(t).batch)) && hist == old(hist) && acs == old(acs)
      ensures ok ==> acs == old(acs)[old(At(t)).batch[0].ac := Applied] && old(At(t)).batch[0].ac in old(acs)
      ensures hist.homes == old(hist.homes) && OthersStay(t)
    {
      hide Lifecycle, Drivers, Conserved, HandlesOwned, AcceptedOnce, NoLostWakeup, Grown;
      var was := At(t);
      var p, c := was.p, was.batch[0];
      DriverFacts(t);
      Unchanged(calls, hist);
      if !ok {
        Move(t, Finishing(p, Failed, was.batch));
        return;
      }
      InFlightKnown(t);
      var now := was.(batch := was.batch[1..], any := true);
      ghost var done := hist.applied[p := hist.applied[p] + [c]];
      assert was.batch == [c] + now.batch;
      assert done[p] + now.batch + mailbox == hist.applied[p] + was.batch + mailbox;
      MoveDrivers(calls, threads, hist, t, now);
      MoveConserved(pending, mailbox, mailbox, threads, hist, done, t, now);
      MoveAwake(mailbox, mailbox, calls, threads, wake, t, now);
      NextApplied(p, calls, acs, hist, c);
      threads := threads[t := now];
      acs := acs[c.ac := Applied];
      hist := hist.(applied := done);
    }

    /** A completion in flight is of a handle that exists. */
    lemma InFlightKnown(t: Tid)
      requires Inv() && At(t).Applying? && At(t).batch != []
      ensures At(t).batch[0].ac in acs
    {
      var p := At(t).p;
      DriverFacts(t);
      assert hist.accepted[p][|hist.applied[p]|] == At(t).batch[0];
    }

    /** The batch is applied: back to driving, or, when the pump's own drain
        found nothing, out of the pump with the call parked. */
    method DrainEnd(t: Tid)
      requires Inv() && At(t).Applying? && At(t).batch == []
      modifies this`threads
      ensures Inv()
      ensures var was := old(At(t));
        At(t) == if was.nested || was.any then Driving(was.p, was.from)
                 else if was.from == FromStart then Leaving(was.p) else Checking(was.p)
      ensures OthersStay(t)
    {
      hide Inv;
      DriverFacts(t);
      var was := At(t);
      Move(t, if was.nested || was.any then Driving(was.p, was.from)
              else if was.from == FromStart then Leaving(was.p) else Checking(was.p));
    }

    // ---- finishing ----

    /** finishAsync: the result is fixed, the channel closed, every registered
        handle that was not applied is closed, the mailbox is dropped. */
    method Finish(t: Tid)
      requires Inv() && At(t).Finishing?
      modifies this`threads, this`calls, this`acs, this`pending, this`mailbox, this`wake
      ensures Inv() && Grown(old(calls), calls, hist, hist)
      ensures pending == None && mailbox == [] && At(t) == Releasing(old(At(t).p))
      ensures var p := old(At(t).p); var was := old(calls);
        && p in was && Spent(old(acs), acs, was[p].registered)
        && calls == was[p := was[p].(closed := true, outcome := Some(old(At(t).outcome)),
          doneCloses := was[p].doneCloses + 1)]
        && forall ac :: ac in old(acs) ==>
             ac in acs && acs[ac] == if ac in was[p].registered && old(acs)[ac] != Applied then Closed else old(acs)[ac]
      ensures OthersStay(t) && AllWoken(threads, wake.woken)
    {
      hide Lifecycle, Drivers, Conserved, HandlesOwned, AcceptedOnce, NoLostWakeup, Grown;
      DriverFacts(t);
      var p, c := At(t).p, calls[At(t).p];
      var over := c.(closed := true, outcome := Some(At(t).outcome), doneCloses := c.doneCloses + 1);
      var spent := CloseHandles(acs, c.registered);
      Finished(pending, mailbox, lease, calls, threads, acs, spent, hist, t, over);
      FinishedGrown(calls, hist, p, over);
      acs := spent;
      calls := calls[p := over];
      pending, mailbox := None, [];
      Broadcast();
      FinishAwake(mailbox, calls, threads, wake, t, Releasing(p));
      threads := threads[t := Releasing(p)];
    }

    /** releasePendingLease */
    method ReleaseLease(t: Tid)
      requires Inv() && At(t).Releasing?
      modifies this`threads, this`calls, this`lease
      ensures Inv() && Grown(old(calls), calls, hist, hist)
      ensures lease == Nobody && At(t) == Leaving(old(At(t).p))
      ensures var p, was := old(At(t).p), old(calls);
        p in was && calls == was[p := was[p].(lease := false, leaseReleases := was[p].leaseReleases + 1)]
      ensures OthersStay(t)
    {
      hide Lifecycle, Drivers, Conserved, HandlesOwned, AcceptedOnce, NoLostWakeup, Grown;
      DriverFacts(t);
      var p, c := At(t).p, calls[At(t).p];
      var without := c.(lease := false, leaseReleases := c.leaseReleases + 1);
      Released(pending, mailbox, lease, calls, threads, acs, hist, wake, t, without);
      calls := calls[p := without];
      lease := Nobody;
      threads := threads[t := Leaving(p)];
    }

    /** releaseDriver, of the driver or of an Await that came too late. */
    method ReleaseDriver(t: Tid)
      requires Inv() && (At(t).Leaving? || At(t).Passing?)
      modifies this`threads, this`calls, this`wake
      ensures Inv() && Grown(old(calls), calls, hist, hist) && At(t) == Idle
      ensures var p, was := old(At(t).p), old(calls); p in was && calls == was[p := was[p].(driver := false)]
      ensures OthersStay(t) && AllWoken(threads, wake.woken)
    {
      hide Lifecycle, Drivers, Conserved, HandlesOwned, AcceptedOnce, NoLostWakeup, Grown;
      LeaverFacts(t);
      var p, c := At(t).p, calls[At(t).p];
      Left(pending, mailbox, lease, calls, threads, acs, hist, t, c.(driver := false));
      calls := calls[p := c.(driver := false)];
      Broadcast();
      FinishAwake(mailbox, calls, threads, wake, t, Idle);
      threads := threads[t := Idle];
    }

    lemma LeaverFacts(t: Tid)
      requires Inv() && (At(t).Leaving? || At(t).Passing?)
      ensures t in threads && At(t).p in calls
    {
    }

    // ---- waiting and cancelling ----

    /** Await's claimDriver: refused while somebody drives; a call that is over
        needs no driver. */
    method AwaitClaim(t: Tid, p: CallId) returns (ok: bool)
      requires Inv() && At(t) == Idle && p in calls
      modifies this`threads, this`calls, this`wake, this`hist
      ensures Inv() && Grown(old(calls), calls, old(hist), hist)
      ensures ok <==> old(calls)[p].closed || !old(calls)[p].driver
      ensures if !ok then threads == old(threads) else At(t) == if old(calls)[p].closed then Passing(p) else Checking(p)
      ensures calls == if ok && !old(calls)[p].closed then old(calls)[p := old(calls)[p].(driver := true)]
        else old(calls)
      ensures OthersStay(t)
      ensures hist.homes == old(hist.homes)
    {
      hide Lifecycle, Drivers, Conserved, HandlesOwned, AcceptedOnce, NoLostWakeup, Grown;
      Unchanged(calls, hist);
      var c := calls[p];
      if c.closed {
        LatePass(mailbox, pending, calls, threads, hist, wake, t, p);
        threads := threads[t := Passing(p)];
        return true;
      }
      if c.driver {
        return false;
      }
      Claimed(pending, mailbox, lease, calls, threads, acs, hist, wake, t, p, c.(driver := true), Checking(p));
      calls := calls[p := c.(driver := true)];
      threads := threads[t := Checking(p)];
      hist := hist.(owner := hist.owner[p := t]);
      wake := wake.(ctxDone := wake.ctxDone - {t}, watchers := wake.watchers - {t});
      return true;
    }

    /** The top of Await's loop, under the lock: sleep, give up, finish or pump. */
    method Check(t: Tid)
      requires Inv() && At(t).Checking?
      modifies this`threads, this`wake
      ensures Inv()
      ensures var p, done := old(At(t).p), t in old(wake).ctxDone;
        && p in calls
        && At(t) == if mailbox == [] && !calls[p].closed && !calls[p].cancelRequested && !done then Sleeping(p)
                    else if calls[p].closed || done then Leaving(p)
                    else if calls[p].cancelRequested then Finishing(p, Cancelled, [])
                    else Driving(p, FromAwait)
      ensures OthersStay(t)
    {
      hide Lifecycle, Drivers, Conserved, HandlesOwned, AcceptedOnce, NoLostWakeup;
      DriverFacts(t);
      OpenIsPending();
      var p := At(t).p;
      if mailbox == [] && !calls[p].closed && !calls[p].cancelRequested && t !in wake.ctxDone {
        SleepKeeps(pending, mailbox, calls, threads, hist, wake, t);
        threads := threads[t := Sleeping(p)];
        wake := wake.(woken := wake.woken - {t});
      } else if calls[p].closed || t in wake.ctxDone {
        Move(t, Leaving(p));
      } else if calls[p].cancelRequested {
        Move(t, Finishing(p, Cancelled, []));
      } else {
        Move(t, Driving(p, FromAwait));
      }
    }

    lemma OpenIsPending()
      requires Inv()
      ensures forall p :: p in calls && !calls[p].closed ==> pending == Some(p)
    {
    }

    /** A signalled sleeper takes the lock again. */
    method Wake(t: Tid)
      requires Inv() && At(t).Sleeping? && t in wake.woken
      modifies this`threads, this`wake
      ensures Inv() && At(t) == Checking(old(At(t).p))
      ensures OthersStay(t)
    {
      hide Lifecycle, Drivers, Conserved, HandlesOwned, AcceptedOnce, NoLostWakeup;
      DriverFacts(t);
      Move(t, Checking(At(t).p));
      Awoken(t);
      wake := wake.(woken := wake.woken - {t});
    }

    lemma Awoken(t: Tid)
      requires Inv() && !At(t).Sleeping?
      ensures NoLostWakeup(mailbox, calls, threads, wake.(woken := wake.woken - {t}))
    {
    }

    /** Cancel's critical section: whoever drives will see the request; when
        nobody does, the canceller drives and finishes the call itself. */
    method Cancel(t: Tid, p: CallId)
      requires Inv() && At(t) == Idle && p in calls
      modifies this`threads, this`calls, this`wake, this`hist
      ensures Inv() && Grown(old(calls), calls, old(hist), hist)
      ensures !old(calls)[p].closed && !old(calls)[p].driver ==> At(t) == Finishing(p, Cancelled, [])
      ensures !old(calls)[p].closed ==>
        && AllWoken(threads, wake.woken)
        && calls == old(calls)[p := old(calls)[p].(driver := true, cancelRequested := true)]
      ensures old(calls)[p].closed ==> calls == old(calls) && wake == old(wake)
      ensures old(calls)[p].closed || old(calls)[p].driver ==> threads == old(threads)
      ensures OthersStay(t)
      ensures hist.homes == old(hist.homes)
    {
      hide Lifecycle, Drivers, Conserved, HandlesOwned, AcceptedOnce, NoLostWakeup, Grown;
      Unchanged(calls, hist);
      var c := calls[p];
      if c.closed {
        return;
      }
      Broadcast();
      if c.driver {
        Requested(pending, mailbox, lease, calls, threads, acs, hist, wake, p, c.(cancelRequested := true));
        calls := calls[p := c.(cancelRequested := true)];
        return;
      }
      var d := c.(driver := true, cancelRequested := true);
      FinishAwake(mailbox, calls, threads, wake, t, Finishing(p, Cancelled, []));
      Claimed(pending, mailbox, lease, calls, threads, acs, hist, wake, t, p, d, Finishing(p, Cancelled, []));
      FinishAwake(mailbox, calls[p := d], threads, wake, t, Finishing(p, Cancelled, []));
      calls := calls[p := d];
      threads := threads[t := Finishing(p, Cancelled, [])];
      hist := hist.(owner := hist.owner[p := t]);
    }

    /** The context of an Await is done; its watcher will broadcast. */
    method CtxDone(t: Tid)
      requires Inv()
      modifies this`wake
      ensures Inv() && wake == old(wake).(ctxDone := old(wake).ctxDone + {t}, watchers := old(wake).watchers + {t})
    {
      wake := wake.(ctxDone := wake.ctxDone + {t}, watchers := wake.watchers + {t});
    }

    method WatcherFires(t: Tid)
      requires Inv() && t in wake.watchers
      modifies this`wake
      ensures Inv() && AllWoken(threads, wake.woken)
    {
      Broadcast();
      wake := wake.(watchers := wake.watchers - {t});
    }
  }

  /** The loop of finishAsync over the registered handles. */
  method CloseHandles(acs: map<AcId, CallState>, registered: seq<AcId>) returns (spent: map<AcId, CallState>)
    ensures Spent(acs, spent, registered)
  {
    spent := acs;
    for i := 0 to |registered|
      invariant Spent(acs, spent, registered[..i])
    {
      var ac := registered[i];
      if ac !in spent || spent[ac] != Applied {
        spent := spent[ac := Closed];
      }
      assert registered[..i + 1] == registered[..i] + [ac];
    }
    assert registered[..|registered|] == registered;
  }

  // ---- posting ----

  lemma Unchanged(calls: Calls, hist: History)
    ensures Grown(calls, calls, hist, hist)
  {
  }

  lemma LateClosed(calls: Calls, acs: map<AcId, CallState>, hist: History, ac: AcId)
    requires HandlesOwned(calls, acs, hist.homes)
    requires AcceptedOnce(None, acs, hist.homes, hist.acceptedBy, hist.accepted, hist.applied)
    ensures HandlesOwned(calls, acs[ac := Closed], hist.homes)
    ensures AcceptedOnce(None, acs[ac := Closed], hist.homes, hist.acceptedBy, hist.accepted, hist.applied)
  {
  }

  lemma PostConserved(p: CallId, mailbox: seq<Completion>, threads: Pcs, hist: History, c: Completion)
    requires Conserved(Some(p), mailbox, threads, hist.owner, hist.accepted, hist.applied)
    ensures p in hist.accepted
    ensures Conserved(Some(p), mailbox + [c], threads, hist.owner, hist.accepted[p := hist.accepted[p] + [c]],
      hist.applied)
  {
  }

  lemma PostHandles(calls: Calls, acs: map<AcId, CallState>, hist: History, ac: AcId)
    requires HandlesOwned(calls, acs, hist.homes) && ac in acs && acs[ac] == Open
    ensures HandlesOwned(calls, acs[ac := Queued], hist.homes)
  {
  }

  /** The handle was open, so it is new to the accepted ones, and it is not
      registered with a call that is over. */
  lemma PostAccepted(p: CallId, lease: Holder, mailbox: seq<Completion>, calls: Calls, threads: Pcs,
                     acs: map<AcId, CallState>, hist: History, c: Completion)
    requires Lifecycle(Some(p), lease, calls) && HandlesOwned(calls, acs, hist.homes)
    requires Conserved(Some(p), mailbox, threads, hist.owner, hist.accepted, hist.applied)
    requires AcceptedOnce(Some(p), acs, hist.homes, hist.acceptedBy, hist.accepted, hist.applied)
    requires c.ac in acs && acs[c.ac] == Open && p in hist.accepted
    ensures AcceptedOnce(Some(p), acs[c.ac := Queued], hist.homes, hist.acceptedBy[c.ac := p],
      hist.accepted[p := hist.accepted[p] + [c]], hist.applied)
  {
  }

  /** At most one sleeper is not signalled yet, the driver of the pending call:
      one signal is enough. */
  lemma PostAwake(p: CallId, lease: Holder, mailbox: seq<Completion>, mailbox': seq<Completion>, calls: Calls,
                  threads: Pcs, hist: History, wake: Wakeups)
    requires Lifecycle(Some(p), lease, calls) && Drivers(calls, threads, hist.owner)
    requires NoLostWakeup(mailbox, calls, threads, wake)
    ensures forall now :: Signalled(threads, wake.woken, now) ==>
      NoLostWakeup(mailbox', calls, threads, wake.(woken := now))
  {
  }

  lemma PostGrown(p: CallId, calls: Calls, hist: History, c: Completion)
    requires p in hist.accepted
    ensures Grown(calls, calls, hist, hist.(accepted := hist.accepted[p := hist.accepted[p] + [c]],
      acceptedBy := hist.acceptedBy[c.ac := p]))
  {
  }

  // ---- starting and registering ----

  lemma StartDrivers(calls: Calls, threads: Pcs, hist: History, p: CallId, c: Pending, t: Tid)
    requires Drivers(calls, threads, hist.owner) && p !in calls && (t in threads ==> threads[t] == Idle)
    requires !c.closed && c.driver && Lifecycle(None, Nobody, calls)
    ensures Drivers(calls[p := c], threads[t := Driving(p, FromStart)], hist.owner[p := t])
  {
  }

  lemma StartLifecycle(calls: Calls, p: CallId, c: Pending)
    requires Lifecycle(None, Nobody, calls) && p !in calls
    requires c == Pending(false, None, 0, true, 0, true, false, [])
    ensures Lifecycle(Some(p), AsyncCall(p), calls[p := c])
  {
  }

  lemma StartConserved(mailbox: seq<Completion>, threads: Pcs, hist: History, p: CallId, t: Tid)
    requires Conserved(None, mailbox, threads, hist.owner, hist.accepted, hist.applied) && p !in hist.accepted
    ensures p !in hist.applied
    ensures Conserved(Some(p), [], threads[t := Driving(p, FromStart)], hist.owner[p := t], hist.accepted[p := []],
      hist.applied[p := []])
  {
  }

  lemma StartHandles(calls: Calls, acs: map<AcId, CallState>, hist: History, p: CallId, c: Pending)
    requires HandlesOwned(calls, acs, hist.homes) && p !in calls && c.registered == []
    ensures HandlesOwned(calls[p := c], acs, hist.homes)
  {
  }

  lemma StartAccepted(acs: map<AcId, CallState>, hist: History, p: CallId)
    requires AcceptedOnce(None, acs, hist.homes, hist.acceptedBy, hist.accepted, hist.applied) && p !in hist.accepted
    ensures AcceptedOnce(Some(p), acs, hist.homes, hist.acceptedBy, hist.accepted[p := []], hist.applied[p := []])
  {
  }

  lemma StartAwake(mailbox: seq<Completion>, calls: Calls, threads: Pcs, wake: Wakeups, p: CallId, c: Pending, t: Tid)
    requires NoLostWakeup(mailbox, calls, threads, wake) && p !in calls
    ensures NoLostWakeup([], calls[p := c], threads[t := Driving(p, FromStart)], wake)
  {
  }

  lemma StartGrown(calls: Calls, hist: History, p: CallId, c: Pending, t: Tid)
    requires p !in calls && p !in hist.accepted && p !in hist.applied
    ensures Grown(calls, calls[p := c], hist,
                  hist.(owner := hist.owner[p := t], accepted := hist.accepted[p := []],
                    applied := hist.applied[p := []]))
  {
  }

  lemma NewUnregistered(pending: Option<CallId>, calls: Calls, acs: map<AcId, CallState>, hist: History, ac: AcId)
    requires HandlesOwned(calls, acs, hist.homes) && ac !in hist.homes && ac !in hist.acceptedBy
    requires AcceptedOnce(pending, acs, hist.homes, hist.acceptedBy, hist.accepted, hist.applied)
    ensures HandlesOwned(calls, acs[ac := Open], hist.homes)
    ensures AcceptedOnce(pending, acs[ac := Open], hist.homes, hist.acceptedBy, hist.accepted, hist.applied)
  {
  }

  lemma Register(pending: Option<CallId>, mailbox: seq<Completion>, lease: Holder, calls: Calls, threads: Pcs,
                 acs: map<AcId, CallState>, hist: History, wake: Wakeups, ac: AcId, p: CallId, c: Pending)
    requires p in calls && !calls[p].closed && c == calls[p].(registered := calls[p].registered + [ac])
    requires Lifecycle(pending, lease, calls) && Drivers(calls, threads, hist.owner)
    requires NoLostWakeup(mailbox, calls, threads, wake)
    requires HandlesOwned(calls, acs, hist.homes) && ac !in hist.homes && ac !in hist.acceptedBy
    requires AcceptedOnce(pending, acs, hist.homes, hist.acceptedBy, hist.accepted, hist.applied)
    ensures Lifecycle(pending, lease, calls[p := c]) && Drivers(calls[p := c], threads, hist.owner)
    ensures NoLostWakeup(mailbox, calls[p := c], threads, wake)
    ensures HandlesOwned(calls[p := c], acs[ac := Open], hist.homes[ac := p])
    ensures AcceptedOnce(pending, acs[ac := Open], hist.homes[ac := p], hist.acceptedBy, hist.accepted, hist.applied)
    ensures Grown(calls, calls[p := c], hist, hist.(homes := hist.homes[ac := p]))
  {
    hide Drivers, NoLostWakeup, HandlesOwned, AcceptedOnce;
    SameDrivers(calls, threads, hist, p, c);
    SameAwake(mailbox, calls, threads, wake, p, c);
    RegisteredHandle(pending, calls, acs, hist, ac, p, c);
  }

  /** Changes to a call that its drivers do not look at. */
  lemma SameDrivers(calls: Calls, threads: Pcs, hist: History, p: CallId, c: Pending)
    requires p in calls && c.closed == calls[p].closed && c.lease == calls[p].lease && c.driver == calls[p].driver
    requires Drivers(calls, threads, hist.owner)
    ensures Drivers(calls[p := c], threads, hist.owner)
  {
  }

  lemma RegisteredHandle(pending: Option<CallId>, calls: Calls, acs: map<AcId, CallState>, hist: History, ac: AcId,
                         p: CallId, c: Pending)
    requires p in calls && !calls[p].closed && c == calls[p].(registered := calls[p].registered + [ac])
    requires HandlesOwned(calls, acs, hist.homes) && ac !in hist.homes && ac !in hist.acceptedBy
    requires AcceptedOnce(pending, acs, hist.homes, hist.acceptedBy, hist.accepted, hist.applied)
    ensures HandlesOwned(calls[p := c], acs[ac := Open], hist.homes[ac := p])
    ensures AcceptedOnce(pending, acs[ac := Open], hist.homes[ac := p], hist.acceptedBy, hist.accepted, hist.applied)
  {
  }

  // ---- moving the driver ----

  lemma MoveDrivers(calls: Calls, threads: Pcs, hist: History, t: Tid, pc: Pc)
    requires Drivers(calls, threads, hist.owner) && t in threads && DriverOf(threads[t]).Some?
    requires DriverOf(pc) == DriverOf(threads[t])
    requires !threads[t].Releasing? && !pc.Releasing?
    requires Unfinished(pc) ==> threads[t].p in calls && !calls[threads[t].p].closed
    ensures Drivers(calls, threads[t := pc], hist.owner)
  {
  }

  lemma MoveConserved(pending: Option<CallId>, mailbox: seq<Completion>, mailbox': seq<Completion>, threads: Pcs,
                      hist: History,
                      applied': map<CallId, seq<Completion>>, t: Tid, pc: Pc)
    requires Conserved(pending, mailbox, threads, hist.owner, hist.accepted, hist.applied)
    requires t in threads && DriverOf(threads[t]).Some? && DriverOf(pc) == DriverOf(threads[t])
    requires var p := threads[t].p;
      && p in hist.owner && hist.owner[p] == t
      && if pending == Some(p)
         then p in hist.applied && p in applied' && applied' == hist.applied[p := applied'[p]]
           && applied'[p] + BatchOf(pc) + mailbox' == hist.applied[p] + BatchOf(threads[t]) + mailbox
         else applied' == hist.applied && mailbox' == mailbox
    ensures Conserved(pending, mailbox', threads[t := pc], hist.owner, hist.accepted, applied')
  {
  }

  lemma MoveAwake(mailbox: seq<Completion>, mailbox': seq<Completion>, calls: Calls, threads: Pcs, wake: Wakeups,
                  t: Tid, pc: Pc)
    requires NoLostWakeup(mailbox, calls, threads, wake) && !pc.Sleeping?
    requires mailbox' != mailbox ==> AllWoken(threads, wake.woken)
    ensures NoLostWakeup(mailbox', calls, threads[t := pc], wake)
  {
  }

  /** The next completion in flight is the first accepted one not applied. */
  lemma NextApplied(p: CallId, calls: Calls, acs: map<AcId, CallState>, hist: History, c: Completion)
    requires HandlesOwned(calls, acs, hist.homes)
    requires AcceptedOnce(Some(p), acs, hist.homes, hist.acceptedBy, hist.accepted, hist.applied)
    requires p in hist.accepted && p in hist.applied && hist.applied[p] + [c] <= hist.accepted[p]
    ensures HandlesOwned(calls, acs[c.ac := Applied], hist.homes)
    ensures AcceptedOnce(Some(p), acs[c.ac := Applied], hist.homes, hist.acceptedBy, hist.accepted,
      hist.applied[p := hist.applied[p] + [c]])
    ensures Grown(calls, calls, hist, hist.(applied := hist.applied[p := hist.applied[p] + [c]]))
  {
    assert hist.accepted[p][|hist.applied[p]|] == c;
  }

  // ---- finishing ----

  /** Everything but the wake-ups, once the call is closed. */
  lemma Finished(pending: Option<CallId>, mailbox: seq<Completion>, lease: Holder, calls: Calls, threads: Pcs,
                 acs: map<AcId, CallState>, spent: map<AcId, CallState>, hist: History, t: Tid, over: Pending)
    requires t in threads && threads[t].Finishing? && threads[t].p in calls
    requires var c := calls[threads[t].p];
      over == c.(closed := true, outcome := Some(threads[t].outcome), doneCloses := c.doneCloses + 1)
    requires Spent(acs, spent, over.registered)
    requires Lifecycle(pending, lease, calls) && Drivers(calls, threads, hist.owner)
    requires Conserved(pending, mailbox, threads, hist.owner, hist.accepted, hist.applied)
    requires HandlesOwned(calls, acs, hist.homes)
    requires AcceptedOnce(pending, acs, hist.homes, hist.acceptedBy, hist.accepted, hist.applied)
    ensures var p := threads[t].p; var threads' := threads[t := Releasing(p)];
      && Lifecycle(None, lease, calls[p := over]) && Drivers(calls[p := over], threads', hist.owner)
      && Conserved(None, [], threads', hist.owner, hist.accepted, hist.applied)
      && HandlesOwned(calls[p := over], spent, hist.homes)
      && AcceptedOnce(None, spent, hist.homes, hist.acceptedBy, hist.accepted, hist.applied)
  {
    hide Conserved, HandlesOwned, AcceptedOnce;
    FinishedConserved(pending, mailbox, threads, hist, t, Releasing(threads[t].p));
    FinishedHandles(calls, acs, spent, hist, threads[t].p, over);
    FinishedAccepted(pending, acs, spent, hist, over.registered);
  }

  /** What closing the registered handles does to all handles. */
  ghost predicate Spent(acs: map<AcId, CallState>, spent: map<AcId, CallState>, registered: seq<AcId>) {
    && (forall ac :: ac in spent <==> ac in acs || ac in registered)
    && (forall ac :: ac in acs ==> spent[ac] == if ac in registered && acs[ac] != Applied then Closed else acs[ac])
    && (forall ac :: ac in registered ==> spent[ac] == Applied || spent[ac] == Closed)
  }

  lemma FinishedConserved(pending: Option<CallId>, mailbox: seq<Completion>, threads: Pcs, hist: History, t: Tid,
                          pc: Pc)
    requires Conserved(pending, mailbox, threads, hist.owner, hist.accepted, hist.applied)
    ensures Conserved(None, [], threads[t := pc], hist.owner, hist.accepted, hist.applied)
  {
  }

  lemma FinishedHandles(calls: Calls, acs: map<AcId, CallState>, spent: map<AcId, CallState>, hist: History,
                        p: CallId, over: Pending)
    requires p in calls && over.registered == calls[p].registered && over.closed
    requires HandlesOwned(calls, acs, hist.homes) && Spent(acs, spent, over.registered)
    ensures HandlesOwned(calls[p := over], spent, hist.homes)
  {
  }

  lemma FinishedAccepted(pending: Option<CallId>, acs: map<AcId, CallState>, spent: map<AcId, CallState>,
                         hist: History, registered: seq<AcId>)
    requires Spent(acs, spent, registered)
    requires AcceptedOnce(pending, acs, hist.homes, hist.acceptedBy, hist.accepted, hist.applied)
    ensures AcceptedOnce(None, spent, hist.homes, hist.acceptedBy, hist.accepted, hist.applied)
  {
  }

  lemma FinishedGrown(calls: Calls, hist: History, p: CallId, over: Pending)
    requires p in calls && !calls[p].closed
    ensures Grown(calls, calls[p := over], hist, hist)
  {
  }

  /** After a broadcast nobody sleeps unsignalled. */
  lemma FinishAwake(mailbox: seq<Completion>, calls: Calls, threads: Pcs, wake: Wakeups, t: Tid, pc: Pc)
    requires AllWoken(threads, wake.woken) && !pc.Sleeping?
    ensures NoLostWakeup(mailbox, calls, threads, wake)
    ensures NoLostWakeup(mailbox, calls, threads[t := pc], wake) && AllWoken(threads[t := pc], wake.woken)
  {
  }

  lemma Released(pending: Option<CallId>, mailbox: seq<Completion>, lease: Holder, calls: Calls, threads: Pcs,
                 acs: map<AcId, CallState>, hist: History, wake: Wakeups, t: Tid, c: Pending)
    requires t in threads && threads[t].Releasing? && threads[t].p in calls
    requires var was := calls[threads[t].p];
             c == was.(lease := false, leaseReleases := was.leaseReleases + 1)
    requires Lifecycle(pending, lease, calls) && Drivers(calls, threads, hist.owner)
    requires NoLostWakeup(mailbox, calls, threads, wake)
    requires Conserved(pending, mailbox, threads, hist.owner, hist.accepted, hist.applied)
      && HandlesOwned(calls, acs, hist.homes)
    ensures var p := threads[t].p; var threads' := threads[t := Leaving(p)];
      && Lifecycle(pending, Nobody, calls[p := c]) && Drivers(calls[p := c], threads', hist.owner)
      && NoLostWakeup(mailbox, calls[p := c], threads', wake)
      && Conserved(pending, mailbox, threads', hist.owner, hist.accepted, hist.applied)
      && HandlesOwned(calls[p := c], acs, hist.homes)
      && Grown(calls, calls[p := c], hist, hist)
  {
    hide Conserved, HandlesOwned, NoLostWakeup;
    var p := threads[t].p;
    MoveConserved(pending, mailbox, mailbox, threads, hist, hist.applied, t, Leaving(p));
    MoveAwake(mailbox, mailbox, calls, threads, wake, t, Leaving(p));
    SameAwake(mailbox, calls, threads[t := Leaving(p)], wake, p, c);
    SameHandles(calls, acs, hist, p, c);
  }

  lemma SameAwake(mailbox: seq<Completion>, calls: Calls, threads: Pcs, wake: Wakeups, p: CallId, c: Pending)
    requires p in calls && c.closed == calls[p].closed && c.cancelRequested == calls[p].cancelRequested
    requires NoLostWakeup(mailbox, calls, threads, wake)
    ensures NoLostWakeup(mailbox, calls[p := c], threads, wake)
  {
  }

  lemma SameHandles(calls: Calls, acs: map<AcId, CallState>, hist: History, p: CallId, c: Pending)
    requires p in calls && c.closed == calls[p].closed && c.registered == calls[p].registered
    requires HandlesOwned(calls, acs, hist.homes)
    ensures HandlesOwned(calls[p := c], acs, hist.homes)
  {
  }

  /** Everything but the wake-ups, when a goroutine stops driving, or had come
      too late to drive. */
  lemma Left(pending: Option<CallId>, mailbox: seq<Completion>, lease: Holder, calls: Calls, threads: Pcs,
             acs: map<AcId, CallState>, hist: History, t: Tid, c: Pending)
    requires t in threads && (threads[t].Leaving? || threads[t].Passing?) && threads[t].p in calls
    requires c == calls[threads[t].p].(driver := false)
    requires Lifecycle(pending, lease, calls) && Drivers(calls, threads, hist.owner)
    requires Conserved(pending, mailbox, threads, hist.owner, hist.accepted, hist.applied)
      && HandlesOwned(calls, acs, hist.homes)
    ensures var p := threads[t].p; var threads' := threads[t := Idle];
      && Lifecycle(pending, lease, calls[p := c]) && Drivers(calls[p := c], threads', hist.owner)
      && Conserved(pending, mailbox, threads', hist.owner, hist.accepted, hist.applied)
      && HandlesOwned(calls[p := c], acs, hist.homes)
      && Grown(calls, calls[p := c], hist, hist)
  {
    hide Conserved, HandlesOwned, Lifecycle, Drivers;
    LeftDrivers(calls, threads, hist, t, c);
    ClaimedLifecycle(pending, lease, calls, threads[t].p, c);
    SameHandles(calls, acs, hist, threads[t].p, c);
    LeftConserved(pending, mailbox, threads, hist, t);
  }

  lemma LeftDrivers(calls: Calls, threads: Pcs, hist: History, t: Tid, c: Pending)
    requires t in threads && (threads[t].Leaving? || threads[t].Passing?) && threads[t].p in calls
    requires c == calls[threads[t].p].(driver := false) && Drivers(calls, threads, hist.owner)
    ensures Drivers(calls[threads[t].p := c], threads[t := Idle], hist.owner)
  {
  }

  lemma LeftConserved(pending: Option<CallId>, mailbox: seq<Completion>, threads: Pcs, hist: History, t: Tid)
    requires t in threads && BatchOf(threads[t]) == []
    requires Conserved(pending, mailbox, threads, hist.owner, hist.accepted, hist.applied)
    ensures Conserved(pending, mailbox, threads[t := Idle], hist.owner, hist.accepted, hist.applied)
  {
  }

  lemma LatePass(mailbox: seq<Completion>, pending: Option<CallId>, calls: Calls, threads: Pcs, hist: History,
                 wake: Wakeups, t: Tid, p: CallId)
    requires p in calls && calls[p].closed && (t in threads ==> threads[t] == Idle)
    requires Drivers(calls, threads, hist.owner) && NoLostWakeup(mailbox, calls, threads, wake)
    requires Conserved(pending, mailbox, threads, hist.owner, hist.accepted, hist.applied)
    ensures Drivers(calls, threads[t := Passing(p)], hist.owner)
      && NoLostWakeup(mailbox, calls, threads[t := Passing(p)], wake)
    ensures Conserved(pending, mailbox, threads[t := Passing(p)], hist.owner, hist.accepted, hist.applied)
  {
  }

  /** A goroutine becomes the driver of an open call that nobody drives. */
  lemma Claimed(pending: Option<CallId>, mailbox: seq<Completion>, lease: Holder, calls: Calls, threads: Pcs,
                acs: map<AcId, CallState>, hist: History, wake: Wakeups, t: Tid, p: CallId, c: Pending, pc: Pc)
    requires p in calls && !calls[p].closed && !calls[p].driver && (t in threads ==> threads[t] == Idle)
    requires c == calls[p].(driver := true, cancelRequested := c.cancelRequested)
    requires DriverOf(pc) == Some(p) && BatchOf(pc) == [] && !pc.Releasing? && !pc.Sleeping?
    requires Lifecycle(pending, lease, calls) && Drivers(calls, threads, hist.owner)
    requires NoLostWakeup(mailbox, calls, threads, wake)
    requires Conserved(pending, mailbox, threads, hist.owner, hist.accepted, hist.applied)
      && HandlesOwned(calls, acs, hist.homes)
    ensures var threads', owner' := threads[t := pc], hist.owner[p := t];
      && Lifecycle(pending, lease, calls[p := c]) && Drivers(calls[p := c], threads', owner')
      && Conserved(pending, mailbox, threads', owner', hist.accepted, hist.applied)
      && HandlesOwned(calls[p := c], acs, hist.homes)
      && Grown(calls, calls[p := c], hist, hist.(owner := owner'))
    ensures c.cancelRequested == calls[p].cancelRequested ==>
      NoLostWakeup(mailbox, calls[p := c], threads[t := pc],
        wake.(ctxDone := wake.ctxDone - {t}, watchers := wake.watchers - {t}))
  {
    hide Conserved, HandlesOwned, NoLostWakeup, Lifecycle;
    NobodyDrives(calls, threads, hist, p);
    ClaimedLifecycle(pending, lease, calls, p, c);
    ClaimedConserved(pending, mailbox, calls, threads, hist, p, t, pc);
    SameHandles(calls, acs, hist, p, c);
    if c.cancelRequested == calls[p].cancelRequested {
      ClaimedAwake(mailbox, calls, threads, wake, t, p, c, pc);
    }
  }

  lemma NobodyDrives(calls: Calls, threads: Pcs, hist: History, p: CallId)
    requires Drivers(calls, threads, hist.owner) && p in calls && !calls[p].closed && !calls[p].driver
    ensures forall t :: t in threads ==> DriverOf(threads[t]) != Some(p)
  {
  }

  lemma ClaimedLifecycle(pending: Option<CallId>, lease: Holder, calls: Calls, p: CallId, c: Pending)
    requires Lifecycle(pending, lease, calls) && p in calls
    requires c == calls[p].(driver := c.driver, cancelRequested := c.cancelRequested)
    ensures Lifecycle(pending, lease, calls[p := c])
  {
  }

  lemma ClaimedConserved(pending: Option<CallId>, mailbox: seq<Completion>, calls: Calls, threads: Pcs,
                         hist: History, p: CallId, t: Tid, pc: Pc)
    requires Drivers(calls, threads, hist.owner) && p in calls && !calls[p].closed && !calls[p].driver
    requires (t in threads ==> threads[t] == Idle)
    requires DriverOf(pc) == Some(p) && BatchOf(pc) == []
    requires Conserved(pending, mailbox, threads, hist.owner, hist.accepted, hist.applied)
    ensures Conserved(pending, mailbox, threads[t := pc], hist.owner[p := t], hist.accepted, hist.applied)
  {
    NobodyDrives(calls, threads, hist, p);
  }

  lemma ClaimedAwake(mailbox: seq<Completion>, calls: Calls, threads: Pcs, wake: Wakeups, t: Tid, p: CallId,
                     c: Pending, pc: Pc)
    requires p in calls && c.closed == calls[p].closed && c.cancelRequested == calls[p].cancelRequested && !pc.Sleeping?
    requires NoLostWakeup(mailbox, calls, threads, wake)
    ensures NoLostWakeup(mailbox, calls[p := c], threads[t := pc],
      wake.(ctxDone := wake.ctxDone - {t}, watchers := wake.watchers - {t}))
  {
  }

  lemma SleepKeeps(pending: Option<CallId>, mailbox: seq<Completion>, calls: Calls, threads: Pcs, hist: History,
                   wake: Wakeups, t: Tid)
    requires t in threads && threads[t].Checking? && threads[t].p in calls && threads[t].p in hist.owner
    requires hist.owner[threads[t].p] == t
    requires mailbox == [] && !calls[threads[t].p].closed && !calls[threads[t].p].cancelRequested && t !in wake.ctxDone
    requires Drivers(calls, threads, hist.owner) && NoLostWakeup(mailbox, calls, threads, wake)
    requires Conserved(pending, mailbox, threads, hist.owner, hist.accepted, hist.applied)
    ensures var threads' := threads[t := Sleeping(threads[t].p)];
      && Drivers(calls, threads', hist.owner) && NoLostWakeup(mailbox, calls, threads',
        wake.(woken := wake.woken - {t}))
      && Conserved(pending, mailbox, threads', hist.owner, hist.accepted, hist.applied)
  {
    hide Drivers;
    MoveDrivers(calls, threads, hist, t, Sleeping(threads[t].p));
    MoveConserved(pending, mailbox, mailbox, threads, hist, hist.applied, t, Sleeping(threads[t].p));
  }

  lemma Requested(pending: Option<CallId>, mailbox: seq<Completion>, lease: Holder, calls: Calls, threads: Pcs,
                  acs: map<AcId, CallState>, hist: History, wake: Wakeups, p: CallId, c: Pending)
    requires p in calls && !calls[p].closed && c == calls[p].(cancelRequested := true) && AllWoken(threads, wake.woken)
    requires Lifecycle(pending, lease, calls) && Drivers(calls, threads, hist.owner)
      && HandlesOwned(calls, acs, hist.homes)
    ensures Lifecycle(pending, lease, calls[p := c]) && Drivers(calls[p := c], threads, hist.owner)
    ensures NoLostWakeup(mailbox, calls[p := c], threads, wake) && HandlesOwned(calls[p := c], acs, hist.homes)
    ensures Grown(calls, calls[p := c], hist, hist)
  {
    hide HandlesOwned, Drivers, Lifecycle;
    SameHandles(calls, acs, hist, p, c);
    SameDrivers(calls, threads, hist, p, c);
    ClaimedLifecycle(pending, lease, calls, p, c);
  }

  // ---- every interleaving ----

  /** One step of some goroutine. */
  datatype Event =
    | DoStart(t: Tid, p: CallId)
    | DoHandle(t: Tid, ac: AcId)
    | DoResolve(c: Completion)
    | DoDrain(t: Tid, nested: bool)
    | DoApply(t: Tid, ok: bool)
    | DoDrainEnd(t: Tid)
    | DoDriveEnd(t: Tid, outcome: Outcome)
    | DoFinish(t: Tid)
    | DoRelease(t: Tid)
    | DoLeave(t: Tid)
    | DoAwait(t: Tid, p: CallId)
    | DoCheck(t: Tid)
    | DoWake(t: Tid)
    | DoCancel(t: Tid, p: CallId)
    | DoCtxDone(t: Tid)
    | DoWatch(t: Tid)
    | DoSyncAcquire
    | DoSyncRelease

  /** The event can happen: its goroutine is where it starts, and identities
      that it brings are new. */
  predicate Enabled(i: Instance, e: Event)
    reads i
  {
    match e
    case DoStart(t, p) => i.At(t) == Idle && p !in i.calls
    case DoHandle(t, ac) =>
      && ac !in i.acs
      && (i.pending.Some? ==> i.At(t).Driving? && i.pending == Some(i.At(t).p))
    case DoResolve(c) => c.ac in i.acs
    case DoDrain(t, _) => i.At(t).Driving?
    case DoApply(t, _) => i.At(t).Applying? && i.At(t).batch != []
    case DoDrainEnd(t) => i.At(t).Applying? && i.At(t).batch == []
    case DoDriveEnd(t, _) => i.At(t).Driving?
    case DoFinish(t) => i.At(t).Finishing?
    case DoRelease(t) => i.At(t).Releasing?
    case DoLeave(t) => i.At(t).Leaving? || i.At(t).Passing?
    case DoAwait(t, p) => i.At(t) == Idle && p in i.calls
    case DoCheck(t) => i.At(t).Checking?
    case DoWake(t) => i.At(t).Sleeping? && t in i.wake.woken
    case DoCancel(t, p) => i.At(t) == Idle && p in i.calls
    case DoCtxDone(_) => true
    case DoWatch(t) => t in i.wake.watchers
    case DoSyncAcquire => true
    case DoSyncRelease => true
  }

  /** The goroutine that takes the step, if it is one of those that drive. */
  function Actor(e: Event): Option<Tid> {
    match e
    case DoStart(t, _) => Some(t)
    case DoHandle(t, _) => Some(t)
    case DoDrain(t, _) => Some(t)
    case DoApply(t, _) => Some(t)
    case DoDrainEnd(t) => Some(t)
    case DoDriveEnd(t, _) => Some(t)
    case DoFinish(t) => Some(t)
    case DoRelease(t) => Some(t)
    case DoLeave(t) => Some(t)
    case DoAwait(t, _) => Some(t)
    case DoCheck(t) => Some(t)
    case DoWake(t) => Some(t)
    case DoCancel(t, _) => Some(t)
    case DoResolve(_) | DoCtxDone(_) | DoWatch(_) | DoSyncAcquire | DoSyncRelease => None
  }

  method Step(i: Instance, e: Event)
    requires i.Inv() && Enabled(i, e)
    modifies i
    ensures i.Inv() && Grown(old(i.calls), i.calls, old(i.hist), i.hist)
    ensures HomesKept(old(i.acs), i.acs, old(i.hist.homes), i.hist.homes)
    ensures e.DoHandle? && old(i.pending).Some? ==>
      i.hist.homes == old(i.hist.homes)[e.ac := old(i.pending).value]
    ensures !(e.DoHandle? && old(i.pending).Some?) ==> i.hist.homes == old(i.hist.homes)
    ensures forall u: Tid :: Some(u) != Actor(e) ==> i.At(u) == old(i.At(u))
  {
    hide Instance.Inv, Grown;
    Unchanged(i.calls, i.hist);
    match e {
      case DoStart(t, p) => var _ := i.Start(t, p);
      case DoHandle(t, ac) => i.NewHandle(t, ac);
      case DoResolve(c) => var _ := i.QueueExternal(c);
      case DoDrain(t, nested) => i.DrainTake(t, nested);
      case DoApply(t, ok) => i.ApplyNext(t, ok);
      case DoDrainEnd(t) => i.DrainEnd(t);
      case DoDriveEnd(t, outcome) => i.DriveEnd(t, outcome);
      case DoFinish(t) => i.Finish(t);
      case DoRelease(t) => i.ReleaseLease(t);
      case DoLeave(t) => i.ReleaseDriver(t);
      case DoAwait(t, p) => var _ := i.AwaitClaim(t, p);
      case DoCheck(t) => i.Check(t);
      case DoWake(t) => i.Wake(t);
      case DoCancel(t, p) => i.Cancel(t, p);
      case DoCtxDone(t) => i.CtxDone(t);
      case DoWatch(t) => i.WatcherFires(t);
      case DoSyncAcquire => var _ := i.SyncAcquire();
      case DoSyncRelease => i.SyncRelease();
    }
  }

  /** THE PROTOCOL OVER ALL RUNS. Whatever goroutines do, in whatever order, the
      invariant holds, results stay as they were fixed, histories only grow, and
      a handle stays registered as it was. Events that cannot happen where they
      come are skipped. */
  method Run(i: Instance, events: seq<Event>)
    requires i.Inv()
    modifies i
    ensures i.Inv() && Grown(old(i.calls), i.calls, old(i.hist), i.hist)
    ensures HomesKept(old(i.acs), i.acs, old(i.hist.homes), i.hist.homes)
    ensures forall u: Tid :: (forall k :: 0 <= k < |events| ==> Actor(events[k]) != Some(u)) ==> i.At(u) == old(i.At(u))
  {
    hide Instance.Inv, Grown, Enabled;
    Unchanged(i.calls, i.hist);
    for k := 0 to |events|
      invariant i.Inv() && Grown(old(i.calls), i.calls, old(i.hist), i.hist)
      invariant HomesKept(old(i.acs), i.acs, old(i.hist.homes), i.hist.homes)
      invariant forall u: Tid :: (forall j :: 0 <= j < k ==> Actor(events[j]) != Some(u)) ==> i.At(u) == old(i.At(u))
    {
      ghost var calls, hist := i.calls, i.hist;
      if Enabled(i, events[k]) {
        Step(i, events[k]);
        GrownTwice(old(i.calls), calls, i.calls, old(i.hist), hist, i.hist);
      }
    }
  }

  lemma GrownTwice(a: Calls, b: Calls, c: Calls, x: History, y: History, z: History)
    requires Grown(a, b, x, y) && Grown(b, c, y, z)
    ensures Grown(a, c, x, z)
  {
  }

  // ---- what the invariant means ----

  /** In every reachable state: one driver at most, each terminal event once,
      and after the end nothing in the mailbox and no open handle. */
  lemma Safety(i: Instance, p: CallId)
    requires i.Inv() && p in i.calls
    ensures forall t, u :: t in i.threads && u in i.threads ==>
      DriverOf(i.threads[t]) == Some(p) == DriverOf(i.threads[u]) ==> t == u
    ensures i.calls[p].doneCloses <= 1 && i.calls[p].leaseReleases <= 1
    ensures i.pending == None ==> i.mailbox == []
    ensures i.pending == Some(p) ==>
      && p in i.hist.accepted && p in i.hist.applied
      && i.hist.accepted[p] == i.hist.applied[p] + InFlight(p, i.threads, i.hist.owner) + i.mailbox
    ensures i.calls[p].closed ==> forall k :: 0 <= k < |i.calls[p].registered| ==>
      var ac := i.calls[p].registered[k];
      ac in i.acs && (i.acs[ac] == Applied || i.acs[ac] == Closed)
    ensures i.lease == Nobody ==> i.pending == None && !i.calls[p].lease
  {
  }

  /** A completion is applied at most once in all calls together, and one whose
      handle is registered is applied by the call it is registered with. */
  lemma AppliedAtMostOnce(i: Instance, p: CallId, k: nat, q: CallId, l: nat)
    requires i.Inv() && p in i.hist.applied && q in i.hist.applied && k < |i.hist.applied[p]| && l < |i.hist.applied[q]|
    requires i.hist.applied[p][k].ac == i.hist.applied[q][l].ac
    ensures p == q && k == l
    ensures i.hist.applied[p][k].ac in i.hist.homes ==> i.hist.homes[i.hist.applied[p][k].ac] == p
  {
    assert i.hist.applied[p][k] == i.hist.accepted[p][k];
    assert i.hist.applied[q][l] == i.hist.accepted[q][l];
  }

  /** The driver never sleeps on a non-empty mailbox with no wake-up coming. */
  lemma SleeperWakes(i: Instance, t: Tid)
    requires i.Inv() && i.At(t).Sleeping? && i.mailbox != []
    ensures t in i.wake.woken
  {
  }

  /** A completion that is accepted stays with the call its handle was made for
      if and only if the handle was made while a call was pending: whatever
      happens after the handle is made, a call that accepts its completion is the
      one that was pending then. */
  method HandleStays(i: Instance, t: Tid, ac: AcId, events: seq<Event>)
    requires i.Inv() && Enabled(i, DoHandle(t, ac))
    modifies i
    ensures i.Inv()
    ensures forall p: CallId :: Accepts(i.hist.accepted, p, ac) ==>
      (old(i.pending) == Some(p) <==> old(i.pending).Some?)
    ensures ac in i.hist.homes <==> old(i.pending).Some?
  {
    hide Instance.Inv, Grown, Enabled;
    ghost var made := i.pending;
    EnabledHandle(i, t, ac);
    i.NewHandle(t, ac);
    Run(i, events);
    forall p: CallId | Accepts(i.hist.accepted, p, ac) ensures made.Some? ==> p == made.value {
      if made.Some? {
        AcceptedAtHome(i, p, ac);
      }
    }
  }

  lemma EnabledHandle(i: Instance, t: Tid, ac: AcId)
    requires Enabled(i, DoHandle(t, ac))
    ensures ac !in i.acs && (i.pending.Some? ==> i.At(t).Driving? && i.pending == Some(i.At(t).p))
  {
  }

  lemma AcceptedAtHome(i: Instance, p: CallId, ac: AcId)
    requires i.Inv() && Accepts(i.hist.accepted, p, ac)
    ensures ac in i.hist.homes ==> i.hist.homes[ac] == p
  {
  }

  /** The other half: a handle made for no call, and not resolved yet, is taken
      by whatever call starts next. */
  method StrayHandleTaken(i: Instance, t: Tid, p: CallId, c: Completion)
    requires i.Inv() && i.lease == Nobody && p !in i.calls && i.At(t) == Idle
    requires c.ac in i.acs && i.acs[c.ac] == Open && c.ac !in i.hist.homes
    modifies i
    ensures i.Inv() && i.pending == Some(p) && i.mailbox == [c]
    ensures Accepts(i.hist.accepted, p, c.ac) && c.ac !in i.hist.homes
  {
    hide Instance.Inv, Grown;
    var started := i.Start(t, p);
    var accepted := i.QueueExternal(c);
    var all := i.hist.accepted[p];
    assert all[|all| - 1] == c;
  }

  /** A handle made by a synchronous call and never resolved is registered with
      no call; a late completion of it does enter the next asynchronous call. */
  method StaleHandleEnters() returns (i: Instance)
    ensures i.Inv() && i.pending == Some(0) && i.mailbox == [Completion(7, false, 0)]
    ensures Accepts(i.hist.accepted, 0, 7) && 7 !in i.hist.homes
  {
    hide Instance.Inv, Grown;
    i := new Instance();
    var entered := i.SyncAcquire();
    assert entered && i.lease == SyncCall;
    i.NewHandle(1, 7);
    i.SyncRelease();
    StrayHandleTaken(i, 1, 0, Completion(7, false, 0));
  }
}
