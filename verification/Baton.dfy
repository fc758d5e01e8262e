/** stackful_task.go and the segments of guest_task.go: goroutines that pass one
    baton over unbuffered channels, so that only its holder runs. A method is
    what the holder does between two channel operations, or one rendezvous;
    `Run` takes them in any order that the channels allow. */
module Baton {
  import opened Base

  type Id = nat

  /** A task with a goroutine of its own, one with a goroutine for each segment,
      or one that always runs on its caller's goroutine. */
  datatype Kind = Stackful | Promoted | Inline

  /** How a parked task waits: to enter, with its frames live on a goroutine, or
      between two invocations without any. */
  datatype Park = Entry | Blocked | Free

  datatype Mode = Normal | CancelWake | Abort

  datatype Gid = Root | Of(t: Id)

  /** Where a goroutine is: `Sending` and `Yielding` are sends on a resume and on
      a yield channel, `AwaitYield` and `AwaitResume` the receives they meet. */
  datatype Loc =
    | Running
    | Sending(to: Id, mode: Mode)
    | AwaitYield(from: Id)
    | AwaitResume
    | Yielding(final: bool)

  type Locs = map<Gid, Loc>

  // ---- the parts of the invariant ----

  /** One goroutine holds the baton; every other one is in a receive, and the
      driver, unless it holds the baton, waits in a handoff. */
  ghost predicate OneHolder(at: Locs, holder: Gid) {
    && Root in at && holder in at
    && (at[holder] == Running || at[holder].Sending? || (at[holder].Yielding? && holder != Root))
    && (forall g :: g in at && g != holder ==> at[g].AwaitYield? || (at[g] == AwaitResume && g != Root))
  }

  /** Handoffs and the goroutines they wait for are paired. */
  ghost predicate Paired(at: Locs, waiter: map<Id, Gid>) {
    && (forall t :: Of(t) in at && at[Of(t)] != AwaitResume ==>
      t in waiter && waiter[t] in at && at[waiter[t]] == AwaitYield(t))
    && (forall g :: g in at && at[g].AwaitYield? ==>
          Of(at[g].from) in at && at[Of(at[g].from)] != AwaitResume && at[g].from in waiter && waiter[at[g].from] == g)
  }

  /** Handoffs nest: each waits for a goroutine one level deeper, and the holder
      is the deepest of those that are not waiting to be resumed. */
  ghost predicate Deepest(at: Locs, holder: Gid, depth: map<Gid, nat>) {
    && holder in at && depth.Keys == at.Keys && (Root in depth ==> depth[Root] == 0)
    && (forall g :: g in at && at[g].AwaitYield? && Of(at[g].from) in at ==> depth[Of(at[g].from)] == depth[g] + 1)
    && (forall g :: g in at && at[g] != AwaitResume && g != holder ==> depth[g] < depth[holder])
  }

  ghost predicate Nested(at: Locs, holder: Gid, waiter: map<Id, Gid>, depth: map<Gid, nat>) {
    Paired(at, waiter) && Deepest(at, holder, depth)
  }

  /** A goroutine that waits to be resumed belongs to a task parked with its
      frames, or the baton is on its way to it. */
  ghost predicate ResumesPaired(parked: seq<Id>, park: map<Id, Park>, at: Locs, holder: Gid) {
    && holder in at
    && (forall t :: Of(t) in at && at[Of(t)] == AwaitResume ==>
          (at[holder].Sending? && at[holder].to == t) || (t in parked && t in park && park[t] == Blocked))
    && (at[holder].Sending? ==>
          Of(at[holder].to) in at && at[Of(at[holder].to)] == AwaitResume && at[holder].to !in parked)
    && (at[holder] == Yielding(false) ==>
        holder.Of? && holder.t in parked && holder.t in park && park[holder.t] == Blocked)
  }

  /** Parked tasks are parked once and wait in no handoff. Those that are blocked
      have a goroutine, the others have none; the only exception is the one that
      has just parked and is giving the baton back. */
  ghost predicate ParkedRight(parked: seq<Id>, park: map<Id, Park>, kind: map<Id, Kind>, at: Locs, holder: Gid) {
    && holder in at
    && (forall i, j :: 0 <= i < j < |parked| ==> parked[i] != parked[j])
    && (forall t :: t in parked ==>
          && t in park && t in kind && (park[t] == Blocked ==> !kind[t].Inline?)
            && (park[t] == Free ==> !kind[t].Stackful?)
          && if park[t] == Blocked
             then Of(t) in at && (at[Of(t)] == AwaitResume || (holder == Of(t) && at[holder] == Yielding(false)))
             else Of(t) in at ==> holder == Of(t) && at[holder] == Yielding(true))
    && (forall t :: Of(t) in at ==> t in kind && !kind[t].Inline?)
  }

  /** Who holds the baton, which goroutine waits for each task in a handoff, and
      how deep the handoffs nest. */
  datatype Shape = Shape(holder: Gid, waiter: map<Id, Gid>, depth: map<Gid, nat>)

  class Runtime {
    var parked: seq<Id>
    var park: map<Id, Park>
    var kind: map<Id, Kind>
    var at: Locs
    ghost var s: Shape

    constructor ()
      ensures Inv() && at == map[Root := Running] && parked == [] && kind == map[] && park == map[]
    {
      parked, park, kind := [], map[], map[];
      at := map[Root := Running];
      s := Shape(Root, map[], map[Root := 0]);
    }

    ghost predicate Inv()
      reads this
    {
      && OneHolder(at, s.holder)
      && Nested(at, s.holder, s.waiter, s.depth)
      && ResumesPaired(parked, park, at, s.holder)
      && ParkedRight(parked, park, kind, at, s.holder)
    }

    // ---- the holder of the baton ----

    /** startTask or start, when the instance cannot be entered now. */
    method ParkAtEntry(g: Gid, t: Id, k: Kind)
      requires Inv() && g in at && at[g] == Running && t !in kind
      modifies this`parked, this`park, this`kind
      ensures Inv() && parked == old(parked) + [t] && park == old(park)[t := Entry]
    {
      hide OneHolder, Nested, ResumesPaired, ParkedRight;
      RunnerHolds(at, s.holder, g);
      EntryParked(parked, park, kind, at, s.holder, t, k);
      parked := parked + [t];
      park := park[t := Entry];
      kind := kind[t := k];
    }

    /** startTask or start, when the instance can be entered: an unpromoted task
        runs here, any other on a goroutine of its own. */
    method Start(g: Gid, t: Id, k: Kind)
      requires Inv() && g in at && at[g] == Running && t !in kind
      modifies this`kind, this`at, this`s
      ensures Inv() && kind == old(kind)[t := k] && Of(t) !in old(at)
      ensures at == if k.Inline? then old(at) else old(at)[Of(t) := AwaitResume][g := Sending(t, Normal)]
    {
      hide OneHolder, Nested, ResumesPaired, ParkedRight;
      Registered(parked, park, kind, at, s.holder, t, k);
      kind := kind[t := k];
      if !k.Inline? {
        Spawn(g, t);
      }
    }

    /** firstRun or runSegment up to the send: a new goroutine waits for its
        first baton. */
    method Spawn(g: Gid, t: Id)
      requires Inv() && g in at && at[g] == Running
      requires t in kind && !kind[t].Inline? && t !in parked && Of(t) !in at
      modifies this`at, this`s
      ensures Inv() && at == old(at)[Of(t) := AwaitResume][g := Sending(t, Normal)]
    {
      hide OneHolder, Nested, ResumesPaired, ParkedRight;
      RunnerHolds(at, s.holder, g);
      Spawned(parked, park, kind, at, s, t);
      at := at[Of(t) := AwaitResume][g := Sending(t, Normal)];
      s := s.(depth := s.depth[Of(t) := 0]);
    }

    /** The rendezvous on a resume channel. A goroutine resumed to abort unwinds
        its frames and goes straight to its final yield. */
    method DeliverResume(g: Gid)
      requires Inv() && g in at && at[g].Sending?
      modifies this`at, this`s
      ensures Inv() && s.holder == Of(old(at)[g].to)
      ensures var t := old(at)[g].to;
        && Of(t) in old(at) && old(at)[Of(t)] == AwaitResume
        && at == old(at)[g := AwaitYield(t)][Of(t) := if old(at)[g].mode == Abort then Yielding(true) else Running]
    {
      hide OneHolder, Nested, ResumesPaired, ParkedRight;
      var t := at[g].to;
      var loc := if at[g].mode == Abort then Yielding(true) else Running;
      Resumed(parked, park, kind, at, s, g, loc);
      at := at[g := AwaitYield(t)][Of(t) := loc];
      s := Shape(Of(t), s.waiter[t := g], s.depth[Of(t) := s.depth[g] + 1]);
    }

    /** block: park with the frames live, then give the baton back. */
    method Block(t: Id)
      requires Inv() && Of(t) in at && at[Of(t)] == Running
      modifies this`parked, this`park, this`at
      ensures Inv() && parked == old(parked) + [t] && park == old(park)[t := Blocked]
        && at == old(at)[Of(t) := Yielding(false)]
    {
      hide OneHolder, Nested, ResumesPaired, ParkedRight;
      RunnerHolds(at, s.holder, Of(t));
      Yields(parked, park, kind, at, s, t, Blocked);
      parked := parked + [t];
      park := park[t := Blocked];
      at := at[Of(t) := Yielding(false)];
    }

    /** A segment ends with the task parked between two invocations. */
    method ParkFree(t: Id)
      requires Inv() && Of(t) in at && at[Of(t)] == Running && t in kind && kind[t].Promoted?
      modifies this`parked, this`park, this`at
      ensures Inv() && parked == old(parked) + [t] && park == old(park)[t := Free]
        && at == old(at)[Of(t) := Yielding(true)]
    {
      hide OneHolder, Nested, ResumesPaired, ParkedRight;
      RunnerHolds(at, s.holder, Of(t));
      Yields(parked, park, kind, at, s, t, Free);
      parked := parked + [t];
      park := park[t := Free];
      at := at[Of(t) := Yielding(true)];
    }

    /** main ends: the task is done, or its segment is over. */
    method Exit(t: Id)
      requires Inv() && Of(t) in at && at[Of(t)] == Running
      modifies this`at
      ensures Inv() && at == old(at)[Of(t) := Yielding(true)]
    {
      hide OneHolder, Nested, ResumesPaired, ParkedRight;
      RunnerHolds(at, s.holder, Of(t));
      Exits(parked, park, kind, at, s, t);
      at := at[Of(t) := Yielding(true)];
    }

    /** The rendezvous on a yield channel: handoff returns exactly when its
        goroutine is over or has parked again. */
    method DeliverYield(t: Id)
      requires Inv() && Of(t) in at && at[Of(t)].Yielding?
      modifies this`at, this`s
      ensures Inv() && s.holder in at && at[s.holder] == Running && s.holder in old(at)
        && old(at)[s.holder] == AwaitYield(t)
      ensures at == After(old(at), s.holder, t)
      ensures at == if old(at)[Of(t)].final then old(at)[s.holder := Running] - {Of(t)}
                    else old(at)[s.holder := Running][Of(t) := AwaitResume]
      ensures forall g :: g in old(at) && old(at)[g] == AwaitYield(t) ==> g == s.holder
      ensures !old(at)[Of(t)].final ==> t in parked && t in park && park[t] == Blocked
    {
      hide OneHolder, Nested, ResumesPaired, ParkedRight;
      var final := at[Of(t)].final;
      Yielded(parked, park, kind, at, s, t);
      var g := WaiterOf(t);
      at := at[g := Running];
      if final {
        at := at - {Of(t)};
        s := Shape(g, s.waiter - {t}, s.depth - {Of(t)});
      } else {
        at := at[Of(t) := AwaitResume];
        s := Shape(g, s.waiter - {t}, s.depth);
      }
    }

    /** An unpromoted task parks between two invocations, on its caller's goroutine. */
    method ParkInline(g: Gid, t: Id)
      requires Inv() && g in at && at[g] == Running && t in kind && kind[t].Inline? && t !in parked
      modifies this`parked, this`park
      ensures Inv() && parked == old(parked) + [t] && park == old(park)[t := Free]
    {
      hide OneHolder, Nested, ResumesPaired, ParkedRight;
      RunnerHolds(at, s.holder, g);
      InlineParked(parked, park, kind, at, s.holder, t);
      parked := parked + [t];
      park := park[t := Free];
    }

    // ---- out of the parked list ----

    /** unpark: take t out and keep the order. */
    method Unpark(t: Id)
      modifies this`parked
      ensures parked == Without(old(parked), t)
      ensures t !in old(parked) ==> parked == old(parked)
      ensures t in old(parked) ==> exists i ::
        && 0 <= i < |old(parked)| && old(parked)[i] == t && t !in old(parked)[..i]
        && parked == old(parked)[..i] + old(parked)[i + 1..]
    {
      for i := 0 to |parked|
        invariant parked == old(parked) && t !in parked[..i]
      {
        if parked[i] == t {
          Spliced(parked, i);
          parked := parked[..i] + parked[i + 1..];
          return;
        }
        assert parked[..i + 1] == parked[..i] + [parked[i]];
      }
      assert parked[..|parked|] == parked;
      Absent(parked, t);
    }

    /** resumeReady: a blocked task gets the baton back on its own goroutine; one
        without frames runs on a new goroutine, or right here when it is not
        promoted; one that is cancelled before it entered is over. */
    method Resume(g: Gid, t: Id, cancelled: bool)
      requires Inv() && g in at && at[g] == Running && t in parked
      modifies this`parked, this`at, this`s
      ensures Inv() && parked == Without(old(parked), t) && t in park && t in kind
      ensures Of(t) in old(at) <==> park[t] == Blocked
      ensures at == match park[t]
                    case Blocked => old(at)[g := Sending(t, if cancelled then CancelWake else Normal)]
                    case Entry => if cancelled || kind[t].Inline? then old(at)
                      else old(at)[Of(t) := AwaitResume][g := Sending(t, Normal)]
                    case Free => if kind[t].Inline? then old(at)
                      else old(at)[Of(t) := AwaitResume][g := Sending(t, Normal)]
    {
      hide OneHolder, Nested, ResumesPaired, ParkedRight;
      RunnerHolds(at, s.holder, g);
      UnparkedBlocked(parked, park, kind, at, s, t, if cancelled then CancelWake else Normal);
      UnparkedIdle(parked, park, kind, at, s.holder, t);
      Unpark(t);
      if park[t] == Blocked {
        at := at[g := Sending(t, if cancelled then CancelWake else Normal)];
      } else if !kind[t].Inline? && !(park[t] == Entry && cancelled) {
        Spawn(g, t);
      }
    }

    /** One goroutine is made to unwind, and g has the baton again. */
    method AbortBlocked(g: Gid, t: Id)
      requires Inv() && g in at && at[g] == Running && t in parked && t in park && park[t] == Blocked
      modifies this`parked, this`at, this`s
      ensures Inv() && parked == Without(old(parked), t) && |parked| < |old(parked)|
      ensures Of(t) in old(at) && old(at)[Of(t)] == AwaitResume && at == old(at) - {Of(t)}
      ensures g in at && at[g] == Running
    {
      hide OneHolder, Nested, ResumesPaired, ParkedRight;
      RunnerHolds(at, s.holder, g);
      UnparkedBlocked(parked, park, kind, at, s, t, Abort);
      Unpark(t);
      at := at[g := Sending(t, Abort)];
      DeliverResume(g);
      assert g in at && at[g] == AwaitYield(t) && at[Of(t)] == Yielding(true);
      DeliverYield(t);
      assert s.holder == g;
    }

    /** THE REAPER, run by whoever has the baton: the driver, or a goroutine that
        the driver waits for in a handoff. It ends. What is left of the goroutines
        are the one that runs and those that wait in a handoff, where they were;
        what stays parked is exactly what held no goroutine and is not stackful,
        in its order. On the driver no other goroutine is left. */
    method Reap(g: Gid)
      requires Inv() && g in at && at[g] == Running
      modifies this`parked, this`at, this`s
      ensures Inv() && at == Awake(old(at)) && parked == Spared(old(parked), park, kind)
      ensures forall h :: h in at <==> h in old(at) && old(at)[h] != AwaitResume
      ensures forall t :: t in parked <==>
        t in old(parked) && t in park && t in kind && !kind[t].Stackful? && !(kind[t].Promoted? && park[t] == Blocked)
      ensures g == Root ==> at == map[Root := Running]
    {
      hide OneHolder, Nested, ResumesPaired, ParkedRight, Awake, Spared;
      AwakeAre(at);
      RunnerHolds(at, s.holder, g);
      DriverAlone(at, s);
      SparedAre(parked, park, kind);
      while true
        invariant Inv() && g in at && at[g] == Running
        invariant Awake(at) == Awake(old(at)) && Spared(parked, park, kind) == Spared(old(parked), park, kind)
        decreases |parked|
      {
        RunnerHolds(at, s.holder, g);
        WithoutFrames(parked, park, kind, at, s.holder);
        var i := 0;
        while i < |parked| && !(kind[parked[i]].Stackful? || (kind[parked[i]].Promoted? && Of(parked[i]) in at))
          invariant 0 <= i <= |parked|
          invariant forall j :: 0 <= j < i ==> Spares(parked[j], park, kind)
        {
          i := i + 1;
        }
        if i == |parked| {
          AllSpared(parked, park, kind);
          AllUnwound(parked, park, kind, at, s);
          return;
        }
        var t := parked[i];
        SparedWithout(parked, park, kind, t);
        if kind[t].Stackful? && park[t] == Entry {
          UnparkedIdle(parked, park, kind, at, s.holder, t);
          Unpark(t);
        } else {
          AwakeWithout(at, Of(t));
          AbortBlocked(g, t);
        }
      }
    }

    /** The goroutine that is in the handoff of t. */
    method WaiterOf(t: Id) returns (g: Gid)
      requires exists g :: g in at && at[g] == AwaitYield(t)
      ensures g in at && at[g] == AwaitYield(t)
    {
      g :| g in at && at[g] == AwaitYield(t);
    }
  }

  // ---- one step of each part ----

  /** What runs holds the baton. */
  lemma RunnerHolds(at: Locs, holder: Gid, g: Gid)
    requires OneHolder(at, holder) && g in at && (at[g] == Running || at[g].Sending? || at[g].Yielding?)
    ensures g == holder
  {
  }

  lemma Registered(parked: seq<Id>, park: map<Id, Park>, kind: map<Id, Kind>, at: Locs, holder: Gid, t: Id, k: Kind)
    requires ParkedRight(parked, park, kind, at, holder) && t !in kind
    ensures ParkedRight(parked, park, kind[t := k], at, holder) && t !in parked && Of(t) !in at
  {
  }

  lemma EntryParked(parked: seq<Id>, park: map<Id, Park>, kind: map<Id, Kind>, at: Locs, holder: Gid, t: Id, k: Kind)
    requires ResumesPaired(parked, park, at, holder) && ParkedRight(parked, park, kind, at, holder)
    requires holder in at && at[holder] == Running && t !in kind
    ensures ResumesPaired(parked + [t], park[t := Entry], at, holder)
    ensures ParkedRight(parked + [t], park[t := Entry], kind[t := k], at, holder)
  {
    ParkedNew(parked, t);
    assert t !in parked;
  }

  lemma ParkedNew(parked: seq<Id>, t: Id)
    requires forall i, j :: 0 <= i < j < |parked| ==> parked[i] != parked[j]
    ensures t !in parked ==> forall i, j :: 0 <= i < j < |parked + [t]| ==> (parked + [t])[i] != (parked + [t])[j]
    ensures forall u :: u in parked + [t] <==> u in parked || u == t
  {
  }

  lemma Spawned(parked: seq<Id>, park: map<Id, Park>, kind: map<Id, Kind>, at: Locs, s: Shape, t: Id)
    requires OneHolder(at, s.holder) && Nested(at, s.holder, s.waiter, s.depth)
    requires ResumesPaired(parked, park, at, s.holder) && ParkedRight(parked, park, kind, at, s.holder)
    requires at[s.holder] == Running && t in kind && !kind[t].Inline? && t !in parked && Of(t) !in at
    ensures var at' := at[Of(t) := AwaitResume][s.holder := Sending(t, Normal)];
      && OneHolder(at', s.holder) && Nested(at', s.holder, s.waiter, s.depth[Of(t) := 0])
      && ResumesPaired(parked, park, at', s.holder) && ParkedRight(parked, park, kind, at', s.holder)
  {
    hide Nested, Paired, Deepest, ResumesPaired, ParkedRight;
    SpawnedNested(at, s, t);
    SpawnedParked(parked, park, kind, at, s.holder, t);
  }

  lemma SpawnedNested(at: Locs, s: Shape, t: Id)
    requires OneHolder(at, s.holder) && Nested(at, s.holder, s.waiter, s.depth)
    requires at[s.holder] == Running && Of(t) !in at
    ensures Nested(at[Of(t) := AwaitResume][s.holder := Sending(t, Normal)], s.holder, s.waiter, s.depth[Of(t) := 0])
  {
    hide Deepest;
    SpawnedDeepest(at, s, t);
  }

  lemma SpawnedDeepest(at: Locs, s: Shape, t: Id)
    requires Nested(at, s.holder, s.waiter, s.depth) && at[s.holder] == Running && Of(t) !in at
    ensures Deepest(at[Of(t) := AwaitResume][s.holder := Sending(t, Normal)], s.holder, s.depth[Of(t) := 0])
  {
    hide OneHolder;
  }

  lemma SpawnedParked(parked: seq<Id>, park: map<Id, Park>, kind: map<Id, Kind>, at: Locs, holder: Gid, t: Id)
    requires ResumesPaired(parked, park, at, holder) && ParkedRight(parked, park, kind, at, holder)
    requires at[holder] == Running && t in kind && !kind[t].Inline? && t !in parked && Of(t) !in at
    ensures var at' := at[Of(t) := AwaitResume][holder := Sending(t, Normal)];
      ResumesPaired(parked, park, at', holder) && ParkedRight(parked, park, kind, at', holder)
  {
  }

  lemma Resumed(parked: seq<Id>, park: map<Id, Park>, kind: map<Id, Kind>, at: Locs, s: Shape, g: Gid, loc: Loc)
    requires OneHolder(at, s.holder) && Nested(at, s.holder, s.waiter, s.depth)
    requires ResumesPaired(parked, park, at, s.holder) && ParkedRight(parked, park, kind, at, s.holder)
    requires g in at && at[g].Sending? && (loc == Running || loc == Yielding(true))
    ensures var t := at[g].to; var at' := at[g := AwaitYield(t)][Of(t) := loc];
      && Of(t) in at && at[Of(t)] == AwaitResume && g in s.depth
      && OneHolder(at', Of(t)) && Nested(at', Of(t), s.waiter[t := g], s.depth[Of(t) := s.depth[g] + 1])
      && ResumesPaired(parked, park, at', Of(t)) && ParkedRight(parked, park, kind, at', Of(t))
  {
    hide Nested, Paired, Deepest, ParkedRight;
    RunnerHolds(at, s.holder, g);
    ResumedNested(at, s, g, loc);
    ResumedParked(parked, park, kind, at, s.holder, loc);
  }

  lemma ResumedParked(parked: seq<Id>, park: map<Id, Park>, kind: map<Id, Kind>, at: Locs, holder: Gid, loc: Loc)
    requires ResumesPaired(parked, park, at, holder) && ParkedRight(parked, park, kind, at, holder)
    requires at[holder].Sending? && (loc == Running || loc == Yielding(true))
    ensures var t := at[holder].to; var at' := at[holder := AwaitYield(t)][Of(t) := loc];
      ResumesPaired(parked, park, at', Of(t)) && ParkedRight(parked, park, kind, at', Of(t))
  {
  }

  lemma ResumedNested(at: Locs, s: Shape, g: Gid, loc: Loc)
    requires Nested(at, s.holder, s.waiter, s.depth) && g == s.holder
    requires g in at && at[g].Sending? && (loc == Running || loc == Yielding(true))
    requires Of(at[g].to) in at && at[Of(at[g].to)] == AwaitResume
    ensures g in s.depth
    ensures var t := at[g].to;
      Nested(at[g := AwaitYield(t)][Of(t) := loc], Of(t), s.waiter[t := g], s.depth[Of(t) := s.depth[g] + 1])
  {
    hide Deepest;
    ResumedDeepest(at, s, loc);
  }

  lemma ResumedDeepest(at: Locs, s: Shape, loc: Loc)
    requires Nested(at, s.holder, s.waiter, s.depth)
    requires at[s.holder].Sending? && (loc == Running || loc == Yielding(true))
    requires Of(at[s.holder].to) in at && at[Of(at[s.holder].to)] == AwaitResume
    ensures s.holder in s.depth
    ensures var t := at[s.holder].to;
      Deepest(at[s.holder := AwaitYield(t)][Of(t) := loc], Of(t), s.depth[Of(t) := s.depth[s.holder] + 1])
  {
    var t := at[s.holder].to;
    forall g | g in at && at[g].AwaitYield? ensures at[g].from != t {
    }
  }

  /** The holder goes from running to a send. */
  lemma HolderSends(at: Locs, s: Shape, loc: Loc)
    requires OneHolder(at, s.holder) && Nested(at, s.holder, s.waiter, s.depth) && at[s.holder] == Running
    requires loc.Sending? || (loc.Yielding? && s.holder != Root)
    ensures OneHolder(at[s.holder := loc], s.holder) && Nested(at[s.holder := loc], s.holder, s.waiter, s.depth)
  {
    hide Paired, Deepest;
    HolderSendsPaired(at, s, loc);
    HolderSendsDeepest(at, s, loc);
  }

  lemma HolderSendsPaired(at: Locs, s: Shape, loc: Loc)
    requires Paired(at, s.waiter) && s.holder in at && at[s.holder] == Running && !loc.AwaitYield? && loc != AwaitResume
    ensures Paired(at[s.holder := loc], s.waiter)
  {
  }

  lemma HolderSendsDeepest(at: Locs, s: Shape, loc: Loc)
    requires Deepest(at, s.holder, s.depth) && s.holder in at && at[s.holder] == Running
    requires !loc.AwaitYield? && loc != AwaitResume
    ensures Deepest(at[s.holder := loc], s.holder, s.depth)
  {
  }

  lemma Yields(parked: seq<Id>, park: map<Id, Park>, kind: map<Id, Kind>, at: Locs, s: Shape, t: Id, p: Park)
    requires OneHolder(at, s.holder) && Nested(at, s.holder, s.waiter, s.depth)
    requires ResumesPaired(parked, park, at, s.holder) && ParkedRight(parked, park, kind, at, s.holder)
    requires s.holder == Of(t) && at[Of(t)] == Running && p != Entry && (p == Free ==> t in kind && kind[t].Promoted?)
    ensures var at' := at[Of(t) := Yielding(p == Free)];
      && OneHolder(at', s.holder) && Nested(at', s.holder, s.waiter, s.depth)
      && ResumesPaired(parked + [t], park[t := p], at', s.holder)
      && ParkedRight(parked + [t], park[t := p], kind, at', s.holder)
  {
    hide OneHolder, Nested;
    HolderSends(at, s, Yielding(p == Free));
    YieldsParked(parked, park, kind, at, s.holder, t, p);
  }

  lemma YieldsParked(parked: seq<Id>, park: map<Id, Park>, kind: map<Id, Kind>, at: Locs, holder: Gid, t: Id, p: Park)
    requires ResumesPaired(parked, park, at, holder) && ParkedRight(parked, park, kind, at, holder)
    requires holder == Of(t) && at[Of(t)] == Running && p != Entry && (p == Free ==> t in kind && kind[t].Promoted?)
    ensures var at' := at[Of(t) := Yielding(p == Free)];
      && ResumesPaired(parked + [t], park[t := p], at', holder)
      && ParkedRight(parked + [t], park[t := p], kind, at', holder)
  {
    ParkedNew(parked, t);
    assert t !in parked;
  }

  lemma Exits(parked: seq<Id>, park: map<Id, Park>, kind: map<Id, Kind>, at: Locs, s: Shape, t: Id)
    requires OneHolder(at, s.holder) && Nested(at, s.holder, s.waiter, s.depth)
    requires ResumesPaired(parked, park, at, s.holder) && ParkedRight(parked, park, kind, at, s.holder)
    requires s.holder == Of(t) && at[Of(t)] == Running
    ensures var at' := at[Of(t) := Yielding(true)];
      && OneHolder(at', s.holder) && Nested(at', s.holder, s.waiter, s.depth)
      && ResumesPaired(parked, park, at', s.holder) && ParkedRight(parked, park, kind, at', s.holder)
  {
    hide OneHolder, Nested;
    HolderSends(at, s, Yielding(true));
  }

  /** The places after a goroutine has given the baton back. */
  function After(at: Locs, g: Gid, t: Id): Locs
    requires Of(t) in at && at[Of(t)].Yielding?
  {
    if at[Of(t)].final then at[g := Running] - {Of(t)} else at[g := Running][Of(t) := AwaitResume]
  }

  function DepthAfter(at: Locs, depth: map<Gid, nat>, t: Id): map<Gid, nat>
    requires Of(t) in at && at[Of(t)].Yielding?
  {
    if at[Of(t)].final then depth - {Of(t)} else depth
  }

  lemma Yielded(parked: seq<Id>, park: map<Id, Park>, kind: map<Id, Kind>, at: Locs, s: Shape, t: Id)
    requires OneHolder(at, s.holder) && Nested(at, s.holder, s.waiter, s.depth)
    requires ResumesPaired(parked, park, at, s.holder) && ParkedRight(parked, park, kind, at, s.holder)
    requires Of(t) in at && at[Of(t)].Yielding?
    ensures t in s.waiter && s.waiter[t] in at && at[s.waiter[t]] == AwaitYield(t)
    ensures forall g :: g in at && at[g] == AwaitYield(t) ==> g == s.waiter[t]
    ensures !at[Of(t)].final ==> t in parked && t in park && park[t] == Blocked
    ensures var g := s.waiter[t]; var at' := After(at, g, t);
      && OneHolder(at', g) && Nested(at', g, s.waiter - {t}, DepthAfter(at, s.depth, t))
      && ResumesPaired(parked, park, at', g) && ParkedRight(parked, park, kind, at', g)
  {
    RunnerHolds(at, s.holder, Of(t));
    hide ResumesPaired, ParkedRight, OneHolder;
    var g := s.waiter[t];
    YieldedHolder(at, s.holder, g, t);
    YieldedNested(at, s, g, t);
    YieldedParked(parked, park, kind, at, s.holder, g, t);
  }

  lemma YieldedHolder(at: Locs, holder: Gid, g: Gid, t: Id)
    requires OneHolder(at, holder) && holder == Of(t) && at[holder].Yielding? && g in at && at[g] == AwaitYield(t)
    ensures OneHolder(After(at, g, t), g)
  {
  }

  lemma YieldedNested(at: Locs, s: Shape, g: Gid, t: Id)
    requires OneHolder(at, s.holder) && Nested(at, s.holder, s.waiter, s.depth)
    requires s.holder == Of(t) && at[s.holder].Yielding? && g in at && at[g] == AwaitYield(t)
    ensures Nested(After(at, g, t), g, s.waiter - {t}, DepthAfter(at, s.depth, t))
  {
    hide Paired, Deepest;
    YieldedPaired(at, s.waiter, g, t);
    YieldedDeepest(at, s, g, t);
  }

  lemma YieldedPaired(at: Locs, waiter: map<Id, Gid>, g: Gid, t: Id)
    requires Paired(at, waiter) && Of(t) in at && at[Of(t)].Yielding? && g in at && at[g] == AwaitYield(t)
    ensures Paired(After(at, g, t), waiter - {t})
  {
  }

  /** No other handoff is as deep as the one that ends. */
  lemma YieldedDeepest(at: Locs, s: Shape, g: Gid, t: Id)
    requires OneHolder(at, s.holder) && Nested(at, s.holder, s.waiter, s.depth)
    requires s.holder == Of(t) && at[s.holder].Yielding? && g in at && at[g] == AwaitYield(t)
    ensures Deepest(After(at, g, t), g, DepthAfter(at, s.depth, t))
  {
    hide Paired;
    forall h | h in at && at[h] != AwaitResume && h != g && h != Of(t) ensures s.depth[h] < s.depth[g] {
      OtherShallower(at, s, g, h, t);
    }
  }

  lemma OtherShallower(at: Locs, s: Shape, g: Gid, h: Gid, t: Id)
    requires Nested(at, s.holder, s.waiter, s.depth)
    requires s.holder == Of(t) && at[s.holder].Yielding? && g in at && at[g] == AwaitYield(t)
    requires h in at && at[h] != AwaitResume && h != g && h != Of(t)
    requires (forall k :: k in at && k != s.holder ==> at[k].AwaitYield? || at[k] == AwaitResume)
    ensures s.depth[h] < s.depth[g]
  {
    var u := at[h].from;
    assert u != t;
    assert Of(u) != s.holder && s.depth[Of(u)] < s.depth[s.holder];
  }

  lemma YieldedParked(parked: seq<Id>, park: map<Id, Park>, kind: map<Id, Kind>, at: Locs, holder: Gid, g: Gid, t: Id)
    requires ResumesPaired(parked, park, at, holder) && ParkedRight(parked, park, kind, at, holder)
    requires holder == Of(t) && at[holder].Yielding? && g in at && at[g] == AwaitYield(t)
    ensures !at[holder].final ==> t in parked && t in park && park[t] == Blocked
    ensures ResumesPaired(parked, park, After(at, g, t), g) && ParkedRight(parked, park, kind, After(at, g, t), g)
  {
  }

  // ---- taking a task out of the parked list ----

  /** The list without the first occurrence of t. */
  function Without(parked: seq<Id>, t: Id): seq<Id> {
    if parked == [] then [] else if parked[0] == t then parked[1..] else [parked[0]] + Without(parked[1..], t)
  }

  lemma {:induction false} Spliced(parked: seq<Id>, i: nat)
    requires i < |parked| && parked[i] !in parked[..i]
    ensures Without(parked, parked[i]) == parked[..i] + parked[i + 1..]
  {
    if i > 0 {
      assert parked[0] in parked[..i];
      assert parked[1..][..i - 1] == parked[..i][1..];
      Spliced(parked[1..], i - 1);
    }
  }

  lemma {:induction false} Absent(parked: seq<Id>, t: Id)
    requires t !in parked
    ensures Without(parked, t) == parked
  {
    if parked != [] {
      assert parked[0] in parked;
      Absent(parked[1..], t);
    }
  }

  /** Of tasks that are parked once, exactly t is gone. */
  lemma {:induction false} WithoutOnly(parked: seq<Id>, t: Id)
    requires forall i, j :: 0 <= i < j < |parked| ==> parked[i] != parked[j]
    requires t in parked
    ensures var rest := Without(parked, t);
      && |rest| == |parked| - 1
      && (forall u :: u in rest <==> u in parked && u != t)
      && (forall i, j :: 0 <= i < j < |rest| ==> rest[i] != rest[j])
  {
    if parked[0] != t {
      WithoutOnly(parked[1..], t);
      var rest := Without(parked[1..], t);
      assert parked[0] !in parked[1..];
      forall i, j | 0 <= i < j < |rest| + 1 ensures ([parked[0]] + rest)[i] != ([parked[0]] + rest)[j] {
        assert rest[j - 1] in parked[1..];
      }
    }
  }

  lemma UnparkedBlocked(parked: seq<Id>, park: map<Id, Park>, kind: map<Id, Kind>, at: Locs, s: Shape, t: Id,
                        mode: Mode)
    requires OneHolder(at, s.holder) && Nested(at, s.holder, s.waiter, s.depth)
    requires ResumesPaired(parked, park, at, s.holder) && ParkedRight(parked, park, kind, at, s.holder)
    requires at[s.holder] == Running && t in parked
    ensures t in park && |Without(parked, t)| < |parked|
    ensures park[t] == Blocked ==> Of(t) in at && at[Of(t)] == AwaitResume
    ensures park[t] == Blocked ==> var at' := at[s.holder := Sending(t, mode)];
      && OneHolder(at', s.holder) && Nested(at', s.holder, s.waiter, s.depth)
      && ResumesPaired(Without(parked, t), park, at', s.holder)
      && ParkedRight(Without(parked, t), park, kind, at', s.holder)
  {
    hide OneHolder, Nested, ResumesPaired, ParkedRight;
    HolderSends(at, s, Sending(t, mode));
    BlockedTaken(parked, park, kind, at, s.holder, t, mode);
  }

  lemma BlockedTaken(parked: seq<Id>, park: map<Id, Park>, kind: map<Id, Kind>, at: Locs, holder: Gid, t: Id,
                     mode: Mode)
    requires ResumesPaired(parked, park, at, holder) && ParkedRight(parked, park, kind, at, holder)
    requires at[holder] == Running && t in parked
    ensures t in park && |Without(parked, t)| < |parked|
    ensures park[t] == Blocked ==> Of(t) in at && at[Of(t)] == AwaitResume
    ensures park[t] == Blocked ==>
      && ResumesPaired(Without(parked, t), park, at[holder := Sending(t, mode)], holder)
      && ParkedRight(Without(parked, t), park, kind, at[holder := Sending(t, mode)], holder)
  {
    hide Without;
    WithoutOnly(parked, t);
  }

  lemma UnparkedIdle(parked: seq<Id>, park: map<Id, Park>, kind: map<Id, Kind>, at: Locs, holder: Gid, t: Id)
    requires ResumesPaired(parked, park, at, holder) && ParkedRight(parked, park, kind, at, holder)
    requires at[holder] == Running && t in parked
    ensures t in park && t in kind && t !in Without(parked, t) && |Without(parked, t)| < |parked|
    ensures park[t] != Blocked ==>
      && Of(t) !in at
      && ResumesPaired(Without(parked, t), park, at, holder)
      && ParkedRight(Without(parked, t), park, kind, at, holder)
  {
    WithoutOnly(parked, t);
  }

  lemma InlineParked(parked: seq<Id>, park: map<Id, Park>, kind: map<Id, Kind>, at: Locs, holder: Gid, t: Id)
    requires ResumesPaired(parked, park, at, holder) && ParkedRight(parked, park, kind, at, holder)
    requires holder in at && at[holder] == Running && t in kind && kind[t].Inline? && t !in parked
    ensures ResumesPaired(parked + [t], park[t := Free], at, holder)
    ensures ParkedRight(parked + [t], park[t := Free], kind, at, holder)
  {
    ParkedNew(parked, t);
  }

  // ---- the reaper ----

  /** Parked without a goroutine, and not stackful: the reaper leaves it. */
  predicate Spares(t: Id, park: map<Id, Park>, kind: map<Id, Kind>) {
    t in park && t in kind && !kind[t].Stackful? && !(kind[t].Promoted? && park[t] == Blocked)
  }

  function Spared(parked: seq<Id>, park: map<Id, Park>, kind: map<Id, Kind>): seq<Id> {
    if parked == [] then []
    else (if Spares(parked[0], park, kind) then [parked[0]] else []) + Spared(parked[1..], park, kind)
  }

  lemma {:induction false} SparedAre(parked: seq<Id>, park: map<Id, Park>, kind: map<Id, Kind>)
    ensures forall t :: t in Spared(parked, park, kind) <==> t in parked && Spares(t, park, kind)
  {
    if parked != [] {
      SparedAre(parked[1..], park, kind);
    }
  }

  lemma {:induction false} AllSpared(parked: seq<Id>, park: map<Id, Park>, kind: map<Id, Kind>)
    requires forall t :: t in parked ==> Spares(t, park, kind)
    ensures Spared(parked, park, kind) == parked
  {
    if parked != [] {
      AllSpared(parked[1..], park, kind);
    }
  }

  lemma {:induction false} SparedWithout(parked: seq<Id>, park: map<Id, Park>, kind: map<Id, Kind>, t: Id)
    requires t in parked && !Spares(t, park, kind)
    ensures Spared(Without(parked, t), park, kind) == Spared(parked, park, kind)
  {
    if parked[0] != t {
      SparedWithout(parked[1..], park, kind, t);
    }
  }

  /** While somebody runs, parked tasks that are not blocked have no goroutine. */
  lemma WithoutFrames(parked: seq<Id>, park: map<Id, Park>, kind: map<Id, Kind>, at: Locs, holder: Gid)
    requires ParkedRight(parked, park, kind, at, holder) && at[holder] == Running
    ensures forall t :: t in parked ==>
      t in park && t in kind && (Of(t) in at <==> park[t] == Blocked) && (kind[t].Stackful? ==> park[t] != Free)
  {
  }

  /** The goroutines that do not wait to be resumed. */
  function Awake(at: Locs): Locs {
    map g | g in at && at[g] != AwaitResume :: at[g]
  }

  lemma AwakeAre(at: Locs)
    ensures forall h :: h in Awake(at) <==> h in at && at[h] != AwaitResume
  {
  }

  lemma AwakeWithout(at: Locs, g: Gid)
    ensures g in at && at[g] == AwaitResume ==> Awake(at - {g}) == Awake(at)
  {
  }

  /** When every parked task is spared, no goroutine waits to be resumed. */
  lemma AllUnwound(parked: seq<Id>, park: map<Id, Park>, kind: map<Id, Kind>, at: Locs, s: Shape)
    requires OneHolder(at, s.holder) && at[s.holder] == Running
    requires ResumesPaired(parked, park, at, s.holder) && ParkedRight(parked, park, kind, at, s.holder)
    requires forall t :: t in parked ==> Spares(t, park, kind)
    ensures Awake(at) == at
  {
    forall g | g in at ensures at[g] != AwaitResume {
      if g.Of? && at[g] == AwaitResume {
        assert false;
      }
    }
  }

  /** While the driver runs, nothing waits in a handoff. */
  lemma DriverAlone(at: Locs, s: Shape)
    requires OneHolder(at, s.holder) && Nested(at, s.holder, s.waiter, s.depth)
    ensures s.holder == Root && at[Root] == Running ==> Awake(at) == map[Root := Running]
  {
    if s.holder == Root && at[Root] == Running {
      forall g | g in at && at[g] != AwaitResume ensures g == Root {
        if g != Root {
          assert false;
        }
      }
    }
  }

  // ---- runs ----

  datatype Event =
    | DoStart(g: Gid, t: Id, k: Kind)
    | DoParkAtEntry(g: Gid, t: Id, k: Kind)
    | DoResume(g: Gid, t: Id, cancelled: bool)
    | DoDeliverResume(g: Gid)
    | DoBlock(t: Id)
    | DoParkFree(t: Id)
    | DoParkInline(g: Gid, t: Id)
    | DoExit(t: Id)
    | DoDeliverYield(t: Id)
    | DoReap(g: Gid)

  predicate Enabled(r: Runtime, e: Event)
    reads r
  {
    match e
    case DoStart(g, t, _) => g in r.at && r.at[g] == Running && t !in r.kind
    case DoParkAtEntry(g, t, _) => g in r.at && r.at[g] == Running && t !in r.kind
    case DoResume(g, t, _) => g in r.at && r.at[g] == Running && t in r.parked
    case DoDeliverResume(g) => g in r.at && r.at[g].Sending?
    case DoBlock(t) => Of(t) in r.at && r.at[Of(t)] == Running
    case DoParkFree(t) => Of(t) in r.at && r.at[Of(t)] == Running && t in r.kind && r.kind[t].Promoted?
    case DoParkInline(g, t) => g in r.at && r.at[g] == Running && t in r.kind && r.kind[t].Inline? && t !in r.parked
    case DoExit(t) => Of(t) in r.at && r.at[Of(t)] == Running
    case DoDeliverYield(t) => Of(t) in r.at && r.at[Of(t)].Yielding?
    case DoReap(g) => g in r.at && r.at[g] == Running
  }

  /** A handoff that g waits in is still there, or it has just returned: its
      goroutine is over, or its task is parked again with its frames. */
  predicate HandoffKept(after: Locs, parked: seq<Id>, e: Event, g: Gid, t: Id) {
    if e == DoDeliverYield(t)
    then g in after && after[g] == Running && (Of(t) !in after || (after[Of(t)] == AwaitResume && t in parked))
    else g in after && after[g] == AwaitYield(t) && Of(t) in after
  }

  method Step(r: Runtime, e: Event)
    requires r.Inv() && Enabled(r, e)
    modifies r
    ensures r.Inv()
    ensures forall g, t :: g in old(r.at) && old(r.at)[g] == AwaitYield(t) ==> HandoffKept(r.at, r.parked, e, g, t)
  {
    hide OneHolder, Nested, ResumesPaired, ParkedRight, Spared;
    HandoffsPaired(r);
    match e
    case DoStart(g, t, k) => r.Start(g, t, k);
    case DoParkAtEntry(g, t, k) => r.ParkAtEntry(g, t, k);
    case DoResume(g, t, cancelled) => r.Resume(g, t, cancelled);
    case DoDeliverResume(g) => r.DeliverResume(g);
    case DoBlock(t) => r.Block(t);
    case DoParkFree(t) => r.ParkFree(t);
    case DoParkInline(g, t) => r.ParkInline(g, t);
    case DoExit(t) => r.Exit(t);
    case DoDeliverYield(t) => r.DeliverYield(t);
    case DoReap(g) => r.Reap(g);
  }

  method Run(r: Runtime, events: seq<Event>)
    requires r.Inv()
    modifies r
    ensures r.Inv()
  {
    for i := 0 to |events|
      invariant r.Inv()
    {
      if Enabled(r, events[i]) {
        Step(r, events[i]);
      }
    }
  }

  lemma HandoffsPaired(r: Runtime)
    requires r.Inv()
    ensures forall g, t :: g in r.at && r.at[g] == AwaitYield(t) ==> Of(t) in r.at && r.at[Of(t)] != AwaitResume
  {
  }

  /** SAFETY. In every reachable state one goroutine at most is outside a channel
      operation, and a task whose goroutine waits in a handoff is not parked, so
      that nothing can resume it a second time. */
  lemma OneRuns(r: Runtime, g: Gid, h: Gid)
    requires r.Inv() && g in r.at && h in r.at
    ensures r.at[g] == Running == r.at[h] ==> g == h
    ensures g.Of? && r.at[g].AwaitYield? ==> g.t !in r.parked
    ensures g.Of? && g.t in r.parked && r.at[g] == Running ==> false
  {
  }

  /** Nobody waits for a partner that does not come: some goroutine runs, or a
      rendezvous is ready on both sides. */
  lemma NeverStuck(r: Runtime) returns (g: Gid)
    requires r.Inv()
    ensures g in r.at
    ensures
      || r.at[g] == Running
      || (r.at[g].Sending? && Of(r.at[g].to) in r.at && r.at[Of(r.at[g].to)] == AwaitResume)
      || (g.Of? && r.at[g].Yielding? && exists h :: h in r.at && r.at[h] == AwaitYield(g.t))
  {
    g := r.s.holder;
    if r.at[g].Yielding? {
      assert r.at[r.s.waiter[g.t]] == AwaitYield(g.t);
    }
  }
}
