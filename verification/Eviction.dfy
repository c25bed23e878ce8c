/** Exactly when somebody is swapped out, and who it is. */
module Eviction {
  import opened Types
  import opened Allocation
  import opened Backends
  import opened SchedulerModel
  import opened Placement
  import opened Batching
  import opened Worker
  import opened WorkerInvariants
  import opened Theorems
  import opened Order

  lemma {:induction false} ChosenAmong(ids: seq<nat>, a: Alloc, k: nat, granted: bool)
    ensures var c := Chosen(ids, a, k, granted); |c| <= |ids| && forall x :: x in c ==> x in ids
    decreases |ids|
  {
    hide Refused;
    if ids != [] { ChosenAmong(ids[1..], a, k + 1, granted); }
  }

  /** In the settle part alone: somebody who was not swapped out before is so afterwards only if the iteration has
      moved nothing, every swap-in call is refused, and a request with its cache on the GPU stands in the deferred
      decodes or in the ready ones; it is such a request. */
  lemma VictimOnlyWhenStuck(st: St, progress: bool, id: nat)
    requires id in Ids(SettleHalf(st, progress).st.swapOut) && id !in Ids(st.swapOut)
    ensures !progress && forall k :: 0 <= k < |st.swapOut| ==> Refused(st.alloc, k)
    ensures exists r :: r in st.deferredDecode + st.decode && r.residency == Gpu && r.id == id
    ensures SettleHalf(st, progress).st.alloc.calls > st.alloc.calls + |st.swapOut|
  {
    hide Refused, Chosen, SettleHalf, St.Internal, Ids;
    ChosenAmong(Ids(st.swapOut), st.alloc, 0, false);
    if progress || st.Internal() == [] || exists k :: 0 <= k < |st.swapOut| && !Refused(st.alloc, k) {
      SettleKeepsEverybody(st, progress);
    } else {
      var i := SomeFirstOnGpu(st.deferredDecode);
      var j := SomeFirstOnGpu(st.decode);
      SettleEvicts(st, i, j);
      var r := if i < |st.deferredDecode| && id == st.deferredDecode[i].id then st.deferredDecode[i] else st.decode[j];
      assert r in st.deferredDecode + st.decode;
    }
  }

  // ---- a whole iteration ----

  /** How many calls an iteration makes that is refused all of them, before it asks anybody to leave. */
  function Asks(st: St): nat {
    |st.swapOut| + |st.decode| + |st.deferredDecode|
    + |st.swapOut| + |st.deferredPrefill| + (if st.waiting != [] then 1 else 0)
    + |st.swapOut|
  }

  lemma SameSize(p: seq<Req>, q: seq<Req>)
    requires Ids(p) == Ids(q)
    ensures |p| == |q|
  {
    IdsSize(p);
    IdsSize(q);
  }

  /** A decode half that moves nothing has been refused every call; one that is refused every call moves nothing. */
  lemma StuckDecode(be: Backend, st: St)
    ensures var p := DecodeHalf(be, st);
            var n := |st.swapOut| + |st.decode| + |st.deferredDecode|;
            && (!p.progress <==> forall k :: 0 <= k < n ==> Refused(st.alloc, k))
            && (!p.progress ==>
                  && p.out == [] && p.st.decode == [] && Ids(p.st.swapOut) == Ids(st.swapOut)
                  && Ids(p.st.deferredDecode) == Ids(st.decode) + Ids(st.deferredDecode)
                  && p.st.alloc.calls == st.alloc.calls + n)
            && |p.st.swapOut| <= |st.swapOut|
  {
    hide Refused, Chosen, Flagged, DecodeHalf, Ids;
    var p, a, n := DecodeHalf(be, st), st.alloc, |st.swapOut|;
    var back := Chosen(Ids(st.swapOut), a, 0, true);
    var line := Ids(st.decode) + back + Ids(st.deferredDecode);
    DecodeHalfOrder(be, st);
    IdsSize(st.swapOut);
    IdsSize(st.decode);
    IdsSize(st.deferredDecode);
    IdsSize(p.st.swapOut);
    IdsSize(p.st.decode);
    NobodyChosen(Ids(st.swapOut), a, 0);
    NobodyChosen(line, a, n);
    ChosenAmong(Ids(st.swapOut), a, 0, false);
    if !p.progress { NothingFlagged(); }
  }

  lemma StuckPrefill(be: Backend, st: St)
    ensures var p := PrefillHalf(be, st);
            var n := |st.swapOut| + |st.deferredPrefill| + (if st.waiting != [] then 1 else 0);
            && (!p.progress <==> st.prefill == [] && forall k :: 0 <= k < n ==> Refused(st.alloc, k))
            && (!p.progress ==>
                  && p.out == [] && Ids(p.st.decode) == Ids(st.decode) && Ids(p.st.swapOut) == Ids(st.swapOut)
                  && p.st.alloc.calls == st.alloc.calls + n)
            && p.st.deferredDecode == st.deferredDecode && |p.st.swapOut| <= |st.swapOut|
  {
    hide Refused, Chosen, Flagged, PrefillHalf, Ids, Backwards, FirstRefusal;
    var p, a, n, d := PrefillHalf(be, st), st.alloc, |st.swapOut|, |st.deferredPrefill|;
    PrefillHalfOrder(be, st);
    ChosenAmong(Ids(st.swapOut), a, 0, false);
    IdsSize(st.swapOut);
    IdsSize(p.st.swapOut);
    StuckPasses(st);
    NothingFlagged();
    Ranges(a, n, d, st.waiting != []);
  }

  /** The three admission passes of a prefill half. */
  lemma StuckPasses(st: St)
    ensures var a, n, d := st.alloc, |st.swapOut|, |st.deferredPrefill|;
            var f := FirstRefusal(a, n + d, |st.waiting|);
            var entered := Backwards(Chosen(Ids(st.deferredPrefill), a, n, true)) + Ids(st.prefill)
                           + Ids(st.waiting[..f]);
            && (Chosen(Ids(st.swapOut), a, 0, true) == [] <==> forall k :: 0 <= k < n ==> Refused(a, k))
            && (Chosen(Ids(st.swapOut), a, 0, true) == [] ==>
                  Chosen(Ids(st.swapOut), a, 0, false) == Ids(st.swapOut))
            && (entered == [] <==> st.prefill == [] && (forall k :: n <= k < n + d ==> Refused(a, k))
                                   && (st.waiting != [] ==> Refused(a, n + d)))
            && (entered == [] ==> f == 0)
  {
    hide Refused, Chosen, Ids, Backwards, FirstRefusal;
    var a, n, d := st.alloc, |st.swapOut|, |st.deferredPrefill|;
    var f := FirstRefusal(a, n + d, |st.waiting|);
    IdsSize(st.swapOut);
    IdsSize(st.deferredPrefill);
    IdsSize(st.prefill);
    IdsSize(st.waiting[..f]);
    NobodyChosen(Ids(st.swapOut), a, 0);
    NobodyChosen(Ids(st.deferredPrefill), a, n);
    BackwardsSize(Chosen(Ids(st.deferredPrefill), a, n, true));
    FirstIsRefused(a, n + d, |st.waiting|);
  }

  lemma Ranges(a: Alloc, n: nat, d: nat, more: bool)
    ensures (forall k :: 0 <= k < n + d + (if more then 1 else 0) ==> Refused(a, k))
            <==> (forall k :: 0 <= k < n ==> Refused(a, k)) && (forall k :: n <= k < n + d ==> Refused(a, k))
                 && (more ==> Refused(a, n + d))
  {
    hide Refused;
  }

  lemma BackwardsSize(ids: seq<nat>)
    ensures |Backwards(ids)| == |ids|
  {}

  lemma FirstIsRefused(a: Alloc, k: nat, n: nat)
    ensures FirstRefusal(a, k, n) == 0 <==> n == 0 || Refused(a, k)
  {}

  lemma OnGpu(st: St)
    requires Placed(st)
    ensures FirstOnGpu(st.deferredDecode, 0) && FirstOnGpu(st.decode, 0)
  {}

  /** The settle part of an iteration that has moved nothing or something, with no ready request if nothing. */
  lemma SettleSize(st: St, progress: bool)
    requires Placed(st) && (!progress ==> st.decode == [])
    ensures var p, n := SettleHalf(st, progress), |st.swapOut|;
            && (|p.st.swapOut| > n <==> && !progress && st.deferredDecode != []
                                        && (forall k :: 0 <= k < n ==> Refused(st.alloc, k)) && !Refused(st.alloc, n))
            && (|p.st.swapOut| > n ==> && Ids(p.st.swapOut) == Ids(st.swapOut) + [st.deferredDecode[0].id]
                                       && p.st.paused && p.st.alloc.calls == st.alloc.calls + n + 1)
  {
    hide Refused, Chosen, SettleHalf, St.Internal, Ids, Placed;
    var p := SettleHalf(st, progress);
    IdsSize(st.swapOut);
    IdsSize(p.st.swapOut);
    if progress || st.Internal() == [] || exists k :: 0 <= k < |st.swapOut| && !Refused(st.alloc, k) {
      SettleKeepsEverybody(st, progress);
      ChosenAmong(Ids(st.swapOut), st.alloc, 0, false);
      IdleIs(st);
    } else {
      OnGpu(st);
      SettleEvicts(st, 0, 0);
      LaterRefusals(st.alloc, st.alloc.(calls := st.alloc.calls + |st.swapOut|), |st.swapOut|, 0);
    }
  }

  /** A range of calls from two points of view. */
  lemma RefusedFrom(a: Alloc, b: Alloc, d: nat, n: nat)
    requires b.policy == a.policy && b.calls == a.calls + d
    ensures (forall k :: 0 <= k < n ==> Refused(b, k)) <==> forall k :: d <= k < d + n ==> Refused(a, k)
    ensures Refused(b, n) == Refused(a, d + n)
  {
    forall k: nat
      ensures Refused(b, k) == Refused(a, d + k)
    {
      LaterRefusals(a, b, d, k);
    }
    if forall k :: 0 <= k < n ==> Refused(b, k) {
      forall k | d <= k < d + n
        ensures Refused(a, k)
      {
        assert Refused(b, k - d);
      }
    }
  }

  /** An iteration swaps somebody out if and only if nobody is about to be prefilled, somebody is ready or deferred
      for decoding, every allocator call of the iteration up to then is refused, and the next one is granted. It is
      then the request that stands first among the ready ones, or among the deferred ones if nobody is ready. So an
      iteration that moves anything at all evicts nobody. */
  lemma EvictionIff(be: Backend, st: St)
    requires Placed(st)
    ensures var p, n := Iteration(be, st), Asks(st);
            && (|p.st.swapOut| > |st.swapOut| <==>
                  && st.prefill == [] && st.decode + st.deferredDecode != []
                  && (forall k :: 0 <= k < n ==> Refused(st.alloc, k)) && !Refused(st.alloc, n))
            && (|p.st.swapOut| > |st.swapOut| ==>
                  && Ids(p.st.swapOut) == Ids(st.swapOut) + [Ids(st.decode + st.deferredDecode)[0]]
                  && p.st.paused && p.out == [] && p.st.alloc.calls == st.alloc.calls + n + 1)
  {
    hide Refused, DecodeHalf, PrefillHalf, SettleHalf, Placed, Ids;
    DecodeHalfPlaced(be, st);
    var p1 := DecodeHalf(be, st);
    PrefillHalfPlaced(be, p1.st);
    var p2 := PrefillHalf(be, p1.st);
    StuckDecode(be, st);
    StuckPrefill(be, p1.st);
    Untouched(be, st);
    var n1 := |st.swapOut| + |st.decode| + |st.deferredDecode|;
    if !p1.progress {
      SameSize(p1.st.swapOut, st.swapOut);
      RefusedFrom(st.alloc, p1.st.alloc, n1, Asks(st) - |st.swapOut| - n1);
      if !p2.progress {
        SameSize(p2.st.swapOut, st.swapOut);
        SameSize(p2.st.decode, p1.st.decode);
        RefusedFrom(st.alloc, p2.st.alloc, Asks(st) - |st.swapOut|, |st.swapOut|);
        IdsConcat(st.decode, st.deferredDecode);
        SameSize(p2.st.deferredDecode, st.decode + st.deferredDecode);
        if p2.st.deferredDecode != [] { FirstId(p2.st.deferredDecode, st.decode + st.deferredDecode); }
      }
    }
    SettleSize(p2.st, p1.progress || p2.progress);
    IterationIs(be, st);
  }

  lemma Untouched(be: Backend, st: St)
    ensures var p := DecodeHalf(be, st).st;
            p.waiting == st.waiting && p.deferredPrefill == st.deferredPrefill && p.prefill == st.prefill
  {
    DecodeHalfOrder(be, st);
  }

  lemma FirstId(p: seq<Req>, q: seq<Req>)
    requires Ids(p) == Ids(q) && p != [] && q != []
    ensures |Ids(q)| > 0 && p[0].id == Ids(q)[0]
  {
    assert Ids(p)[0] == p[0].id;
  }

  lemma IterationIs(be: Backend, st: St)
    ensures var p := DecodeHalf(be, st);
            var q := PrefillHalf(be, p.st);
            var s := SettleHalf(q.st, p.progress || q.progress);
            Iteration(be, st) == Phase(s.st, p.out + q.out, s.progress)
  {
    hide DecodeHalf, PrefillHalf, SettleHalf;
  }

  // ---- in every run ----

  /** In an iteration that has moved nothing so far nobody is ready. */
  ghost predicate NobodyReady(w: World) {
    (w.pc.EmitDecode? || w.pc.Prefilling? || w.pc.EmitPrefill? || w.pc.Settling?) && !w.progress ==> w.st.decode == []
  }

  lemma ReadyTurn(be: Backend, w: World)
    requires NobodyReady(w) && CanWork(w)
    ensures NobodyReady(Work(be, w))
  {
    hide DecodeHalf, PrefillHalf, SettleHalf, Work, Worker.Batch, Emit, PopOne, St.Idle, Ids, Refused;
    match w.pc {
      case Head => WorkHead(be, w);
      case Draining(k) => WorkDraining(be, w); if w.inbox != [] { PopFields(w, Draining(k + 1)); }
      case Decoding =>
        WorkDecoding(be, w);
        StuckDecode(be, w.st);
        BatchFields(w, DecodeHalf(be, w.st), EmitDecode);
      case Prefilling =>
        WorkPrefilling(be, w);
        StuckPrefill(be, w.st);
        BatchFields(w, PrefillHalf(be, w.st), EmitPrefill);
        if !w.progress && !PrefillHalf(be, w.st).progress { SameSize(PrefillHalf(be, w.st).st.decode, w.st.decode); }
      case Settling => WorkSettling(be, w);
      case Parked => WorkParked(be, w); if w.inbox != [] { PopFields(w, Head); }
      case _ =>
        WorkEmitting(be, w);
        BatchFields(w, Phase(w.st, [], false), if w.pc.EmitDecode? then Pc.Prefilling else Settling);
    }
  }

  lemma {:induction false} RunNobodyReady(be: Backend, w: World, events: seq<Event>, w': World)
    requires NobodyReady(w) && Worker.Run(be, w, events, w')
    ensures NobodyReady(w')
    decreases |events|
  {
    hide Work, Fresh;
    if events != [] {
      if events[0].Turn? { ReadyTurn(be, w); }
      RunNobodyReady(be, After(be, w, events[0]), events[1..], w');
    }
  }

  /** In every run, whatever other threads do in between: the end of an iteration takes nobody from the ready
      requests, so the second of the two places that are searched for a victim never has one. */
  lemma ReadyAreNeverEvicted(be: Backend, policy: Policy, w: World)
    requires Reachable(be, policy, w) && w.pc.Settling?
    ensures Ids(w.st.decode) <= Ids(Work(be, w).st.decode)
    ensures |Work(be, w).st.swapOut| > |w.st.swapOut| ==>
              && !w.progress && w.st.deferredDecode != []
              && Ids(Work(be, w).st.swapOut) == Ids(w.st.swapOut) + [w.st.deferredDecode[0].id]
  {
    hide Reachable, Queued, Conserved, Streams, Unshared, Placed, SettleHalf, Refused, Chosen, Ids, Work, St.Internal;
    ReachableSound(be, policy, w);
    assert Placed(w.st) by { QueuedPlaced(w); }
    assert NobodyReady(w) by { ReachableNobodyReady(be, policy, w); }
    WorkSettling(be, w);
    SettleSize(w.st, w.progress);
    IdsSize(w.st.decode);
    if w.progress { SettleKeepsEverybody(w.st, true); } else { NoIds(); }
  }

  lemma ReachableNobodyReady(be: Backend, policy: Policy, w: World)
    requires Reachable(be, policy, w)
    ensures NobodyReady(w)
  {
    var events :| Worker.Run(be, Boot(policy), events, w);
    RunNobodyReady(be, Boot(policy), events, w);
  }
}
