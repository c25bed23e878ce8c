/** Once the allocator refuses no more, whatever was deferred, swapped out or held back gets going again. */
module Recovery {
  import opened Types
  import opened Allocation
  import opened Backends
  import opened SchedulerModel
  import opened Placement
  import opened Bags
  import opened Batching
  import opened Ledger
  import opened Phases
  import opened Worker
  import opened WorkerInvariants
  import opened Theorems
  import opened Progress
  import opened Order

  /** The allocator will not refuse any more. */
  ghost predicate Granting(a: Alloc) {
    match a.policy
    case Bump(refuses) => forall k :: k >= a.calls ==> !refuses(k)
    case Script(answer) => forall k :: k >= a.calls ==> answer(k).Grant?
  }

  lemma WillingGrants(a: Alloc)
    requires Willing(a.policy)
    ensures Granting(a)
  {}

  /** Whoever grants everything goes on doing so. */
  lemma GrantingLater(a: Alloc, b: Alloc)
    requires Granting(a) && b.policy == a.policy && b.calls >= a.calls
    ensures Granting(b)
  {}

  lemma AttemptGranted(g: Gate, a: Alloc, r: Req)
    requires Granting(a)
    ensures var t := Attempt(g, a, r); t.ok && t.req.id == r.id && Granting(t.alloc)
  {}

  lemma {:induction false} SieveGranted(g: Gate, q: seq<Req>, a: Alloc)
    requires Granting(a)
    ensures var s := Sieve(g, q, a); s.no == [] && |s.yes| == |q| && Ids(s.yes) == Ids(q) && Granting(s.alloc)
  {
    hide Attempt, Granting;
    if q != [] {
      AttemptGranted(g, a, q[0]);
      var t := Attempt(g, a, q[0]);
      SieveGranted(g, q[1..], t.alloc);
      assert Ids(q) == [q[0].id] + Ids(q[1..]);
      assert Ids(Sieve(g, q, a).yes) == [t.req.id] + Ids(Sieve(g, q[1..], t.alloc).yes);
    }
  }

  lemma {:induction false} AdmitGranted(q: seq<Req>, a: Alloc)
    requires Granting(a)
    ensures var s := Admit(q, a);
            s.no == [] && s.rest == [] && |s.yes| == |q| && Ids(s.yes) == Ids(q) && Granting(s.alloc)
  {
    hide Attempt, Granting;
    if q != [] {
      AttemptGranted(AdmitPrefill, a, q[0]);
      var t := Attempt(AdmitPrefill, a, q[0]);
      AdmitGranted(q[1..], t.alloc);
      assert Ids(q) == [q[0].id] + Ids(q[1..]);
      assert Ids(Admit(q, a).yes) == [t.req.id] + Ids(Admit(q[1..], t.alloc).yes);
    }
  }

  /** Every request of the queue is answered. */
  lemma {:induction false} RunGranted(m: Model, kind: Kind, q: seq<Req>, a: Alloc)
    requires Granting(a)
    ensures var o := RunEach(m, kind, q, a);
            o.deferred == [] && |o.out| == |q| && Granting(o.alloc) && (q == [] ==> o.alive == [])
  {
    hide Attempt, Granting, Complete, ReplyTo;
    if q != [] {
      AttemptGranted(AdmitDecode, a, q[0]);
      RunGranted(m, kind, q[1..], Enter(kind, a, q[0]).alloc);
    }
  }

  // ---- the halves of an iteration ----

  /** The decode half brings back everything that is swapped out or deferred and answers all of it. */
  lemma DecodeHalfGranted(be: Backend, m: Model, st: St)
    requires Pointwise(be, m) && Granting(st.alloc)
    ensures var p := DecodeHalf(be, st);
            && Granting(p.st.alloc) && p.st.swapOut == [] && p.st.deferredDecode == []
            && p.st.waiting == st.waiting && p.st.deferredPrefill == st.deferredPrefill && p.st.prefill == st.prefill
            && p.progress == (p.out != []) && (p.out == [] ==> p.st.decode == [])
  {
    hide Sieve, RunBatches, RunEach, Granting, Pointwise, Readied;
    SieveGranted(RetrySwapIn, st.swapOut, st.alloc);
    var q := RetryDeferredDecode(RetrySwapInRequests(st).st).st;
    RunBatchesIsRunEach(be, m, Decode, MAX_BATCH, q.decode, q.alloc);
    RunGranted(m, Decode, q.decode, q.alloc);
    assert [] + RunDecodeBatch(be, MAX_BATCH, q).out == RunDecodeBatch(be, MAX_BATCH, q).out;
  }

  /** The prefill half lets in and answers everything that has not been answered yet. */
  lemma PrefillHalfGranted(be: Backend, m: Model, st: St)
    requires Pointwise(be, m) && Granting(st.alloc)
    ensures var p := PrefillHalf(be, st);
            && Granting(p.st.alloc) && p.st.swapOut == [] && p.st.deferredDecode == st.deferredDecode
            && p.st.waiting == [] && p.st.deferredPrefill == [] && p.st.prefill == []
            && p.progress == (st.swapOut != [] || p.out != [])
            && (p.out == [] && st.swapOut == [] ==> p.st.decode == st.decode)
  {
    hide Sieve, Admit, RunBatches, RunEach, Granting, Pointwise, Reverse;
    SieveGranted(RetrySwapIn, st.swapOut, st.alloc);
    var p := RetrySwapInRequests(st).st;
    SieveGranted(RetryPrefill, p.deferredPrefill, p.alloc);
    var q := RetryDeferredPrefill(p).st;
    AdmitGranted(q.waiting, q.alloc);
    var r := AdmitWaitingPrefill(q).st;
    RunBatchesIsRunEach(be, m, Prefill, MAX_BATCH, r.prefill, r.alloc);
    RunGranted(m, Prefill, r.prefill, r.alloc);
    PrefillParts(be, st);
  }

  lemma PrefillParts(be: Backend, st: St)
    ensures var p := RetrySwapInRequests(st);
            var q := RetryDeferredPrefill(p.st);
            var r := AdmitWaitingPrefill(q.st);
            var o := RunPrefillBatch(be, MAX_BATCH, r.st);
            PrefillHalf(be, st) == Phase(o.st, o.out, p.progress || q.progress || r.progress || o.progress)
  {
    hide Sieve, Admit, RunBatches, Reverse;
  }

  /** No step takes back a call. */
  lemma TurnCalls(be: Backend, w: World)
    requires CanWork(w)
    ensures Work(be, w).st.alloc.policy == w.st.alloc.policy && Work(be, w).st.alloc.calls >= w.st.alloc.calls
  {
    hide DecodeHalf, PrefillHalf, SettleHalf, Work, Worker.Batch, Emit, PopOne, St.Idle, Refused, Ids, Chosen;
    match w.pc {
      case Head => WorkHead(be, w);
      case Draining(k) => WorkDraining(be, w); if w.inbox != [] { PopFields(w, Draining(k + 1)); }
      case Decoding =>
        WorkDecoding(be, w);
        DecodeHalfOrder(be, w.st);
        BatchFields(w, DecodeHalf(be, w.st), EmitDecode);
      case Prefilling =>
        WorkPrefilling(be, w);
        PrefillHalfOrder(be, w.st);
        BatchFields(w, PrefillHalf(be, w.st), EmitPrefill);
      case Settling => WorkSettling(be, w); SettleCalls(w.st, w.progress);
      case Parked => WorkParked(be, w); if w.inbox != [] { PopFields(w, Head); }
      case _ =>
        WorkEmitting(be, w);
        BatchFields(w, Phase(w.st, [], false), if w.pc.EmitDecode? then Pc.Prefilling else Settling);
    }
  }

  lemma SettleCalls(st: St, progress: bool)
    ensures var p := SettleHalf(st, progress).st.alloc; p.policy == st.alloc.policy && p.calls >= st.alloc.calls
  {
    hide Refused, Chosen, SettleHalf, St.Internal, Ids;
    if progress || st.Internal() == [] || exists k :: 0 <= k < |st.swapOut| && !Refused(st.alloc, k) {
      SettleKeepsEverybody(st, progress);
    } else {
      var i := SomeFirstOnGpu(st.deferredDecode);
      var j := SomeFirstOnGpu(st.decode);
      SettleEvicts(st, i, j);
    }
  }

  lemma TurnGranted(be: Backend, w: World)
    requires Granting(w.st.alloc) && CanWork(w)
    ensures Granting(Work(be, w).st.alloc)
  {
    hide Granting, Work;
    TurnCalls(be, w);
    GrantingLater(w.st.alloc, Work(be, w).st.alloc);
  }

  lemma StepGranted(be: Backend, w: World, e: Event)
    requires Granting(w.st.alloc) && Enabled(w, e)
    ensures Granting(After(be, w, e).st.alloc)
  {
    hide Granting, Work;
    if e.Turn? { TurnGranted(be, w); }
  }

  // ---- what is still to come: with any allocator, each response is one less of it ----

  lemma {:induction false} SumOfBag(m: Model, p: seq<Req>, q: seq<Req>)
    requires CoreBag(p) == CoreBag(q)
    ensures LeftSum(m, p) == LeftSum(m, q)
    decreases |p|
  {
    hide CoreBag, OriginBag, Rest;
    if p == [] {
      if q != [] { HeadBags(q); NoneHeld(); }
    } else {
      HeadBags(p);
      var k := IndexOfCore(q, p[0].ToCore());
      TakeOutBags(q, k, q[k]);
      HeadBags([q[k]]);
      NoneHeld();
      assert [q[k]][1..] == [];
      Cancel(multiset{q[k].ToCore()}, CoreBag(p[1..]), CoreBag(q[..k] + q[k + 1..]));
      SumOfBag(m, p[1..], q[..k] + q[k + 1..]);
      LeftSumConcat(m, q[..k], q[k + 1..]);
      LeftSumConcat(m, q[..k], q[k..]);
      assert q == q[..k] + q[k..] && q[k..][1..] == q[k + 1..];
    }
  }

  lemma SameHeldSameSum(m: Model, st: St, st': St)
    requires Held(st') == Held(st)
    ensures LeftSum(m, st'.All()) == LeftSum(m, st.All())
  {
    hide CoreBag, OriginBag, Held, LeftSum;
    HeldIsAll(st);
    HeldIsAll(st');
    SumOfBag(m, st'.All(), st.All());
  }

  lemma SumOfAll(m: Model, st: St)
    ensures LeftSum(m, st.All())
         == LeftSum(m, st.waiting) + LeftSum(m, st.deferredPrefill) + LeftSum(m, st.prefill) + LeftSum(m, st.decode)
            + LeftSum(m, st.deferredDecode) + LeftSum(m, st.swapOut) + LeftSum(m, st.finish)
  {
    hide LeftSum;
    var a, b, c, d, e, f, g := st.waiting, st.deferredPrefill, st.prefill, st.decode, st.deferredDecode,
        st.swapOut, st.finish;
    LeftSumConcat(m, a, b);
    LeftSumConcat(m, a + b, c);
    LeftSumConcat(m, a + b + c, d);
    LeftSumConcat(m, a + b + c + d, e);
    LeftSumConcat(m, a + b + c + d + e, f);
    LeftSumConcat(m, a + b + c + d + e + f, g);
  }

  lemma TurnCounts(m: Model, kind: Kind, r: Req, a: Alloc)
    requires Fits(a.policy.Bump?, Source(kind), r)
    ensures var t := Enter(kind, a, r);
            var (s, resp) := Complete(kind, t.req, ReplyTo(m, kind, t.req));
            && t.alloc.policy == a.policy && Left(m, t.req) == Left(m, r)
            && (t.ok ==> Left(m, r) == 1 + Left(m, s))
  {
    EnterFits(kind, a, r);
    var t := Enter(kind, a, r);
    hide Rest, Complete, ReplyTo, Enter;
    if t.ok { CompleteAdvances(m, a.policy.Bump?, kind, t.req); }
  }

  lemma {:induction false} RunCounts(m: Model, kind: Kind, q: seq<Req>, a: Alloc)
    requires AllFit(a.policy.Bump?, Source(kind), q)
    ensures var o := RunEach(m, kind, q, a);
            LeftSum(m, o.alive) + LeftSum(m, o.dead) + LeftSum(m, o.deferred) + |o.out| == LeftSum(m, q)
  {
    hide Enter, Complete, ReplyTo, Fits, Left;
    if q != [] {
      TurnCounts(m, kind, q[0], a);
      var t := Enter(kind, a, q[0]);
      RunCounts(m, kind, q[1..], t.alloc);
      var e := RunEach(m, kind, q[1..], t.alloc);
      var (s, resp) := Complete(kind, t.req, ReplyTo(m, kind, t.req));
      SumCons(m, t.req, e.deferred);
      SumCons(m, s, if resp.finished then e.dead else e.alive);
    }
  }

  lemma SumCons(m: Model, r: Req, q: seq<Req>)
    ensures LeftSum(m, [r] + q) == Left(m, r) + LeftSum(m, q)
  {
    assert ([r] + q)[1..] == q;
  }

  lemma RunDecodeCounts(be: Backend, m: Model, st: St)
    requires Placed(st) && Pointwise(be, m)
    ensures var p := RunDecodeBatch(be, MAX_BATCH, st);
            LeftSum(m, p.st.All()) + |p.out| == LeftSum(m, st.All())
  {
    RunCounts(m, Decode, st.decode, st.alloc);
    hide RunEach, RunBatches, Pointwise, Placed, LeftSum, St.All;
    RunBatchesIsRunEach(be, m, Decode, MAX_BATCH, st.decode, st.alloc);
    var o := RunEach(m, Decode, st.decode, st.alloc);
    SumOfAll(m, st);
    SumOfAll(m, RunDecodeBatch(be, MAX_BATCH, st).st);
    LeftSumConcat(m, st.finish, o.dead);
    LeftSumConcat(m, st.deferredDecode, o.deferred);
  }

  lemma RunPrefillCounts(be: Backend, m: Model, st: St)
    requires Placed(st) && Pointwise(be, m)
    ensures var p := RunPrefillBatch(be, MAX_BATCH, st);
            LeftSum(m, p.st.All()) + |p.out| == LeftSum(m, st.All())
  {
    RunCounts(m, Prefill, st.prefill, st.alloc);
    assert LeftSum(m, []) == 0;
    hide RunEach, RunBatches, Pointwise, Placed, LeftSum, St.All;
    RunBatchesIsRunEach(be, m, Prefill, MAX_BATCH, st.prefill, st.alloc);
    PrefillAsksNothing(be, MAX_BATCH, st.prefill, st.alloc);
    var o := RunEach(m, Prefill, st.prefill, st.alloc);
    SumOfAll(m, st);
    SumOfAll(m, RunPrefillBatch(be, MAX_BATCH, st).st);
    LeftSumConcat(m, st.finish, o.dead);
    LeftSumConcat(m, st.decode, o.alive);
  }

  /** With any allocator: the responses of the decode half are what the requests have less to come. */
  lemma DecodeHalfCounts(be: Backend, m: Model, st: St)
    requires Placed(st) && Pointwise(be, m)
    ensures var p := DecodeHalf(be, st); LeftSum(m, p.st.All()) + |p.out| == LeftSum(m, st.All())
  {
    hide Held, Submitted, Placed, Pointwise, RetrySwapInRequests, RetryDeferredDecode, RunDecodeBatch, LeftSum, St.All;
    SwapInHeld(st);
    var p := RetrySwapInRequests(st).st;
    RetryDecodeHeld(p);
    var q := RetryDeferredDecode(p).st;
    SameHeldSameSum(m, st, q);
    RunDecodeCounts(be, m, q);
    assert RetrySwapInRequests(st).out == [] by { SwapInSilent(st); }
    assert DecodeHalf(be, st).out == RunDecodeBatch(be, MAX_BATCH, q).out;
  }

  lemma PrefillHalfCounts(be: Backend, m: Model, st: St)
    requires Placed(st) && Pointwise(be, m)
    ensures var p := PrefillHalf(be, st); LeftSum(m, p.st.All()) + |p.out| == LeftSum(m, st.All())
  {
    hide Held, Submitted, Placed, Pointwise, RetrySwapInRequests, RetryDeferredPrefill, AdmitWaitingPrefill, LeftSum;
    hide RunPrefillBatch, St.All, PrefillHalf;
    SwapInHeld(st);
    var p := RetrySwapInRequests(st).st;
    RetryPrefillHeld(p);
    var q := RetryDeferredPrefill(p).st;
    AdmitHeld(q);
    var r := AdmitWaitingPrefill(q).st;
    SameHeldSameSum(m, st, r);
    RunPrefillCounts(be, m, r);
    PrefillParts(be, st);
  }

  lemma SettleHalfCounts(m: Model, st: St, progress: bool)
    requires Placed(st)
    ensures LeftSum(m, SettleHalf(st, progress).st.All()) == LeftSum(m, st.All())
  {
    hide Held, Submitted, Placed, SettleHalf, LeftSum, St.All;
    SettleHalfHeld(st, progress);
    SameHeldSameSum(m, st, SettleHalf(st, progress).st);
  }

  // ---- iterations that have been granted everything they asked for ----

  /** If this iteration has moved nothing so far, there was nothing to be moved. An iteration during which the
      allocator has refused something need not be like that. */
  ghost predicate Ripe(w: World) {
    && (w.pc.EmitDecode? || w.pc.Prefilling? ==>
          w.progress || (w.st.decode == [] && w.st.deferredDecode == [] && w.st.swapOut == []))
    && (w.pc.EmitPrefill? || w.pc.Settling? ==> w.progress || w.st.Idle())
  }

  lemma IdleWhen(st: St)
    requires st.waiting == [] && st.deferredPrefill == [] && st.prefill == []
    requires st.decode == [] && st.deferredDecode == [] && st.swapOut == []
    ensures st.Idle()
  {}

  lemma IdleSettles(st: St)
    requires st.Idle()
    ensures var p := SettleHalf(st, false); p.st.Idle() && !p.progress
  {}

  lemma RipePrefilling(be: Backend, m: Model, w: World)
    requires Pointwise(be, m) && Granting(w.st.alloc) && w.pc.Prefilling? && Ripe(w)
    ensures Ripe(Work(be, w))
  {
    hide Pointwise, Granting, PrefillHalf, Work, Worker.Batch, St.Idle;
    WorkPrefilling(be, w);
    PrefillHalfGranted(be, m, w.st);
    BatchFields(w, PrefillHalf(be, w.st), EmitPrefill);
    var p := PrefillHalf(be, w.st);
    if !w.progress && !p.progress { IdleWhen(p.st); }
  }

  /** Every iteration that begins after the last refusal is like that. */
  lemma RipeTurn(be: Backend, m: Model, w: World)
    requires Pointwise(be, m) && Granting(w.st.alloc) && CanWork(w) && Ripe(w)
    ensures Ripe(Work(be, w))
  {
    hide Pointwise, Granting, DecodeHalf, SettleHalf, Work, Worker.Batch, Emit, PopOne, St.Idle;
    match w.pc {
      case Head => WorkHead(be, w);
      case Draining(k) => WorkDraining(be, w); if w.inbox != [] { PopFields(w, Draining(k + 1)); }
      case Decoding =>
        WorkDecoding(be, w);
        DecodeHalfGranted(be, m, w.st);
        BatchFields(w, DecodeHalf(be, w.st), EmitDecode);
      case Prefilling => RipePrefilling(be, m, w);
      case Settling => WorkSettling(be, w);
      case Parked => WorkParked(be, w); if w.inbox != [] { PopFields(w, Head); }
      case _ =>
        WorkEmitting(be, w);
        BatchFields(w, Phase(w.st, [], false), if w.pc.EmitDecode? then Pc.Prefilling else Settling);
    }
  }
}
