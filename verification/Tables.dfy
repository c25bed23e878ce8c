/** Where the allocator's blocks end up, and that a cached token never moves. */
module Tables {
  import opened Types
  import opened Allocation
  import opened Backends
  import opened SchedulerModel
  import opened Placement
  import opened Bags
  import opened Phases
  import opened Worker
  import opened WorkerInvariants
  import opened Theorems

  // ---- one layer of one request, from a moment on ----

  /** The request `id` has, in this layer, at least these blocks in front and this many cached tokens. */
  datatype Mark = Mark(id: nat, layer: nat, table: seq<int>, cached: int)

  ghost predicate Keeps(k: Mark, r: Req) {
    r.id == k.id && r.state != Finished ==>
      k.layer < |r.kv| && k.table <= r.kv[k.layer].table && k.cached <= r.kv[k.layer].numTokens
  }

  ghost predicate AllKeep(k: Mark, q: seq<Req>) { forall i :: 0 <= i < |q| ==> Keeps(k, q[i]) }

  lemma CallKeeps(k: Mark, op: Op, a: Alloc, r: Req)
    requires a.policy.Bump? && Keeps(k, r) && r.state != Finished
    ensures Keeps(k, Call(op, a, r).req) && Call(op, a, r).alloc.policy == a.policy
    ensures Call(op, a, r).req.state != Finished && Call(op, a, r).req.id == r.id
  {
    var n := WhatACallDoes(op, a, r);
    hide Call;
  }

  lemma AttemptKeeps(k: Mark, g: Gate, a: Alloc, r: Req)
    requires a.policy.Bump? && Keeps(k, r) && r.state != Finished
    ensures Keeps(k, Attempt(g, a, r).req) && Attempt(g, a, r).alloc.policy == a.policy
  {
    hide Call;
    CallKeeps(k, if g.AdmitDecode? then AllocDecode else if g.RetrySwapIn? then SwapIn else AllocPrefill, a, r);
  }

  lemma CompleteKeeps(k: Mark, kind: Kind, r: Req, reply: Resp)
    requires Fits(true, Inside(kind), r) && Keeps(k, r)
    ensures Keeps(k, Complete(kind, r, reply).0)
  {}

  lemma {:induction false} SieveKeeps(k: Mark, g: Gate, q: seq<Req>, a: Alloc)
    requires a.policy.Bump? && AllKeep(k, q) && Unfinished(q)
    ensures AllKeep(k, Sieve(g, q, a).yes) && AllKeep(k, Sieve(g, q, a).no)
  {
    hide Attempt, Keeps;
    if q != [] {
      AttemptKeeps(k, g, a, q[0]);
      SieveKeeps(k, g, q[1..], Attempt(g, a, q[0]).alloc);
    }
  }

  lemma {:induction false} AdmitKeeps(k: Mark, q: seq<Req>, a: Alloc)
    requires a.policy.Bump? && AllKeep(k, q) && Unfinished(q)
    ensures var s := Admit(q, a); AllKeep(k, s.yes) && AllKeep(k, s.no) && AllKeep(k, s.rest)
  {
    hide Attempt, Keeps;
    if q != [] {
      AttemptKeeps(k, AdmitPrefill, a, q[0]);
      AdmitKeeps(k, q[1..], Attempt(AdmitPrefill, a, q[0]).alloc);
    }
  }

  lemma {:induction false} ReverseKeeps(k: Mark, q: seq<Req>)
    requires AllKeep(k, q)
    ensures AllKeep(k, Reverse(q))
  {
    hide Keeps;
    if q != [] { ReverseKeeps(k, q[1..]); }
  }

  lemma {:induction false} FillKeeps(k: Mark, kind: Kind, w: nat, q: seq<Req>, a: Alloc)
    requires a.policy.Bump? && AllKeep(k, q) && Unfinished(q)
    ensures var f := FillBatch(kind, w, q, a);
            AllKeep(k, f.batch) && AllKeep(k, f.deferred) && AllKeep(k, f.rest) && f.alloc.policy == a.policy
    decreases |q|
  {
    hide Attempt;
    if q != [] && w > 0 {
      AttemptKeeps(k, AdmitDecode, a, q[0]);
      var t := Enter(kind, a, q[0]);
      assert Keeps(k, t.req);
      hide Keeps, Enter;
      FillKeeps(k, kind, if t.ok then w - 1 else w, q[1..], t.alloc);
    }
  }

  lemma {:induction false} CompleteFromKeeps(k: Mark, kind: Kind, batch: seq<Req>, replies: seq<Resp>, i: nat)
    requires i <= |batch| && AllFit(true, Inside(kind), batch) && AllKeep(k, batch)
    ensures var c := CompleteFrom(kind, batch, replies, i); AllKeep(k, c.alive) && AllKeep(k, c.dead)
    decreases |batch| - i
  {
    hide Keeps, Fits, Complete;
    if i < |batch| {
      CompleteKeeps(k, kind, batch[i], ReplyAt(replies, i, batch[i]));
      CompleteFromKeeps(k, kind, batch, replies, i + 1);
    }
  }

  lemma {:induction false} RunKeeps(k: Mark, be: Backend, kind: Kind, w: nat, q: seq<Req>, a: Alloc)
    requires w > 0 && a.policy.Bump? && AllFit(true, Source(kind), q) && AllKeep(k, q)
    ensures var o := RunBatches(be, kind, w, q, a); AllKeep(k, o.alive) && AllKeep(k, o.dead) && AllKeep(k, o.deferred)
    decreases |q|
  {
    if q != [] {
      FitUnfinished(true, Source(kind), q);
      hide Keeps, Fits, FillBatch, CompleteFrom;
      FillFits(kind, w, q, a);
      FillKeeps(k, kind, w, q, a);
      var f := FillBatch(kind, w, q, a);
      CompleteFromKeeps(k, kind, f.batch, be.Reply(kind, f.batch), 0);
      RunKeeps(k, be, kind, w, f.rest, f.alloc);
    }
  }

  lemma EvictKeeps(k: Mark, q: seq<Req>, a: Alloc)
    requires a.policy.Bump? && AllKeep(k, q) && Unfinished(q)
    ensures var e := EvictFrom(q, a); AllKeep(k, e.q) && AllKeep(k, e.victim) && e.alloc.policy == a.policy
  {
    hide Call;
    var i := FirstVictim(q);
    if i < |q| { CallKeeps(k, SwapOut, a, q[i]); }
  }

  // ---- the scheduler's queues ----

  ghost predicate StKeeps(k: Mark, st: St) {
    && AllKeep(k, st.waiting) && AllKeep(k, st.deferredPrefill) && AllKeep(k, st.prefill) && AllKeep(k, st.decode)
    && AllKeep(k, st.deferredDecode) && AllKeep(k, st.swapOut) && AllKeep(k, st.finish)
  }

  lemma QueuesUnfinished(st: St)
    requires Placed(st)
    ensures Unfinished(st.waiting) && Unfinished(st.deferredPrefill) && Unfinished(st.prefill) && Unfinished(st.decode)
    ensures Unfinished(st.deferredDecode) && Unfinished(st.swapOut)
  {}

  lemma SwapInKeeps(k: Mark, st: St)
    requires Placed(st) && st.alloc.policy.Bump? && StKeeps(k, st)
    ensures var s := RetrySwapInRequests(st).st; Placed(s) && s.alloc.policy == st.alloc.policy && StKeeps(k, s)
  {
    QueuesUnfinished(st);
    hide Placed, Sieve, Keeps, Unfinished;
    SwapInPlaced(st);
    SieveKeeps(k, RetrySwapIn, st.swapOut, st.alloc);
  }

  lemma RetryDecodeKeeps(k: Mark, st: St)
    requires Placed(st) && StKeeps(k, st)
    ensures var s := RetryDeferredDecode(st).st; Placed(s) && s.alloc == st.alloc && StKeeps(k, s)
  {
    RetryDecodePlaced(st);
    assert Unfinished(st.deferredDecode) by { QueuesUnfinished(st); }
    hide Placed;
    assert AllKeep(k, Readied(st.deferredDecode));
  }

  lemma RunDecodeKeeps(k: Mark, be: Backend, st: St)
    requires Placed(st) && st.alloc.policy.Bump? && StKeeps(k, st)
    ensures StKeeps(k, RunDecodeBatch(be, MAX_BATCH, st).st)
  {
    RunKeeps(k, be, Decode, MAX_BATCH, st.decode, st.alloc);
    hide RunBatches, Keeps, Placed;
  }

  lemma RunPrefillKeeps(k: Mark, be: Backend, st: St)
    requires Placed(st) && st.alloc.policy.Bump? && StKeeps(k, st)
    ensures StKeeps(k, RunPrefillBatch(be, MAX_BATCH, st).st)
  {
    RunKeeps(k, be, Prefill, MAX_BATCH, st.prefill, st.alloc);
    hide RunBatches, Keeps, Placed;
  }

  lemma RetryPrefillKeeps(k: Mark, st: St)
    requires Placed(st) && st.alloc.policy.Bump? && StKeeps(k, st)
    ensures var s := RetryDeferredPrefill(st).st; Placed(s) && s.alloc.policy == st.alloc.policy && StKeeps(k, s)
  {
    QueuesUnfinished(st);
    RetryPrefillHeld(st);
    hide Placed, Sieve, Keeps, Unfinished, Reverse;
    SieveKeeps(k, RetryPrefill, st.deferredPrefill, st.alloc);
    ReverseKeeps(k, Sieve(RetryPrefill, st.deferredPrefill, st.alloc).yes);
  }

  lemma AdmitWaitingKeeps(k: Mark, st: St)
    requires Placed(st) && st.alloc.policy.Bump? && StKeeps(k, st)
    ensures var s := AdmitWaitingPrefill(st).st; Placed(s) && s.alloc.policy == st.alloc.policy && StKeeps(k, s)
  {
    QueuesUnfinished(st);
    AdmitHeld(st);
    hide Placed, Admit, Keeps, Unfinished;
    AdmitKeeps(k, st.waiting, st.alloc);
  }

  lemma DecodeHalfKeeps(k: Mark, be: Backend, st: St)
    requires Placed(st) && st.alloc.policy.Bump? && StKeeps(k, st)
    ensures StKeeps(k, DecodeHalf(be, st).st)
  {
    hide Placed, StKeeps, RetrySwapInRequests, RetryDeferredDecode, RunDecodeBatch;
    SwapInKeeps(k, st);
    var p := RetrySwapInRequests(st).st;
    RetryDecodeKeeps(k, p);
    RunDecodeKeeps(k, be, RetryDeferredDecode(p).st);
  }

  lemma PrefillHalfKeeps(k: Mark, be: Backend, st: St)
    requires Placed(st) && st.alloc.policy.Bump? && StKeeps(k, st)
    ensures StKeeps(k, PrefillHalf(be, st).st)
  {
    hide Placed, StKeeps, RetrySwapInRequests, RetryDeferredPrefill, AdmitWaitingPrefill, RunPrefillBatch;
    SwapInKeeps(k, st);
    var p := RetrySwapInRequests(st).st;
    RetryPrefillKeeps(k, p);
    var q := RetryDeferredPrefill(p).st;
    AdmitWaitingKeeps(k, q);
    RunPrefillKeeps(k, be, AdmitWaitingPrefill(q).st);
  }

  lemma SettleHalfKeeps(k: Mark, st: St, progress: bool)
    requires Placed(st) && st.alloc.policy.Bump? && StKeeps(k, st)
    ensures StKeeps(k, SettleHalf(st, progress).st)
  {
    hide Placed, RetrySwapInRequests, EvictFrom, Keeps, St.Idle;
    SwapInKeeps(k, st);
    var p := RetrySwapInRequests(st).st;
    QueuesUnfinished(p);
    EvictKeeps(k, p.deferredDecode, p.alloc);
    EvictKeeps(k, p.decode, EvictFrom(p.deferredDecode, p.alloc).alloc);
  }

  // ---- every run ----

  ghost predicate Marked(k: Mark, w: World) {
    && StKeeps(k, w.st) && Arrived(w.arrived, k.id) && forall i :: 0 <= i < |w.inbox| ==> w.inbox[i].id != k.id
  }

  lemma PopMarked(k: Mark, w: World, pc: Pc)
    requires Marked(k, w) && w.inbox != []
    ensures Marked(k, PopOne(w, pc))
  {}

  lemma SameMarked(k: Mark, w: World, v: World)
    requires Marked(k, w) && v.inbox == w.inbox && v.arrived == w.arrived && StKeeps(k, v.st)
    ensures Marked(k, v)
  {}

  lemma StoppedMarked(k: Mark, w: World)
    requires Marked(k, w)
    ensures Marked(k, w.(st := w.st.(running := false), pc := Head))
  {
    hide Keeps;
  }

  lemma MarkedKeeps(k: Mark, w: World)
    requires Marked(k, w)
    ensures StKeeps(k, w.st)
  {}

  lemma TurnMarked(k: Mark, be: Backend, w: World)
    requires Queued(w) && w.st.alloc.policy.Bump? && Marked(k, w) && CanWork(w)
    ensures Marked(k, Work(be, w))
  {
    hide Queued, Placed, Marked, StKeeps, DecodeHalf, PrefillHalf, SettleHalf, Work, Worker.Batch, Emit, PopOne;
    hide St.Idle;
    assert Placed(w.st) by { QueuedPlaced(w); }
    MarkedKeeps(k, w);
    var v := Work(be, w);
    match w.pc {
      case Head => WorkHead(be, w); SameMarked(k, w, v);
      case Draining(n) =>
        WorkDraining(be, w);
        if n < MAX_BATCH && w.inbox != [] { PopMarked(k, w, Draining(n + 1)); } else { SameMarked(k, w, v); }
      case Decoding =>
        WorkDecoding(be, w);
        DecodeHalfKeeps(k, be, w.st);
        BatchFields(w, DecodeHalf(be, w.st), EmitDecode);
        SameMarked(k, w, v);
      case Prefilling =>
        WorkPrefilling(be, w);
        PrefillHalfKeeps(k, be, w.st);
        BatchFields(w, PrefillHalf(be, w.st), EmitPrefill);
        SameMarked(k, w, v);
      case Settling =>
        WorkSettling(be, w);
        SettleHalfKeeps(k, w.st, w.progress);
        SameMarked(k, w, v);
      case Parked =>
        WorkParked(be, w);
        if w.inbox != [] { PopMarked(k, w, Head); } else { StoppedMarked(k, w); }
      case _ =>
        WorkEmitting(be, w);
        BatchFields(w, Phase(w.st, [], false), if w.pc.EmitDecode? then Pc.Prefilling else Settling);
        SameMarked(k, w, v);
    }
  }

  lemma StepMarked(k: Mark, be: Backend, w: World, e: Event)
    requires Queued(w) && w.st.alloc.policy.Bump? && Marked(k, w) && Enabled(w, e)
    ensures Marked(k, After(be, w, e))
  {
    if e.Turn? {
      hide *;
      EnabledTurn(w);
      AfterTurn(be, w);
      TurnMarked(k, be, w);
    } else if e.Push? {
      hide Keeps;
      var i :| 0 <= i < |w.arrived| && w.arrived[i].id == k.id;
      assert (w.arrived + [e.req])[i].id == k.id;
    } else {
      hide Keeps;
    }
  }

  lemma {:induction false} RunMarked(k: Mark, be: Backend, w: World, events: seq<Event>, w': World)
    requires Sound(w) && w.st.alloc.policy.Bump? && Marked(k, w) && Worker.Run(be, w, events, w')
    ensures Marked(k, w')
    decreases |events|
  {
    hide Queued, Conserved, Streams, Unshared, Marked, After, Enabled;
    if events != [] {
      SoundStep(be, w, events[0]);
      StepMarked(k, be, w, events[0]);
      RunMarked(k, be, After(be, w, events[0]), events[1..], w');
    }
  }

  /** From the moment token t of a layer of a request is cached until the request is finished, it stays cached and
      its block and its place in the block stay the same, whatever is granted, refused, deferred or swapped. */
  lemma AddressNeverChanges(be: Backend, policy: Policy, w: World, i: nat, l: nat, t: nat, events: seq<Event>,
                            w': World, j: nat)
    requires Reachable(be, policy, w) && policy.Bump? && Worker.Run(be, w, events, w')
    requires i < |w.st.All()| && l < |w.st.All()[i].kv| && t < w.st.All()[i].kv[l].numTokens
    requires j < |w'.st.All()| && w'.st.All()[j].id == w.st.All()[i].id && w'.st.All()[j].state != Finished
    ensures var r, r' := w.st.All()[i], w'.st.All()[j];
            && t / 16 < |r.kv[l].table| && l < |r'.kv| && t < r'.kv[l].numTokens && t / 16 < |r'.kv[l].table|
            && r'.kv[l].table[t / 16] == r.kv[l].table[t / 16]
  {
    hide Reachable, Queued, Conserved, Streams, Unshared, St.All;
    var r := w.st.All()[i];
    var k := Mark(r.id, l, r.kv[l].table, r.kv[l].numTokens);
    ReachableSound(be, policy, w);
    ReachableAddressDefined(be, policy, w, i, l, t);
    StartsMarked(be, policy, w, i, l);
    RunMarked(k, be, w, events, w');
    assert Keeps(k, w'.st.All()[j]) by { AllOfThem(k, w'.st, j); }
  }

  lemma AllOfThem(k: Mark, st: St, j: nat)
    requires StKeeps(k, st) && j < |st.All()|
    ensures Keeps(k, st.All()[j])
  {
    hide Keeps;
  }

  /** Nobody else in the system has this id. */
  lemma OnlyOne(be: Backend, policy: Policy, w: World, i: nat)
    requires Reachable(be, policy, w) && i < |w.st.All()|
    ensures forall j :: 0 <= j < |w.st.All()| && j != i ==> w.st.All()[j].id != w.st.All()[i].id
    ensures forall j :: 0 <= j < |w.inbox| ==> w.inbox[j].id != w.st.All()[i].id
    ensures Arrived(w.arrived, w.st.All()[i].id)
  {
    hide Reachable, Queued, Conserved, Streams, Unshared, St.All;
    var all, n := w.st.All(), |w.inbox|;
    ReachableSound(be, policy, w);
    assert Everything(w) == w.inbox + all;
    var a := ArrivalOf(w, n + i);
    forall j | 0 <= j < |all| && j != i
      ensures all[j].id != all[i].id
    {
      DifferentIds(be, policy, w, n + i, n + j);
    }
    forall j | 0 <= j < n
      ensures w.inbox[j].id != all[i].id
    {
      DifferentIds(be, policy, w, n + i, j);
    }
  }

  lemma StartsMarked(be: Backend, policy: Policy, w: World, i: nat, l: nat)
    requires Reachable(be, policy, w) && i < |w.st.All()| && l < |w.st.All()[i].kv|
    ensures var r := w.st.All()[i]; Marked(Mark(r.id, l, r.kv[l].table, r.kv[l].numTokens), w)
  {
    hide Reachable, St.All;
    var all := w.st.All();
    var k := Mark(all[i].id, l, all[i].kv[l].table, all[i].kv[l].numTokens);
    OnlyOne(be, policy, w, i);
    assert Keeps(k, all[i]);
    EachQueue(k, w.st);
  }

  lemma EachQueue(k: Mark, st: St)
    requires AllKeep(k, st.All())
    ensures StKeeps(k, st)
  {
    hide Keeps;
    hide AllKeep;
    var a, b, c, d, e, f, g := st.waiting, st.deferredPrefill, st.prefill, st.decode, st.deferredDecode,
        st.swapOut, st.finish;
    Both(k, a + b + c + d + e + f, g);
    Both(k, a + b + c + d + e, f);
    Both(k, a + b + c + d, e);
    Both(k, a + b + c, d);
    Both(k, a + b, c);
    Both(k, a, b);
  }

  lemma Both(k: Mark, p: seq<Req>, q: seq<Req>)
    requires AllKeep(k, p + q)
    ensures AllKeep(k, p) && AllKeep(k, q)
  {
    hide Keeps;
    assert forall i :: 0 <= i < |p| ==> (p + q)[i] == p[i];
    assert forall i :: 0 <= i < |q| ==> (p + q)[|p| + i] == q[i];
  }
}
