/** What holds at every point of every run of the scheduler thread. */
module WorkerInvariants {
  import opened Types
  import opened Allocation
  import opened Backends
  import opened SchedulerModel
  import opened Placement
  import opened Bags
  import opened Batching
  import opened Ledger
  import opened Paging
  import opened Phases
  import opened Worker

  ghost predicate Queued(w: World) {
    && Placed(w.st)
    && AllFit(w.st.alloc.policy.Bump?, Place.Waiting, w.inbox)
    && (w.st.paused ==> !w.pc.Draining? && !w.pc.Parked?)
    && (w.pc.Parked? ==> w.st.Idle())
  }

  ghost predicate Conserved(w: World) {
    && OriginBag(w.inbox) + Submitted(w.st) == OriginBag(w.arrived)
    && |w.inbox| <= |w.arrived| && w.inbox == w.arrived[|w.arrived| - |w.inbox|..]
    && forall i, j :: 0 <= i < j < |w.arrived| ==> w.arrived[i].id != w.arrived[j].id
  }

  ghost predicate Streams(w: World) {
    && w.log == w.taken + w.responses + w.outbox
    && (w.outbox != [] ==> w.owesSignal)
    && (w.owesSignal ==> w.pc.EmitDecode? || w.pc.EmitPrefill?)
  }

  ghost predicate Arrived(arrived: seq<Req>, id: nat) {
    exists i :: 0 <= i < |arrived| && arrived[i].id == id
  }

  ghost predicate AllArrived(arrived: seq<Req>, out: seq<Resp>) {
    forall k :: 0 <= k < |out| ==> Arrived(arrived, out[k].id)
  }

  /** Every response so far answers a request that has arrived. */
  ghost predicate Known(w: World) { AllArrived(w.arrived, w.log) }

  ghost predicate Accounted(m: Model, w: World) {
    InBalance(m, w.st, CoreBag(w.inbox), w.log) && Known(w)
  }

  ghost predicate Unshared(w: World) { w.st.alloc.policy.Bump? ==> NoSharing(w.st) }

  // ---- queues ----

  lemma PopQueued(w: World, pc: Pc)
    requires Queued(w) && w.inbox != [] && !pc.Parked? && !w.st.paused
    ensures Queued(PopOne(w, pc)) && PopOne(w, pc).st.alloc == w.st.alloc
  {
    hide Fits;
  }

  lemma BatchQueued(w: World, p: Phase, pc: Pc)
    requires Queued(w) && Placed(p.st) && p.st.alloc.policy == w.st.alloc.policy && !pc.Parked? && !pc.Draining?
    ensures Queued(Batch(w, p, pc)) && Batch(w, p, pc).st == p.st
  {
    hide Fits, Placed;
  }

  lemma QueuedTurn(be: Backend, w: World)
    requires Queued(w) && CanWork(w)
    ensures Queued(Work(be, w)) && Work(be, w).st.alloc.policy == w.st.alloc.policy
  {
    hide Fits, DecodeHalf, PrefillHalf, SettleHalf, AllFit, Placed, Work, Batch, Emit, PopOne, St.Idle;
    match w.pc {
      case Head => WorkHead(be, w);
      case Draining(k) =>
        WorkDraining(be, w);
        if k < MAX_BATCH && w.inbox != [] { PopQueued(w, Draining(k + 1)); }
      case Decoding =>
        WorkDecoding(be, w);
        DecodeHalfPlaced(be, w.st);
        BatchQueued(w, DecodeHalf(be, w.st), EmitDecode);
      case Prefilling =>
        WorkPrefilling(be, w);
        PrefillHalfPlaced(be, w.st);
        BatchQueued(w, PrefillHalf(be, w.st), EmitPrefill);
      case Settling =>
        WorkSettling(be, w);
        SettleHalfPlaced(w.st, w.progress);
        SettledIdle(w.st, w.progress);
      case Parked =>
        WorkParked(be, w);
        if w.inbox != [] { PopQueued(w, Head); } else { StoppedPlaced(w.st); }
      case _ =>
        WorkEmitting(be, w);
        EmitQueued(w, if w.pc.EmitDecode? then Pc.Prefilling else Settling);
    }
  }

  lemma EmitQueued(w: World, pc: Pc)
    requires Queued(w) && !w.pc.Parked? && !w.pc.Draining? && !pc.Parked? && !pc.Draining?
    ensures Queued(Emit(w, pc)) && Emit(w, pc).st == w.st
  {
    hide AllFit, Placed;
  }

  lemma StoppedPlaced(st: St)
    requires Placed(st)
    ensures Placed(st.(running := false))
  {
    hide Fits;
  }

  lemma SettledIdle(st: St, progress: bool)
    ensures var s := SettleHalf(st, progress).st; s.Idle() ==> !s.paused
  {
    hide RetrySwapInRequests, TrySwapOutVictim;
  }

  lemma QueuedStep(be: Backend, w: World, e: Event)
    requires Queued(w) && Enabled(w, e)
    ensures Queued(After(be, w, e)) && After(be, w, e).st.alloc.policy == w.st.alloc.policy
  {
    if e.Turn? {
      hide *;
      QueuedTurn(be, w) by { assert CanWork(w) by { EnabledTurn(w); } }
      AfterTurn(be, w);
    } else if e.Push? {
      assert Fits(w.st.alloc.policy.Bump?, Place.Waiting, e.req);
    }
  }

  lemma EnabledTurn(w: World)
    requires Enabled(w, Turn)
    ensures CanWork(w)
  {}

  lemma AfterTurn(be: Backend, w: World)
    requires Enabled(w, Turn) && CanWork(w)
    ensures After(be, w, Turn) == Work(be, w)
  {}

  // ---- conservation ----

  lemma PopBags(w: World, pc: Pc)
    requires w.inbox != []
    ensures var w' := PopOne(w, pc);
            && OriginBag(w'.inbox) + Submitted(w'.st) == OriginBag(w.inbox) + Submitted(w.st)
            && CoreBag(w'.inbox) + Held(w'.st) == CoreBag(w.inbox) + Held(w.st)
  {
    hide CoreBag, OriginBag;
    HeadBags(w.inbox);
    JoinBags(w.st.waiting, [w.inbox[0]]);
    HeadBags([w.inbox[0]]);
    NoneHeld();
    assert [w.inbox[0]][1..] == [];
    PopSum(CoreBag(w.inbox[1..]), multiset{w.inbox[0].ToCore()}, CoreBag(w.st.waiting), CoreBag(w.st.deferredPrefill),
           CoreBag(w.st.prefill), CoreBag(w.st.decode), CoreBag(w.st.deferredDecode), CoreBag(w.st.swapOut),
               CoreBag(w.st.finish));
    PopSum(OriginBag(w.inbox[1..]), multiset{w.inbox[0].ToOrigin()}, OriginBag(w.st.waiting),
        OriginBag(w.st.deferredPrefill),
           OriginBag(w.st.prefill), OriginBag(w.st.decode), OriginBag(w.st.deferredDecode),
               OriginBag(w.st.swapOut), OriginBag(w.st.finish));
  }

  lemma PopSum<T>(rest: multiset<T>, x: multiset<T>, a: multiset<T>, b: multiset<T>, c: multiset<T>, d: multiset<T>,
                  e: multiset<T>, f: multiset<T>, g: multiset<T>)
    ensures rest + (a + x + b + c + d + e + f + g) == (x + rest) + (a + b + c + d + e + f + g)
  {}

  lemma QueuedPlaced(w: World)
    requires Queued(w)
    ensures Placed(w.st)
  {}

  lemma ConservedTurn(be: Backend, w: World)
    requires Queued(w) && Conserved(w) && CanWork(w)
    ensures Conserved(Work(be, w))
  {
    hide Queued, DecodeHalf, PrefillHalf, SettleHalf, Submitted, Held, Work, Conserved, Batch, Emit, PopOne, Placed;
    assert Placed(w.st) by { QueuedPlaced(w); }
    var w' := Work(be, w);
    match w.pc {
      case Head =>
        WorkHead(be, w);
        SameConserved(w, w');
      case Draining(k) =>
        WorkDraining(be, w);
        if k < MAX_BATCH && w.inbox != [] { PopConserved(w, Draining(k + 1)); } else { SameConserved(w, w'); }
      case Decoding =>
        WorkDecoding(be, w);
        DecodeHalfSubmitted(be, w.st);
        BatchFields(w, DecodeHalf(be, w.st), EmitDecode);
        SameConserved(w, w');
      case Prefilling =>
        WorkPrefilling(be, w);
        PrefillHalfSubmitted(be, w.st);
        BatchFields(w, PrefillHalf(be, w.st), EmitPrefill);
        SameConserved(w, w');
      case Settling =>
        WorkSettling(be, w);
        SettleHalfHeld(w.st, w.progress);
        SameConserved(w, w');
      case Parked =>
        WorkParked(be, w);
        if w.inbox != [] {
          PopConserved(w, Head);
        } else {
          RunningIrrelevant(w.st, false);
          SameConserved(w, w');
        }
      case _ =>
        var pc := if w.pc.EmitDecode? then Pc.Prefilling else Settling;
        WorkEmitting(be, w);
        BatchFields(w, Phase(w.st, [], false), pc);
        SameConserved(w, w');
    }
  }

  lemma SameConserved(w: World, w': World)
    requires Conserved(w) && w'.inbox == w.inbox && w'.arrived == w.arrived && Submitted(w'.st) == Submitted(w.st)
    ensures Conserved(w')
  {
    hide Submitted, OriginBag;
  }

  lemma PopConserved(w: World, pc: Pc)
    requires w.inbox != [] && Conserved(w)
    ensures Conserved(PopOne(w, pc))
  {
    hide OriginBag, CoreBag, Submitted, Held;
    PopBags(w, pc);
  }

  lemma RunningIrrelevant(st: St, b: bool)
    ensures Submitted(st.(running := b)) == Submitted(st) && Held(st.(running := b)) == Held(st)
  {}

  lemma ConservedStep(be: Backend, w: World, e: Event)
    requires Queued(w) && Conserved(w) && Enabled(w, e)
    ensures Conserved(After(be, w, e))
  {
    if e.Turn? {
      hide *;
      EnabledTurn(w);
      AfterTurn(be, w);
      ConservedTurn(be, w);
    } else if e.Push? {
      hide OriginBag, Submitted;
      JoinBags(w.inbox, [e.req]);
      JoinBags(w.arrived, [e.req]);
      var w' := After(be, w, e);
      PushSum(OriginBag(w.inbox), OriginBag([e.req]), Submitted(w.st));
      assert w'.inbox == w'.arrived[|w'.arrived| - |w'.inbox|..];
    } else {
      hide OriginBag;
      RunningIrrelevant(w.st, false);
    }
  }

  lemma PushSum<T>(a: multiset<T>, b: multiset<T>, c: multiset<T>)
    ensures (a + b) + c == (a + c) + b
  {}

  // ---- responses ----

  lemma BatchStreams(w: World, p: Phase, pc: Pc)
    requires Streams(w) && !w.pc.EmitDecode? && !w.pc.EmitPrefill? && (pc.EmitDecode? || pc.EmitPrefill?)
    ensures Streams(Batch(w, p, pc))
  {}

  lemma EmitStreams(w: World, pc: Pc)
    requires Streams(w) && (w.pc.EmitDecode? || w.pc.EmitPrefill?) && !pc.EmitDecode? && !pc.EmitPrefill?
    ensures Streams(Emit(w, pc))
  {
    if w.outbox != [] {
      assert w.outbox == [w.outbox[0]] + w.outbox[1..];
    }
  }

  lemma StreamsTurn(be: Backend, w: World)
    requires Streams(w) && CanWork(w)
    ensures Streams(Work(be, w))
  {
    hide DecodeHalf, PrefillHalf, SettleHalf, Batch, Emit, PopOne, Work, St.Idle;
    match w.pc {
      case Head => WorkHead(be, w);
      case Draining(k) => WorkDraining(be, w); if w.inbox != [] { PopFields(w, Draining(k + 1)); }
      case Decoding => WorkDecoding(be, w); BatchStreams(w, DecodeHalf(be, w.st), EmitDecode);
      case Prefilling => WorkPrefilling(be, w); BatchStreams(w, PrefillHalf(be, w.st), EmitPrefill);
      case EmitDecode => WorkEmitting(be, w); EmitStreams(w, Pc.Prefilling);
      case EmitPrefill => WorkEmitting(be, w); EmitStreams(w, Settling);
      case Settling => WorkSettling(be, w);
      case Parked => WorkParked(be, w); if w.inbox != [] { PopFields(w, Head); }
    }
  }

  lemma StreamsStep(be: Backend, w: World, e: Event)
    requires Streams(w) && Enabled(w, e)
    ensures Streams(After(be, w, e))
  {
    if e.Turn? {
      hide *;
      EnabledTurn(w);
      AfterTurn(be, w);
      StreamsTurn(be, w);
    } else if e.Take? {
      TakeStreams(be, w);
    }
  }

  lemma TakeStreams(be: Backend, w: World)
    requires Streams(w) && Enabled(w, Take)
    ensures Streams(After(be, w, Take))
  {
    assert w.responses == [w.responses[0]] + w.responses[1..];
  }

  // ---- the ledger ----

  /** Every core the system holds belongs to an arrived request. */
  lemma CoreKnown(w: World, c: Core)
    requires Conserved(w) && c in CoreBag(w.inbox) + Held(w.st)
    ensures Arrived(w.arrived, c.id)
  {
    var q := w.inbox + w.st.All();
    hide CoreBag, OriginBag, Held, Submitted;
    HeldIsAll(w.st);
    JoinBags(w.inbox, w.st.All());
    assert c in CoreBag(q) && OriginBag(q) == OriginBag(w.arrived);
    var k := IndexOfCore(q, c);
    InBag(q, k);
    var i := IndexOfOrigin(w.arrived, q[k].ToOrigin());
  }

  lemma IndexOfCore(q: seq<Req>, c: Core) returns (k: nat)
    requires c in CoreBag(q)
    ensures k < |q| && q[k].ToCore() == c
  {
    assert c in Cores(q);
    k :| k < |q| && Cores(q)[k] == c;
  }

  lemma IndexOfOrigin(q: seq<Req>, o: Origin) returns (k: nat)
    requires o in OriginBag(q)
    ensures k < |q| && q[k].ToOrigin() == o
  {
    assert o in Origins(q);
    k :| k < |q| && Origins(q)[k] == o;
  }

  /** A batch function only answers requests of its queue. */
  lemma {:induction false} OutFromQueue(m: Model, kind: Kind, q: seq<Req>, a: Alloc, k: nat)
    requires k < |RunEach(m, kind, q, a).out|
    ensures exists i :: 0 <= i < |q| && q[i].id == RunEach(m, kind, q, a).out[k].id
  {
    hide Enter, Complete, ReplyTo;
    var t := Enter(kind, a, q[0]);
    var n := if t.ok then 1 else 0;
    CompleteKeepsId(m, kind, q[0], a);
    if k < n {
      assert q[0].id == RunEach(m, kind, q, a).out[k].id;
    } else {
      OutFromQueue(m, kind, q[1..], t.alloc, k - n);
      var i :| 0 <= i < |q[1..]| && q[1..][i].id == RunEach(m, kind, q[1..], t.alloc).out[k - n].id;
      assert q[i + 1].id == q[1..][i].id;
    }
  }

  lemma CompleteKeepsId(m: Model, kind: Kind, r: Req, a: Alloc)
    ensures var t := Enter(kind, a, r);
            var (s, resp) := Complete(kind, t.req, ReplyTo(m, kind, t.req));
            s.id == r.id && resp.id == r.id
  {}

  lemma OutKnown(be: Backend, m: Model, kind: Kind, q: seq<Req>, a: Alloc, arrived: seq<Req>)
    requires Pointwise(be, m) && OriginBag(q) <= OriginBag(arrived)
    ensures AllArrived(arrived, RunBatches(be, kind, MAX_BATCH, q, a).out)
  {
    RunBatchesIsRunEach(be, m, kind, MAX_BATCH, q, a);
    hide RunEach, RunBatches, OriginBag, Pointwise;
    var out := RunEach(m, kind, q, a).out;
    forall k | 0 <= k < |out|
      ensures Arrived(arrived, out[k].id)
    {
      OutFromQueue(m, kind, q, a, k);
      var j :| 0 <= j < |q| && q[j].id == out[k].id;
      InBag(q, j);
      var i := IndexOfOrigin(arrived, q[j].ToOrigin());
    }
  }

  lemma DecodeHalfOut(be: Backend, st: St)
    ensures var q := RetryDeferredDecode(RetrySwapInRequests(st).st).st;
            DecodeHalf(be, st).out == RunBatches(be, Decode, MAX_BATCH, q.decode, q.alloc).out
  {
    hide RunBatches, Sieve;
  }

  lemma PrefillHalfOut(be: Backend, st: St)
    ensures var r := AdmitWaitingPrefill(RetryDeferredPrefill(RetrySwapInRequests(st).st).st).st;
            PrefillHalf(be, st).out == RunBatches(be, Prefill, MAX_BATCH, r.prefill, r.alloc).out
  {
    hide RunBatches, Sieve, Admit, Reverse;
  }

  lemma DecodeOutKnown(be: Backend, m: Model, w: World)
    requires Queued(w) && Conserved(w) && Pointwise(be, m)
    ensures AllArrived(w.arrived, DecodeHalf(be, w.st).out)
  {
    hide Held, OriginBag, CoreBag, Placed, Pointwise, RunBatches, RetrySwapInRequests, AllArrived;
    SwapInHeld(w.st);
    SwapInSilent(w.st);
    var p := RetrySwapInRequests(w.st).st;
    RetryDecodeHeld(p);
    var q := RetryDeferredDecode(p).st;
    DecodeBelow(q);
    assert OriginBag(q.decode) <= OriginBag(w.arrived);
    OutKnown(be, m, Decode, q.decode, q.alloc, w.arrived);
    DecodeHalfOut(be, w.st);
  }

  lemma DecodeBelow(st: St)
    ensures OriginBag(st.decode) <= Submitted(st) && OriginBag(st.prefill) <= Submitted(st)
  {
    hide OriginBag;
  }

  lemma PrefillOutKnown(be: Backend, m: Model, w: World)
    requires Queued(w) && Conserved(w) && Pointwise(be, m)
    ensures AllArrived(w.arrived, PrefillHalf(be, w.st).out)
  {
    hide Held, OriginBag, CoreBag, Placed, Pointwise, RunBatches, RetrySwapInRequests, AllArrived;
    SwapInHeld(w.st);
    SwapInSilent(w.st);
    var p := RetrySwapInRequests(w.st).st;
    RetryPrefillHeld(p);
    var q := RetryDeferredPrefill(p).st;
    AdmitHeld(q);
    var r := AdmitWaitingPrefill(q).st;
    DecodeBelow(r);
    assert OriginBag(r.prefill) <= OriginBag(w.arrived);
    OutKnown(be, m, Prefill, r.prefill, r.alloc, w.arrived);
    PrefillHalfOut(be, w.st);
  }

  lemma BatchAccounted(m: Model, w: World, p: Phase, pc: Pc)
    requires InBalance(m, p.st, CoreBag(w.inbox), w.log + p.out) && Known(w) && AllArrived(w.arrived, p.out)
    ensures Accounted(m, Batch(w, p, pc))
  {
    hide InBalance, Arrived;
  }

  lemma PopAccounted(m: Model, w: World, pc: Pc)
    requires w.inbox != [] && Accounted(m, w)
    ensures Accounted(m, PopOne(w, pc))
  {
    hide Held, OriginBag, CoreBag, UniqueIds, AllBalanced, AllArrived;
    PopBags(w, pc);
  }

  lemma AccountedTurn(be: Backend, m: Model, w: World)
    requires Queued(w) && Conserved(w) && Accounted(m, w) && CanWork(w) && Pointwise(be, m)
    ensures Accounted(m, Work(be, w))
  {
    hide Placed, DecodeHalf, PrefillHalf, SettleHalf, Submitted, Held, OriginBag, CoreBag, Pointwise, Accounted,
         InBalance, AllArrived, Known, PopOne, Batch, Emit, Work, Conserved;
    var w' := Work(be, w);
    match w.pc {
      case Head =>
        WorkHead(be, w);
        SameAccounted(m, w, w');
      case Draining(k) =>
        WorkDraining(be, w);
        if k < MAX_BATCH && w.inbox != [] { PopAccounted(m, w, Draining(k + 1)); } else { SameAccounted(m, w, w'); }
      case Decoding =>
        WorkDecoding(be, w);
        assert InBalance(m, w.st, CoreBag(w.inbox), w.log) && Known(w) by { AccountedParts(m, w); }
        DecodeHalfInBalance(be, m, w.st, CoreBag(w.inbox), w.log);
        DecodeOutKnown(be, m, w);
        BatchAccounted(m, w, DecodeHalf(be, w.st), EmitDecode);
      case Prefilling =>
        WorkPrefilling(be, w);
        assert InBalance(m, w.st, CoreBag(w.inbox), w.log) && Known(w) by { AccountedParts(m, w); }
        PrefillHalfInBalance(be, m, w.st, CoreBag(w.inbox), w.log);
        PrefillOutKnown(be, m, w);
        BatchAccounted(m, w, PrefillHalf(be, w.st), EmitPrefill);
      case Settling =>
        WorkSettling(be, w);
        SettleHalfHeld(w.st, w.progress);
        SameAccounted(m, w, w');
      case Parked => ParkedAccounted(be, m, w);
      case _ =>
        var pc := if w.pc.EmitDecode? then Pc.Prefilling else Settling;
        WorkEmitting(be, w);
        BatchFields(w, Phase(w.st, [], false), pc);
        SameAccounted(m, w, w');
    }
  }

  lemma ParkedAccounted(be: Backend, m: Model, w: World)
    requires Accounted(m, w) && w.pc.Parked? && CanWork(w)
    ensures Accounted(m, Work(be, w))
  {
    hide Held, OriginBag, CoreBag, Accounted, PopOne, Work;
    WorkParked(be, w);
    if w.inbox != [] {
      PopAccounted(m, w, Head);
    } else {
      RunningIrrelevant(w.st, false);
      SameAccounted(m, w, Work(be, w));
    }
  }

  lemma AccountedParts(m: Model, w: World)
    requires Accounted(m, w)
    ensures InBalance(m, w.st, CoreBag(w.inbox), w.log) && Known(w)
  {}

  lemma SameAccounted(m: Model, w: World, w': World)
    requires Accounted(m, w) && w'.inbox == w.inbox && w'.arrived == w.arrived && Held(w'.st) == Held(w.st)
    requires w'.log == w.log
    ensures Accounted(m, w')
  {
    hide Held, CoreBag, UniqueIds, AllBalanced, AllArrived;
  }

  lemma {:induction false} ProjectAbsent(log: seq<Resp>, id: nat)
    requires forall k :: 0 <= k < |log| ==> log[k].id != id
    ensures Project(log, id) == []
  {
    if log != [] { ProjectAbsent(log[..|log| - 1], id); }
  }

  lemma FreshShape(w: World, r: Req)
    requires Fresh(w, r)
    ensures r.promptLen == |r.tokens| && r.state == WaitingPrefill
  {}

  lemma NewBalanced(m: Model, w: World, r: Req)
    requires Accounted(m, w) && Fresh(w, r)
    ensures Balanced(m, r.ToCore(), w.log)
  {
    hide InBalance, Rest, NewRequest;
    forall k | 0 <= k < |w.log|
      ensures w.log[k].id != r.id
    {
      assert Arrived(w.arrived, w.log[k].id);
    }
    ProjectAbsent(w.log, r.id);
    assert r.promptLen == |r.tokens| && r.state == WaitingPrefill by { FreshShape(w, r); }
    assert Prompted(r.ToCore()) == r.ToCore();
  }

  lemma AddOne(m: Model, bag: multiset<Core>, c: Core, log: seq<Resp>)
    requires UniqueIds(bag) && AllBalanced(m, bag, log) && Balanced(m, c, log)
    requires forall d :: d in bag ==> d.id != c.id
    ensures UniqueIds(bag + multiset{c}) && AllBalanced(m, bag + multiset{c}, log)
  {
    hide Balanced;
  }

  lemma PushAccounted(m: Model, w: World, r: Req)
    requires Conserved(w) && Accounted(m, w) && Fresh(w, r)
    ensures InBalance(m, w.st, CoreBag(w.inbox + [r]), w.log)
  {
    NewBalanced(m, w, r);
    hide CoreBag, OriginBag, Held, Balanced, UniqueIds, AllBalanced;
    var bag, c := CoreBag(w.inbox) + Held(w.st), r.ToCore();
    JoinBags(w.inbox, [r]);
    HeadBags([r]);
    NoneHeld();
    assert [r][1..] == [];
    assert CoreBag([r]) == multiset{c};
    PushSum(CoreBag(w.inbox), multiset{c}, Held(w.st));
    forall d | d in bag
      ensures d.id != c.id
    {
      CoreKnown(w, d);
    }
    AddOne(m, bag, c, w.log);
  }

  lemma PushKnown(w: World, r: Req)
    requires Known(w)
    ensures AllArrived(w.arrived + [r], w.log)
  {
    forall id | Arrived(w.arrived, id)
      ensures Arrived(w.arrived + [r], id)
    {
      var i :| 0 <= i < |w.arrived| && w.arrived[i].id == id;
      assert (w.arrived + [r])[i].id == id;
    }
  }

  lemma AccountedStep(be: Backend, m: Model, w: World, e: Event)
    requires Queued(w) && Conserved(w) && Accounted(m, w) && Enabled(w, e) && Pointwise(be, m)
    ensures Accounted(m, After(be, w, e))
  {
    if e.Turn? {
      hide *;
      EnabledTurn(w);
      AfterTurn(be, w);
      AccountedTurn(be, m, w);
    } else if e.Push? {
      PushAccounted(m, w, e.req);
      PushKnown(w, e.req);
      hide InBalance, CoreBag, Known;
    } else {
      hide Accounted, Conserved, Fresh, Work;
      RunningIrrelevant(w.st, false);
      SameAccounted(m, w, After(be, w, e));
    }
  }

  // ---- block tables ----

  lemma {:induction false} WaitingOwnsNothing(p: Place, q: seq<Req>)
    requires AllFit(true, p, q) && p == Place.Waiting
    ensures BlockBag(q) == multiset{}
  {
    if q != [] {
      WaitingOwnsNothing(p, q[1..]);
      assert Fits(true, p, q[0]);
      NoTables(q[0].kv);
    }
  }

  lemma PopUnshared(w: World, pc: Pc)
    requires Queued(w) && Unshared(w) && w.inbox != []
    ensures Unshared(PopOne(w, pc))
  {
    if w.st.alloc.policy.Bump? {
      assert AllFit(true, Place.Waiting, [w.inbox[0]]);
      WaitingOwnsNothing(Place.Waiting, [w.inbox[0]]);
      JoinBlocks(w.st.waiting, [w.inbox[0]]);
      hide BlockBag, Fits;
      GrewKeeps(w.st, PopOne(w, pc).st);
    }
  }

  lemma UnsharedTurn(be: Backend, w: World)
    requires Queued(w) && Unshared(w) && CanWork(w)
    ensures Unshared(Work(be, w))
  {
    if w.st.alloc.policy.Bump? {
      hide Placed, DecodeHalf, PrefillHalf, SettleHalf, NoSharing, Work, Batch, Emit, PopOne;
      match w.pc {
        case Head => WorkHead(be, w);
        case Draining(k) =>
          WorkDraining(be, w);
          if k < MAX_BATCH && w.inbox != [] { PopUnshared(w, Draining(k + 1)); }
        case Decoding =>
          WorkDecoding(be, w);
          DecodeHalfNoSharing(be, w.st);
          BatchFields(w, DecodeHalf(be, w.st), EmitDecode);
        case Prefilling =>
          WorkPrefilling(be, w);
          PrefillHalfNoSharing(be, w.st);
          BatchFields(w, PrefillHalf(be, w.st), EmitPrefill);
        case Settling =>
          WorkSettling(be, w);
          SettleHalfNoSharing(w.st, w.progress);
        case Parked =>
          WorkParked(be, w);
          if w.inbox != [] { PopUnshared(w, Head); } else { BlocksOfStopped(w.st); }
        case _ =>
          WorkEmitting(be, w);
          BatchFields(w, Phase(w.st, [], false), if w.pc.EmitDecode? then Pc.Prefilling else Settling);
      }
    } else {
      hide *;
      PolicyKept(be, w);
    }
  }

  lemma PolicyKept(be: Backend, w: World)
    requires Queued(w) && CanWork(w) && !w.st.alloc.policy.Bump?
    ensures Unshared(Work(be, w))
  {
    hide Queued, Work;
    QueuedTurn(be, w);
  }

  lemma BlocksOfStopped(st: St)
    ensures Blocks(st.(running := false)) == Blocks(st) && (NoSharing(st) ==> NoSharing(st.(running := false)))
  {}

  lemma UnsharedStep(be: Backend, w: World, e: Event)
    requires Queued(w) && Unshared(w) && Enabled(w, e)
    ensures Unshared(After(be, w, e))
  {
    if e.Turn? {
      hide *;
      EnabledTurn(w);
      AfterTurn(be, w);
      UnsharedTurn(be, w);
    } else {
      hide BlockBag;
      BlocksOfStopped(w.st);
    }
  }
}
