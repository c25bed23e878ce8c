/** What every run of the scheduler guarantees, whatever arrives and whatever the allocator refuses. */
module Theorems {
  import opened Types
  import opened Allocation
  import opened Backends
  import opened SchedulerModel
  import opened Placement
  import opened Bags
  import opened Ledger
  import opened Paging
  import opened Phases
  import opened Worker
  import opened WorkerInvariants
  import opened Completion

  ghost predicate Sound(w: World) { Queued(w) && Conserved(w) && Streams(w) && Unshared(w) }

  ghost predicate Reachable(be: Backend, policy: Policy, w: World) {
    exists events :: Worker.Run(be, Boot(policy), events, w)
  }

  lemma BootSound(policy: Policy)
    ensures Sound(Boot(policy))
  {
    NoneHeld();
  }

  lemma SoundStep(be: Backend, w: World, e: Event)
    requires Sound(w) && Enabled(w, e)
    ensures Sound(After(be, w, e)) && After(be, w, e).st.alloc.policy == w.st.alloc.policy
  {
    hide Queued, Conserved, Streams, Unshared, After, Enabled;
    QueuedStep(be, w, e);
    ConservedStep(be, w, e);
    StreamsStep(be, w, e);
    UnsharedStep(be, w, e);
  }

  lemma {:induction false} RunSound(be: Backend, w: World, events: seq<Event>, w': World)
    requires Sound(w) && Worker.Run(be, w, events, w')
    ensures Sound(w') && w'.st.alloc.policy == w.st.alloc.policy
    decreases |events|
  {
    hide Sound, After, Enabled;
    if events != [] {
      SoundStep(be, w, events[0]);
      RunSound(be, After(be, w, events[0]), events[1..], w');
    }
  }

  lemma ReachableSound(be: Backend, policy: Policy, w: World)
    requires Reachable(be, policy, w)
    ensures Sound(w) && w.st.alloc.policy == policy
  {
    hide Sound;
    BootSound(policy);
    var events :| Worker.Run(be, Boot(policy), events, w);
    RunSound(be, Boot(policy), events, w);
  }

  lemma {:induction false} RunExtend(be: Backend, w: World, events: seq<Event>, v: World, e: Event)
    requires Worker.Run(be, w, events, v) && Enabled(v, e)
    ensures Worker.Run(be, w, events + [e], After(be, v, e))
    decreases |events|
  {
    hide After, Enabled;
    if events == [] {
      assert events + [e] == [e] && [e][1..] == [];
    } else {
      assert (events + [e])[1..] == events[1..] + [e];
      RunExtend(be, After(be, w, events[0]), events[1..], v, e);
    }
  }

  lemma ReachableNext(be: Backend, policy: Policy, w: World, e: Event)
    requires Reachable(be, policy, w) && Enabled(w, e)
    ensures Reachable(be, policy, After(be, w, e))
  {
    hide After, Enabled, Boot;
    var events :| Worker.Run(be, Boot(policy), events, w);
    RunExtend(be, Boot(policy), events, w, e);
  }

  lemma {:induction false} RunReachable(be: Backend, policy: Policy, w: World, events: seq<Event>, w': World)
    requires Reachable(be, policy, w) && Worker.Run(be, w, events, w')
    ensures Reachable(be, policy, w')
    decreases |events|
  {
    hide Reachable, After, Enabled;
    if events != [] {
      ReachableNext(be, policy, w, events[0]);
      RunReachable(be, policy, After(be, w, events[0]), events[1..], w');
    }
  }

  lemma {:induction false} RunAccounted(be: Backend, m: Model, w: World, events: seq<Event>, w': World)
    requires Sound(w) && Accounted(m, w) && Pointwise(be, m) && Worker.Run(be, w, events, w')
    ensures Accounted(m, w')
    decreases |events|
  {
    hide Queued, Conserved, Streams, Unshared, Accounted, Pointwise, After, Enabled;
    if events != [] {
      SoundStep(be, w, events[0]);
      AccountedStep(be, m, w, events[0]);
      RunAccounted(be, m, After(be, w, events[0]), events[1..], w');
    }
  }

  lemma ReachableAccounted(be: Backend, m: Model, policy: Policy, w: World)
    requires Reachable(be, policy, w) && Pointwise(be, m)
    ensures Sound(w) && Accounted(m, w)
  {
    BootSound(policy);
    NoneHeld();
    assert Accounted(m, Boot(policy));
    hide Sound, Accounted, Pointwise;
    ReachableSound(be, policy, w);
    var events :| Worker.Run(be, Boot(policy), events, w);
    RunAccounted(be, m, Boot(policy), events, w);
  }

  // ---- nothing is lost, nothing is duplicated ----

  /** Every request in the system: still queued outside, or in exactly one of the seven queues. */
  function Everything(w: World): seq<Req> { w.inbox + w.st.All() }

  lemma EverythingArrived(w: World)
    requires Sound(w)
    ensures OriginBag(Everything(w)) == OriginBag(w.arrived)
    ensures |Everything(w)| == |w.arrived|
  {
    hide CoreBag, OriginBag, Placed, Held, Submitted, Unshared, Streams;
    HeldIsAll(w.st);
    JoinBags(w.inbox, w.st.All());
    SizeOfBag(Everything(w));
    SizeOfBag(w.arrived);
  }

  lemma SizeOfBag(q: seq<Req>)
    ensures |OriginBag(q)| == |q|
  {
    SizeOfSeq(Origins(q));
  }

  lemma {:induction false} SizeOfSeq<T>(s: seq<T>)
    ensures |multiset(s)| == |s|
  {
    if s != [] {
      SizeOfSeq(s[1..]);
      assert s == [s[0]] + s[1..];
      assert multiset(s) == multiset{s[0]} + multiset(s[1..]);
    }
  }

  /** Each submitted request is at one place and at one place only. */
  lemma ExactlyOnePlace(be: Backend, policy: Policy, w: World, i: nat) returns (k: nat)
    requires Reachable(be, policy, w) && i < |w.arrived|
    ensures k < |Everything(w)| && Everything(w)[k].ToOrigin() == w.arrived[i].ToOrigin()
    ensures forall j :: 0 <= j < |Everything(w)| && Everything(w)[j].id == w.arrived[i].id ==> j == k
  {
    hide Placed, Submitted, Unshared, Streams;
    ReachableSound(be, policy, w);
    EverythingArrived(w);
    InBag(w.arrived, i);
    var all := Everything(w);
    k := IndexOfOrigin(all, w.arrived[i].ToOrigin());
    forall j | 0 <= j < |all| && all[j].id == w.arrived[i].id
      ensures j == k
    {
      InBag(all, j);
      var a := IndexOfOrigin(w.arrived, all[j].ToOrigin());
      assert a == i;
      if j != k {
        TwiceInBag(all, if j < k then j else k, if j < k then k else j);
        OnceInBag(w.arrived, i);
      }
    }
  }

  lemma TwiceInBag(q: seq<Req>, j: nat, k: nat)
    requires j < k < |q| && q[j].ToOrigin() == q[k].ToOrigin()
    ensures OriginBag(q)[q[j].ToOrigin()] >= 2
  {
    var o := Origins(q);
    assert o == o[..k] + o[k..];
    assert o[..k][j] in multiset(o[..k]) && o[k..][0] in multiset(o[k..]);
  }

  lemma OnceInBag(q: seq<Req>, i: nat)
    requires i < |q| && forall a, b :: 0 <= a < b < |q| ==> q[a].id != q[b].id
    ensures OriginBag(q)[q[i].ToOrigin()] == 1
  {
    var o := Origins(q);
    var x := q[i].ToOrigin();
    assert o == o[..i] + [o[i]] + o[i + 1..];
    forall j | 0 <= j < |o| && j != i
      ensures o[j] != x
    {
      assert q[j].id != q[i].id;
    }
    assert x !in o[..i] && x !in o[i + 1..];
  }

  lemma IdleMeansFinished(w: World)
    requires Queued(w) && w.pc.Parked? && w.inbox == []
    ensures Everything(w) == w.st.finish
    ensures forall i :: 0 <= i < |w.st.finish| ==> w.st.finish[i].state == Finished
  {
    var tables := w.st.alloc.policy.Bump?;
    assert AllFit(tables, Done, w.st.finish);
    hide AllFit;
  }

  lemma HalvesKeepRunning(be: Backend, st: St, progress: bool)
    ensures DecodeHalf(be, st).st.running == st.running && PrefillHalf(be, st).st.running == st.running
    ensures SettleHalf(st, progress).st.running == st.running
  {
    hide RunBatches, Sieve, Admit, Reverse, EvictFrom, Readied;
  }

  lemma StopsHere(be: Backend, w: World)
    requires CanWork(w) && w.st.running
    ensures !Work(be, w).st.running <==> w.pc.Parked? && w.inbox == []
  {
    hide DecodeHalf, PrefillHalf, SettleHalf, Work, Worker.Batch, Emit, PopOne, St.Idle;
    HalvesKeepRunning(be, w.st, w.progress);
    match w.pc {
      case Head => WorkHead(be, w);
      case Draining(k) => WorkDraining(be, w); if w.inbox != [] { PopFields(w, Draining(k + 1)); }
      case Decoding => WorkDecoding(be, w); BatchFields(w, DecodeHalf(be, w.st), EmitDecode);
      case Prefilling => WorkPrefilling(be, w); BatchFields(w, PrefillHalf(be, w.st), EmitPrefill);
      case Settling => WorkSettling(be, w);
      case Parked => WorkParked(be, w); if w.inbox != [] { PopFields(w, Head); }
      case _ =>
        WorkEmitting(be, w);
        BatchFields(w, Phase(w.st, [], false), if w.pc.EmitDecode? then Pc.Prefilling else Settling);
    }
  }

  /** The worker stops of its own accord exactly when it waits for a request and there is none and will be none; then
      every request pushed so far is finished. */
  lemma CleanShutdown(be: Backend, policy: Policy, w: World)
    requires Reachable(be, policy, w) && CanWork(w) && w.st.running
    ensures !Work(be, w).st.running <==> w.pc.Parked? && w.inbox == []
    ensures !Work(be, w).st.running ==>
              && w.closed && OriginBag(w.st.finish) == OriginBag(w.arrived)
              && forall i :: 0 <= i < |w.st.finish| ==> w.st.finish[i].state == Finished
  {
    hide OriginBag, Queued, Conserved, Unshared, Streams, Work;
    ReachableSound(be, policy, w);
    StopsHere(be, w);
    if w.pc.Parked? && w.inbox == [] {
      EverythingArrived(w);
      IdleMeansFinished(w);
    }
  }

  // ---- swapping pauses admission ----

  lemma SwappedMeansPaused(be: Backend, policy: Policy, w: World)
    requires Reachable(be, policy, w)
    ensures w.st.swapOut != [] ==> w.st.paused
  {
    ReachableSound(be, policy, w);
  }

  lemma DecodeHalfFinish(be: Backend, st: St)
    ensures st.finish <= DecodeHalf(be, st).st.finish
  {
    hide RunBatches, Sieve, Readied;
  }

  lemma PrefillHalfFinish(be: Backend, st: St)
    ensures st.finish <= PrefillHalf(be, st).st.finish
  {
    hide RunBatches, Sieve, Admit, Reverse;
  }

  lemma SettleHalfFinish(st: St, progress: bool)
    ensures SettleHalf(st, progress).st.finish == st.finish
  {
    hide Sieve, EvictFrom;
  }

  /** The records of what has arrived, been produced and been finished only get longer. */
  lemma TurnGrows(be: Backend, w: World)
    requires CanWork(w)
    ensures var w' := Work(be, w); w'.arrived == w.arrived && w.log <= w'.log && w.st.finish <= w'.st.finish
  {
    hide DecodeHalf, PrefillHalf, SettleHalf, St.Idle, Worker.Batch, Emit, PopOne, Work;
    match w.pc {
      case Head => WorkHead(be, w);
      case Draining(k) => WorkDraining(be, w); if w.inbox != [] { PopFields(w, Draining(k + 1)); }
      case Decoding =>
        WorkDecoding(be, w);
        DecodeHalfFinish(be, w.st);
        BatchFields(w, DecodeHalf(be, w.st), EmitDecode);
      case Prefilling =>
        WorkPrefilling(be, w);
        PrefillHalfFinish(be, w.st);
        BatchFields(w, PrefillHalf(be, w.st), EmitPrefill);
      case Settling => WorkSettling(be, w); SettleHalfFinish(w.st, w.progress);
      case Parked => WorkParked(be, w); if w.inbox != [] { PopFields(w, Head); }
      case _ =>
        WorkEmitting(be, w);
        BatchFields(w, Phase(w.st, [], false), if w.pc.EmitDecode? then Pc.Prefilling else Settling);
    }
  }

  lemma {:induction false} RunGrows(be: Backend, w: World, events: seq<Event>, w': World)
    requires Worker.Run(be, w, events, w')
    ensures w.arrived <= w'.arrived && w.log <= w'.log && w.st.finish <= w'.st.finish
    decreases |events|
  {
    hide Work;
    if events != [] {
      if events[0] == Turn { TurnGrows(be, w); }
      RunGrows(be, After(be, w, events[0]), events[1..], w');
    }
  }

  lemma LessRemains<T>(x: multiset<T>, y: multiset<T>, x': multiset<T>, y': multiset<T>)
    requires x + y == x' + y' && y <= y'
    ensures x' <= x
  {
    forall t
      ensures x'[t] <= x[t]
    {
      assert (x + y)[t] == (x' + y')[t];
    }
  }

  lemma HalvesKeepPause(be: Backend, st: St, progress: bool)
    ensures DecodeHalf(be, st).st.paused == st.paused && PrefillHalf(be, st).st.paused == st.paused
    ensures var p := SettleHalf(st, progress).st; st.paused ==> p.paused == !p.Idle()
  {
    hide RunBatches, Sieve, Admit, Reverse, EvictFrom, Readied;
  }

  /** While paused the worker takes nothing in, and it ends the pause at the end of an iteration that leaves
      its queues empty, there and nowhere else. */
  lemma PausedTurn(be: Backend, w: World)
    requires Queued(w) && w.st.paused && CanWork(w)
    ensures var w' := Work(be, w);
            w'.inbox == w.inbox && (!w'.st.paused <==> w.pc.Settling? && w'.st.Idle())
  {
    hide Placed, AllFit, DecodeHalf, PrefillHalf, SettleHalf, Work, Worker.Batch, Emit, St.Idle;
    HalvesKeepPause(be, w.st, w.progress);
    match w.pc {
      case Head => WorkHead(be, w);
      case Decoding => WorkDecoding(be, w); BatchFields(w, DecodeHalf(be, w.st), EmitDecode);
      case Prefilling => WorkPrefilling(be, w); BatchFields(w, PrefillHalf(be, w.st), EmitPrefill);
      case Settling => WorkSettling(be, w);
      case _ =>
        WorkEmitting(be, w);
        BatchFields(w, Phase(w.st, [], false), if w.pc.EmitDecode? then Pc.Prefilling else Settling);
    }
  }

  lemma SubmittedKept(be: Backend, w: World)
    requires Sound(w) && CanWork(w) && Work(be, w).inbox == w.inbox && Work(be, w).arrived == w.arrived
    ensures Submitted(Work(be, w).st) == Submitted(w.st)
  {
    hide Submitted, OriginBag, Queued, Unshared, Streams, Work;
    ConservedTurn(be, w);
    var w' := Work(be, w);
    Cancel(OriginBag(w.inbox), Submitted(w.st), Submitted(w'.st));
  }

  lemma Cancel<T>(x: multiset<T>, y: multiset<T>, z: multiset<T>)
    requires x + y == x + z
    ensures y == z
  {
    forall t
      ensures y[t] == z[t]
    {
      assert (x + y)[t] == (x + z)[t];
    }
  }

  /** From w to w' nothing was taken in: all arrivals still stand in the inbox, the finished requests are
      still finished, and the unfinished ones are some of those of w. */
  ghost predicate OnlyDrained(w: World, w': World) {
    && w.inbox <= w'.inbox && w'.arrived == w.arrived + w'.inbox[|w.inbox|..]
    && w.st.finish <= w'.st.finish && OriginBag(w'.st.Internal()) <= OriginBag(w.st.Internal())
  }

  lemma {:induction false} DrainedTwice(u: World, v: World, w: World)
    requires OnlyDrained(u, v) && OnlyDrained(v, w)
    ensures OnlyDrained(u, w)
  {
    hide OriginBag, St.Internal;
    assert w.inbox[|u.inbox|..] == v.inbox[|u.inbox|..] + w.inbox[|v.inbox|..];
  }

  lemma PausedOnlyDrains(be: Backend, policy: Policy, w: World)
    requires Reachable(be, policy, w) && w.st.paused && CanWork(w)
    ensures OnlyDrained(w, Work(be, w)) && Work(be, w).inbox == w.inbox
  {
    hide OriginBag, CoreBag, Submitted, Held, Work, Queued, Conserved, Streams, Unshared, St.Internal;
    ReachableSound(be, policy, w);
    var w' := Work(be, w);
    PausedTurn(be, w);
    TurnGrows(be, w);
    SubmittedKept(be, w);
    HeldIsAll(w.st);
    HeldIsAll(w'.st);
    JoinBags(w.st.Internal(), w.st.finish);
    JoinBags(w'.st.Internal(), w'.st.finish);
    var f, f' := w.st.finish, w'.st.finish;
    JoinBags(f, f'[|f|..]);
    assert f' == f + f'[|f|..];
    LessRemains(OriginBag(w.st.Internal()), OriginBag(f), OriginBag(w'.st.Internal()), OriginBag(f'));
  }

  /** One step of anybody in a paused system: nothing is taken in, and if that ends the pause the worker's
      queues are empty. */
  lemma PausedStep(be: Backend, policy: Policy, w: World, e: Event)
    requires Reachable(be, policy, w) && w.st.paused && Enabled(w, e)
    ensures var w' := After(be, w, e); OnlyDrained(w, w') && (w'.st.paused || w'.st.Idle())
  {
    if e == Turn {
      hide OnlyDrained, Work, Queued, Conserved, Streams, Unshared, Reachable, St.Idle;
      ReachableSound(be, policy, w);
      PausedOnlyDrains(be, policy, w);
      PausedTurn(be, w);
    } else {
      hide OriginBag, Work;
    }
  }

  /** Admission is paused in every world from which a step of the run is taken. */
  predicate StaysPaused(be: Backend, w: World, events: seq<Event>)
    decreases |events|
  {
    events != [] && Enabled(w, events[0]) ==> w.st.paused && StaysPaused(be, After(be, w, events[0]), events[1..])
  }

  /** From a swap-out on, for as long as admission stays paused, whatever the other threads do: everything
      that arrives is left outside, the unfinished submissions inside only get fewer, and the pause ends
      only when none is left. */
  lemma {:induction false} PauseDrains(be: Backend, policy: Policy, w: World, events: seq<Event>, w': World)
    requires Reachable(be, policy, w) && w.st.paused
    requires Worker.Run(be, w, events, w') && StaysPaused(be, w, events)
    ensures OnlyDrained(w, w') && (w'.st.paused || w'.st.Idle())
    decreases |events|
  {
    if events == [] {
      hide OriginBag, Reachable;
    } else {
      hide OnlyDrained, After, Enabled, Reachable, St.Idle;
      var v := After(be, w, events[0]);
      PausedStep(be, policy, w, events[0]);
      ReachableNext(be, policy, w, events[0]);
      if events[1..] != [] {
        RunStart(be, v, events[1..], w');
        PauseDrains(be, policy, v, events[1..], w');
        DrainedTwice(w, v, w');
      }
    }
  }

  lemma RunStart(be: Backend, w: World, events: seq<Event>, w': World)
    requires Worker.Run(be, w, events, w') && events != []
    ensures Enabled(w, events[0])
  {}

  // ---- what a request outputs ----

  lemma FullIsOrigin(m: Model, r: Req, s: Req)
    requires r.ToOrigin() == s.ToOrigin() && r.promptLen <= |r.tokens| && s.promptLen <= |s.tokens|
    ensures Full(m, r.ToCore()) == Full(m, s.ToCore())
  {
    assert Prompted(r.ToCore()) == Prompted(s.ToCore());
  }

  lemma EverythingFits(w: World, k: nat)
    requires Queued(w) && k < |Everything(w)|
    ensures Everything(w)[k].promptLen <= |Everything(w)[k].tokens|
  {
    if k < |w.inbox| {
      assert Fits(w.st.alloc.policy.Bump?, Place.Waiting, w.inbox[k]);
    } else {
      PlaceOf(w.st, k - |w.inbox|);
      assert Everything(w)[k] == w.st.All()[k - |w.inbox|];
    }
  }

  /** The responses produced for a request, and those it still has coming, are together what it
      would have got alone. Deferral, swapping, batching and the other requests make no difference. */
  lemma SentPlusRestIsSequential(be: Backend, m: Model, policy: Policy, w: World, i: nat) returns (k: nat)
    requires Reachable(be, policy, w) && Pointwise(be, m) && i < |w.arrived|
    ensures k < |Everything(w)| && Everything(w)[k].ToOrigin() == w.arrived[i].ToOrigin()
    ensures Project(w.log, w.arrived[i].id) + Rest(m, Everything(w)[k].ToCore()) == Full(m, w.arrived[i].ToCore())
  {
    ReachableAccounted(be, m, policy, w);
    k := ExactlyOnePlace(be, policy, w, i);
    var r := Everything(w)[k];
    EverythingFits(w, k);
    assert w.arrived[i].promptLen <= |w.arrived[i].tokens| by { ArrivedShape(be, policy, w, i); }
    FullIsOrigin(m, r, w.arrived[i]);
    hide CoreBag, OriginBag, Placed, Held, Submitted, Unshared, Streams, Rest;
    InBag(Everything(w), k);
    HeldIsAll(w.st);
    JoinBags(w.inbox, w.st.All());
    assert Balanced(m, r.ToCore(), w.log);
  }

  lemma {:induction false} RunArrivals(be: Backend, w: World, events: seq<Event>, w': World, i: nat)
    requires Worker.Run(be, w, events, w') && i < |w'.arrived|
    requires forall j :: 0 <= j < |w.arrived| ==> w.arrived[j].promptLen == |w.arrived[j].tokens|
    ensures w'.arrived[i].promptLen == |w'.arrived[i].tokens|
    decreases |events|
  {
    hide Work;
    if events != [] {
      var v := After(be, w, events[0]);
      if events[0] == Turn { TurnGrows(be, w); }
      assert forall j :: 0 <= j < |v.arrived| ==> v.arrived[j].promptLen == |v.arrived[j].tokens|;
      RunArrivals(be, v, events[1..], w', i);
    }
  }

  lemma ArrivedShape(be: Backend, policy: Policy, w: World, i: nat)
    requires Reachable(be, policy, w) && i < |w.arrived|
    ensures w.arrived[i].promptLen == |w.arrived[i].tokens|
  {
    var events :| Worker.Run(be, Boot(policy), events, w);
    RunArrivals(be, Boot(policy), events, w, i);
  }

  /** What the response queue has carried for a request is a prefix of its sequential output. */
  lemma PushedIsPrefix(be: Backend, m: Model, policy: Policy, w: World, i: nat)
    requires Reachable(be, policy, w) && Pointwise(be, m) && i < |w.arrived|
    ensures Project(w.taken + w.responses, w.arrived[i].id) <= Full(m, w.arrived[i].ToCore())
  {
    var id := w.arrived[i].id;
    var k := SentPlusRestIsSequential(be, m, policy, w, i);
    ReachableSound(be, policy, w);
    ProjectConcat(w.taken + w.responses, w.outbox, id);
    assert w.log == w.taken + w.responses + w.outbox;
  }

  /** With the mock backend: 1000, 1001, ... and EOS last, in every run. */
  lemma MockPushedIsPrefix(policy: Policy, w: World, i: nat)
    requires Reachable(MOCK_BACKEND, policy, w) && i < |w.arrived|
    ensures Project(w.taken + w.responses, w.arrived[i].id) <= MockOutput(w.arrived[i].id, w.arrived[i].maxNew)
  {
    PushedIsPrefix(MOCK_BACKEND, MOCK_MODEL, policy, w, i);
    ArrivedShape(MOCK_BACKEND, policy, w, i);
    MockFull(w.arrived[i].ToCore());
  }

  /** A request is finished exactly when its whole sequential output has been produced. */
  lemma FinishedMeansComplete(be: Backend, m: Model, policy: Policy, w: World, i: nat) returns (k: nat)
    requires Reachable(be, policy, w) && Pointwise(be, m) && i < |w.arrived|
    ensures k < |Everything(w)| && Everything(w)[k].ToOrigin() == w.arrived[i].ToOrigin()
    ensures Everything(w)[k].state == Finished <==> Project(w.log, w.arrived[i].id) == Full(m, w.arrived[i].ToCore())
  {
    k := SentPlusRestIsSequential(be, m, policy, w, i);
    var c := Everything(w)[k].ToCore();
    RestFlags(m, c);
    assert Project(w.log, w.arrived[i].id) + [] == Project(w.log, w.arrived[i].id);
  }

  lemma ArrivalOf(w: World, i: nat) returns (j: nat)
    requires Sound(w) && i < |Everything(w)|
    ensures j < |w.arrived| && w.arrived[j].ToOrigin() == Everything(w)[i].ToOrigin()
  {
    hide Queued, Conserved, Streams, Unshared;
    EverythingArrived(w);
    InBag(Everything(w), i);
    j := IndexOfOrigin(w.arrived, Everything(w)[i].ToOrigin());
  }

  lemma DifferentIds(be: Backend, policy: Policy, w: World, i: nat, j: nat)
    requires Reachable(be, policy, w) && i < |Everything(w)| && j < |Everything(w)| && i != j
    ensures Everything(w)[i].id != Everything(w)[j].id
  {
    hide Queued, Conserved, Streams, Unshared, Reachable;
    ReachableSound(be, policy, w);
    var a := ArrivalOf(w, i);
    var k := ExactlyOnePlace(be, policy, w, a);
  }

  /** The tokens a request has generated are the tokens that have been sent for it, no more and no fewer. */
  lemma GeneratedMeansSent(be: Backend, m: Model, policy: Policy, w: World, i: nat)
    requires Reachable(be, policy, w) && Pointwise(be, m) && i < |Everything(w)|
    ensures var r := Everything(w)[i];
            r.promptLen <= |r.tokens| && Tokens(Project(w.log, r.id)) == r.tokens[r.promptLen..]
  {
    ReachableAccounted(be, m, policy, w);
    hide CoreBag, OriginBag, Placed, Held, Submitted, Unshared, Streams, Rest, Full;
    InBag(Everything(w), i);
    HeldIsAll(w.st);
    JoinBags(w.inbox, w.st.All());
    assert Balanced(m, Everything(w)[i].ToCore(), w.log);
  }

  // ---- block tables ----

  lemma ReachableAddressDefined(be: Backend, policy: Policy, w: World, i: nat, l: nat, t: nat)
    requires Reachable(be, policy, w) && policy.Bump?
    requires i < |w.st.All()| && l < |w.st.All()[i].kv| && t < w.st.All()[i].kv[l].numTokens
    ensures t / KV_BLOCK < |w.st.All()[i].kv[l].table|
  {
    ReachableSound(be, policy, w);
    AddressDefined(w.st, i, l, t);
  }

  /** No two cached tokens of any two layers of any two requests share a slot, whichever calls
      were refused and whoever was deferred or swapped. */
  lemma ReachableAddressesDoNotAlias(be: Backend, policy: Policy, w: World,
                                     i: nat, l: nat, t: nat, i': nat, l': nat, t': nat)
    requires Reachable(be, policy, w) && policy.Bump?
    requires i < |w.st.All()| && i' < |w.st.All()|
    requires l < |w.st.All()[i].kv| && t / KV_BLOCK < |w.st.All()[i].kv[l].table|
    requires l' < |w.st.All()[i'].kv| && t' / KV_BLOCK < |w.st.All()[i'].kv[l'].table|
    requires Address(w.st.All()[i], l, t) == Address(w.st.All()[i'], l', t')
    ensures i == i' && l == l' && t == t'
  {
    ReachableSound(be, policy, w);
    AddressesDoNotAlias(w.st, i, l, t, i', l', t');
  }

  lemma {:induction false} BatchesFit(kind: Kind, w: nat, q: seq<Req>, a: Alloc, b: nat)
    requires w > 0 && AllFit(a.policy.Bump?, Source(kind), q) && b < |Batches(kind, w, q, a)|
    ensures var batch := Batches(kind, w, q, a)[b]; 0 < |batch| <= w && AllFit(a.policy.Bump?, Inside(kind), batch)
    decreases |q|
  {
    hide Fits;
    FillFits(kind, w, q, a);
    var f := FillBatch(kind, w, q, a);
    var n := if f.batch == [] then 0 else 1;
    if b >= n { BatchesFit(kind, w, f.rest, f.alloc, b - n); }
  }

  /** Every decode batch of every run: 1 to 16 unfinished requests on the GPU, every layer of each
      caching all tokens but the last, with a block for the next position and within the capacity
      that the request was built with. */
  lemma DecodeBatchesAreReady(be: Backend, policy: Policy, w: World, b: nat, i: nat, l: nat)
    requires Reachable(be, policy, w) && policy.Bump?
    requires b < |Batches(Decode, MAX_BATCH, DecodeInput(w.st).decode, DecodeInput(w.st).alloc)|
    requires var batch := Batches(Decode, MAX_BATCH, DecodeInput(w.st).decode, DecodeInput(w.st).alloc)[b];
             i < |batch| && l < N_LAYERS
    ensures var batch := Batches(Decode, MAX_BATCH, DecodeInput(w.st).decode, DecodeInput(w.st).alloc)[b];
            var r := batch[i];
            && 1 <= |batch| <= 16 && r.residency == Gpu && |r.tokens| - r.promptLen < r.maxNew
            && |r.kv| == 12 && r.kv[l].numTokens == |r.tokens| - 1
            && r.kv[l].numTokens / 16 == |r.kv[l].table| - 1
            && |r.kv[l].table| <= (r.promptLen + r.maxNew + 15) / 16
  {
    ReachableSound(be, policy, w);
    var s := DecodeInput(w.st);
    assert AllFit(true, Ready, s.decode) && s.alloc.policy == policy by {
      SwapInPlaced(w.st);
      RetryDecodePlaced(RetrySwapInRequests(w.st).st);
    }
    BatchesFit(Decode, MAX_BATCH, s.decode, s.alloc, b);
    var batch := Batches(Decode, MAX_BATCH, s.decode, s.alloc)[b];
    assert Fits(true, Batched, batch[i]);
  }

  /** The scheduler state on which the decode batch function is called. */
  function DecodeInput(st: St): St { RetryDeferredDecode(RetrySwapInRequests(st).st).st }
}
