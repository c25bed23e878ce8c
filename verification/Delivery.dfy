/** Left to itself, a server whose allocator refuses no more comes to rest with everybody answered, however much
    was deferred, swapped out or held back before. */
module Delivery {
  import opened Types
  import opened Allocation
  import opened Backends
  import opened SchedulerModel
  import opened Placement
  import opened Ledger
  import opened Worker
  import opened WorkerInvariants
  import opened Theorems
  import opened Progress
  import opened Recovery
  import opened Text
  import opened Framing
  import opened ServerModel
  import opened ServerProofs

  /** What happens in the server without anything coming in from outside. */
  predicate Internal(o: Occurrence) { o.SchedulerTurn? || o.LoopTurn? || o.WakeUp? || o.Written? }

  /** Neither told to stop nor closed. */
  predicate Alive(w: World) { w.st.running && !w.closed }

  // ---- how far there is to go ----

  /** An iteration that has moved something may be followed by another one. */
  function Credit(w: World): nat { if w.progress && !w.pc.Head? && !w.pc.Parked? then 1 else 0 }

  function ToServe(m: Model, w: World): nat { 2 * (LeftSum(m, w.inbox) + LeftSum(m, w.st.All())) + Credit(w) }

  /** The iteration in which the last refusal fell may end without having moved anything. */
  ghost function Stale(w: World): nat { if Ripe(w) then 0 else 1 }

  function Rank(pc: Pc): nat {
    match pc
    case Head => 7
    case Draining(_) => 6
    case Decoding => 5
    case EmitDecode => 4
    case Prefilling => 3
    case EmitPrefill => 2
    case Settling => 1
    case _ => 0
  }

  function Unread(s: Sys): nat {
    if !s.loop.Reading? then 0 else if s.loop.client in s.clients then 1 + |s.clients[s.loop.client].buffer| else 1
  }

  function Signals(s: Sys): nat {
    (if s.world.signalled then 2 else 0) + if s.loop == Dispatching then 1 else 0
  }

  function Pending(c: Client): nat { |c.writes| + if c.writing then 1 else 0 }

  /** The writes that the clients below n still have in flight or queued. */
  function AllPending(clients: map<nat, Client>, n: nat): nat {
    if n == 0 then 0
    else AllPending(clients, n - 1) + if n - 1 in clients then Pending(clients[n - 1]) else 0
  }

  ghost predicate Below(clients: map<nat, Client>, n: nat) { forall c :: c in clients ==> c < n }

  /** The worker has got further from w to w'. */
  ghost predicate Further(m: Model, w: World, w': World) {
    || Stale(w') < Stale(w)
    || (Stale(w') == Stale(w)
        && (ToServe(m, w') < ToServe(m, w)
            || (ToServe(m, w') == ToServe(m, w)
                && (|w'.inbox| < |w.inbox|
                    || (|w'.inbox| == |w.inbox|
                        && (Rank(w'.pc) < Rank(w.pc) || (w'.pc == w.pc && |w'.outbox| < |w.outbox|)))))))
  }

  /** What is still to be done is less in s' than in s, in the order of the components. */
  ghost predicate Closer(m: Model, s: Sys, s': Sys, n: nat) {
    || Unread(s') < Unread(s)
    || (Unread(s') == Unread(s)
        && (Further(m, s.world, s'.world)
            || (Standing(m, s.world, s'.world)
                && (|s'.world.responses| < |s.world.responses|
                    || (|s'.world.responses| == |s.world.responses|
                        && (Signals(s') < Signals(s)
                            || (Signals(s') == Signals(s)
                                && AllPending(s'.clients, n) < AllPending(s.clients, n))))))))
  }

  ghost predicate Standing(m: Model, w: World, w': World) {
    && Stale(w') == Stale(w) && ToServe(m, w') == ToServe(m, w) && |w'.inbox| == |w.inbox| && w'.pc == w.pc
    && |w'.outbox| == |w.outbox|
  }

  // ---- the scheduler thread ----

  lemma PopFurther(m: Model, w: World, pc: Pc)
    requires w.inbox != [] && ((w.pc.Draining? && pc.Draining?) || (w.pc.Parked? && pc.Head?))
    ensures Further(m, w, PopOne(w, pc))
  {
    hide LeftSum, St.All;
    var v := PopOne(w, pc);
    SumOfAll(m, w.st);
    SumOfAll(m, v.st);
    LeftSumConcat(m, w.st.waiting, [w.inbox[0]]);
    SumCons(m, w.inbox[0], w.inbox[1..]);
    SumCons(m, w.inbox[0], []);
    assert [w.inbox[0]] + w.inbox[1..] == w.inbox && [w.inbox[0]] + [] == [w.inbox[0]];
    NothingToCome(m);
  }

  lemma NothingToCome(m: Model)
    ensures LeftSum(m, []) == 0
  {}

  lemma DecodingFurther(be: Backend, m: Model, w: World)
    requires Pointwise(be, m) && Placed(w.st) && Granting(w.st.alloc) && w.pc.Decoding?
    ensures Further(m, w, Work(be, w))
  {
    hide Pointwise, Placed, Granting, DecodeHalf, Work, Batch, LeftSum, St.All, Ripe;
    DecodeHalfGranted(be, m, w.st);
    DecodeHalfCounts(be, m, w.st);
    WorkDecoding(be, w);
    BatchFields(w, DecodeHalf(be, w.st), EmitDecode);
    RipeHead(w);
    RipeTurn(be, m, w);
  }

  lemma RipeHead(w: World)
    requires w.pc.Head? || w.pc.Draining? || w.pc.Decoding? || w.pc.Parked?
    ensures Ripe(w)
  {}

  lemma PrefillingFurther(be: Backend, m: Model, w: World)
    requires Pointwise(be, m) && Placed(w.st) && Granting(w.st.alloc) && w.pc.Prefilling?
    ensures Further(m, w, Work(be, w))
  {
    hide Pointwise, Placed, Granting, PrefillHalf, Work, Batch, LeftSum, St.All, St.Idle;
    PrefillHalfGranted(be, m, w.st);
    PrefillHalfCounts(be, m, w.st);
    WorkPrefilling(be, w);
    BatchFields(w, PrefillHalf(be, w.st), EmitPrefill);
    if Ripe(w) { RipeTurn(be, m, w); }
  }

  lemma SettlingFurther(be: Backend, m: Model, w: World)
    requires Placed(w.st) && w.pc.Settling?
    ensures Further(m, w, Work(be, w))
  {
    hide Placed, SettleHalf, Work, LeftSum, St.All, St.Idle;
    SettleHalfCounts(m, w.st, w.progress);
    WorkSettling(be, w);
    SettledProgress(w.st, w.progress);
    RipeHead(Work(be, w));
  }

  lemma SettledProgress(st: St, progress: bool)
    ensures progress ==> SettleHalf(st, progress).progress
    ensures st.Idle() && !progress ==> SettleHalf(st, progress).st.Idle()
  {
    hide Sieve, EvictFrom, St.Idle;
    if st.Idle() { IdleSettles(st); }
  }

  lemma EmittingFurther(be: Backend, m: Model, w: World)
    requires w.pc.EmitDecode? || w.pc.EmitPrefill?
    ensures Further(m, w, Work(be, w))
  {
    hide LeftSum, St.All, St.Idle;
  }

  /** Every turn of the worker gets it further, until it waits for a request. */
  lemma TurnFurther(be: Backend, m: Model, w: World)
    requires Pointwise(be, m) && Queued(w) && Granting(w.st.alloc) && CanWork(w) && Alive(w)
    ensures Further(m, w, Work(be, w))
  {
    hide Queued, Pointwise, Placed, Granting, Work, PopOne, LeftSum, St.All, St.Idle, Ripe;
    assert Placed(w.st) by { QueuedPlaced(w); }
    match w.pc {
      case Head =>
        WorkHead(be, w);
        RipeHead(w);
        RipeHead(Work(be, w));
      case Draining(k) =>
        WorkDraining(be, w);
        RipeHead(w);
        RipeHead(w.(pc := Decoding));
        if k < MAX_BATCH && w.inbox != [] { PopFurther(m, w, Draining(k + 1)); }
      case Decoding => DecodingFurther(be, m, w);
      case Prefilling => PrefillingFurther(be, m, w);
      case Settling => SettlingFurther(be, m, w);
      case Parked =>
        WorkParked(be, w);
        PopFurther(m, w, Head);
      case _ => EmittingFurther(be, m, w);
    }
  }

  lemma TurnAlive(be: Backend, w: World)
    requires CanWork(w) && Alive(w)
    ensures Alive(Work(be, w)) && !Work(be, w).pc.Exited?
  {
    hide DecodeHalf, PrefillHalf, SettleHalf, Work, Worker.Batch, Emit, PopOne, St.Idle;
    HalvesKeepRunning(be, w.st, w.progress);
    match w.pc {
      case Head => WorkHead(be, w);
      case Draining(k) => WorkDraining(be, w); if w.inbox != [] { PopFields(w, Draining(k + 1)); }
      case Decoding => WorkDecoding(be, w); BatchFields(w, DecodeHalf(be, w.st), EmitDecode);
      case Prefilling => WorkPrefilling(be, w); BatchFields(w, PrefillHalf(be, w.st), EmitPrefill);
      case Settling => WorkSettling(be, w);
      case Parked => WorkParked(be, w); PopFields(w, Head);
      case _ =>
        WorkEmitting(be, w);
        BatchFields(w, Phase(w.st, [], false), if w.pc.EmitDecode? then Pc.Prefilling else Settling);
    }
  }

  lemma TurnStays(be: Backend, w: World)
    requires CanWork(w)
    ensures Work(be, w).pc.Exited? ==> !Work(be, w).st.running
  {
    hide DecodeHalf, PrefillHalf, SettleHalf, Work, Worker.Batch, Emit, PopOne, St.Idle;
    match w.pc {
      case Head => WorkHead(be, w);
      case Draining(k) => WorkDraining(be, w); if w.inbox != [] { PopFields(w, Draining(k + 1)); }
      case Decoding => WorkDecoding(be, w); BatchFields(w, DecodeHalf(be, w.st), EmitDecode);
      case Prefilling => WorkPrefilling(be, w); BatchFields(w, PrefillHalf(be, w.st), EmitPrefill);
      case Settling => WorkSettling(be, w);
      case Parked => WorkParked(be, w); if w.inbox != [] { PopFields(w, Head); }
      case _ =>
        WorkEmitting(be, w);
        BatchFields(w, Phase(w.st, [], false), if w.pc.EmitDecode? then Pc.Prefilling else Settling);
    }
  }

  lemma {:induction false} RunStays(be: Backend, w: World, events: seq<Event>, w': World)
    requires Worker.Run(be, w, events, w') && (w.pc.Exited? ==> !w.st.running)
    ensures w'.pc.Exited? ==> !w'.st.running
    decreases |events|
  {
    hide Work;
    if events != [] {
      if events[0].Turn? { TurnStays(be, w); }
      RunStays(be, After(be, w, events[0]), events[1..], w');
    }
  }

  /** The worker does not leave its loop unless it is told to. */
  lemma AttainableStays(be: Backend, m: Model, policy: Policy, s: Sys)
    requires Attainable(be, policy, s) && Pointwise(be, m) && Alive(s.world)
    ensures !s.world.pc.Exited?
  {
    hide Attainable, Pointwise, Link, Open, Awake, AllRouted, ClientsOk, Registered;
    AttainableConsistent(be, m, policy, s);
    var events :| Worker.Run(be, Boot(policy), events, s.world);
    RunStays(be, Boot(policy), events, s.world);
  }

  // ---- the whole server ----

  lemma {:induction false} PendingSame(clients: map<nat, Client>, c: nat, cl: Client, n: nat)
    requires n <= c
    ensures AllPending(clients[c := cl], n) == AllPending(clients, n)
  {
    if n > 0 { PendingSame(clients, c, cl, n - 1); }
  }

  lemma {:induction false} PendingLess(clients: map<nat, Client>, c: nat, cl: Client, n: nat)
    requires c in clients && c < n && Pending(cl) < Pending(clients[c])
    ensures AllPending(clients[c := cl], n) < AllPending(clients, n)
  {
    hide Pending;
    if c == n - 1 { PendingSame(clients, c, cl, n - 1); } else { PendingLess(clients, c, cl, n - 1); }
  }

  lemma OnWritePending(cl: Client)
    requires cl.writing
    ensures Pending(OnWrite(cl)) < Pending(cl)
  {}

  lemma ReadCloser(s: Sys, c: nat)
    requires c in s.clients && s.loop == Reading(c)
    ensures Unread(ReadLine(s, c)) < Unread(s) && ReadLine(s, c).clients.Keys == s.clients.Keys
    ensures ReadLine(s, c).world.st == s.world.st && ReadLine(s, c).world.closed == s.world.closed
  {
    hide Newline, ParseLine, NewRequest, EnqueueWrite;
    if Newline(s.clients[c].buffer) < |s.clients[c].buffer| { ReadCuts(s, c); }
  }

  lemma DispatchCloser(m: Model, s: Sys, n: nat)
    requires s.loop == Dispatching
    ensures Closer(m, s, DispatchOne(s), n) && DispatchOne(s).clients.Keys == s.clients.Keys
    ensures DispatchOne(s).world.st == s.world.st && DispatchOne(s).world.closed == s.world.closed
  {
    hide EnqueueWrite, LeftSum, St.All, St.Idle;
  }

  lemma WrittenCloser(m: Model, s: Sys, c: nat, n: nat)
    requires Possible(s, Written(c)) && Below(s.clients, n)
    ensures Closer(m, s, s.(clients := s.clients[c := OnWrite(s.clients[c])]), n)
  {
    hide OnWrite, Pending, ToServe, Stale;
    OnWritePending(s.clients[c]);
    PendingLess(s.clients, c, OnWrite(s.clients[c]), n);
  }

  lemma WakeUpCloser(m: Model, s: Sys, n: nat)
    requires Possible(s, WakeUp)
    ensures Closer(m, s, s.(world := s.world.(signalled := false), loop := Dispatching), n)
  {
    hide LeftSum, AllPending, St.All, St.Idle;
  }

  /** Whatever the server does by itself brings it closer to rest. */
  lemma EveryStepIsCloser(be: Backend, m: Model, policy: Policy, s: Sys, o: Occurrence, n: nat)
    requires Attainable(be, policy, s) && Pointwise(be, m) && Granting(s.world.st.alloc) && Alive(s.world)
    requires Below(s.clients, n) && Internal(o) && Possible(s, o)
    ensures var s' := Next(be, s, o);
            && Closer(m, s, s', n) && Alive(s'.world) && s'.clients.Keys == s.clients.Keys
            && Granting(s'.world.st.alloc)
  {
    hide Attainable, Pointwise, Granting, Reachable, Link, ClientsOk, AllRouted, Work, OnWrite, ReadLine,
         DispatchOne, Further, ToServe, Queued, Conserved, Streams, Unshared;
    AttainableConsistent(be, m, policy, s);
    match o {
      case SchedulerTurn =>
        ReachableSound(be, policy, s.world);
        TurnFurther(be, m, s.world);
        TurnAlive(be, s.world);
        TurnGranted(be, s.world);
      case LoopTurn =>
        if s.loop == Dispatching {
          DispatchCloser(m, s, n);
        } else {
          assert s.loop.client in s.clients by { LinkedClient(s); }
          ReadCloser(s, s.loop.client);
        }
      case WakeUp => WakeUpCloser(m, s, n);
      case Written(c) => WrittenCloser(m, s, c, n);
    }
  }

  lemma LinkedClient(s: Sys)
    requires Link(s) && s.loop.Reading?
    ensures s.loop.client in s.clients
  {}

  lemma {:induction false} HistoryExtend(be: Backend, s: Sys, os: seq<Occurrence>, t: Sys, o: Occurrence)
    requires History(be, s, os, t) && Possible(t, o)
    ensures History(be, s, os + [o], Next(be, t, o))
    decreases |os|
  {
    hide Next, Possible;
    if os == [] {
      assert os + [o] == [o] && [o][1..] == [];
    } else {
      assert (os + [o])[1..] == os[1..] + [o];
      HistoryExtend(be, Next(be, s, os[0]), os[1..], t, o);
    }
  }

  lemma AttainableNext(be: Backend, policy: Policy, s: Sys, o: Occurrence)
    requires Attainable(be, policy, s) && Possible(s, o)
    ensures Attainable(be, policy, Next(be, s, o))
  {
    hide Next, Possible;
    var os :| History(be, BootServer(policy), os, s);
    HistoryExtend(be, BootServer(policy), os, s, o);
  }

  /** At rest is where nothing internal can happen. */
  lemma SettledOrNot(s: Sys)
    requires Alive(s.world) && !s.world.pc.Exited?
    ensures Settled(s) <==> forall o :: Internal(o) ==> !Possible(s, o)
  {
    if forall o :: Internal(o) ==> !Possible(s, o) {
      assert !Possible(s, SchedulerTurn) && !Possible(s, LoopTurn) && !Possible(s, WakeUp);
      forall c | c in s.clients
        ensures !s.clients[c].writing
      {
        assert !Possible(s, Written(c));
      }
    }
  }

  ghost predicate AllInternal(os: seq<Occurrence>) { forall k :: 0 <= k < |os| ==> Internal(os[k]) }

  /** The server comes to rest by itself: as long as it has not, something can happen, and it does not matter
      what, for all of it leads to rest. */
  lemma {:induction false} ComesToRest(be: Backend, m: Model, policy: Policy, s: Sys, n: nat)
    returns (os: seq<Occurrence>, s': Sys)
    requires Attainable(be, policy, s) && Pointwise(be, m) && Granting(s.world.st.alloc) && Alive(s.world)
    requires Below(s.clients, n)
    ensures History(be, s, os, s') && AllInternal(os) && Settled(s') && Attainable(be, policy, s')
    ensures s'.clients.Keys == s.clients.Keys
    decreases Unread(s), Stale(s.world), ToServe(m, s.world), |s.world.inbox|, Rank(s.world.pc), |s.world.outbox|,
              |s.world.responses|, Signals(s), AllPending(s.clients, n)
  {
    hide Attainable, Pointwise, Granting, Next, Possible, Settled, Internal, Alive, Unread, ToServe, Rank, Signals,
         AllPending, Stale;
    AttainableStays(be, m, policy, s);
    SettledOrNot(s);
    if Settled(s) {
      os, s' := [], s;
    } else {
      var o :| Internal(o) && Possible(s, o);
      EveryStepIsCloser(be, m, policy, s, o, n);
      AttainableNext(be, policy, s, o);
      os, s' := ComesToRest(be, m, policy, Next(be, s, o), n);
      os := [o] + os;
      assert os[1..] + [] == os[1..];
    }
  }

  lemma {:induction false} SomeBound(clients: map<nat, Client>) returns (n: nat)
    ensures Below(clients, n)
    decreases clients.Keys
  {
    if clients == map[] {
      n := 0;
    } else {
      var c :| c in clients;
      n := SomeBound(clients - {c});
      n := n + c + 1;
      forall d | d in clients
        ensures d < n
      {
        if d != c { assert d in clients - {c}; }
      }
    }
  }

  /** The client has been sent all its answers, and they hold the complete sequential output of each of its
      requests. */
  ghost predicate Answered(m: Model, s: Sys, c: nat)
    requires c in s.clients
  {
    var cl := s.clients[c];
    && cl.sent == RenderAll(cl.items)
    && forall j :: 0 <= j < |cl.accepted| ==>
         && 1 <= cl.accepted[j] <= |s.world.arrived|
         && Project(Answers(cl.items), cl.accepted[j]) == Full(m, s.world.arrived[cl.accepted[j] - 1].ToCore())
  }

  lemma SettledAnswered(be: Backend, m: Model, policy: Policy, s: Sys, c: nat)
    requires Attainable(be, policy, s) && Pointwise(be, m) && Settled(s) && c in s.clients
    ensures Answered(m, s, c)
  {
    hide Attainable, Pointwise, Settled, Consistent, ClientsOk, RenderAll, Answers, Project, Full;
    AttainableConsistent(be, m, policy, s);
    ConsistentParts(be, policy, s);
    SettledSent(s, c);
    forall j | 0 <= j < |s.clients[c].accepted|
      ensures 1 <= s.clients[c].accepted[j] <= |s.world.arrived|
      ensures Project(Answers(s.clients[c].items), s.clients[c].accepted[j])
           == Full(m, s.world.arrived[s.clients[c].accepted[j] - 1].ToCore())
    {
      EverythingDelivered(be, m, policy, s, c, j);
    }
  }

  /** Whatever the allocator has refused so far, if it refuses no more: from every state the server can be in,
      with any requests deferred, swapped out or held outside, if nobody stops it or sends it anything more, it
      gets, by steps of its own, to a state in which everybody is answered. */
  lemma EverybodyIsServed(be: Backend, m: Model, policy: Policy, s: Sys) returns (os: seq<Occurrence>, s': Sys)
    requires Attainable(be, policy, s) && Pointwise(be, m) && Granting(s.world.st.alloc) && Alive(s.world)
    ensures History(be, s, os, s') && AllInternal(os) && Settled(s') && s'.clients.Keys == s.clients.Keys
    ensures forall c :: c in s'.clients ==> Answered(m, s', c)
  {
    hide *;
    var n := SomeBound(s.clients);
    os, s' := ComesToRest(be, m, policy, s, n);
    forall c | c in s'.clients
      ensures Answered(m, s', c)
    {
      SettledAnswered(be, m, policy, s', c);
    }
  }
}
