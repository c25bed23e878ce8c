/** When the allocator refuses no more, a request is finished after as many iterations as it has responses
    to come, wherever it stands and whatever else arrives in the meantime. */
module Promptness {
  import opened Types
  import opened Allocation
  import opened Backends
  import opened SchedulerModel
  import opened Placement
  import opened Bags
  import opened Batching
  import opened Ledger
  import opened Phases
  import opened Worker
  import opened WorkerInvariants
  import opened Theorems
  import opened Progress
  import opened Recovery

  /** How many iterations the worker completes along a run. */
  function Rounds(be: Backend, w: World, events: seq<Event>): nat
    decreases |events|
  {
    if events == [] || !Enabled(w, events[0]) then 0
    else (if Completes(w, events[0]) then 1 else 0) + Rounds(be, After(be, w, events[0]), events[1..])
  }

  predicate Completes(w: World, e: Event) { e.Turn? && w.pc.Settling? }

  /** The requests that have not been answered yet. */
  function Front(st: St): multiset<Core> {
    CoreBag(st.waiting) + CoreBag(st.deferredPrefill) + CoreBag(st.prefill)
  }

  /** The requests that have been answered and are not finished. */
  function Back(st: St): multiset<Core> { CoreBag(st.decode) + CoreBag(st.deferredDecode) + CoreBag(st.swapOut) }

  /** Whether the iteration in progress is past its prefill half, or past its decode half. */
  function PastPrefill(pc: Pc): nat { if pc.EmitPrefill? || pc.Settling? then 1 else 0 }
  function PastDecode(pc: Pc): nat {
    if pc.EmitDecode? || pc.Prefilling? || pc.EmitPrefill? || pc.Settling? then 1 else 0
  }

  /** Whoever has this id and is in the bag has at most n responses to come. */
  ghost predicate Few(m: Model, bag: multiset<Core>, id: nat, n: int) {
    forall c :: c in bag && c.id == id ==> |Rest(m, c)| <= n
  }

  ghost predicate Gone(q: seq<Req>, id: nat) { forall i :: 0 <= i < |q| ==> q[i].id != id }

  /** The request with this id has been taken in and will be finished after n more iterations. */
  ghost predicate Due(m: Model, w: World, id: nat, n: int) {
    && Arrived(w.arrived, id) && Gone(w.inbox, id)
    && Few(m, Front(w.st), id, n - PastPrefill(w.pc)) && Few(m, Back(w.st), id, n - PastDecode(w.pc))
  }

  // ---- what the halves do to the two groups ----

  lemma SwapInGroups(st: St)
    requires Placed(st)
    ensures var s := RetrySwapInRequests(st).st; Front(s) == Front(st) && Back(s) == Back(st)
  {
    FitUnfinished(st.alloc.policy.Bump?, Swapped, st.swapOut);
    hide CoreBag, OriginBag, Sieve, Placed;
    var s := Sieve(RetrySwapIn, st.swapOut, st.alloc);
    SieveBags(RetrySwapIn, st.swapOut, st.alloc);
    JoinBags(st.decode, s.yes);
    Returned(CoreBag(st.decode), CoreBag(st.deferredDecode), CoreBag(s.yes), CoreBag(s.no));
  }

  lemma Returned<T>(d: multiset<T>, e: multiset<T>, yes: multiset<T>, no: multiset<T>)
    ensures (d + yes) + e + no == d + e + (yes + no)
  {}

  lemma RetryDecodeGroups(st: St)
    requires Placed(st) && st.swapOut == []
    ensures var s := RetryDeferredDecode(st).st; Front(s) == Front(st) && CoreBag(s.decode) == Back(st)
  {
    FitUnfinished(st.alloc.policy.Bump?, DeferredDec, st.deferredDecode);
    hide CoreBag, OriginBag, Readied, Placed;
    ReadiedBags(st.deferredDecode);
    JoinBags(st.decode, Readied(st.deferredDecode));
    NoneHeld();
  }

  lemma SameGroup(x: multiset<Core>)
    ensures x + multiset{} == x && x + multiset{} + multiset{} == x
  {}

  lemma SieveGroup(g: Gate, q: seq<Req>, a: Alloc)
    requires Granting(a) && Unfinished(q)
    ensures CoreBag(Sieve(g, q, a).yes) == CoreBag(q)
  {
    hide CoreBag, OriginBag, Granting;
    SieveGranted(g, q, a);
    SieveBags(g, q, a);
    NoneHeld();
    SameGroup(CoreBag(Sieve(g, q, a).yes));
  }

  lemma AdmitGroup(q: seq<Req>, a: Alloc)
    requires Granting(a) && Unfinished(q)
    ensures CoreBag(Admit(q, a).yes) == CoreBag(q)
  {
    hide CoreBag, OriginBag, Granting;
    AdmitGranted(q, a);
    AdmitBags(q, a);
    NoneHeld();
    SameGroup(CoreBag(Admit(q, a).yes));
  }

  /** What is let in to be prefilled, if everything is. */
  lemma PrefillGroups(st: St)
    requires Placed(st) && Granting(st.alloc)
    ensures var s := AdmitWaitingPrefill(RetryDeferredPrefill(st).st).st; CoreBag(s.prefill) == Front(st)
  {
    FitUnfinished(st.alloc.policy.Bump?, DeferredPre, st.deferredPrefill);
    FitUnfinished(st.alloc.policy.Bump?, Waiting, st.waiting);
    hide CoreBag, OriginBag, Sieve, Admit, Reverse, Placed, Granting, Unfinished;
    var s := Sieve(RetryPrefill, st.deferredPrefill, st.alloc);
    SieveGranted(RetryPrefill, st.deferredPrefill, st.alloc);
    SieveGroup(RetryPrefill, st.deferredPrefill, st.alloc);
    ReverseBags(s.yes);
    JoinBags(Reverse(s.yes), st.prefill);
    AdmitGroup(st.waiting, s.alloc);
    JoinBags(Reverse(s.yes) + st.prefill, Admit(st.waiting, s.alloc).yes);
    Regrouped(CoreBag(st.deferredPrefill), CoreBag(st.prefill), CoreBag(st.waiting));
  }

  lemma Regrouped(x: multiset<Core>, y: multiset<Core>, z: multiset<Core>)
    ensures x + y + z == z + x + y
  {}

  lemma VictimGroups(st: St)
    requires Placed(st)
    ensures var s := TrySwapOutVictim(st).st; Front(s) == Front(st) && Back(s) == Back(st)
  {
    FitUnfinished(st.alloc.policy.Bump?, DeferredDec, st.deferredDecode);
    FitUnfinished(st.alloc.policy.Bump?, Ready, st.decode);
    hide CoreBag, OriginBag, EvictFrom, Placed;
    var e := EvictFrom(st.deferredDecode, st.alloc);
    var f := EvictFrom(st.decode, e.alloc);
    EvictBags(st.deferredDecode, st.alloc);
    EvictBags(st.decode, e.alloc);
    NoneHeld();
    var s, v := TrySwapOutVictim(st).st, if e.victim != [] then e.victim else f.victim;
    JoinBags(st.swapOut, v);
    Exchanged(CoreBag(st.decode), CoreBag(st.deferredDecode), CoreBag(st.swapOut), CoreBag(s.decode),
              CoreBag(s.deferredDecode), CoreBag(v));
  }

  lemma Exchanged<T>(d: multiset<T>, e: multiset<T>, f: multiset<T>, d': multiset<T>, e': multiset<T>, v: multiset<T>)
    requires (d' == d && e' + v == e) || (e' == e && d' + v == d)
    ensures d' + e' + (f + v) == d + e + f
  {
    assert d' + e' + (f + v) == (d' + e' + v) + f;
  }

  lemma SettleHalfGroups(st: St, progress: bool)
    requires Placed(st)
    ensures var s := SettleHalf(st, progress).st; Front(s) == Front(st) && Back(s) == Back(st)
  {
    hide CoreBag, TrySwapOutVictim, RetrySwapInRequests, Placed, St.Idle;
    SwapInGroups(st);
    assert Placed(RetrySwapInRequests(st).st) by { SwapInPlaced(st); }
    VictimGroups(RetrySwapInRequests(st).st);
  }

  /** Whoever survives a batch function has been answered by it. */
  lemma {:induction false} AliveHasLess(m: Model, kind: Kind, q: seq<Req>, a: Alloc, id: nat, n: int)
    requires AllFit(a.policy.Bump?, Source(kind), q) && Few(m, CoreBag(q), id, n)
    ensures Few(m, CoreBag(RunEach(m, kind, q, a).alive), id, n - 1)
    decreases |q|
  {
    hide Enter, Complete, ReplyTo, Fits, CoreBag, OriginBag, Rest;
    if q == [] {
      NoneHeld();
    } else {
      var t := Enter(kind, a, q[0]);
      TurnCounts(m, kind, q[0], a);
      CompleteKeepsId(m, kind, q[0], a);
      var (s, resp) := Complete(kind, t.req, ReplyTo(m, kind, t.req));
      HeadBags(q);
      assert q[0].ToCore() in CoreBag(q);
      FewLess(m, CoreBag(q), CoreBag(q[1..]), id, n);
      AliveHasLess(m, kind, q[1..], t.alloc, id, n);
      var e := RunEach(m, kind, q[1..], t.alloc);
      JoinBags([s], e.alive);
      HeadBags([s]);
      NoneHeld();
      assert [s][1..] == [];
    }
  }

  lemma FewLess(m: Model, x: multiset<Core>, y: multiset<Core>, id: nat, n: int)
    requires Few(m, x, id, n) && y <= x
    ensures Few(m, y, id, n)
  {}

  lemma DecodeHalfFewer(be: Backend, m: Model, st: St, id: nat, n: int)
    requires Pointwise(be, m) && Placed(st) && Granting(st.alloc) && Few(m, Back(st), id, n)
    ensures var p := DecodeHalf(be, st).st; Front(p) == Front(st) && Few(m, Back(p), id, n - 1)
  {
    hide CoreBag, RunBatches, RunEach, Pointwise, Placed, Granting, RetrySwapInRequests, RetryDeferredDecode, Few;
    hide DecodeHalf, OriginBag, Held, Submitted;
    DecodeParts(be, st);
    DecodeHalfGranted(be, m, st);
    SwapInHeld(st);
    SwapInGroups(st);
    var p := RetrySwapInRequests(st).st;
    SwapInEmpties(st);
    RetryDecodeHeld(p);
    RetryDecodeGroups(p);
    var q := RetryDeferredDecode(p).st;
    assert AllFit(q.alloc.policy.Bump?, Source(Decode), q.decode) by { QueuesFit(q); }
    RunBatchesIsRunEach(be, m, Decode, MAX_BATCH, q.decode, q.alloc);
    AliveHasLess(m, Decode, q.decode, q.alloc, id, n);
    NoneHeld();
    assert Back(DecodeHalf(be, st).st) == CoreBag(RunEach(m, Decode, q.decode, q.alloc).alive);
  }

  lemma DecodeParts(be: Backend, st: St)
    ensures DecodeHalf(be, st).st
         == RunDecodeBatch(be, MAX_BATCH, RetryDeferredDecode(RetrySwapInRequests(st).st).st).st
  {
    hide RunDecodeBatch, RetrySwapInRequests, RetryDeferredDecode;
  }

  lemma QueuesFit(st: St)
    requires Placed(st)
    ensures AllFit(st.alloc.policy.Bump?, Source(Decode), st.decode)
    ensures AllFit(st.alloc.policy.Bump?, Source(Prefill), st.prefill)
  {
    hide Fits;
  }

  lemma SwapInEmpties(st: St)
    requires Granting(st.alloc)
    ensures RetrySwapInRequests(st).st.swapOut == [] && Granting(RetrySwapInRequests(st).st.alloc)
  {
    hide Granting;
    SieveGranted(RetrySwapIn, st.swapOut, st.alloc);
  }

  lemma PrefillHalfFewer(be: Backend, m: Model, st: St, id: nat, n: int)
    requires Pointwise(be, m) && Placed(st) && Granting(st.alloc)
    requires Few(m, Front(st), id, n) && Few(m, Back(st), id, n - 1)
    ensures var p := PrefillHalf(be, st).st; Few(m, Front(p), id, n - 1) && Few(m, Back(p), id, n - 1)
  {
    hide CoreBag, RunBatches, RunEach, Pointwise, Placed, Granting, RetrySwapInRequests, RetryDeferredPrefill, Few;
    hide AdmitWaitingPrefill, PrefillHalf, OriginBag, Held, Submitted;
    PrefillHalfGranted(be, m, st);
    SwapInHeld(st);
    SwapInGroups(st);
    SwapInEmpties(st);
    var p := RetrySwapInRequests(st).st;
    RetryPrefillHeld(p);
    var q := RetryDeferredPrefill(p).st;
    AdmitHeld(q);
    var r := AdmitWaitingPrefill(q).st;
    PrefillGroups(p);
    AdmissionKeepsBack(p);
    QueuesFit(r);
    RunBatchesIsRunEach(be, m, Prefill, MAX_BATCH, r.prefill, r.alloc);
    AliveHasLess(m, Prefill, r.prefill, r.alloc, id, n);
    PrefillParts(be, st);
    var alive := RunEach(m, Prefill, r.prefill, r.alloc).alive;
    JoinBags(r.decode, alive);
    NoneHeld();
    FewBoth(m, Back(st), CoreBag(alive), id, n - 1);
    assert Back(PrefillHalf(be, st).st) == Back(st) + CoreBag(alive);
    assert Front(PrefillHalf(be, st).st) == multiset{};
    NobodyThere(m, id, n - 1);
  }

  lemma AdmissionKeepsBack(st: St)
    ensures Back(AdmitWaitingPrefill(RetryDeferredPrefill(st).st).st) == Back(st)
  {
    hide Sieve, Admit, Reverse, CoreBag;
  }

  lemma FewBoth(m: Model, x: multiset<Core>, y: multiset<Core>, id: nat, n: int)
    requires Few(m, x, id, n) && Few(m, y, id, n)
    ensures Few(m, x + y, id, n)
  {}

  lemma NobodyThere(m: Model, id: nat, n: int)
    ensures Few(m, multiset{}, id, n)
  {}

  // ---- the steps ----

  lemma DuePop(m: Model, w: World, id: nat, n: int, pc: Pc)
    requires Due(m, w, id, n) && w.inbox != []
    requires PastPrefill(w.pc) == PastPrefill(pc) == 0 && PastDecode(w.pc) == PastDecode(pc) == 0
    ensures Due(m, PopOne(w, pc), id, n)
  {
    hide Rest, CoreBag, OriginBag;
    var r := w.inbox[0];
    assert r.id != id;
    JoinBags(w.st.waiting, [r]);
    HeadBags([r]);
    NoneHeld();
    assert [r][1..] == [];
    assert Front(PopOne(w, pc).st) == Front(w.st) + multiset{r.ToCore()};
  }

  lemma SameDue(m: Model, w: World, id: nat, n: int, v: World)
    requires Due(m, w, id, n) && v.inbox == w.inbox && v.arrived == w.arrived
    requires Front(v.st) == Front(w.st) && Back(v.st) == Back(w.st)
    requires PastPrefill(v.pc) == PastPrefill(w.pc) && PastDecode(v.pc) == PastDecode(w.pc)
    ensures Due(m, v, id, n)
  {
    hide Few, Gone, Arrived, CoreBag;
  }

  lemma DueDecoding(be: Backend, m: Model, w: World, id: nat, n: int)
    requires Pointwise(be, m) && Placed(w.st) && Granting(w.st.alloc) && w.pc.Decoding? && Due(m, w, id, n)
    ensures Due(m, Work(be, w), id, n)
  {
    hide Pointwise, Placed, Granting, DecodeHalf, Work, Batch, Few, Gone, Arrived, Front, Back;
    DecodeHalfFewer(be, m, w.st, id, n);
    WorkDecoding(be, w);
    BatchFields(w, DecodeHalf(be, w.st), EmitDecode);
  }

  lemma DuePrefilling(be: Backend, m: Model, w: World, id: nat, n: int)
    requires Pointwise(be, m) && Placed(w.st) && Granting(w.st.alloc) && w.pc.Prefilling? && Due(m, w, id, n)
    ensures Due(m, Work(be, w), id, n)
  {
    hide Pointwise, Placed, Granting, PrefillHalf, Work, Batch, Few, Gone, Arrived, Front, Back;
    PrefillHalfFewer(be, m, w.st, id, n);
    WorkPrefilling(be, w);
    BatchFields(w, PrefillHalf(be, w.st), EmitPrefill);
  }

  lemma DueSettling(be: Backend, m: Model, w: World, id: nat, n: int)
    requires Placed(w.st) && w.pc.Settling? && Due(m, w, id, n)
    ensures Due(m, Work(be, w), id, n - 1)
  {
    hide Placed, Work, SettleHalf, St.Idle, Few, Gone, Arrived, Front, Back;
    WorkSettling(be, w);
    SettleHalfGroups(w.st, w.progress);
  }

  /** A turn that completes an iteration leaves one iteration less; no other turn makes it more. */
  lemma DueTurn(be: Backend, m: Model, w: World, id: nat, n: int)
    requires Pointwise(be, m) && Queued(w) && Granting(w.st.alloc) && CanWork(w) && Due(m, w, id, n)
    ensures Due(m, Work(be, w), id, if w.pc.Settling? then n - 1 else n)
  {
    hide Queued, Pointwise, Placed, Granting, Work, PopOne, Emit, Few, Gone, Arrived, Due, CoreBag;
    assert Placed(w.st) by { QueuedPlaced(w); }
    var w' := Work(be, w);
    match w.pc {
      case Head =>
        WorkHead(be, w);
        SameDue(m, w, id, n, w');
      case Draining(k) =>
        WorkDraining(be, w);
        if k < MAX_BATCH && w.inbox != [] { DuePop(m, w, id, n, Draining(k + 1)); }
        else { SameDue(m, w, id, n, w'); }
      case Decoding => DueDecoding(be, m, w, id, n);
      case Prefilling => DuePrefilling(be, m, w, id, n);
      case Settling => DueSettling(be, m, w, id, n);
      case Parked =>
        WorkParked(be, w);
        if w.inbox != [] { DuePop(m, w, id, n, Head); } else { SameDue(m, w, id, n, w'); }
      case _ =>
        var pc := if w.pc.EmitDecode? then Pc.Prefilling else Settling;
        WorkEmitting(be, w);
        BatchFields(w, Phase(w.st, [], false), pc);
        SameDue(m, w, id, n, w');
    }
  }

  lemma DuePush(m: Model, w: World, id: nat, n: int, r: Req)
    requires Due(m, w, id, n) && Fresh(w, r)
    ensures Due(m, w.(inbox := w.inbox + [r], arrived := w.arrived + [r]), id, n)
  {
    hide Few;
    var i :| 0 <= i < |w.arrived| && w.arrived[i].id == id;
    assert (w.arrived + [r])[i].id == id;
    assert r.id != id;
  }

  lemma DueStep(be: Backend, m: Model, w: World, e: Event, id: nat, n: int)
    requires Pointwise(be, m) && Queued(w) && Granting(w.st.alloc) && Enabled(w, e) && Due(m, w, id, n)
    ensures Due(m, After(be, w, e), id, if Completes(w, e) then n - 1 else n)
  {
    if e.Turn? {
      hide Pointwise, Queued, Granting, Due, After, Enabled, Work;
      EnabledTurn(w);
      AfterTurn(be, w);
      DueTurn(be, m, w, id, n);
    } else if e.Push? {
      hide Due;
      DuePush(m, w, id, n, e.req);
    } else {
      hide Due, CoreBag;
      SameDue(m, w, id, n, After(be, w, e));
    }
  }

  lemma {:induction false} RunDue(be: Backend, m: Model, w: World, events: seq<Event>, w': World, id: nat, n: int)
    requires Pointwise(be, m) && Sound(w) && Granting(w.st.alloc)
    requires Worker.Run(be, w, events, w') && Due(m, w, id, n)
    ensures Due(m, w', id, n - Rounds(be, w, events))
    decreases |events|
  {
    hide Queued, Conserved, Streams, Unshared, Pointwise, Granting, After, Enabled, Due, Completes;
    if events != [] {
      SoundStep(be, w, events[0]);
      StepGranted(be, w, events[0]);
      DueStep(be, m, w, events[0], id, n);
      RunDue(be, m, After(be, w, events[0]), events[1..], w', id, if Completes(w, events[0]) then n - 1 else n);
    }
  }

  // ---- from queues to groups and back ----

  /** How many of the requests held are still to be prefilled; they stand first in Internal(). */
  function FrontSize(st: St): nat { |st.waiting| + |st.deferredPrefill| + |st.prefill| }

  lemma GroupsAre(st: St)
    ensures st.Internal()[..FrontSize(st)] == st.waiting + st.deferredPrefill + st.prefill
    ensures st.Internal()[FrontSize(st)..] == st.decode + st.deferredDecode + st.swapOut
    ensures CoreBag(st.Internal()[..FrontSize(st)]) == Front(st) && CoreBag(st.Internal()[FrontSize(st)..]) == Back(st)
  {
    hide CoreBag, OriginBag;
    assert st.Internal() == (st.waiting + st.deferredPrefill + st.prefill)
                          + (st.decode + st.deferredDecode + st.swapOut);
    JoinBags(st.waiting, st.deferredPrefill);
    JoinBags(st.waiting + st.deferredPrefill, st.prefill);
    JoinBags(st.decode, st.deferredDecode);
    JoinBags(st.decode + st.deferredDecode, st.swapOut);
  }

  /** The iterations a request may have to wait because the one in progress is past it. */
  function Missed(w: World, i: nat): nat { if i < FrontSize(w.st) then PastPrefill(w.pc) else PastDecode(w.pc) }

  /** In a part of a queue of distinct requests, whoever has the id of request i is request i. */
  lemma FewHere(m: Model, q: seq<Req>, part: seq<Req>, lo: nat, i: nat)
    requires i < |q| && lo + |part| <= |q| && part == q[lo..lo + |part|]
    requires forall a, b :: 0 <= a < |q| && 0 <= b < |q| && a != b ==> q[a].id != q[b].id
    ensures Few(m, CoreBag(part), q[i].id, Left(m, q[i]))
    ensures !(lo <= i < lo + |part|) ==> forall n :: Few(m, CoreBag(part), q[i].id, n)
  {
    hide Rest, CoreBag;
    forall c | c in CoreBag(part) && c.id == q[i].id
      ensures c == q[i].ToCore() && lo <= i < lo + |part|
    {
      var k := IndexOfCore(part, c);
      assert part[k] == q[lo + k];
    }
  }

  lemma HeldApart(w: World)
    requires forall a, b :: 0 <= a < |Everything(w)| && 0 <= b < |Everything(w)| && a != b ==>
               Everything(w)[a].id != Everything(w)[b].id
    ensures var q := w.st.Internal();
            && (forall a, b :: 0 <= a < |q| && 0 <= b < |q| && a != b ==> q[a].id != q[b].id)
            && forall i :: 0 <= i < |q| ==> Gone(w.inbox, q[i].id)
  {
    hide St.Internal;
    var q, n := w.st.Internal(), |w.inbox|;
    assert forall j :: 0 <= j < |q| ==> Everything(w)[n + j] == q[j];
    assert forall j :: 0 <= j < n ==> Everything(w)[j] == w.inbox[j];
    forall a, b | 0 <= a < |q| && 0 <= b < |q| && a != b
      ensures q[a].id != q[b].id
    {
      assert Everything(w)[n + a] == q[a] && Everything(w)[n + b] == q[b];
    }
    forall i, j | 0 <= i < |q| && 0 <= j < n
      ensures w.inbox[j].id != q[i].id
    {
      assert Everything(w)[n + i] == q[i];
    }
  }

  lemma DueAtFirst(m: Model, w: World, i: nat)
    requires i < |w.st.Internal()| && Arrived(w.arrived, w.st.Internal()[i].id)
    requires forall a, b :: 0 <= a < |Everything(w)| && 0 <= b < |Everything(w)| && a != b ==>
               Everything(w)[a].id != Everything(w)[b].id
    ensures Due(m, w, w.st.Internal()[i].id, Left(m, w.st.Internal()[i]) + Missed(w, i))
  {
    hide Left, Arrived, CoreBag, Few, St.Internal;
    var q, k := w.st.Internal(), FrontSize(w.st);
    HeldApart(w);
    GroupsAre(w.st);
    SizeOfGroups(w.st);
    FewHere(m, q, q[..k], 0, i);
    FewHere(m, q, q[k..], k, i);
  }

  lemma SizeOfGroups(st: St)
    ensures FrontSize(st) <= |st.Internal()|
  {}

  /** Nobody unfinished has nothing to come. */
  lemma NobodyHeld(m: Model, w: World, id: nat, n: int, j: nat)
    requires Queued(w) && Due(m, w, id, n) && n <= 0 && j < |w.st.Internal()|
    ensures w.st.Internal()[j].id != id
  {
    var q, k := w.st.Internal(), FrontSize(w.st);
    UnfinishedHasMore(m, w.st, j);
    hide Rest, Placed, CoreBag, OriginBag, St.Internal;
    GroupsAre(w.st);
    SizeOfGroups(w.st);
    if j < k {
      InBag(q[..k], j);
      assert q[..k][j] == q[j];
    } else {
      InBag(q[k..], j - k);
      assert q[k..][j - k] == q[j];
    }
  }

  lemma AmongFinished(m: Model, w: World, id: nat, n: int, k: nat) returns (i: nat)
    requires Queued(w) && Due(m, w, id, n) && n <= 0
    requires k < |Everything(w)| && Everything(w)[k].id == id
    ensures i < |w.st.finish| && w.st.finish[i] == Everything(w)[k]
  {
    hide Rest, Placed, Few, St.Internal;
    var q := w.st.Internal();
    assert Everything(w) == w.inbox + q + w.st.finish;
    forall j | 0 <= j < |q|
      ensures q[j].id != id
    {
      NobodyHeld(m, w, id, n, j);
    }
    i := k - |w.inbox| - |q|;
  }

  /** Once the allocator refuses no more: a request that the worker holds, waiting, deferred, swapped out or
      decoding, is finished once the worker has completed as many iterations as that request has responses to
      come, and one more if the iteration in progress is past it. Others may arrive, and stay, as they like. */
  lemma FinishedOnceGranted(be: Backend, m: Model, policy: Policy, w: World, i: nat, events: seq<Event>, w': World)
    returns (k: nat)
    requires Pointwise(be, m) && Reachable(be, policy, w) && Worker.Run(be, w, events, w') && Granting(w.st.alloc)
    requires i < |w.st.Internal()| && Rounds(be, w, events) >= Left(m, w.st.Internal()[i]) + Missed(w, i)
    ensures k < |w'.st.finish| && w'.st.finish[k].ToOrigin() == w.st.Internal()[i].ToOrigin()
  {
    hide Pointwise, Granting, Queued, Conserved, Streams, Unshared, Due, Reachable, Left, Rounds, Missed, St.Internal;
    var r, n := w.st.Internal()[i], |w.inbox|;
    ReachableSound(be, policy, w);
    assert Everything(w)[n + i] == r;
    var a := ArrivalOf(w, n + i);
    forall a, b | 0 <= a < |Everything(w)| && 0 <= b < |Everything(w)| && a != b
      ensures Everything(w)[a].id != Everything(w)[b].id
    {
      DifferentIds(be, policy, w, a, b);
    }
    assert Arrived(w.arrived, r.id);
    DueAtFirst(m, w, i);
    RunDue(be, m, w, events, w', r.id, Left(m, r) + Missed(w, i));
    RunSound(be, w, events, w');
    RunGrows(be, w, events, w');
    RunReachable(be, policy, w, events, w');
    assert w'.arrived[a].ToOrigin() == r.ToOrigin();
    var e := ExactlyOnePlace(be, policy, w', a);
    k := AmongFinished(m, w', r.id, Left(m, r) + Missed(w, i) - Rounds(be, w, events), e);
  }

  /** If it never refuses, a request that the worker has taken in is never passed over. */
  lemma FinishedWithinOwnRounds(be: Backend, m: Model, policy: Policy, w: World, i: nat, events: seq<Event>, w': World)
    returns (k: nat)
    requires Pointwise(be, m) && Willing(policy) && Reachable(be, policy, w) && Worker.Run(be, w, events, w')
    requires i < |w.st.waiting| && Rounds(be, w, events) >= Left(m, w.st.waiting[i])
    ensures k < |w'.st.finish| && w'.st.finish[k].ToOrigin() == w.st.waiting[i].ToOrigin()
  {
    hide Pointwise, Willing, Granting, Sound, Reachable, Left, Rounds;
    ReachableSound(be, policy, w);
    ReachableCalm(be, m, policy, w);
    WillingGrants(w.st.alloc);
    assert w.st.Internal()[i] == w.st.waiting[i];
    k := FinishedOnceGranted(be, m, policy, w, i, events, w');
  }

  /** With the mock backend: as many iterations as the request asked for new tokens, and at least one. */
  lemma MockFinishedWithinRounds(policy: Policy, w: World, i: nat, events: seq<Event>, w': World) returns (k: nat)
    requires Willing(policy) && Reachable(MOCK_BACKEND, policy, w) && Worker.Run(MOCK_BACKEND, w, events, w')
    requires i < |w.st.waiting| && Rounds(MOCK_BACKEND, w, events) >= Max(1, w.st.waiting[i].maxNew)
    ensures k < |w'.st.finish| && w'.st.finish[k].ToOrigin() == w.st.waiting[i].ToOrigin()
  {
    assert Left(MOCK_MODEL, w.st.waiting[i]) == Max(1, w.st.waiting[i].maxNew) by {
      ReachableSound(MOCK_BACKEND, policy, w);
      assert Fits(policy.Bump?, Place.Waiting, w.st.waiting[i]);
      MockRest(w.st.waiting[i].ToCore());
    }
    hide *;
    k := FinishedWithinOwnRounds(MOCK_BACKEND, MOCK_MODEL, policy, w, i, events, w');
  }
}
