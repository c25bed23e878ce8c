/** When the allocator never refuses, every iteration serves every request the scheduler holds. */
module Progress {
  import opened Types
  import opened Allocation
  import opened Backends
  import opened SchedulerModel
  import opened Placement
  import opened Bags
  import opened Batching
  import opened Ledger
  import opened Paging
  import opened Worker
  import opened WorkerInvariants
  import opened Theorems

  ghost predicate Willing(p: Policy) {
    match p
    case Bump(refuses) => forall k :: !refuses(k)
    case Script(answer) => forall k :: answer(k).Grant?
  }

  /** The responses a request still has coming. */
  function Left(m: Model, r: Req): nat { |Rest(m, r.ToCore())| }

  function LeftSum(m: Model, q: seq<Req>): nat {
    if q == [] then 0 else Left(m, q[0]) + LeftSum(m, q[1..])
  }

  ghost predicate AtMost(m: Model, q: seq<Req>, n: nat) {
    forall i :: 0 <= i < |q| ==> Left(m, q[i]) <= n
  }

  lemma {:induction false} LeftSumConcat(m: Model, p: seq<Req>, q: seq<Req>)
    ensures LeftSum(m, p + q) == LeftSum(m, p) + LeftSum(m, q)
  {
    if p == [] {
      assert p + q == q;
    } else {
      LeftSumConcat(m, p[1..], q);
      assert (p + q)[1..] == p[1..] + q;
    }
  }

  /** Nothing is deferred, swapped out, or held between admission and prefill. */
  predicate Calm(st: St) {
    st.deferredPrefill == [] && st.prefill == [] && st.deferredDecode == [] && st.swapOut == [] && !st.paused
  }

  lemma {:induction false} AdmitAll(m: Model, q: seq<Req>, a: Alloc)
    requires Willing(a.policy) && AllFit(a.policy.Bump?, Place.Waiting, q)
    ensures var s := Admit(q, a);
            && s.no == [] && s.rest == [] && s.alloc.policy == a.policy && |s.yes| == |q|
            && Ids(s.yes) == Ids(q) && LeftSum(m, s.yes) == LeftSum(m, q)
            && forall n :: AtMost(m, q, n) ==> AtMost(m, s.yes, n)
  {
    if q != [] {
      hide Attempt, Fits, Left, Willing;
      var t := Attempt(AdmitPrefill, a, q[0]);
      WillingAdmits(m, a, q[0]);
      AdmitAll(m, q[1..], t.alloc);
      var s, e := Admit(q, a), Admit(q[1..], t.alloc);
      assert Ids(s.yes) == [t.req.id] + Ids(e.yes) && Ids(q) == [q[0].id] + Ids(q[1..]);
      assert s.yes == [t.req] + e.yes && s.yes[1..] == e.yes;
      AtMostCons(m, q, t.req, e.yes);
    }
  }

  lemma WillingAdmits(m: Model, a: Alloc, r: Req)
    requires Willing(a.policy) && Fits(a.policy.Bump?, Place.Waiting, r)
    ensures var t := Attempt(AdmitPrefill, a, r);
            t.ok && t.alloc.policy == a.policy && t.req.id == r.id && Left(m, t.req) == Left(m, r)
  {
    AttemptSame(AdmitPrefill, a, r);
    hide Rest;
  }

  lemma AtMostCons(m: Model, q: seq<Req>, r: Req, yes: seq<Req>)
    requires q != [] && Left(m, r) == Left(m, q[0]) && forall n :: AtMost(m, q[1..], n) ==> AtMost(m, yes, n)
    ensures forall n :: AtMost(m, q, n) ==> AtMost(m, [r] + yes, n)
  {
    hide Left;
    forall n | AtMost(m, q, n)
      ensures AtMost(m, [r] + yes, n)
    {
      assert AtMost(m, q[1..], n);
      assert Left(m, q[0]) <= n;
    }
  }

  /** One turn of one request: it is admitted, it answers once, and it has one response less to give. */
  lemma TurnServes(m: Model, kind: Kind, r: Req, a: Alloc)
    requires Willing(a.policy) && Fits(a.policy.Bump?, Source(kind), r)
    ensures var t := Enter(kind, a, r);
            var (s, resp) := Complete(kind, t.req, ReplyTo(m, kind, t.req));
            && t.ok && t.alloc.policy == a.policy && resp.id == r.id
            && Left(m, r) == 1 + Left(m, s) && (resp.finished ==> Left(m, s) == 0)
  {
    EnterFits(kind, a, r);
    var t := Enter(kind, a, r);
    CompleteAdvances(m, a.policy.Bump?, kind, t.req);
  }

  lemma {:induction false} RunServesAll(m: Model, kind: Kind, q: seq<Req>, a: Alloc)
    requires Willing(a.policy) && AllFit(a.policy.Bump?, Source(kind), q)
    ensures var o := RunEach(m, kind, q, a);
            && o.deferred == [] && o.alloc.policy == a.policy
            && RespIds(o.out) == Ids(q) && LeftSum(m, o.alive) + |q| == LeftSum(m, q)
            && forall n :: n > 0 && AtMost(m, q, n) ==> AtMost(m, o.alive, n - 1)
  {
    hide Enter, Complete, ReplyTo, Fits, Left, AtMost, Willing;
    if q == [] {
      NobodyLeft(m);
    } else {
      TurnServes(m, kind, q[0], a);
      var t := Enter(kind, a, q[0]);
      RunServesAll(m, kind, q[1..], t.alloc);
      var o, e := RunEach(m, kind, q, a), RunEach(m, kind, q[1..], t.alloc);
      var (s, resp) := Complete(kind, t.req, ReplyTo(m, kind, t.req));
      assert RespIds(o.out) == [resp.id] + RespIds(e.out) && Ids(q) == [q[0].id] + Ids(q[1..]);
      if !resp.finished { assert o.alive[1..] == e.alive; }
      OneLess(m, q, s, e.alive);
    }
  }

  lemma NobodyLeft(m: Model)
    ensures forall n: nat :: AtMost(m, [], n)
  {}

  lemma OneLess(m: Model, q: seq<Req>, s: Req, alive: seq<Req>)
    requires q != [] && Left(m, q[0]) == 1 + Left(m, s)
    requires forall n :: n > 0 && AtMost(m, q[1..], n) ==> AtMost(m, alive, n - 1)
    ensures forall n :: n > 0 && AtMost(m, q, n) ==> AtMost(m, alive, n - 1) && AtMost(m, [s] + alive, n - 1)
  {
    hide Left;
    forall n | n > 0 && AtMost(m, q, n)
      ensures AtMost(m, alive, n - 1) && AtMost(m, [s] + alive, n - 1)
    {
      assert AtMost(m, q[1..], n);
      assert Left(m, q[0]) <= n;
    }
  }

  /** r is a request of q that has had d more responses since. */
  ghost predicate CameFrom(m: Model, q: seq<Req>, r: Req, d: nat) {
    exists j :: 0 <= j < |q| && q[j].id == r.id && Left(m, q[j]) == Left(m, r) + d
  }

  /** Every request that is left has had exactly one response. */
  lemma {:induction false} SurvivorsAdvance(m: Model, kind: Kind, q: seq<Req>, a: Alloc, i: nat)
    requires Willing(a.policy) && AllFit(a.policy.Bump?, Source(kind), q) && i < |RunEach(m, kind, q, a).alive|
    ensures CameFrom(m, q, RunEach(m, kind, q, a).alive[i], 1)
    decreases |q|
  {
    hide Enter, Complete, ReplyTo, Fits, Left, Willing;
    var t := Enter(kind, a, q[0]);
    TurnServes(m, kind, q[0], a);
    var (s, resp) := Complete(kind, t.req, ReplyTo(m, kind, t.req));
    CompleteKeepsId(m, kind, q[0], a);
    if !resp.finished && i == 0 {
      assert q[0].id == s.id && Left(m, q[0]) == Left(m, s) + 1;
    } else {
      var k := if resp.finished then i else i - 1;
      SurvivorsAdvance(m, kind, q[1..], t.alloc, k);
      var r := RunEach(m, kind, q[1..], t.alloc).alive[k];
      var j :| 0 <= j < |q[1..]| && q[1..][j].id == r.id && Left(m, q[1..][j]) == Left(m, r) + 1;
      assert q[j + 1] == q[1..][j];
    }
  }

  /** Admission of everyone changes nobody's outstanding responses. */
  lemma {:induction false} AdmitAdvances(m: Model, q: seq<Req>, a: Alloc, i: nat)
    requires Willing(a.policy) && AllFit(a.policy.Bump?, Place.Waiting, q) && i < |Admit(q, a).yes|
    ensures i < |q| && Admit(q, a).yes[i].id == q[i].id && Left(m, Admit(q, a).yes[i]) == Left(m, q[i])
    decreases |q|
  {
    hide Attempt, Fits, Left, Willing;
    var t := Attempt(AdmitPrefill, a, q[0]);
    WillingAdmits(m, a, q[0]);
    if i > 0 { AdmitAdvances(m, q[1..], t.alloc, i - 1); }
  }

  lemma CalmSwapIn(st: St)
    requires Calm(st)
    ensures RetrySwapInRequests(st) == Phase(st, [], false)
  {
    assert st.decode + [] == st.decode;
  }

  /** What a calm decode half amounts to: serve everyone, one by one. */
  lemma CalmDecodeHalf(be: Backend, m: Model, st: St)
    requires Pointwise(be, m) && Calm(st) && RunEach(m, Decode, st.decode, st.alloc).deferred == []
    ensures var o := RunEach(m, Decode, st.decode, st.alloc);
            var p := DecodeHalf(be, st);
            && Calm(p.st) && p.st.waiting == st.waiting && p.out == o.out && p.st.decode == o.alive
                && p.progress == (o.out != [])
  {
    CalmSwapIn(st);
    assert RetryDeferredDecode(st).st == st by { assert st.decode + [] == st.decode; }
    RunBatchesIsRunEach(be, m, Decode, MAX_BATCH, st.decode, st.alloc);
    hide RunBatches, RunEach, Pointwise, RetrySwapInRequests, RetryDeferredDecode;
    assert forall p: Phase :: [] + p.out == p.out;
  }

  /** The decode half answers every request of the decode queue, in order, and leaves no other. */
  lemma DecodeHalfServes(be: Backend, m: Model, st: St)
    requires Pointwise(be, m) && Placed(st) && Calm(st) && Willing(st.alloc.policy)
    ensures var p := DecodeHalf(be, st);
            && Calm(p.st) && p.st.waiting == st.waiting && RespIds(p.out) == Ids(st.decode)
            && p.progress == (st.decode != []) && (st.decode == [] ==> p.st.decode == [])
            && LeftSum(m, p.st.decode) + |st.decode| == LeftSum(m, st.decode)
            && forall n :: n > 0 && AtMost(m, st.decode, n) ==> AtMost(m, p.st.decode, n - 1)
  {
    RunServesAll(m, Decode, st.decode, st.alloc);
    CalmDecodeHalf(be, m, st);
    hide DecodeHalf, RunEach, Fits, Left, Pointwise;
    assert |RespIds(RunEach(m, Decode, st.decode, st.alloc).out)| == |st.decode|;
    if st.decode == [] { NothingFromNothing(m, Decode, st.alloc); }
  }

  /** What a calm prefill half amounts to: admit everyone, serve them one by one. */
  lemma CalmPrefillHalf(be: Backend, m: Model, st: St)
    requires Pointwise(be, m) && Calm(st) && Admit(st.waiting, st.alloc).no == []
    ensures var s := Admit(st.waiting, st.alloc);
            var o := RunEach(m, Prefill, s.yes, s.alloc);
            var p := PrefillHalf(be, st);
            && Calm(p.st) && p.st.waiting == s.rest && p.out == o.out && p.st.decode == st.decode + o.alive
            && p.progress == (s.yes != [] || o.out != [])
  {
    var s := Admit(st.waiting, st.alloc);
    CalmSwapIn(st);
    RunBatchesIsRunEach(be, m, Prefill, MAX_BATCH, s.yes, s.alloc);
    assert RetryDeferredPrefill(st) == Phase(st, [], false) by { assert [] + st.prefill == []; }
    hide RunEach, RunBatches, Pointwise, RetrySwapInRequests, RetryDeferredPrefill, Admit, PrefillHalf;
    CalmPrefillParts(be, st);
    assert [] + s.yes == s.yes && st.deferredPrefill + s.no == [];
  }

  lemma CalmPrefillParts(be: Backend, st: St)
    requires RetrySwapInRequests(st) == Phase(st, [], false) && RetryDeferredPrefill(st) == Phase(st, [], false)
    ensures var r := AdmitWaitingPrefill(st);
            var o := RunPrefillBatch(be, MAX_BATCH, r.st);
            PrefillHalf(be, st) == Phase(o.st, o.out, r.progress || o.progress)
  {
    hide RetrySwapInRequests, RetryDeferredPrefill, RunPrefillBatch;
    var r := AdmitWaitingPrefill(st);
    var o := RunPrefillBatch(be, MAX_BATCH, r.st);
    assert [] + ([] + (r.out + o.out)) == o.out;
  }

  /** The prefill half admits and answers every waiting request, in order. */
  lemma PrefillHalfServes(be: Backend, m: Model, st: St)
    requires Pointwise(be, m) && Placed(st) && Calm(st) && Willing(st.alloc.policy)
    ensures var p := PrefillHalf(be, st);
            && Calm(p.st) && p.st.waiting == [] && RespIds(p.out) == Ids(st.waiting)
            && p.progress == (st.waiting != [])
            && LeftSum(m, p.st.decode) + |st.waiting| == LeftSum(m, st.decode) + LeftSum(m, st.waiting)
            && (forall n :: n > 0 && AtMost(m, st.waiting, n) && AtMost(m, st.decode, n - 1) ==>
                AtMost(m, p.st.decode, n - 1))
            && (st.waiting == [] ==> p.st.decode == st.decode)
  {
    AdmitAll(m, st.waiting, st.alloc);
    AdmitFits(st.waiting, st.alloc);
    CalmPrefillHalf(be, m, st);
    var s := Admit(st.waiting, st.alloc);
    RunServesAll(m, Prefill, s.yes, s.alloc);
    var o := RunEach(m, Prefill, s.yes, s.alloc);
    LeftSumConcat(m, st.decode, o.alive);
    hide RunEach, Fits, Left, Pointwise, PrefillHalf, Admit;
    assert |RespIds(o.out)| == |st.waiting|;
    if st.waiting == [] { NothingFromNothing(m, Prefill, s.alloc); assert s.yes == []; }
  }

  lemma DecodeHalfAdvances(be: Backend, m: Model, st: St)
    requires Pointwise(be, m) && Placed(st) && Calm(st) && Willing(st.alloc.policy)
    ensures var d := DecodeHalf(be, st).st.decode; forall i :: 0 <= i < |d| ==> CameFrom(m, st.decode, d[i], 1)
  {
    RunServesAll(m, Decode, st.decode, st.alloc);
    CalmDecodeHalf(be, m, st);
    hide DecodeHalf, RunEach, Fits, Pointwise, CameFrom, AtMost;
    var d := DecodeHalf(be, st).st.decode;
    forall i | 0 <= i < |d|
      ensures CameFrom(m, st.decode, d[i], 1)
    {
      SurvivorsAdvance(m, Decode, st.decode, st.alloc, i);
    }
  }

  lemma PrefillHalfAdvances(be: Backend, m: Model, st: St)
    requires Pointwise(be, m) && Placed(st) && Calm(st) && Willing(st.alloc.policy)
    ensures var d := PrefillHalf(be, st).st.decode;
            forall i :: 0 <= i < |d| ==> CameFrom(m, st.decode, d[i], 0) || CameFrom(m, st.waiting, d[i], 1)
  {
    AdmitAll(m, st.waiting, st.alloc);
    AdmitFits(st.waiting, st.alloc);
    CalmPrefillHalf(be, m, st);
    hide PrefillHalf, RunEach, Fits, Pointwise, AtMost, Admit, Willing, CameFrom, Left;
    var s := Admit(st.waiting, st.alloc);
    RunServesAll(m, Prefill, s.yes, s.alloc);
    var d := PrefillHalf(be, st).st.decode;
    forall i | 0 <= i < |d|
      ensures CameFrom(m, st.decode, d[i], 0) || CameFrom(m, st.waiting, d[i], 1)
    {
      if i < |st.decode| {
        StillThere(m, st.decode, i);
      } else {
        AdmittedAdvance(m, st.waiting, st.alloc, i - |st.decode|);
      }
    }
  }

  lemma StillThere(m: Model, q: seq<Req>, i: nat)
    requires i < |q|
    ensures CameFrom(m, q, q[i], 0)
  {
    hide Left;
    assert q[i].id == q[i].id && Left(m, q[i]) == Left(m, q[i]) + 0;
  }

  /** Everyone who survives admission and a prefill was waiting, with one response more to come. */
  lemma AdmittedAdvance(m: Model, q: seq<Req>, a: Alloc, k: nat)
    requires Willing(a.policy) && AllFit(a.policy.Bump?, Place.Waiting, q)
    requires var s := Admit(q, a);
             && s.alloc.policy == a.policy && AllFit(s.alloc.policy.Bump?, Source(Prefill), s.yes)
             && k < |RunEach(m, Prefill, s.yes, s.alloc).alive|
    ensures var s := Admit(q, a); CameFrom(m, q, RunEach(m, Prefill, s.yes, s.alloc).alive[k], 1)
  {
    hide RunEach, Fits, Admit, Left, Willing;
    var s := Admit(q, a);
    var r := RunEach(m, Prefill, s.yes, s.alloc).alive[k];
    SurvivorsAdvance(m, Prefill, s.yes, s.alloc, k);
    var j :| 0 <= j < |s.yes| && s.yes[j].id == r.id && Left(m, s.yes[j]) == Left(m, r) + 1;
    AdmitAdvances(m, q, a, j);
    assert q[j].id == r.id && Left(m, q[j]) == Left(m, r) + 1;
  }

  lemma NothingFromNothing(m: Model, kind: Kind, a: Alloc)
    ensures RunEach(m, kind, [], a).alive == []
  {}

  lemma IterationAdvances(be: Backend, m: Model, st: St, i: nat)
    requires Pointwise(be, m) && Placed(st) && Calm(st) && Willing(st.alloc.policy)
    requires var p := DecodeHalf(be, st).st;
             Placed(p) && Calm(p) && Willing(p.alloc.policy) && p.waiting == st.waiting
    requires i < |PrefillHalf(be, DecodeHalf(be, st).st).st.decode|
    ensures CameFrom(m, st.waiting + st.decode, PrefillHalf(be, DecodeHalf(be, st).st).st.decode[i], 1)
  {
    hide DecodeHalf, PrefillHalf, Placed, Calm, Willing, Pointwise, Left;
    var p := DecodeHalf(be, st).st;
    DecodeHalfAdvances(be, m, st);
    PrefillHalfAdvances(be, m, p);
    var r := PrefillHalf(be, p).st.decode[i];
    if CameFrom(m, p.decode, r, 0) {
      var j :| 0 <= j < |p.decode| && p.decode[j].id == r.id && Left(m, p.decode[j]) == Left(m, r) + 0;
      assert CameFrom(m, st.decode, p.decode[j], 1);
      var k :| 0 <= k < |st.decode| && st.decode[k].id == r.id && Left(m, st.decode[k]) == Left(m, r) + 1;
      assert (st.waiting + st.decode)[|st.waiting| + k] == st.decode[k];
    } else {
      var k :| 0 <= k < |p.waiting| && p.waiting[k].id == r.id && Left(m, p.waiting[k]) == Left(m, r) + 1;
      assert (st.waiting + st.decode)[k] == st.waiting[k];
    }
  }

  /** One iteration without new arrivals: every request held gets exactly one response, requests
      in decode first and then the waiting ones, each in queue order. */
  lemma IterationServesEveryone(be: Backend, m: Model, st: St)
    requires Pointwise(be, m) && Placed(st) && Calm(st) && Willing(st.alloc.policy)
    ensures var p := Iteration(be, st);
            && RespIds(p.out) == Ids(st.decode + st.waiting)
            && Placed(p.st) && Calm(p.st) && p.st.alloc.policy == st.alloc.policy
            && LeftSum(m, p.st.Internal()) + |st.Internal()| == LeftSum(m, st.Internal())
            && (forall n :: n > 0 && AtMost(m, st.Internal(), n) ==> AtMost(m, p.st.Internal(), n - 1))
            && forall i :: 0 <= i < |p.st.Internal()| ==> CameFrom(m, st.Internal(), p.st.Internal()[i], 1)
  {
    hide DecodeHalf, PrefillHalf, SettleHalf, Fits, Left, Pointwise, Willing, AtMost, LeftSum, Placed, CameFrom;
    DecodeHalfPlaced(be, st);
    DecodeHalfServes(be, m, st);
    var p := DecodeHalf(be, st);
    PrefillHalfPlaced(be, p.st);
    PrefillHalfServes(be, m, p.st);
    var q := PrefillHalf(be, p.st);
    CalmSettle(q.st, p.progress || q.progress) by { ServedOrIdle(st, p, q); }
    var s := Iteration(be, st).st;
    assert s == q.st;
    assert RespIds(p.out + q.out) == RespIds(p.out) + RespIds(q.out);
    assert Ids(st.decode + st.waiting) == Ids(st.decode) + Ids(st.waiting);
    assert st.Internal() == st.waiting + st.decode && s.Internal() == s.decode;
    LeftSumConcat(m, st.waiting, st.decode);
    forall i | 0 <= i < |s.Internal()|
      ensures CameFrom(m, st.Internal(), s.Internal()[i], 1)
    {
      IterationAdvances(be, m, st, i);
    }
    forall n | n > 0 && AtMost(m, st.Internal(), n)
      ensures AtMost(m, s.Internal(), n - 1)
    {
      AtMostParts(m, st.waiting, st.decode, n);
    }
  }

  lemma ServedOrIdle(st: St, p: Phase, q: Phase)
    requires p.progress == (st.decode != []) && q.progress == (p.st.waiting != []) && p.st.waiting == st.waiting
    requires Calm(q.st) && q.st.waiting == []
    requires RespIds(p.out) == Ids(st.decode)
    requires st.decode == [] ==> p.st.decode == []
    requires p.st.waiting == [] ==> q.st.decode == p.st.decode
    ensures !(p.progress || q.progress) ==> q.st.Idle()
  {}

  lemma AtMostParts(m: Model, p: seq<Req>, q: seq<Req>, n: nat)
    requires AtMost(m, p + q, n)
    ensures AtMost(m, p, n) && AtMost(m, q, n)
  {
    hide Left;
    assert forall i :: 0 <= i < |p| ==> (p + q)[i] == p[i];
    assert forall i :: 0 <= i < |q| ==> (p + q)[|p| + i] == q[i];
  }

  lemma CalmSettle(st: St, progress: bool)
    requires Calm(st) && (!progress ==> st.Idle())
    ensures SettleHalf(st, progress) == Phase(st, [], progress)
  {
    CalmSwapIn(st);
    hide RetrySwapInRequests;
  }

  /** The scheduler state after n iterations without arrivals. */
  function Iterate(be: Backend, st: St, n: nat): St
    decreases n
  {
    if n == 0 then st else Iterate(be, Iteration(be, st).st, n - 1)
  }

  lemma IterateNone(be: Backend, st: St)
    ensures Iterate(be, st, 0) == st
  {}

  lemma IterateOnce(be: Backend, st: St, n: nat)
    requires n > 0
    ensures Iterate(be, st, n) == Iterate(be, Iteration(be, st).st, n - 1)
  {
    hide Iteration;
  }

  /** Whoever is left after n iterations has had n responses; so a request with n responses to come is
      gone after n iterations, however long the others still take. */
  lemma {:induction false} EachFinishesInTurn(be: Backend, m: Model, st: St, n: nat, i: nat)
    requires Pointwise(be, m) && Placed(st) && Calm(st) && Willing(st.alloc.policy)
    requires i < |Iterate(be, st, n).Internal()|
    ensures CameFrom(m, st.Internal(), Iterate(be, st, n).Internal()[i], n)
    ensures Left(m, Iterate(be, st, n).Internal()[i]) > 0
    decreases n
  {
    hide *;
    if n > 0 {
      var v := Iteration(be, st).st;
      IterationServesEveryone(be, m, st);
      IterateOnce(be, st, n);
      EachFinishesInTurn(be, m, v, n - 1, i);
      FromFrom(m, st.Internal(), v.Internal(), Iterate(be, st, n).Internal()[i], n - 1);
    } else {
      assert Iterate(be, st, 0) == st by { IterateNone(be, st); }
      StillThere(m, st.Internal(), i);
      UnfinishedHasMore(m, st, i);
    }
  }

  /** Requests that each have at most n responses to come are all finished within n iterations. */
  lemma AllFinishWithin(be: Backend, m: Model, st: St, n: nat)
    requires Pointwise(be, m) && Placed(st) && Calm(st) && Willing(st.alloc.policy)
    requires AtMost(m, st.Internal(), n)
    ensures Iterate(be, st, n).Internal() == []
  {
    hide Pointwise, Placed, Calm, Willing, Iterate, Left, St.Internal;
    var left := Iterate(be, st, n).Internal();
    if left != [] { EachFinishesInTurn(be, m, st, n, 0); }
  }

  lemma FromFrom(m: Model, q: seq<Req>, p: seq<Req>, r: Req, n: nat)
    requires CameFrom(m, p, r, n) && forall j :: 0 <= j < |p| ==> CameFrom(m, q, p[j], 1)
    ensures CameFrom(m, q, r, n + 1)
  {
    hide Left;
    var j :| 0 <= j < |p| && p[j].id == r.id && Left(m, p[j]) == Left(m, r) + n;
    var k :| 0 <= k < |q| && q[k].id == p[j].id && Left(m, q[k]) == Left(m, p[j]) + 1;
    assert q[k].id == r.id && Left(m, q[k]) == Left(m, r) + (n + 1);
  }

  lemma UnfinishedHasMore(m: Model, st: St, i: nat)
    requires Placed(st) && i < |st.Internal()|
    ensures Left(m, st.Internal()[i]) > 0
  {
    InternalUnfinished(st, i);
    RestFlags(m, st.Internal()[i].ToCore());
  }

  lemma InternalUnfinished(st: St, i: nat)
    requires Placed(st) && i < |st.Internal()|
    ensures st.Internal()[i].state != Finished
  {
    PlaceOf(st, i);
    assert st.All()[i] == st.Internal()[i];
  }

  /** A request the mock backend serves has max(1, maxNew) responses coming when it arrives. */
  lemma MockLeft(r: Req)
    requires r == NewRequest(r.id, r.tokens, r.maxNew)
    ensures Left(MOCK_MODEL, r) == Max(1, r.maxNew)
  {
    MockFull(r.ToCore());
    assert Prompted(r.ToCore()) == r.ToCore();
  }

  // ---- in every run with a willing allocator ----

  ghost predicate CalmWorld(w: World) {
    && Calm(w.st)
    && (w.pc.EmitDecode? || w.pc.Prefilling? ==> w.progress || w.st.decode == [])
    && (w.pc.EmitPrefill? || w.pc.Settling? ==> (w.progress || w.st.Idle()) && w.st.waiting == [])
  }

  lemma CalmDecoding(be: Backend, m: Model, w: World)
    requires Pointwise(be, m) && Placed(w.st) && CalmWorld(w) && Willing(w.st.alloc.policy) && w.pc.Decoding?
    ensures CalmWorld(Work(be, w))
  {
    DecodeHalfServes(be, m, w.st);
    hide Placed, DecodeHalf, Left, Pointwise, AtMost, LeftSum, Willing, Ids, RespIds, Work, Worker.Batch;
    WorkDecoding(be, w);
    BatchFields(w, DecodeHalf(be, w.st), EmitDecode);
  }

  lemma CalmPrefilling(be: Backend, m: Model, w: World)
    requires Pointwise(be, m) && Placed(w.st) && CalmWorld(w) && Willing(w.st.alloc.policy) && w.pc.Prefilling?
    ensures CalmWorld(Work(be, w))
  {
    PrefillHalfServes(be, m, w.st);
    hide Placed, PrefillHalf, Left, Pointwise, AtMost, LeftSum, Willing, Ids, RespIds, Work, Worker.Batch, St.Idle;
    WorkPrefilling(be, w);
    BatchFields(w, PrefillHalf(be, w.st), EmitPrefill);
    IdleIfEmpty(PrefillHalf(be, w.st).st);
  }

  lemma CalmPop(w: World, pc: Pc)
    requires CalmWorld(w) && w.inbox != [] && (pc.Draining? || pc.Head?)
    ensures CalmWorld(PopOne(w, pc))
  {}

  lemma CalmTurn(be: Backend, m: Model, w: World)
    requires Pointwise(be, m) && Queued(w) && CalmWorld(w) && Willing(w.st.alloc.policy) && CanWork(w)
    ensures CalmWorld(Work(be, w))
  {
    hide Placed, SettleHalf, Pointwise, Willing, Work, Emit, PopOne, St.Idle, Queued;
    assert Placed(w.st) by { QueuedPlaced(w); }
    match w.pc {
      case Head => WorkHead(be, w);
      case Draining(k) => WorkDraining(be, w); if w.inbox != [] { CalmPop(w, Draining(k + 1)); }
      case Decoding => CalmDecoding(be, m, w);
      case Prefilling => CalmPrefilling(be, m, w);
      case Settling =>
        WorkSettling(be, w);
        CalmSettle(w.st, w.progress);
      case Parked => WorkParked(be, w); if w.inbox != [] { CalmPop(w, Head); }
      case _ =>
        WorkEmitting(be, w);
        BatchFields(w, Phase(w.st, [], false), if w.pc.EmitDecode? then Pc.Prefilling else Settling);
    }
  }

  lemma IdleIfEmpty(st: St)
    requires Calm(st)
    ensures st.waiting == [] && st.decode == [] ==> st.Idle()
  {}

  lemma CalmStep(be: Backend, m: Model, w: World, e: Event)
    requires Pointwise(be, m) && Queued(w) && CalmWorld(w) && Willing(w.st.alloc.policy) && Enabled(w, e)
    ensures CalmWorld(After(be, w, e))
  {
    if e.Turn? {
      hide *;
      EnabledTurn(w);
      AfterTurn(be, w);
      CalmTurn(be, m, w);
    }
  }

  lemma {:induction false} RunCalm(be: Backend, m: Model, w: World, events: seq<Event>, w': World)
    requires Pointwise(be, m) && Sound(w) && CalmWorld(w) && Willing(w.st.alloc.policy)
    requires Worker.Run(be, w, events, w')
    ensures CalmWorld(w')
    decreases |events|
  {
    hide Queued, Conserved, Streams, Unshared, Pointwise, Willing, CalmWorld, After, Enabled;
    if events != [] {
      var e := events[0];
      SoundStep(be, w, e);
      CalmStep(be, m, w, e);
      RunCalm(be, m, After(be, w, e), events[1..], w');
    }
  }

  /** With a willing allocator no request is ever deferred or swapped out and admission never pauses. */
  lemma WillingNeverDefers(be: Backend, m: Model, policy: Policy, w: World)
    requires Pointwise(be, m) && Willing(policy) && Reachable(be, policy, w)
    ensures Calm(w.st) && Placed(w.st)
  {
    hide Willing, Pointwise, Conserved, Streams, Unshared;
    ReachableSound(be, policy, w);
    ReachableCalm(be, m, policy, w);
  }

  lemma ReachableCalm(be: Backend, m: Model, policy: Policy, w: World)
    requires Pointwise(be, m) && Willing(policy) && Reachable(be, policy, w)
    ensures CalmWorld(w)
  {
    BootSound(policy);
    hide Willing, Pointwise, Queued, Conserved, Streams, Unshared;
    var events :| Worker.Run(be, Boot(policy), events, w);
    RunCalm(be, m, Boot(policy), events, w);
  }
}
