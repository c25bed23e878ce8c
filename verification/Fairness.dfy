/** The order of first tokens. A deferred request goes to the front of the prefill queue when it is let in,
    so requests that were deferred together are answered last come, first served. */
module Fairness {
  import opened Types
  import opened Allocation
  import opened Backends
  import opened SchedulerModel
  import opened Placement
  import opened Bags
  import opened Batching
  import opened Ledger
  import opened Worker
  import opened WorkerInvariants
  import opened Phases
  import opened Theorems
  import opened Progress
  import opened Recovery
  import opened Order
  import opened Refinement

  // ---- which calls are refused ----

  lemma {:induction false} SieveAsks(g: Gate, q: seq<Req>, a: Alloc)
    ensures var s := Sieve(g, q, a);
            s.alloc.policy == a.policy && s.alloc.calls == a.calls + |q|
  {
    hide Attempt, Refused;
    if q != [] {
      AttemptAsks(g, a, q[0]);
      SieveAsks(g, q[1..], Attempt(g, a, q[0]).alloc);
    }
  }

  lemma {:induction false} SieveRefused(g: Gate, q: seq<Req>, a: Alloc)
    requires forall i :: 0 <= i < |q| ==> Refused(a, i)
    ensures var s := Sieve(g, q, a); s.yes == [] && Ids(s.no) == Ids(q)
  {
    hide Attempt, Refused;
    if q != [] {
      var t := Attempt(g, a, q[0]);
      AttemptAsks(g, a, q[0]);
      assert forall i :: 0 <= i < |q[1..]| ==> Refused(t.alloc, i);
      SieveRefused(g, q[1..], t.alloc);
      ConsIds(t.req, Sieve(g, q[1..], t.alloc).no);
      ConsIds(q[0], q[1..]);
      assert q == [q[0]] + q[1..];
    }
  }

  lemma SieveFirst(g: Gate, q: seq<Req>, a: Alloc)
    requires q != [] && !Refused(a, 0) && forall i :: 0 < i < |q| ==> Refused(a, i)
    ensures var s := Sieve(g, q, a); Ids(s.yes) == [q[0].id] && Ids(s.no) == Ids(q)[1..]
  {
    hide Attempt, Refused;
    var t := Attempt(g, a, q[0]);
    AttemptAsks(g, a, q[0]);
    assert forall i :: 0 <= i < |q[1..]| ==> Refused(t.alloc, i);
    SieveRefused(g, q[1..], t.alloc);
    ConsIds(q[0], q[1..]);
    assert q == [q[0]] + q[1..];
  }

  /** The last request let in is the last one whose call is granted. */
  lemma {:induction false} SieveLast(g: Gate, q: seq<Req>, a: Alloc, i: nat) returns (j: nat)
    requires i < |q| && !Refused(a, i)
    ensures i <= j < |q|
    ensures var s := Sieve(g, q, a); s.yes != [] && s.yes[|s.yes| - 1].id == q[j].id
    decreases |q|
  {
    hide Attempt, Refused;
    var t := Attempt(g, a, q[0]);
    AttemptAsks(g, a, q[0]);
    assert i > 0 ==> !Refused(t.alloc, i - 1);
    if k :| 0 <= k < |q[1..]| && !Refused(t.alloc, k) && k + 1 >= i {
      j := SieveLast(g, q[1..], t.alloc, k);
      j := j + 1;
    } else {
      assert i == 0;
      assert forall k :: 0 <= k < |q[1..]| ==> Refused(t.alloc, k);
      SieveRefused(g, q[1..], t.alloc);
      j := 0;
    }
  }

  lemma {:induction false} AdmitAsks(q: seq<Req>, a: Alloc)
    ensures var s := Admit(q, a);
            && Ids(s.yes) + Ids(s.no) + Ids(s.rest) == Ids(q)
            && (s.yes != [] <==> q != [] && !Refused(a, 0))
  {
    hide Attempt, Refused, Ids;
    if q == [] {
      NoIds();
    } else {
      var t := Attempt(AdmitPrefill, a, q[0]);
      AttemptAsks(AdmitPrefill, a, q[0]);
      assert q == [q[0]] + q[1..];
      ConsIds(q[0], q[1..]);
      NoIds();
      if t.ok {
        AdmitAsks(q[1..], t.alloc);
        var e := Admit(q[1..], t.alloc);
        ConsIds(t.req, e.yes);
        assert [t.req.id] + Ids(e.yes) + Ids(e.no) + Ids(e.rest) == [t.req.id] + (Ids(e.yes) + Ids(e.no) + Ids(e.rest));
      } else {
        ConsIds(t.req, []);
        assert [t.req] + [] == [t.req] && [] + [t.req.id] + Ids(q[1..]) == [t.req.id] + Ids(q[1..]);
      }
    }
  }

  lemma {:induction false} ReverseAt(q: seq<Req>, i: nat)
    requires i < |q|
    ensures Reverse(q)[i] == q[|q| - 1 - i]
  {
    if i < |q| - 1 { ReverseAt(q[1..], i); }
  }

  lemma ReverseIds(p: seq<Req>, q: seq<Req>)
    requires Ids(p) == Ids(q)
    ensures Ids(Reverse(p)) == Ids(Reverse(q))
  {
    hide Reverse;
    assert |Ids(p)| == |p| && |Ids(q)| == |q|;
    forall i | 0 <= i < |p|
      ensures Reverse(p)[i].id == Reverse(q)[i].id
    {
      ReverseAt(p, i);
      ReverseAt(q, i);
      assert Ids(p)[|p| - 1 - i] == Ids(q)[|q| - 1 - i];
    }
  }

  /** A prefill pass answers its whole queue, in order. */
  lemma {:induction false} PrefillAnswers(m: Model, q: seq<Req>, a: Alloc)
    ensures RespIds(RunEach(m, Prefill, q, a).out) == Ids(q)
  {
    if q != [] {
      PrefillAnswers(m, q[1..], a);
      var t := Enter(Prefill, a, q[0]);
      var (r, resp) := Complete(Prefill, t.req, ReplyTo(m, Prefill, t.req));
      hide Complete, ReplyTo;
      assert RespIds([resp] + RunEach(m, Prefill, q[1..], a).out)
          == [resp.id] + RespIds(RunEach(m, Prefill, q[1..], a).out);
      assert Ids(q) == [q[0].id] + Ids(q[1..]);
    }
  }

  // ---- one prefill half ----

  /** Whether the call of the next prefill half for deferred request i will be refused; after the deferred
      requests come the waiting ones. The swapped-out requests are asked for first. */
  predicate AskRefused(st: St, i: nat) { Refused(st.alloc, |st.swapOut| + i) }

  /** No deferred request but the first is let in, and a waiting one only when no deferred one is left behind. */
  predicate FairTurn(st: St) {
    var d := |st.deferredPrefill|;
    && (forall i :: 0 < i < d ==> AskRefused(st, i))
    && (st.waiting != [] && !AskRefused(st, d) ==> d == 0 || (d == 1 && !AskRefused(st, 0)))
  }

  /** What the prefill half lets in and answers, in terms of its two admission passes. */
  lemma PrefillPasses(be: Backend, m: Model, st: St) returns (s: Sieved, t: Admission)
    requires Pointwise(be, m) && st.prefill == []
    ensures var a := RetrySwapInRequests(st).st.alloc;
            && s == Sieve(RetryPrefill, st.deferredPrefill, a) && t == Admit(st.waiting, s.alloc)
            && (forall k: nat :: Refused(a, k) == AskRefused(st, k))
            && (forall k: nat :: Refused(s.alloc, k) == AskRefused(st, |st.deferredPrefill| + k))
    ensures var p := PrefillHalf(be, st);
            && RespIds(p.out) == Ids(Reverse(s.yes)) + Ids(t.yes)
            && p.st.deferredPrefill == s.no + t.no && p.st.waiting == t.rest && p.st.prefill == []
  {
    hide Sieve, Admit, Reverse, PrefillHalf, RunBatches, RunEach, Pointwise, Ids, RespIds;
    SieveAsks(RetrySwapIn, st.swapOut, st.alloc);
    var a := RetrySwapInRequests(st).st.alloc;
    SieveAsks(RetryPrefill, st.deferredPrefill, a);
    s := Sieve(RetryPrefill, st.deferredPrefill, a);
    t := Admit(st.waiting, s.alloc);
    var q := Reverse(s.yes) + t.yes;
    HalfOut(be, st, q, t.alloc);
    PrefillAnswers(m, q, t.alloc);
    RunBatchesIsRunEach(be, m, Prefill, MAX_BATCH, q, t.alloc);
    IdsConcat(Reverse(s.yes), t.yes);
  }

  lemma HalfOut(be: Backend, st: St, q: seq<Req>, a: Alloc)
    requires st.prefill == []
    requires var s := Sieve(RetryPrefill, st.deferredPrefill, RetrySwapInRequests(st).st.alloc);
             var t := Admit(st.waiting, s.alloc);
             q == Reverse(s.yes) + t.yes && a == t.alloc
    ensures var s := Sieve(RetryPrefill, st.deferredPrefill, RetrySwapInRequests(st).st.alloc);
            var t := Admit(st.waiting, s.alloc);
            var p := PrefillHalf(be, st);
            && p.out == RunBatches(be, Prefill, MAX_BATCH, q, a).out
            && p.st.deferredPrefill == s.no + t.no && p.st.waiting == t.rest && p.st.prefill == []
  {
    hide Reverse, RunBatches, Admit, Sieve;
    var s := Sieve(RetryPrefill, st.deferredPrefill, RetrySwapInRequests(st).st.alloc);
    assert Reverse(s.yes) + st.prefill == Reverse(s.yes);
    assert forall p: Phase :: [] + p.out == p.out;
  }

  ghost predicate Distinct(ids: seq<nat>) { forall i, j :: 0 <= i < j < |ids| ==> ids[i] != ids[j] }

  lemma ReverseShort(q: seq<Req>)
    requires |q| <= 1
    ensures Ids(Reverse(q)) == Ids(q)
  {}

  /** In a fair turn the queue only moves up. */
  lemma FairHalf(be: Backend, m: Model, st: St)
    requires Pointwise(be, m) && st.prefill == [] && FairTurn(st)
    ensures var p := PrefillHalf(be, st);
            RespIds(p.out) + Ids(p.st.deferredPrefill) + Ids(p.st.waiting) == Ids(st.deferredPrefill) + Ids(st.waiting)
  {
    hide PrefillHalf, Refused, AskRefused, RetrySwapInRequests, Reverse, Sieve, Admit, Ids, RespIds, Pointwise;
    var s, t := PrefillPasses(be, m, st);
    var a := RetrySwapInRequests(st).st.alloc;
    var d, w := st.deferredPrefill, st.waiting;
    AdmitAsks(w, s.alloc);
    IdsConcat(s.no, t.no);
    NoIds();
    IdsSize(d);
    IdsSize(t.yes);
    assert t.yes != [] <==> w != [] && !AskRefused(st, |d| + 0);
    if d != [] && !Refused(a, 0) {
      assert forall i :: 0 < i < |d| ==> Refused(a, i);
      SieveFirst(RetryPrefill, d, a);
      IdsSize(s.yes);
      assert Ids(d) == [Ids(d)[0]] + Ids(d)[1..] && Ids(d)[0] == d[0].id by { HeadId(d); }
      ReverseShort(s.yes);
    } else {
      assert forall i :: 0 <= i < |d| ==> Refused(a, i);
      SieveRefused(RetryPrefill, d, a);
      ReverseShort(s.yes);
    }
    Regroup(Ids(Reverse(s.yes)), Ids(t.yes), Ids(s.no), Ids(t.no), Ids(t.rest));
  }

  lemma HeadId(q: seq<Req>)
    requires q != []
    ensures |Ids(q)| == |q| && Ids(q)[0] == q[0].id
  {}

  lemma Regroup(x: seq<nat>, y: seq<nat>, no: seq<nat>, u: seq<nat>, v: seq<nat>)
    requires y == [] || no == []
    ensures x + y + (no + u) + v == x + no + (y + u + v)
  {}

  /** In an unfair turn somebody is answered before somebody who was ahead. */
  lemma UnfairHalf(be: Backend, m: Model, st: St) returns (n: nat)
    requires Pointwise(be, m) && st.prefill == [] && !FairTurn(st)
    requires Distinct(Ids(st.deferredPrefill) + Ids(st.waiting))
    ensures var out, line := RespIds(PrefillHalf(be, st).out), Ids(st.deferredPrefill) + Ids(st.waiting);
            && n <= |out| && n <= |line| && Distinct(out[..n]) && (forall i :: 0 <= i < n ==> out[i] in line)
            && out[..n] != line[..n]
  {
    hide PrefillHalf, Refused, AskRefused, RetrySwapInRequests, Reverse, Sieve, Admit, Ids, RespIds, Pointwise;
    var s, t := PrefillPasses(be, m, st);
    var a := RetrySwapInRequests(st).st.alloc;
    var d, w := st.deferredPrefill, st.waiting;
    var out, line := RespIds(PrefillHalf(be, st).out), Ids(d) + Ids(w);
    IdsSize(d);
    IdsSize(w);
    if i :| 0 < i < |d| && !AskRefused(st, i) {
      assert !Refused(a, i);
      var j := SieveLast(RetryPrefill, d, a, i);
      n := 1;
      ReverseAt(s.yes, 0);
      IdsSize(Reverse(s.yes));
      IdAt(Reverse(s.yes), 0);
      IdAt(d, j);
      assert out[0] == line[j];
    } else {
      AdmitAsks(w, s.alloc);
      assert !AskRefused(st, |d| + 0);
      assert Ids(t.yes)[0] == Ids(w)[0] by {
        HeadId(t.yes);
        assert (Ids(t.yes) + Ids(t.no) + Ids(t.rest))[0] == Ids(t.yes)[0];
      }
      IdsSize(t.yes);
      if d != [] && !Refused(a, 0) {
        assert forall i :: 0 < i < |d| ==> Refused(a, i);
        SieveFirst(RetryPrefill, d, a);
        IdsSize(s.yes);
        ReverseShort(s.yes);
        IdAt(d, 0);
        n := 2;
        assert out[0] == line[0] && out[1] == line[|d|];
      } else {
        assert forall i :: 0 <= i < |d| ==> Refused(a, i);
        SieveRefused(RetryPrefill, d, a);
        NoIds();
        ReverseShort(s.yes);
        n := 1;
        assert out[0] == line[|d|];
      }
    }
  }

  lemma IdAt(q: seq<Req>, i: nat)
    requires i < |q|
    ensures |Ids(q)| == |q| && Ids(q)[i] == q[i].id
  {}

  /** Once the allocator grants everything, the next prefill half answers the deferred requests from the
      last to the first, and then the waiting ones in order. */
  lemma DeferredAnsweredInReverse(be: Backend, m: Model, st: St)
    requires Pointwise(be, m) && Granting(st.alloc) && st.prefill == []
    ensures RespIds(PrefillHalf(be, st).out) == Ids(Reverse(st.deferredPrefill)) + Ids(st.waiting)
  {
    hide PrefillHalf, Reverse, Granting;
    SieveGranted(RetrySwapIn, st.swapOut, st.alloc);
    var s, t := PrefillPasses(be, m, st);
    SieveGranted(RetryPrefill, st.deferredPrefill, RetrySwapInRequests(st).st.alloc);
    AdmitGranted(st.waiting, s.alloc);
    ReverseIds(s.yes, st.deferredPrefill);
  }

  // ---- whole runs ----

  /** The ids in the order of their first responses. */
  function FirstIds(log: seq<Resp>): seq<nat> {
    if log == [] then []
    else
      var p := FirstIds(log[..|log| - 1]);
      var id := log[|log| - 1].id;
      if id in p then p else p + [id]
  }

  lemma {:induction false} FirstIdsHold(log: seq<Resp>, id: nat)
    ensures id in FirstIds(log) <==> id in RespIds(log)
  {
    if log != [] {
      var n := |log| - 1;
      FirstIdsHold(log[..n], id);
      assert RespIds(log) == RespIds(log[..n]) + [log[n].id];
    }
  }

  lemma {:induction false} FirstIdsGrow(p: seq<Resp>, q: seq<Resp>)
    ensures FirstIds(p) <= FirstIds(p + q)
    decreases |q|
  {
    if q == [] {
      assert p + q == p;
    } else {
      FirstIdsGrow(p, q[..|q| - 1]);
      assert (p + q)[..|p + q| - 1] == p + q[..|q| - 1];
    }
  }

  /** Responses to ids that have been heard of add nothing. */
  lemma {:induction false} FirstIdsOld(p: seq<Resp>, q: seq<Resp>)
    requires forall k :: 0 <= k < |q| ==> q[k].id in FirstIds(p)
    ensures FirstIds(p + q) == FirstIds(p)
    decreases |q|
  {
    if q == [] {
      assert p + q == p;
    } else {
      FirstIdsOld(p, q[..|q| - 1]);
      assert (p + q)[..|p + q| - 1] == p + q[..|q| - 1];
    }
  }

  /** First responses to different new ids are appended. */
  lemma {:induction false} FirstIdsNew(p: seq<Resp>, q: seq<Resp>)
    requires Distinct(RespIds(q)) && forall k :: 0 <= k < |q| ==> q[k].id !in FirstIds(p)
    ensures FirstIds(p + q) == FirstIds(p) + RespIds(q)
    decreases |q|
  {
    if q == [] {
      assert p + q == p;
    } else {
      var n := |q| - 1;
      var r := q[..n];
      SnocRespIds(r, q[n]);
      assert q == r + [q[n]] && RespIds(r) == RespIds(q)[..n];
      FirstIdsNew(p, r);
      assert (p + q)[..|p + q| - 1] == p + r && (p + q)[|p + q| - 1] == q[n];
      assert q[n].id !in RespIds(r) by { LastIsNew(RespIds(r), q[n].id); }
    }
  }

  lemma SnocRespIds(q: seq<Resp>, r: Resp)
    ensures RespIds(q + [r]) == RespIds(q) + [r.id]
  {}

  lemma LastIsNew(ids: seq<nat>, id: nat)
    requires Distinct(ids + [id])
    ensures id !in ids
  {
    assert (ids + [id])[|ids|] == id && forall k :: 0 <= k < |ids| ==> (ids + [id])[k] == ids[k];
  }

  /** Those answered, in that order, then those still to be answered, in the order they stand in. */
  function Line(w: World): seq<nat> {
    FirstIds(w.log) + (Ids(w.st.deferredPrefill) + Ids(w.st.waiting) + Ids(w.inbox))
  }

  lemma HalvesKeepLine(be: Backend, st: St, progress: bool)
    ensures var p := DecodeHalf(be, st).st;
            p.prefill == st.prefill && p.waiting == st.waiting && p.deferredPrefill == st.deferredPrefill
    ensures var p := SettleHalf(st, progress).st;
            p.prefill == st.prefill && p.waiting == st.waiting && p.deferredPrefill == st.deferredPrefill
    ensures PrefillHalf(be, st).st.prefill == []
  {
    hide RunBatches, Sieve, Admit, Reverse, EvictFrom, Readied;
  }

  lemma NothingLogged(log: seq<Resp>)
    ensures log + [] == log
  {}

  /** Outside its prefill half the worker does not touch the queues of unanswered requests, but for taking
      arrivals in. */
  lemma TurnKeepsLine(be: Backend, w: World)
    requires CanWork(w)
    ensures var w' := Work(be, w);
            && w'.arrived == w.arrived
            && (w.st.prefill == [] ==> w'.st.prefill == [])
            && (w.pc != Prefilling ==>
                  && w'.st.deferredPrefill == w.st.deferredPrefill
                  && Ids(w'.st.waiting) + Ids(w'.inbox) == Ids(w.st.waiting) + Ids(w.inbox)
                  && w'.log == w.log + (if w.pc == Decoding then DecodeHalf(be, w.st).out else []))
            && (w.pc == Prefilling ==> w' == Batch(w, PrefillHalf(be, w.st), EmitPrefill))
  {
    hide DecodeHalf, PrefillHalf, SettleHalf, St.Idle, Ids, Worker.Batch, Emit, PopOne, Work;
    HalvesKeepLine(be, w.st, w.progress);
    NothingLogged(w.log);
    match w.pc {
      case Head => WorkHead(be, w);
      case Draining(k) => WorkDraining(be, w); if w.inbox != [] { PopKeepsLine(w, Draining(k + 1)); }
      case Decoding => WorkDecoding(be, w); BatchFields(w, DecodeHalf(be, w.st), EmitDecode);
      case Prefilling => WorkPrefilling(be, w); BatchFields(w, PrefillHalf(be, w.st), EmitPrefill);
      case Settling => WorkSettling(be, w);
      case Parked => WorkParked(be, w); if w.inbox != [] { PopKeepsLine(w, Head); }
      case _ =>
        WorkEmitting(be, w);
        BatchFields(w, Phase(w.st, [], false), if w.pc.EmitDecode? then Pc.Prefilling else Settling);
    }
  }

  lemma PopKeepsLine(w: World, pc: Pc)
    requires w.inbox != []
    ensures var v := PopOne(w, pc);
            && v.arrived == w.arrived && v.log == w.log
            && v.st.deferredPrefill == w.st.deferredPrefill && v.st.prefill == w.st.prefill
            && Ids(v.st.waiting) + Ids(v.inbox) == Ids(w.st.waiting) + Ids(w.inbox)
  {
    hide Ids;
    PopLine(w.st.waiting, w.inbox);
  }

  lemma PopLine(waiting: seq<Req>, inbox: seq<Req>)
    requires inbox != []
    ensures Ids(waiting + [inbox[0]]) + Ids(inbox[1..]) == Ids(waiting) + Ids(inbox)
  {}

  lemma {:induction false} ProjectEmpty(log: seq<Resp>, id: nat)
    ensures Project(log, id) == [] <==> id !in RespIds(log)
  {
    if log != [] {
      ProjectEmpty(log[..|log| - 1], id);
      SnocRespIds(log[..|log| - 1], log[|log| - 1]);
      assert log == log[..|log| - 1] + [log[|log| - 1]];
    }
  }

  /** A request has been heard of once it has generated a token. */
  lemma HeardIsGenerated(be: Backend, m: Model, policy: Policy, w: World, i: nat)
    requires Reachable(be, policy, w) && Pointwise(be, m) && i < |Everything(w)|
    ensures Everything(w)[i].id in RespIds(w.log) <==> Everything(w)[i].Generated() > 0
  {
    hide Reachable, Pointwise, Project;
    var r := Everything(w)[i];
    GeneratedMeansSent(be, m, policy, w, i);
    ProjectEmpty(w.log, r.id);
    assert |Tokens(Project(w.log, r.id))| == |Project(w.log, r.id)|;
  }

  /** The requests nobody has heard of. */
  function Unheard(w: World): seq<Req> { w.inbox + (w.st.waiting + w.st.deferredPrefill) }

  lemma UnheardFirst(w: World)
    ensures Unheard(w) <= Everything(w)
  {}

  lemma UnheardAre(w: World, i: nat)
    requires Sound(w) && i < |Everything(w)| && w.st.prefill == []
    ensures Everything(w)[i].Generated() == 0 <==> i < |Unheard(w)|
  {
    hide Conserved, Streams, Unshared;
    UnheardFirst(w);
    var n, x, y := |w.inbox|, |w.st.waiting|, |w.st.deferredPrefill|;
    var tables := w.st.alloc.policy.Bump?;
    hide Shape;
    if i < n { assert Fits(tables, Place.Waiting, w.inbox[i]); }
    else if i < n + x {
      assert Everything(w)[i] == w.st.waiting[i - n] && Fits(tables, Place.Waiting, w.st.waiting[i - n]);
    }
    else if i < n + x + y {
      assert Everything(w)[i] == w.st.deferredPrefill[i - n - x];
      assert Fits(tables, DeferredPre, w.st.deferredPrefill[i - n - x]);
    } else {
      HeardPlaced(w.st, i - n);
    }
  }

  lemma HeardPlaced(st: St, i: nat)
    requires Placed(st) && st.prefill == [] && |st.waiting| + |st.deferredPrefill| <= i < |st.All()|
    ensures st.All()[i].Generated() > 0
  {
    hide Shape;
    var w, z, v, u := |st.waiting| + |st.deferredPrefill|, |st.decode|, |st.deferredDecode|, |st.swapOut|;
    var r, tables := st.All()[i], st.alloc.policy.Bump?;
    if i < w + z { assert r == st.decode[i - w] && Fits(tables, Ready, r); }
    else if i < w + z + v { assert r == st.deferredDecode[i - w - z] && Fits(tables, DeferredDec, r); }
    else if i < w + z + v + u { assert r == st.swapOut[i - w - z - v] && Fits(tables, Swapped, r); }
    else { assert r == st.finish[i - w - z - v - u] && Fits(tables, Done, r); }
  }

  /** Nobody who stands in line has been heard of. */
  lemma LineIsUnheard(be: Backend, m: Model, policy: Policy, w: World, id: nat)
    requires Reachable(be, policy, w) && Pointwise(be, m) && w.st.prefill == []
    requires id in Ids(w.st.deferredPrefill) || id in Ids(w.st.waiting)
    ensures id !in RespIds(w.log)
  {
    hide Sound, Reachable, Pointwise;
    ReachableSound(be, policy, w);
    UnheardFirst(w);
    var q := w.st.waiting + w.st.deferredPrefill;
    assert Ids(q) == Ids(w.st.waiting) + Ids(w.st.deferredPrefill);
    assert id in Ids(q);
    var k :| 0 <= k < |Ids(q)| && Ids(q)[k] == id;
    assert Unheard(w)[|w.inbox| + k] == q[k];
    HeardIsGenerated(be, m, policy, w, |w.inbox| + k);
    UnheardAre(w, |w.inbox| + k);
  }

  lemma LineIsDistinct(be: Backend, policy: Policy, w: World)
    requires Reachable(be, policy, w)
    ensures Distinct(Ids(w.st.deferredPrefill) + Ids(w.st.waiting))
  {
    hide Reachable;
    var d, q := w.st.deferredPrefill, w.st.waiting;
    var line := Ids(d) + Ids(q);
    UnheardFirst(w);
    forall i, j | 0 <= i < j < |line|
      ensures line[i] != line[j]
    {
      var x := if i < |d| then |w.inbox| + |q| + i else |w.inbox| + (i - |d|);
      var y := if j < |d| then |w.inbox| + |q| + j else |w.inbox| + (j - |d|);
      assert Unheard(w)[x].id == line[i] && Unheard(w)[y].id == line[j];
      DifferentIds(be, policy, w, x, y);
    }
  }

  /** A decode half answers nobody for the first time. */
  lemma DecodeAnswersTheHeard(be: Backend, m: Model, policy: Policy, w: World, k: nat)
    requires Reachable(be, policy, w) && Pointwise(be, m) && w.st.prefill == [] && w.pc == Decoding
    requires k < |DecodeHalf(be, w.st).out|
    ensures DecodeHalf(be, w.st).out[k].id in RespIds(w.log)
  {
    hide Reachable, Pointwise, DecodeHalf, Project, Sound, After;
    var w', id := Work(be, w), DecodeHalf(be, w.st).out[k].id;
    WorkReachable(be, policy, w);
    DecodeStep(be, w);
    hide Work;
    assert w'.log[|w.log| + k].id == id && id in RespIds(w'.log) by { assert RespIds(w'.log)[|w.log| + k] == id; }
    ReachableAccounted(be, m, policy, w');
    assert Arrived(w'.arrived, id);
    var j :| 0 <= j < |w.arrived| && w.arrived[j].id == id;
    var i := ExactlyOnePlace(be, policy, w, j);
    if id !in RespIds(w.log) {
      ReachableSound(be, policy, w);
      HeardIsGenerated(be, m, policy, w, i);
      assert Everything(w)[i].Generated() == 0 by { GeneratedMeansSent(be, m, policy, w, i); }
      UnheardAre(w, i);
      UnheardFirst(w);
      UnheardFirst(w');
      assert Everything(w')[i] == Everything(w)[i];
      UnheardAre(w', i);
      HeardIsGenerated(be, m, policy, w', i);
    }
  }

  lemma WorkReachable(be: Backend, policy: Policy, w: World)
    requires Reachable(be, policy, w) && CanWork(w)
    ensures Reachable(be, policy, Work(be, w))
  {
    hide Reachable, Work;
    assert After(be, w, Turn) == Work(be, w);
    ReachableNext(be, policy, w, Turn);
  }

  lemma DecodeStep(be: Backend, w: World)
    requires w.pc == Decoding
    ensures var w' := Work(be, w);
            && w'.log == w.log + DecodeHalf(be, w.st).out && w'.arrived == w.arrived && w'.inbox == w.inbox
            && w'.st.waiting == w.st.waiting && w'.st.deferredPrefill == w.st.deferredPrefill
            && w'.st.prefill == w.st.prefill && Unheard(w') == Unheard(w)
  {
    HalvesKeepLine(be, w.st, w.progress);
    hide DecodeHalf;
  }

  lemma IdOut(out: seq<Resp>, k: nat)
    requires k < |out|
    ensures |RespIds(out)| == |out| && RespIds(out)[k] == out[k].id
  {}

  /** A fair turn moves the line up and lets nobody jump it. */
  lemma LineTurn(be: Backend, m: Model, policy: Policy, w: World)
    requires Reachable(be, policy, w) && Pointwise(be, m) && w.st.prefill == [] && CanWork(w)
    requires w.pc == Prefilling ==> FairTurn(w.st)
    ensures Line(Work(be, w)) == Line(w)
  {
    hide Reachable, Pointwise, FairTurn, Work, DecodeHalf, PrefillHalf, FirstIds, Ids, RespIds;
    TurnKeepsLine(be, w);
    if w.pc == Prefilling {
      PrefillTurn(be, m, policy, w);
    } else if w.pc == Decoding {
      var out := DecodeHalf(be, w.st).out;
      forall k | 0 <= k < |out|
        ensures out[k].id in FirstIds(w.log)
      {
        DecodeAnswersTheHeard(be, m, policy, w, k);
        FirstIdsHold(w.log, out[k].id);
      }
      FirstIdsOld(w.log, out);
    } else {
      assert w.log + [] == w.log;
    }
    var v := Work(be, w);
    if w.pc != Prefilling {
      assert Ids(v.st.deferredPrefill) + Ids(v.st.waiting) + Ids(v.inbox)
          == Ids(v.st.deferredPrefill) + (Ids(v.st.waiting) + Ids(v.inbox));
      assert Ids(w.st.deferredPrefill) + Ids(w.st.waiting) + Ids(w.inbox)
          == Ids(w.st.deferredPrefill) + (Ids(w.st.waiting) + Ids(w.inbox));
    }
  }

  lemma PrefillTurn(be: Backend, m: Model, policy: Policy, w: World)
    requires Reachable(be, policy, w) && Pointwise(be, m) && w.st.prefill == [] && w.pc == Prefilling && FairTurn(w.st)
    ensures Line(Worker.Batch(w, PrefillHalf(be, w.st), EmitPrefill)) == Line(w)
  {
    hide Reachable, Pointwise, FairTurn, PrefillHalf, FirstIds, Ids, RespIds, Distinct;
    var p := PrefillHalf(be, w.st);
    var line := Ids(w.st.deferredPrefill) + Ids(w.st.waiting);
    FairHalf(be, m, w.st);
    LineIsDistinct(be, policy, w);
    DistinctPrefix(RespIds(p.out), Ids(p.st.deferredPrefill) + Ids(p.st.waiting), line) by {
      assert RespIds(p.out) + (Ids(p.st.deferredPrefill) + Ids(p.st.waiting)) == line;
    }
    forall k | 0 <= k < |p.out|
      ensures p.out[k].id !in FirstIds(w.log)
    {
      IdOut(p.out, k);
      assert line[k] == p.out[k].id;
      LineIsUnheard(be, m, policy, w, p.out[k].id);
      FirstIdsHold(w.log, p.out[k].id);
    }
    FirstIdsNew(w.log, p.out);
    Moved(FirstIds(w.log), RespIds(p.out), Ids(p.st.deferredPrefill), Ids(p.st.waiting), line, Ids(w.inbox));
  }

  lemma Moved(f: seq<nat>, out: seq<nat>, d: seq<nat>, q: seq<nat>, line: seq<nat>, inbox: seq<nat>)
    requires out + d + q == line
    ensures f + out + (d + q + inbox) == f + (line + inbox)
  {}

  lemma DistinctPrefix(p: seq<nat>, q: seq<nat>, line: seq<nat>)
    requires p + q == line && Distinct(line)
    ensures Distinct(p)
  {
    assert forall i :: 0 <= i < |p| ==> line[i] == p[i];
  }

  /** After an unfair turn the order of first tokens is not the order of arrival. */
  lemma LineBreaks(be: Backend, m: Model, policy: Policy, w: World)
    requires Reachable(be, policy, w) && Pointwise(be, m) && w.st.prefill == [] && w.pc == Prefilling && !FairTurn(w.st)
    requires Line(w) == Ids(w.arrived)
    ensures !(FirstIds(Work(be, w).log) <= Ids(Work(be, w).arrived))
  {
    hide Reachable, Pointwise, FairTurn, Work, PrefillHalf, FirstIds, Ids, RespIds, Distinct;
    TurnKeepsLine(be, w);
    var p := PrefillHalf(be, w.st);
    var line := Ids(w.st.deferredPrefill) + Ids(w.st.waiting);
    LineIsDistinct(be, policy, w);
    var n := UnfairHalf(be, m, w.st);
    OutLength(p.out);
    var f, head := FirstIds(w.log), p.out[..n];
    OutPrefix(p.out, n);
    forall k | 0 <= k < n
      ensures head[k].id !in FirstIds(w.log)
    {
      IdOut(p.out, k);
      assert RespIds(p.out)[k] in line;
      LineIsUnheard(be, m, policy, w, p.out[k].id);
      FirstIdsHold(w.log, p.out[k].id);
    }
    FirstIdsNew(w.log, head);
    FirstIdsGrow(w.log + head, p.out[n..]);
    assert w.log + head + p.out[n..] == w.log + p.out;
    NotPrefix(f, RespIds(p.out)[..n], line, Ids(w.inbox), FirstIds(w.log + p.out));
  }

  lemma OutLength(out: seq<Resp>)
    ensures |RespIds(out)| == |out|
  {}

  lemma OutPrefix(out: seq<Resp>, n: nat)
    requires n <= |out|
    ensures |RespIds(out)| == |out| && RespIds(out[..n]) == RespIds(out)[..n]
  {}

  lemma NotPrefix(f: seq<nat>, head: seq<nat>, line: seq<nat>, inbox: seq<nat>, heard: seq<nat>)
    requires |head| <= |line| && head != line[..|head|] && f + head <= heard
    ensures !(heard <= f + (line + inbox))
  {
    var n := |head|;
    assert (f + (line + inbox))[|f|..|f| + n] == line[..n];
    assert heard[|f|..|f| + n] == head;
  }

  /** Once broken, the order stays broken. */
  lemma BrokenForGood(be: Backend, m: Model, policy: Policy, w: World, events: seq<Event>, w': World)
    requires Reachable(be, policy, w) && Pointwise(be, m) && Worker.Run(be, w, events, w') && Reachable(be, policy, w')
    requires !(FirstIds(w.log) <= Ids(w.arrived))
    ensures !(FirstIds(w'.log) <= Ids(w'.arrived))
  {
    hide Reachable, Pointwise, FirstIds, Ids, RespIds, Sound;
    RunGrows(be, w, events, w');
    FirstIdsGrow(w.log, w'.log[|w.log|..]);
    assert w.log + w'.log[|w.log|..] == w'.log;
    var n, f := |w.arrived|, FirstIds(w.log);
    IdsPrefix(w.arrived, w'.arrived);
    if FirstIds(w'.log) <= Ids(w'.arrived) && |f| > n {
      IdAt(w'.arrived, n);
      assert f[n] == w'.arrived[n].id;
      FirstIdsHold(w.log, f[n]);
      HeardArrived(be, m, policy, w, f[n]);
      ReachableSound(be, policy, w');
      UniqueArrivals(w', n);
    }
  }

  lemma IdsPrefix(p: seq<Req>, q: seq<Req>)
    requires p <= q
    ensures |Ids(p)| == |p| && |Ids(q)| == |q| && Ids(q)[..|p|] == Ids(p)
  {}

  lemma HeardArrived(be: Backend, m: Model, policy: Policy, w: World, id: nat)
    requires Reachable(be, policy, w) && Pointwise(be, m) && id in RespIds(w.log)
    ensures exists j :: 0 <= j < |w.arrived| && w.arrived[j].id == id
  {
    hide Sound, Reachable, Pointwise, InBalance;
    ReachableAccounted(be, m, policy, w);
    var k :| 0 <= k < |RespIds(w.log)| && RespIds(w.log)[k] == id;
    assert Arrived(w.arrived, w.log[k].id);
  }

  lemma UniqueArrivals(w: World, n: nat)
    requires Sound(w) && n < |w.arrived|
    ensures forall j :: 0 <= j < n ==> w.arrived[j].id != w.arrived[n].id
  {
    hide Queued, Streams, Unshared, Submitted, OriginBag;
  }

  /** Every prefill half along the run is fair. */
  ghost predicate FairRun(be: Backend, w: World, events: seq<Event>)
    decreases |events|
  {
    events == []
    || (&& Enabled(w, events[0]) && (events[0] == Turn && w.pc == Prefilling ==> FairTurn(w.st))
        && FairRun(be, After(be, w, events[0]), events[1..]))
  }

  lemma FairStep(be: Backend, m: Model, policy: Policy, w: World, e: Event)
    requires Reachable(be, policy, w) && Pointwise(be, m) && w.st.prefill == [] && Line(w) == Ids(w.arrived)
    requires Enabled(w, e) && (e == Turn && w.pc == Prefilling ==> FairTurn(w.st))
    ensures var v := After(be, w, e); v.st.prefill == [] && Line(v) == Ids(v.arrived)
  {
    hide Reachable, Pointwise, Work, FairTurn, FirstIds, Ids;
    if e == Turn {
      LineTurn(be, m, policy, w);
      TurnKeepsLine(be, w);
    } else if e.Push? {
      IdsConcat(w.inbox, [e.req]);
      IdsConcat(w.arrived, [e.req]);
      var x := Ids(w.st.deferredPrefill) + Ids(w.st.waiting);
      assert FirstIds(w.log) + (x + (Ids(w.inbox) + Ids([e.req])))
          == FirstIds(w.log) + (x + Ids(w.inbox)) + Ids([e.req]);
    }
  }

  lemma {:induction false} FairFrom(be: Backend, m: Model, policy: Policy, w: World, events: seq<Event>, w': World)
    requires Reachable(be, policy, w) && Pointwise(be, m) && w.st.prefill == [] && Line(w) == Ids(w.arrived)
    requires Worker.Run(be, w, events, w')
    ensures FirstIds(w'.log) <= Ids(w'.arrived) <==> FairRun(be, w, events)
    ensures FairRun(be, w, events) ==> Line(w') == Ids(w'.arrived)
    decreases |events|
  {
    hide Reachable, Pointwise, FairTurn, After, FirstIds, Ids, Line, Enabled;
    if events == [] {
      LineStarts(w);
    } else {
      var e := events[0];
      var v := After(be, w, e);
      ReachableNext(be, policy, w, e);
      if e == Turn && w.pc == Prefilling && !FairTurn(w.st) {
        EnabledTurn(w);
        AfterTurn(be, w);
        LineBreaks(be, m, policy, w);
        RunReachable(be, policy, v, events[1..], w');
        BrokenForGood(be, m, policy, v, events[1..], w');
      } else {
        FairStep(be, m, policy, w, e);
        FairFrom(be, m, policy, v, events[1..], w');
      }
    }
  }

  lemma LineStarts(w: World)
    ensures FirstIds(w.log) <= Line(w)
  {}

  /** In every run the first tokens come in the order of arrival exactly when every prefill half of the run
      was fair: of the deferred requests it let in at most the first, and a waiting one only when no deferred
      one was left behind. In a fair run whoever is still to be answered stands in that order too. */
  lemma FirstComeFirstServed(be: Backend, m: Model, policy: Policy, events: seq<Event>, w: World)
    requires Worker.Run(be, Boot(policy), events, w) && Pointwise(be, m)
    ensures FirstIds(w.log) <= Ids(w.arrived) <==> FairRun(be, Boot(policy), events)
    ensures FairRun(be, Boot(policy), events) ==> Line(w) == Ids(w.arrived)
  {
    hide FairRun, Pointwise;
    assert Worker.Run(be, Boot(policy), [], Boot(policy));
    FairFrom(be, m, policy, Boot(policy), events, w);
  }

  // ---- an allocator that never refuses ----

  lemma {:induction false} WillingIsFair(be: Backend, m: Model, policy: Policy, w: World, events: seq<Event>, w': World)
    requires Reachable(be, policy, w) && Pointwise(be, m) && Willing(policy) && Worker.Run(be, w, events, w')
    ensures FairRun(be, w, events)
    decreases |events|
  {
    hide Reachable, Pointwise, Willing, After, Enabled, Placed;
    if events != [] {
      WillingNeverDefers(be, m, policy, w);
      ReachableNext(be, policy, w, events[0]);
      WillingIsFair(be, m, policy, After(be, w, events[0]), events[1..], w');
    }
  }

  /** Then, whatever is pushed in between, first tokens come in the order of arrival in every run: those
      answered, the waiting ones and those not yet taken in are, in this order, all that arrived. */
  lemma WillingAnswersInOrder(be: Backend, m: Model, policy: Policy, w: World)
    requires Reachable(be, policy, w) && Pointwise(be, m) && Willing(policy)
    ensures FirstIds(w.log) + Ids(w.st.waiting) + Ids(w.inbox) == Ids(w.arrived)
  {
    hide Pointwise, Willing, FairRun, Placed;
    var events :| Worker.Run(be, Boot(policy), events, w);
    assert Worker.Run(be, Boot(policy), [], Boot(policy));
    WillingIsFair(be, m, policy, Boot(policy), events, w);
    FirstComeFirstServed(be, m, policy, events, w);
    WillingNeverDefers(be, m, policy, w);
    assert Ids([]) + Ids(w.st.waiting) == Ids(w.st.waiting);
    assert FirstIds(w.log) + (Ids(w.st.waiting) + Ids(w.inbox)) == FirstIds(w.log) + Ids(w.st.waiting) + Ids(w.inbox);
  }

  // ---- a run in which the second request is answered first ----

  /** Refuses its first three calls. */
  const THREE_REFUSALS: Policy := Bump(k => k < 3)

  const FIRST: Req := NewRequest(1, [7], 8)
  const SECOND: Req := NewRequest(2, [7], 8)

  function Deferred(r: Req): Req { r.(state := DeferredPrefillKV) }

  function TwoWaiting(): St { St([FIRST, SECOND], [], [], [], [], [], [], false, true, Alloc(THREE_REFUSALS, 0, 0)) }
  function OneDeferred(): St {
    St([SECOND], [], [], [], [Deferred(FIRST)], [], [], false, true, Alloc(THREE_REFUSALS, 0, 1))
  }
  function TwoDeferred(): St {
    St([], [], [], [], [Deferred(FIRST), Deferred(SECOND)], [], [], false, true, Alloc(THREE_REFUSALS, 0, 3))
  }

  /** Nothing to swap in, decode or prefill. */
  lemma NothingToDecode(be: Backend, st: St)
    requires st.swapOut == [] && st.decode == [] && st.deferredDecode == []
    ensures DecodeHalf(be, st) == Phase(st, [], false)
  {
    assert st.decode + [] == st.decode;
  }

  lemma NothingToSettle(st: St)
    requires st.swapOut == [] && st.decode == [] && st.deferredDecode == [] && !st.Idle() && !st.paused
    ensures SettleHalf(st, false) == Phase(st, [], false)
  {
    assert st.decode + [] == st.decode && st.swapOut + [] == st.swapOut;
  }

  lemma RefusedAdmission(r: Req, rest: seq<Req>, a: Alloc)
    requires Refused(a, 0)
    ensures Admit([r] + rest, a) == Admission([], [Deferred(r)], rest, a.(calls := a.calls + 1))
  {
    assert ([r] + rest)[1..] == rest;
  }

  /** A prefill half that lets nobody in. */
  lemma NothingToPrefill(be: Backend, st: St, s: Sieved, t: Admission)
    requires st.swapOut == [] && st.prefill == []
    requires s == Sieve(RetryPrefill, st.deferredPrefill, st.alloc) && t == Admit(st.waiting, s.alloc)
    requires s.yes == [] && t.yes == []
    ensures PrefillHalf(be, st)
         == Phase(st.(waiting := t.rest, deferredPrefill := s.no + t.no, alloc := t.alloc), [], false)
  {
    assert st.decode + [] == st.decode && st.finish + [] == st.finish;
  }

  lemma FirstTurn()
    ensures Iteration(MOCK_BACKEND, TwoWaiting()) == Phase(OneDeferred(), [], false)
  {
    var st := TwoWaiting();
    NothingToDecode(MOCK_BACKEND, st);
    assert [FIRST, SECOND] == [FIRST] + [SECOND];
    RefusedAdmission(FIRST, [SECOND], st.alloc);
    NothingToPrefill(MOCK_BACKEND, st, Sieve(RetryPrefill, [], st.alloc), Admit(st.waiting, st.alloc));
    hide DecodeHalf, PrefillHalf, SettleHalf, Admit, NewRequest, TwoWaiting;
    NothingToSettle(OneDeferred());
  }

  lemma RefusedRetry(r: Req, a: Alloc)
    requires Refused(a, 0)
    ensures Sieve(RetryPrefill, [r], a) == Sieved([], [r], a.(calls := a.calls + 1))
  {
    assert [r][1..] == [];
  }

  lemma SecondTurn()
    ensures Iteration(MOCK_BACKEND, OneDeferred()) == Phase(TwoDeferred(), [], false)
  {
    NothingToDecode(MOCK_BACKEND, OneDeferred());
    SecondPrefill();
    hide DecodeHalf, PrefillHalf, SettleHalf, OneDeferred;
    NothingToSettle(TwoDeferred());
  }

  lemma SecondPrefill()
    ensures PrefillHalf(MOCK_BACKEND, OneDeferred()) == Phase(TwoDeferred(), [], false)
  {
    var st := OneDeferred();
    RefusedRetry(Deferred(FIRST), st.alloc);
    assert [SECOND] == [SECOND] + [];
    RefusedAdmission(SECOND, [], st.alloc.(calls := 2));
    hide PrefillHalf, Admit, Sieve, NewRequest;
    NothingToPrefill(MOCK_BACKEND, st, Sieve(RetryPrefill, st.deferredPrefill, st.alloc),
                     Admit(st.waiting, st.alloc.(calls := 2)));
    assert [Deferred(FIRST)] + [Deferred(SECOND)] == [Deferred(FIRST), Deferred(SECOND)];
  }

  lemma ThirdTurn()
    ensures RespIds(Iteration(MOCK_BACKEND, TwoDeferred()).out) == [2, 1]
  {
    NothingToDecode(MOCK_BACKEND, TwoDeferred());
    ThirdPrefill();
    hide *;
    OnlyPrefills(MOCK_BACKEND, TwoDeferred());
  }

  lemma OnlyPrefills(be: Backend, st: St)
    requires DecodeHalf(be, st) == Phase(st, [], false)
    ensures Iteration(be, st).out == PrefillHalf(be, st).out
  {
    hide DecodeHalf, PrefillHalf, SettleHalf;
    assert [] + PrefillHalf(be, st).out == PrefillHalf(be, st).out;
  }

  lemma ThirdPrefill()
    ensures RespIds(PrefillHalf(MOCK_BACKEND, TwoDeferred()).out) == [2, 1]
  {
    assert Granting(TwoDeferred().alloc);
    hide PrefillHalf, Granting, Pointwise, NewRequest;
    MockIsPointwise();
    DeferredAnsweredInReverse(MOCK_BACKEND, MOCK_MODEL, TwoDeferred());
    TurnedAround(Deferred(FIRST), Deferred(SECOND));
    NewIds();
  }

  lemma TurnedAround(r: Req, s: Req)
    ensures Ids(Reverse([r, s]) + []) == [s.id, r.id]
  {
    assert [r, s][1..] == [s];
    assert Reverse([r, s]) == [s, r];
  }

  lemma NewIds()
    ensures FIRST.id == 1 && SECOND.id == 2
  {}

  lemma TurnReachable(be: Backend, policy: Policy, w: World)
    requires Reachable(be, policy, w) && w.pc == Head && w.st.running && w.outbox == [] && !w.owesSignal
    ensures Reachable(be, policy, Turned(be, w))
  {
    hide Reachable, Turned;
    WorkerTurnIsARun(be, w);
    var n: nat :| Worker.Run(be, w, Turns(n), Turned(be, w));
    RunReachable(be, policy, w, Turns(n), Turned(be, w));
  }

  lemma TwoPushes() returns (w: World)
    ensures Reachable(MOCK_BACKEND, THREE_REFUSALS, w)
    ensures w == Boot(THREE_REFUSALS).(inbox := [FIRST, SECOND], arrived := [FIRST, SECOND])
  {
    var w0 := Boot(THREE_REFUSALS);
    assert Worker.Run(MOCK_BACKEND, w0, [], w0);
    NewIds();
    ReachableNext(MOCK_BACKEND, THREE_REFUSALS, w0, Push(FIRST));
    var w1 := w0.(inbox := [FIRST], arrived := [FIRST]);
    assert After(MOCK_BACKEND, w0, Push(FIRST)) == w1;
    ReachableNext(MOCK_BACKEND, THREE_REFUSALS, w1, Push(SECOND));
    w := w1.(inbox := [FIRST, SECOND], arrived := [FIRST, SECOND]);
    assert After(MOCK_BACKEND, w1, Push(SECOND)) == w;
  }

  /** Two requests arrive one after the other, the allocator refuses its first three calls and no other, and the
      second request is answered first. */
  lemma SecondAnsweredFirst() returns (w: World)
    ensures Reachable(MOCK_BACKEND, THREE_REFUSALS, w)
    ensures Ids(w.arrived) == [1, 2] && RespIds(w.log) == [2, 1]
  {
    hide Reachable, Iteration, NewRequest;
    var be, policy := MOCK_BACKEND, THREE_REFUSALS;
    var w1 := TwoPushes();
    assert w1.st.waiting + w1.inbox[..2] == [FIRST, SECOND];
    FirstTurn();
    TurnReachable(be, policy, w1);
    var w2 := Turned(be, w1);
    assert w2.st == OneDeferred() && w2.inbox == [] && w2.log == [] && w2.pc == Head;
    SecondTurn();
    TurnReachable(be, policy, w2);
    assert w2.st.waiting + w2.inbox[..0] == w2.st.waiting;
    var w3 := Turned(be, w2);
    assert w3.st == TwoDeferred() && w3.inbox == [] && w3.log == [] && w3.pc == Head;
    ThirdTurn();
    TurnReachable(be, policy, w3);
    assert w3.st.waiting + w3.inbox[..0] == w3.st.waiting;
    w := Turned(be, w3);
    NewIds();
    assert w.log == [] + Iteration(be, TwoDeferred()).out == Iteration(be, TwoDeferred()).out;
  }
}
