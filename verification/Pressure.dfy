/** An allocator under pressure for a while: a request is swapped out, admission pauses, and both recover. */
module Pressure {
  import opened Types
  import opened Allocation
  import opened Backends
  import opened SchedulerModel
  import opened Batching
  import opened Worker
  import opened Theorems
  import opened Recovery
  import opened Refinement
  import opened Fairness
  import opened Order

  /** Refuses its second call, which is the first one for a decode block. */
  const ONE_REFUSAL: Policy := Bump(k => k == 1)

  lemma PrefillOne(st: St, r: Req) returns (s: Req, a: Alloc)
    requires st.waiting == [r] && st.deferredPrefill == [] && st.prefill == [] && st.decode == [] && st.swapOut == []
    requires r == NewRequest(r.id, r.tokens, r.maxNew) && r.maxNew > 1 && !Refused(st.alloc, 0)
    ensures s.residency == Gpu && a.policy == st.alloc.policy && a.calls == st.alloc.calls + 1
    ensures PrefillHalf(MOCK_BACKEND, st)
         == Phase(st.(waiting := [], decode := [s], alloc := a), [Resp(r.id, FIRST_TOKEN, false)], true)
  {
    var t := Attempt(AdmitPrefill, st.alloc, r);
    AttemptAsks(AdmitPrefill, st.alloc, r);
    assert t.req.residency == Gpu && t.req.tokens == r.tokens && t.req.promptLen == r.promptLen == |r.tokens|;
    assert t.req.maxNew == r.maxNew;
    assert Admit([r], st.alloc) == Admission([t.req], [], [], t.alloc) by {
      hide Attempt;
      assert [r][1..] == [];
    }
    a := t.alloc;
    MockIsPointwise();
    RunBatchesIsRunEach(MOCK_BACKEND, MOCK_MODEL, Prefill, MAX_BATCH, [t.req], a);
    s := AnsweredOnce(t.req, a);
    hide Attempt, RunBatches, RunEach, Admit, Pointwise, PrefillHalf;
    PrefillParts(MOCK_BACKEND, st);
    var p := RetrySwapInRequests(st);
    assert p == Phase(st, [], false);
    var q := RetryDeferredPrefill(st);
    assert q == Phase(st, [], false) by { assert [] + st.prefill == []; }
  }

  lemma AnsweredOnce(r: Req, a: Alloc) returns (s: Req)
    requires r.promptLen == |r.tokens| && r.maxNew > 1 && r.residency == Gpu
    ensures RunEach(MOCK_MODEL, Prefill, [r], a) == Outcome([s], [], [], [Resp(r.id, FIRST_TOKEN, false)], a)
    ensures s.residency == Gpu
  {
    var t := Enter(Prefill, a, r);
    s := Complete(Prefill, t.req, ReplyTo(MOCK_MODEL, Prefill, t.req)).0;
    assert [r][1..] == [];
    assert |t.req.tokens + [FIRST_TOKEN]| - t.req.promptLen == 1;
  }

  lemma NoBatch(be: Backend, q: seq<Req>, a: Alloc, d: seq<Req>, a': Alloc)
    requires q != [] && FillBatch(Decode, MAX_BATCH, q, a) == Fill([], d, [], a')
    ensures RunBatches(be, Decode, MAX_BATCH, q, a) == Outcome([], [], d, [], a')
  {
    hide FillBatch;
    assert RunBatches(be, Decode, MAX_BATCH, [], a') == Outcome([], [], [], [], a');
    assert d + [] == d;
  }

  lemma NobodyEnters(s: Req, a: Alloc)
    requires !Attempt(AdmitDecode, a, s).ok
    ensures var t := Attempt(AdmitDecode, a, s); FillBatch(Decode, MAX_BATCH, [s], a) == Fill([], [t.req], [], t.alloc)
  {
    hide Attempt;
    assert [s][1..] == [];
  }

  lemma DecodeRefused(be: Backend, st: St, s: Req) returns (d: Req)
    requires st.decode == [s] && st.deferredDecode == [] && st.swapOut == [] && Refused(st.alloc, 0)
    ensures d.residency == s.residency
    ensures DecodeHalf(be, st)
         == Phase(st.(decode := [], deferredDecode := [d], alloc := st.alloc.(calls := st.alloc.calls + 1)), [], false)
  {
    var t := Attempt(AdmitDecode, st.alloc, s);
    d := t.req;
    assert t == Try(false, s.(state := DeferredDecodeKV), st.alloc.(calls := st.alloc.calls + 1));
    NobodyEnters(s, st.alloc);
    NoBatch(be, [s], st.alloc, [d], t.alloc);
    hide Attempt, Refused, RunBatches;
    assert st.decode + [] == st.decode && Readied([]) == [] && st.finish + [] == st.finish;
  }

  lemma Evicts(st: St, d: Req)
    requires st.waiting == [] && st.deferredPrefill == [] && st.prefill == [] && st.decode == [] && st.swapOut == []
    requires st.deferredDecode == [d] && d.residency == Gpu && !Refused(st.alloc, 0)
    ensures var p := SettleHalf(st, false).st;
            |p.swapOut| == 1 && p.paused && p.running == st.running && p.alloc.policy == st.alloc.policy
            && p.alloc.calls == st.alloc.calls + 1 && !p.Idle()
  {
    assert st.decode + [] == st.decode;
    assert IsVictim(d);
  }

  /** Nothing to admit, nothing to prefill, nothing to swap in. */
  lemma PrefillsNothing(be: Backend, st: St)
    requires st.waiting == [] && st.deferredPrefill == [] && st.prefill == [] && st.swapOut == []
    ensures PrefillHalf(be, st) == Phase(st, [], false)
  {
    assert st.decode + [] == st.decode && st.finish + [] == st.finish;
  }

  lemma OnePush() returns (w: World)
    ensures Reachable(MOCK_BACKEND, ONE_REFUSAL, w)
    ensures w == Boot(ONE_REFUSAL).(inbox := [FIRST], arrived := [FIRST])
  {
    var w0 := Boot(ONE_REFUSAL);
    assert Worker.Run(MOCK_BACKEND, w0, [], w0);
    ReachableNext(MOCK_BACKEND, ONE_REFUSAL, w0, Push(FIRST));
    w := w0.(inbox := [FIRST], arrived := [FIRST]);
    assert After(MOCK_BACKEND, w0, Push(FIRST)) == w;
  }

  lemma ServedOnce(st: St) returns (s: Req, a: Alloc)
    requires st == Boot(ONE_REFUSAL).st.(waiting := [FIRST])
    ensures s.residency == Gpu && a.policy == ONE_REFUSAL && a.calls == 1
    ensures Iteration(MOCK_BACKEND, st)
         == Phase(st.(waiting := [], decode := [s], alloc := a), [Resp(1, FIRST_TOKEN, false)], true)
  {
    NothingToDecode(MOCK_BACKEND, st);
    s, a := PrefillOne(st, FIRST);
    var v := st.(waiting := [], decode := [s], alloc := a);
    hide DecodeHalf, PrefillHalf, SettleHalf;
    assert SettleHalf(v, true) == Phase(v, [], true) by { StaysAsItIs(v); }
  }

  lemma StaysAsItIs(st: St)
    requires st.swapOut == [] && !st.paused
    ensures SettleHalf(st, true) == Phase(st, [], true)
  {
    assert st.decode + [] == st.decode;
  }

  lemma RefusedOnce(st: St, s: Req)
    requires st == Boot(ONE_REFUSAL).st.(decode := [s], alloc := st.alloc)
    requires s.residency == Gpu && st.alloc.policy == ONE_REFUSAL && st.alloc.calls == 1
    ensures var p := Iteration(MOCK_BACKEND, st).st;
            |p.swapOut| == 1 && p.paused && p.running && p.alloc.policy == ONE_REFUSAL && p.alloc.calls == 3
  {
    var d := DecodeRefused(MOCK_BACKEND, st, s);
    var v := DecodeHalf(MOCK_BACKEND, st).st;
    PrefillsNothing(MOCK_BACKEND, v);
    Evicts(v, d);
    hide DecodeHalf, PrefillHalf, SettleHalf;
  }

  /** With one refusal at the wrong moment a request is swapped out and admission is paused. */
  lemma SwappedOutAndPaused() returns (w: World)
    ensures Reachable(MOCK_BACKEND, ONE_REFUSAL, w)
    ensures |w.st.swapOut| == 1 && w.st.paused && w.st.running && Granting(w.st.alloc)
  {
    hide Reachable, Iteration, NewRequest;
    var be, policy := MOCK_BACKEND, ONE_REFUSAL;
    var w1 := OnePush();
    assert w1.st.waiting + w1.inbox[..1] == [FIRST];
    var s, a := ServedOnce(w1.st.(waiting := [FIRST]));
    TurnReachable(be, policy, w1);
    var w2 := Turned(be, w1);
    assert w2.st == Boot(policy).st.(decode := [s], alloc := a) && w2.inbox == [] && w2.pc == Head;
    RefusedOnce(w2.st, s);
    TurnReachable(be, policy, w2);
    assert w2.st.waiting + w2.inbox[..0] == w2.st.waiting;
    w := Turned(be, w2);
  }
}
