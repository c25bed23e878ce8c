/** What the three parts of a worker iteration do to the requests the scheduler holds. */
module Phases {
  import opened Types
  import opened Backends
  import opened SchedulerModel
  import opened Placement
  import opened Bags
  import opened Ledger

  function Held(st: St): multiset<Core> {
    CoreBag(st.waiting) + CoreBag(st.deferredPrefill) + CoreBag(st.prefill) + CoreBag(st.decode)
    + CoreBag(st.deferredDecode) + CoreBag(st.swapOut) + CoreBag(st.finish)
  }

  function Submitted(st: St): multiset<Origin> {
    OriginBag(st.waiting) + OriginBag(st.deferredPrefill) + OriginBag(st.prefill) + OriginBag(st.decode)
    + OriginBag(st.deferredDecode) + OriginBag(st.swapOut) + OriginBag(st.finish)
  }

  lemma HeldIsAll(st: St)
    ensures CoreBag(st.All()) == Held(st) && OriginBag(st.All()) == Submitted(st)
  {
    hide CoreBag, OriginBag;
    var a, b, c, d, e, f, g := st.waiting, st.deferredPrefill, st.prefill, st.decode, st.deferredDecode,
        st.swapOut, st.finish;
    JoinBags(a, b);
    JoinBags(a + b, c);
    JoinBags(a + b + c, d);
    JoinBags(a + b + c + d, e);
    JoinBags(a + b + c + d + e, f);
    JoinBags(a + b + c + d + e + f, g);
  }

  lemma NoneHeld()
    ensures CoreBag([]) == multiset{} && OriginBag([]) == multiset{}
  {}

  lemma FitUnfinished(tables: bool, p: Place, q: seq<Req>)
    requires AllFit(tables, p, q) && !p.Done?
    ensures Unfinished(q)
  {}

  // ---- moving requests between two or three of the seven queues ----

  lemma SwapInSum<T>(a: multiset<T>, b: multiset<T>, c: multiset<T>, d: multiset<T>, e: multiset<T>, f: multiset<T>,
                     g: multiset<T>, yes: multiset<T>, no: multiset<T>)
    requires yes + no == f
    ensures a + b + c + (d + yes) + e + no + g == a + b + c + d + e + f + g
  {
    assert d + yes + e + no == d + e + f;
    assert a + b + c + (d + yes) + e + no + g == (a + b + c + g) + (d + yes + e + no);
  }

  lemma RetryPrefillSum<T>(a: multiset<T>, b: multiset<T>, c: multiset<T>, d: multiset<T>, e: multiset<T>,
      f: multiset<T>,
                           g: multiset<T>, yes: multiset<T>, no: multiset<T>)
    requires yes + no == b
    ensures a + no + (yes + c) + d + e + f + g == a + b + c + d + e + f + g
  {
    assert a + no + (yes + c) == a + b + c;
  }

  lemma AdmitSum<T>(a: multiset<T>, b: multiset<T>, c: multiset<T>, d: multiset<T>, e: multiset<T>, f: multiset<T>,
                    g: multiset<T>, yes: multiset<T>, no: multiset<T>, rest: multiset<T>)
    requires yes + no + rest == a
    ensures rest + (b + no) + (c + yes) + d + e + f + g == a + b + c + d + e + f + g
  {
    assert rest + (b + no) + (c + yes) == (yes + no + rest) + b + c;
  }

  lemma VictimSum<T>(abc: multiset<T>, d: multiset<T>, e: multiset<T>, f: multiset<T>, g: multiset<T>,
                     d': multiset<T>, e': multiset<T>, v: multiset<T>)
    requires (d' == d && e' + v == e) || (e' == e && d' + v == d)
    ensures abc + d' + e' + (f + v) + g == abc + d + e + f + g
  {
    assert abc + d' + e' + (f + v) + g == (abc + f + g) + (d' + e' + v);
    assert d' + e' + v == d + e;
  }

  lemma SwapInHeld(st: St)
    requires Placed(st)
    ensures var s := RetrySwapInRequests(st).st;
            Placed(s) && s.alloc.policy == st.alloc.policy && Held(s) == Held(st) && Submitted(s) == Submitted(st)
  {
    SwapInPlaced(st);
    FitUnfinished(st.alloc.policy.Bump?, Swapped, st.swapOut);
    hide CoreBag, OriginBag, Sieve, Placed;
    SieveBags(RetrySwapIn, st.swapOut, st.alloc);
    var s := Sieve(RetrySwapIn, st.swapOut, st.alloc);
    JoinBags(st.decode, s.yes);
    SwapInSum(CoreBag(st.waiting), CoreBag(st.deferredPrefill), CoreBag(st.prefill), CoreBag(st.decode),
              CoreBag(st.deferredDecode), CoreBag(st.swapOut), CoreBag(st.finish), CoreBag(s.yes), CoreBag(s.no));
    SwapInSum(OriginBag(st.waiting), OriginBag(st.deferredPrefill), OriginBag(st.prefill), OriginBag(st.decode),
              OriginBag(st.deferredDecode), OriginBag(st.swapOut), OriginBag(st.finish), OriginBag(s.yes),
                  OriginBag(s.no));
  }

  lemma RetryDecodeHeld(st: St)
    requires Placed(st)
    ensures var s := RetryDeferredDecode(st).st;
            Placed(s) && s.alloc == st.alloc && Held(s) == Held(st) && Submitted(s) == Submitted(st)
  {
    RetryDecodePlaced(st);
    FitUnfinished(st.alloc.policy.Bump?, DeferredDec, st.deferredDecode);
    hide CoreBag, OriginBag, Readied, Placed;
    ReadiedBags(st.deferredDecode);
    JoinBags(st.decode, Readied(st.deferredDecode));
    NoneHeld();
  }

  lemma RetryPrefillHeld(st: St)
    requires Placed(st)
    ensures var s := RetryDeferredPrefill(st).st;
            Placed(s) && s.alloc.policy == st.alloc.policy && Held(s) == Held(st) && Submitted(s) == Submitted(st)
  {
    var s := Sieve(RetryPrefill, st.deferredPrefill, st.alloc);
    FitUnfinished(st.alloc.policy.Bump?, DeferredPre, st.deferredPrefill);
    hide CoreBag, OriginBag, Sieve, Reverse, Fits;
    SieveFits(RetryPrefill, st.deferredPrefill, st.alloc);
    ReverseFits(st.alloc.policy.Bump?, Place.Admitted, s.yes);
    SieveBags(RetryPrefill, st.deferredPrefill, st.alloc);
    ReverseBags(s.yes);
    JoinBags(Reverse(s.yes), st.prefill);
    RetryPrefillSum(CoreBag(st.waiting), CoreBag(st.deferredPrefill), CoreBag(st.prefill), CoreBag(st.decode),
                    CoreBag(st.deferredDecode), CoreBag(st.swapOut), CoreBag(st.finish), CoreBag(s.yes), CoreBag(s.no));
    RetryPrefillSum(OriginBag(st.waiting), OriginBag(st.deferredPrefill), OriginBag(st.prefill), OriginBag(st.decode),
                    OriginBag(st.deferredDecode), OriginBag(st.swapOut), OriginBag(st.finish), OriginBag(s.yes),
                        OriginBag(s.no));
  }

  lemma AdmitHeld(st: St)
    requires Placed(st)
    ensures var s := AdmitWaitingPrefill(st).st;
            Placed(s) && s.alloc.policy == st.alloc.policy && Held(s) == Held(st) && Submitted(s) == Submitted(st)
  {
    var s := Admit(st.waiting, st.alloc);
    FitUnfinished(st.alloc.policy.Bump?, Waiting, st.waiting);
    hide CoreBag, OriginBag, Admit, Fits;
    AdmitFits(st.waiting, st.alloc);
    AdmitBags(st.waiting, st.alloc);
    JoinBags(st.prefill, s.yes);
    JoinBags(st.deferredPrefill, s.no);
    AdmitSum(CoreBag(st.waiting), CoreBag(st.deferredPrefill), CoreBag(st.prefill), CoreBag(st.decode),
        CoreBag(st.deferredDecode),
             CoreBag(st.swapOut), CoreBag(st.finish), CoreBag(s.yes), CoreBag(s.no), CoreBag(s.rest));
    AdmitSum(OriginBag(st.waiting), OriginBag(st.deferredPrefill), OriginBag(st.prefill), OriginBag(st.decode),
        OriginBag(st.deferredDecode),
             OriginBag(st.swapOut), OriginBag(st.finish), OriginBag(s.yes), OriginBag(s.no), OriginBag(s.rest));
  }

  lemma VictimHeld(st: St)
    requires Placed(st)
    ensures var s := TrySwapOutVictim(st).st; Held(s) == Held(st) && Submitted(s) == Submitted(st)
  {
    FitUnfinished(st.alloc.policy.Bump?, DeferredDec, st.deferredDecode);
    FitUnfinished(st.alloc.policy.Bump?, Ready, st.decode);
    hide CoreBag, OriginBag, EvictFrom, Placed;
    var e := EvictFrom(st.deferredDecode, st.alloc);
    var f := EvictFrom(st.decode, e.alloc);
    EvictBags(st.deferredDecode, st.alloc);
    EvictBags(st.decode, e.alloc);
    NoneHeld();
    var s := TrySwapOutVictim(st).st;
    var v := if e.victim != [] then e.victim else f.victim;
    JoinBags(st.swapOut, v);
    VictimSum(CoreBag(st.waiting) + CoreBag(st.deferredPrefill) + CoreBag(st.prefill), CoreBag(st.decode),
              CoreBag(st.deferredDecode), CoreBag(st.swapOut), CoreBag(st.finish), CoreBag(s.decode),
                  CoreBag(s.deferredDecode), CoreBag(v));
    VictimSum(OriginBag(st.waiting) + OriginBag(st.deferredPrefill) + OriginBag(st.prefill), OriginBag(st.decode),
              OriginBag(st.deferredDecode), OriginBag(st.swapOut), OriginBag(st.finish), OriginBag(s.decode),
                  OriginBag(s.deferredDecode), OriginBag(v));
  }

  lemma SettleHalfHeld(st: St, progress: bool)
    requires Placed(st)
    ensures var s := SettleHalf(st, progress).st; Held(s) == Held(st) && Submitted(s) == Submitted(st)
  {
    hide CoreBag, OriginBag, TrySwapOutVictim, RetrySwapInRequests, Placed;
    SwapInHeld(st);
    VictimHeld(RetrySwapInRequests(st).st);
  }

  // ---- phases that produce responses: submissions are kept, the ledger stays balanced ----

  lemma RunDecodeSubmitted(be: Backend, w: nat, st: St)
    requires w > 0 && Placed(st)
    ensures Submitted(RunDecodeBatch(be, w, st).st) == Submitted(st)
  {
    hide CoreBag, OriginBag, RunBatches, Fits;
    RunOrigins(be, Decode, w, st.decode, st.alloc);
    var o := RunBatches(be, Decode, w, st.decode, st.alloc);
    JoinBags(st.finish, o.dead);
    JoinBags(st.deferredDecode, o.deferred);
  }

  lemma RunPrefillSubmitted(be: Backend, w: nat, st: St)
    requires w > 0 && Placed(st)
    ensures Submitted(RunPrefillBatch(be, w, st).st) == Submitted(st)
  {
    hide CoreBag, OriginBag, RunBatches, Fits;
    RunOrigins(be, Prefill, w, st.prefill, st.alloc);
    PrefillAsksNothing(be, w, st.prefill, st.alloc);
    var o := RunBatches(be, Prefill, w, st.prefill, st.alloc);
    JoinBags(st.decode, o.alive);
    JoinBags(st.finish, o.dead);
    NoneHeld();
  }

  lemma DecodeHalfSubmitted(be: Backend, st: St)
    requires Placed(st)
    ensures Submitted(DecodeHalf(be, st).st) == Submitted(st)
  {
    hide Submitted, Held, RetrySwapInRequests, RetryDeferredDecode, RunDecodeBatch, Placed;
    SwapInHeld(st);
    var p := RetrySwapInRequests(st).st;
    RetryDecodeHeld(p);
    RunDecodeSubmitted(be, MAX_BATCH, RetryDeferredDecode(p).st);
  }

  lemma PrefillHalfSubmitted(be: Backend, st: St)
    requires Placed(st)
    ensures Submitted(PrefillHalf(be, st).st) == Submitted(st)
  {
    hide Submitted, Held, RetrySwapInRequests, RetryDeferredPrefill, AdmitWaitingPrefill, RunPrefillBatch, Placed;
    SwapInHeld(st);
    var p := RetrySwapInRequests(st).st;
    RetryPrefillHeld(p);
    var q := RetryDeferredPrefill(p).st;
    AdmitHeld(q);
    RunPrefillSubmitted(be, MAX_BATCH, AdmitWaitingPrefill(q).st);
  }

  /** The requests outside the scheduler, `others`, are in the ledger too. */
  ghost predicate InBalance(m: Model, st: St, others: multiset<Core>, log: seq<Resp>) {
    UniqueIds(others + Held(st)) && AllBalanced(m, others + Held(st), log)
  }

  lemma RunDecodeInBalance(be: Backend, m: Model, st: St, others: multiset<Core>, log: seq<Resp>)
    requires Placed(st) && Pointwise(be, m) && InBalance(m, st, others, log)
    ensures var p := RunDecodeBatch(be, MAX_BATCH, st); InBalance(m, p.st, others, log + p.out)
  {
    hide CoreBag, OriginBag, RunBatches, Fits, UniqueIds, AllBalanced, Pointwise;
    var o := RunBatches(be, Decode, MAX_BATCH, st.decode, st.alloc);
    var rest := Held(st.(decode := []));
    NoneHeld();
    assert others + Held(st) == (others + rest) + CoreBag(st.decode);
    RunBalanced(be, m, Decode, MAX_BATCH, st.decode, st.alloc, others + rest, log);
    JoinBags(st.finish, o.dead);
    JoinBags(st.deferredDecode, o.deferred);
    var s := RunDecodeBatch(be, MAX_BATCH, st).st;
    assert others + Held(s) == (others + rest) + (CoreBag(o.alive) + CoreBag(o.dead) + CoreBag(o.deferred));
  }

  lemma RunPrefillInBalance(be: Backend, m: Model, st: St, others: multiset<Core>, log: seq<Resp>)
    requires Placed(st) && Pointwise(be, m) && InBalance(m, st, others, log)
    ensures var p := RunPrefillBatch(be, MAX_BATCH, st); InBalance(m, p.st, others, log + p.out)
  {
    hide CoreBag, OriginBag, RunBatches, Fits, UniqueIds, AllBalanced, Pointwise;
    var o := RunBatches(be, Prefill, MAX_BATCH, st.prefill, st.alloc);
    var rest := Held(st.(prefill := []));
    NoneHeld();
    assert others + Held(st) == (others + rest) + CoreBag(st.prefill);
    RunBalanced(be, m, Prefill, MAX_BATCH, st.prefill, st.alloc, others + rest, log);
    PrefillAsksNothing(be, MAX_BATCH, st.prefill, st.alloc);
    JoinBags(st.decode, o.alive);
    JoinBags(st.finish, o.dead);
    var s := RunPrefillBatch(be, MAX_BATCH, st).st;
    assert others + Held(s) == (others + rest) + (CoreBag(o.alive) + CoreBag(o.dead) + CoreBag(o.deferred));
  }

  lemma DecodeHalfInBalance(be: Backend, m: Model, st: St, others: multiset<Core>, log: seq<Resp>)
    requires Placed(st) && Pointwise(be, m) && InBalance(m, st, others, log)
    ensures var p := DecodeHalf(be, st); InBalance(m, p.st, others, log + p.out)
  {
    hide Held, Submitted, UniqueIds, AllBalanced, Pointwise, Placed, RetrySwapInRequests, RunDecodeBatch;
    SwapInHeld(st);
    var p := RetrySwapInRequests(st).st;
    RetryDecodeHeld(p);
    RunDecodeInBalance(be, m, RetryDeferredDecode(p).st, others, log);
    assert RetrySwapInRequests(st).out == [] by { SwapInSilent(st); }
    assert DecodeHalf(be, st).out == RunDecodeBatch(be, MAX_BATCH, RetryDeferredDecode(p).st).out;
  }

  lemma SwapInSilent(st: St)
    ensures RetrySwapInRequests(st).out == []
  {}

  lemma PrefillHalfInBalance(be: Backend, m: Model, st: St, others: multiset<Core>, log: seq<Resp>)
    requires Placed(st) && Pointwise(be, m) && InBalance(m, st, others, log)
    ensures var p := PrefillHalf(be, st); InBalance(m, p.st, others, log + p.out)
  {
    hide Held, Submitted, UniqueIds, AllBalanced, Pointwise, Placed, RetrySwapInRequests, RunPrefillBatch;
    SwapInHeld(st);
    SwapInSilent(st);
    var p := RetrySwapInRequests(st).st;
    RetryPrefillHeld(p);
    var q := RetryDeferredPrefill(p).st;
    AdmitHeld(q);
    RunPrefillInBalance(be, m, AdmitWaitingPrefill(q).st, others, log);
    assert PrefillHalf(be, st).out == RunPrefillBatch(be, MAX_BATCH, AdmitWaitingPrefill(q).st).out;
  }
}
