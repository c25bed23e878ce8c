/** The scheduler as the class it is: member queues of requests, updated in place. */
module SchedulerClass {
  import opened Types
  import opened Allocation
  import opened Backends
  import opened SchedulerModel
  import opened Objects

  // ---- the state of a loop over a queue, against the function it computes ----

  function Merge(yes: seq<Req>, no: seq<Req>, s: Sieved): Sieved {
    Sieved(yes + s.yes, no + s.no, s.alloc)
  }

  lemma MergeStart(g: Gate, q: seq<Req>, a: Alloc)
    ensures Merge([], [], Sieve(g, q, a)) == Sieve(g, q, a)
  {}

  lemma MergeDone(g: Gate, yes: seq<Req>, no: seq<Req>, a: Alloc)
    ensures Merge(yes, no, Sieve(g, [], a)) == Sieved(yes, no, a)
  {}

  lemma MergeStep(g: Gate, yes: seq<Req>, no: seq<Req>, q: seq<Req>, a: Alloc)
    requires q != []
    ensures var t := Attempt(g, a, q[0]);
            Merge(yes, no, Sieve(g, q, a))
            == Merge(if t.ok then yes + [t.req] else yes, if t.ok then no else no + [t.req], Sieve(g, q[1..], t.alloc))
  {
    hide Attempt;
    var t := Attempt(g, a, q[0]);
    var s := Sieve(g, q[1..], t.alloc);
    assert yes + ([t.req] + s.yes) == yes + [t.req] + s.yes;
    assert no + ([t.req] + s.no) == no + [t.req] + s.no;
  }

  lemma Assoc(a: seq<Req>, b: seq<Req>, r: Req)
    ensures a + b + [r] == a + (b + [r])
  {}

  /** Taking the front of what is left of v, with the refused ones behind it. */
  lemma Shift(v: seq<Req>, i: nat, no: seq<Req>)
    requires i < |v|
    ensures v[i..] != [] && v[i..] + no != [] && v[i..][0] == v[i] && (v[i..] + no)[0] == v[i]
    ensures (v[i..] + no)[1..] == v[i + 1..] + no && v[i..][1..] == v[i + 1..]
  {}

  lemma Ends(v: seq<Req>, no: seq<Req>)
    ensures v[0..] == v && v[|v|..] == [] && v + [] == v && v[|v|..] + no == no
  {}

  lemma {:induction false} ReverseSnoc(q: seq<Req>, r: Req)
    ensures Reverse(q + [r]) == [r] + Reverse(q)
  {
    if q != [] {
      assert (q + [r])[1..] == q[1..] + [r];
      ReverseSnoc(q[1..], r);
    }
  }

  lemma PushedInFront(yes: seq<Req>, r: Req, q: seq<Req>)
    ensures [r] + (Reverse(yes) + q) == Reverse(yes + [r]) + q
  {
    ReverseSnoc(yes, r);
  }

  /** An admission pass that has let yes through so far. */
  function Ahead(yes: seq<Req>, s: Admission): Admission {
    s.(yes := yes + s.yes)
  }

  lemma AheadStep(yes: seq<Req>, q: seq<Req>, a: Alloc)
    requires q != []
    ensures var t := Attempt(AdmitPrefill, a, q[0]);
            Ahead(yes, Admit(q, a))
            == if t.ok then Ahead(yes + [t.req], Admit(q[1..], t.alloc)) else Admission(yes, [t.req], q[1..], t.alloc)
  {
    hide Attempt;
    var t := Attempt(AdmitPrefill, a, q[0]);
    if t.ok {
      assert yes + ([t.req] + Admit(q[1..], t.alloc).yes) == yes + [t.req] + Admit(q[1..], t.alloc).yes;
    } else {
      assert yes + [] == yes;
    }
  }

  lemma AheadEnds(yes: seq<Req>, q: seq<Req>, a: Alloc)
    ensures Ahead([], Admit(q, a)) == Admit(q, a)
    ensures Ahead(yes, Admit([], a)) == Admission(yes, [], [], a)
  {
    assert [] + Admit(q, a).yes == Admit(q, a).yes;
  }

  lemma ReadiedStep(v: seq<Req>, i: nat)
    requires i < |v|
    ensures Readied(v[..i + 1]) == Readied(v[..i]) + [v[i].(state := DecodeReady)]
  {}

  lemma EmptyReverse(q: seq<Req>)
    ensures Reverse([]) + q == q
  {}

  lemma EmptyReadied(v: seq<Req>, q: seq<Req>)
    ensures v[0..] == v && q + Readied(v[..0]) == q && v[|v|..] == [] && v[..|v|] == v
  {}

  /** How many of the queued requests one drain takes. */
  function DrainCount(inbox: seq<Req>): (k: nat)
    ensures k <= |inbox|
  {
    if |inbox| < MAX_BATCH then |inbox| else MAX_BATCH
  }

  /** A batch being filled: b is in, d is deferred, f is what will become of the rest. */
  function JoinFill(b: seq<Req>, d: seq<Req>, f: Fill): Fill {
    Fill(b + f.batch, d + f.deferred, f.rest, f.alloc)
  }

  lemma JoinFillStart(kind: Kind, w: nat, q: seq<Req>, a: Alloc)
    ensures JoinFill([], [], FillBatch(kind, w, q, a)) == FillBatch(kind, w, q, a)
  {}

  lemma JoinFillStep(kind: Kind, w: nat, b: seq<Req>, d: seq<Req>, q: seq<Req>, a: Alloc)
    requires q != [] && w > 0
    ensures var t := Enter(kind, a, q[0]);
            JoinFill(b, d, FillBatch(kind, w, q, a))
            == if t.ok then JoinFill(b + [t.req], d, FillBatch(kind, w - 1, q[1..], t.alloc))
               else JoinFill(b, d + [t.req], FillBatch(kind, w, q[1..], t.alloc))
  {
    hide Enter;
    var t := Enter(kind, a, q[0]);
    if t.ok {
      var f := FillBatch(kind, w - 1, q[1..], t.alloc);
      assert b + ([t.req] + f.batch) == b + [t.req] + f.batch;
    } else {
      var f := FillBatch(kind, w, q[1..], t.alloc);
      assert d + ([t.req] + f.deferred) == d + [t.req] + f.deferred;
    }
  }

  /** For a decode batch the test is whether the request gets its block. */
  lemma EnterDecode(a: Alloc, r: Req)
    ensures Enter(Decode, a, r) == Attempt(AdmitDecode, a, r)
  {}

  lemma JoinFillEnds(kind: Kind, b: seq<Req>, d: seq<Req>, w: nat, q: seq<Req>, a: Alloc)
    requires q == [] || w == 0
    ensures JoinFill(b, d, FillBatch(kind, w, q, a)) == Fill(b, d, q, a)
  {}

  /** The scheduler while a decode batch is being filled: i requests seen, b of them in, d deferred. */
  function FillState(st: St, i: nat, d: seq<Req>, a: Alloc): St
    requires i <= |st.decode|
  {
    st.(decode := st.decode[i..], deferredDecode := st.deferredDecode + d, alloc := a)
  }

  ghost predicate Filling(st: St, i: nat, b: seq<Req>, d: seq<Req>, a: Alloc) {
    && i <= |st.decode| && |b| <= MAX_BATCH
    && JoinFill(b, d, FillBatch(Decode, MAX_BATCH - |b|, st.decode[i..], a)) == FillBatch(Decode, MAX_BATCH,
        st.decode, st.alloc)
  }

  lemma FillingStart(st: St)
    ensures Filling(st, 0, [], [], st.alloc) && FillState(st, 0, [], st.alloc) == st
  {
    Ends(st.decode, []);
    Ends(st.deferredDecode, []);
    JoinFillStart(Decode, MAX_BATCH, st.decode, st.alloc);
  }

  lemma FillingStep(st: St, i: nat, b: seq<Req>, d: seq<Req>, a: Alloc)
    requires Filling(st, i, b, d, a) && i < |st.decode| && |b| < MAX_BATCH
    ensures var s := FillState(st, i, d, a);
            var t := Attempt(AdmitDecode, a, st.decode[i]);
            && s.decode != [] && s.decode[0] == st.decode[i] && s.alloc == a
            && (t.ok ==> Filling(st, i + 1, b + [t.req], d, t.alloc)
                         && s.(decode := s.decode[1..], alloc := t.alloc) == FillState(st, i + 1, d, t.alloc))
            && (!t.ok ==> Filling(st, i + 1, b, d + [t.req], t.alloc)
                          && s.(decode := s.decode[1..], alloc := t.alloc, deferredDecode := s.deferredDecode + [t.req])
                             == FillState(st, i + 1, d + [t.req], t.alloc))
  {
    hide Attempt, JoinFill, FillBatch;
    var t := Attempt(AdmitDecode, a, st.decode[i]);
    Shift(st.decode, i, []);
    EnterDecode(a, st.decode[i]);
    JoinFillStep(Decode, MAX_BATCH - |b|, b, d, st.decode[i..], a);
    Assoc(st.deferredDecode, d, t.req);
  }

  lemma FillingBounds(st: St, i: nat, b: seq<Req>, d: seq<Req>, a: Alloc)
    requires Filling(st, i, b, d, a)
    ensures i <= |st.decode| && |b| <= MAX_BATCH
  {}

  lemma FillingDone(st: St, i: nat, b: seq<Req>, d: seq<Req>, a: Alloc)
    requires Filling(st, i, b, d, a) && (i == |st.decode| || |b| == MAX_BATCH)
    ensures FillBatch(Decode, MAX_BATCH, st.decode, st.alloc) == Fill(b, d, st.decode[i..], a)
    ensures FillState(st, i, d, a) == st.(decode := st.decode[i..], deferredDecode := st.deferredDecode + d, alloc := a)
  {
    JoinFillEnds(Decode, b, d, MAX_BATCH - |b|, st.decode[i..], a);
  }

  function JoinCompleted(c: Completed, d: Completed): Completed {
    Completed(c.alive + d.alive, c.dead + d.dead, c.out + d.out)
  }

  /** One more request of a batch is complete. */
  function Snoc(c: Completed, r: Req, resp: Resp): Completed {
    if resp.finished then Completed(c.alive, c.dead + [r], c.out + [resp])
    else Completed(c.alive + [r], c.dead, c.out + [resp])
  }

  lemma JoinCompletedStep(kind: Kind, batch: seq<Req>, replies: seq<Resp>, i: nat, c: Completed)
    requires i < |batch|
    ensures var (r, resp) := Complete(kind, batch[i], ReplyAt(replies, i, batch[i]));
            JoinCompleted(c, CompleteFrom(kind, batch, replies, i))
            == JoinCompleted(Snoc(c, r, resp), CompleteFrom(kind, batch, replies, i + 1))
  {
    hide Complete, ReplyAt;
    var (r, resp) := Complete(kind, batch[i], ReplyAt(replies, i, batch[i]));
    var d := CompleteFrom(kind, batch, replies, i + 1);
    if resp.finished {
      assert c.dead + ([r] + d.dead) == c.dead + [r] + d.dead;
    } else {
      assert c.alive + ([r] + d.alive) == c.alive + [r] + d.alive;
    }
    assert c.out + ([resp] + d.out) == c.out + [resp] + d.out;
  }

  lemma JoinCompletedEnds(kind: Kind, batch: seq<Req>, replies: seq<Resp>, c: Completed)
    ensures JoinCompleted(c, CompleteFrom(kind, batch, replies, |batch|)) == c
    ensures JoinCompleted(Completed([], [], []), c) == c
  {
    assert c.alive + [] == c.alive && c.dead + [] == c.dead && c.out + [] == c.out;
  }

  lemma AssocOut(a: seq<Resp>, b: seq<Resp>, r: Resp)
    ensures a + b + [r] == a + (b + [r])
  {}

  /** The batches served so far, and what will become of the rest. */
  function JoinOutcome(o: Outcome, p: Outcome): Outcome {
    Outcome(o.alive + p.alive, o.dead + p.dead, o.deferred + p.deferred, o.out + p.out, p.alloc)
  }

  function AfterBatch(o: Outcome, f: Fill, c: Completed): Outcome {
    Outcome(o.alive + c.alive, o.dead + c.dead, o.deferred + f.deferred, o.out + c.out, f.alloc)
  }

  lemma JoinOutcomeStep(be: Backend, kind: Kind, w: nat, q: seq<Req>, a: Alloc, o: Outcome)
    requires q != [] && w > 0
    ensures var f := FillBatch(kind, w, q, a);
            JoinOutcome(o, RunBatches(be, kind, w, q, a))
            == JoinOutcome(AfterBatch(o, f, Serve(be, kind, f.batch)), RunBatches(be, kind, w, f.rest, f.alloc))
  {
    hide FillBatch, Serve;
    var f := FillBatch(kind, w, q, a);
    var c := Serve(be, kind, f.batch);
    var p := RunBatches(be, kind, w, f.rest, f.alloc);
    assert o.alive + (c.alive + p.alive) == o.alive + c.alive + p.alive;
    assert o.dead + (c.dead + p.dead) == o.dead + c.dead + p.dead;
    assert o.deferred + (f.deferred + p.deferred) == o.deferred + f.deferred + p.deferred;
    assert o.out + (c.out + p.out) == o.out + c.out + p.out;
  }

  lemma JoinOutcomeEnds(be: Backend, kind: Kind, w: nat, a: Alloc, o: Outcome, p: Outcome)
    requires w > 0
    ensures JoinOutcome(o, RunBatches(be, kind, w, [], a)) == o.(alloc := a)
    ensures JoinOutcome(Outcome([], [], [], [], a), p) == p
  {
    assert o.alive + [] == o.alive && o.dead + [] == o.dead && o.deferred + [] == o.deferred && o.out + [] == o.out;
  }

  lemma AssocBatch(q: seq<Resp>, st: St, o: Outcome, f: Fill, c: Completed)
    ensures st.deferredDecode + o.deferred + f.deferred == st.deferredDecode + (o.deferred + f.deferred)
    ensures st.finish + o.dead + c.dead == st.finish + (o.dead + c.dead)
    ensures st.decode + o.alive + c.alive == st.decode + (o.alive + c.alive)
    ensures q + o.out + c.out == q + (o.out + c.out)
  {}

  // ---- queues by name ----

  predicate IsQueue(h: Home) {
    h in {AtWaiting, AtPrefill, AtDecode, AtFinish, AtDeferredPrefill, AtDeferredDecode, AtSwapOut}
  }

  function At(st: St, h: Home): seq<Req>
    requires IsQueue(h)
  {
    match h
    case AtWaiting => st.waiting
    case AtPrefill => st.prefill
    case AtDecode => st.decode
    case AtFinish => st.finish
    case AtDeferredPrefill => st.deferredPrefill
    case AtDeferredDecode => st.deferredDecode
    case _ => st.swapOut
  }

  function With(st: St, h: Home, v: seq<Req>): St
    requires IsQueue(h)
  {
    match h
    case AtWaiting => st.(waiting := v)
    case AtPrefill => st.(prefill := v)
    case AtDecode => st.(decode := v)
    case AtFinish => st.(finish := v)
    case AtDeferredPrefill => st.(deferredPrefill := v)
    case AtDeferredDecode => st.(deferredDecode := v)
    case _ => st.(swapOut := v)
  }

  /** The front request of a queue has been tried at a gate and is now in one of two queues; a prefill that is let
      in after all goes to the front of it. */
  function FrontMoved(g: Gate, from: Home, yes: Home, no: Home, st: St): St
    requires IsQueue(from) && IsQueue(yes) && IsQueue(no) && At(st, from) != []
  {
    var t := Attempt(g, st.alloc, At(st, from)[0]);
    var s := With(st, from, At(st, from)[1..]).(alloc := t.alloc);
    var h := if t.ok then yes else no;
    With(s, h, if t.ok && g.RetryPrefill? then [t.req] + At(s, h) else At(s, h) + [t.req])
  }

  /** A pass over q: i requests tried, yes let in, no refused. */
  ghost predicate Sieving(g: Gate, q: seq<Req>, start: Alloc, i: nat, yes: seq<Req>, no: seq<Req>, a: Alloc) {
    i <= |q| && Merge(yes, no, Sieve(g, q[i..], a)) == Sieve(g, q, start)
  }

  lemma SievingStart(g: Gate, q: seq<Req>, a: Alloc)
    ensures Sieving(g, q, a, 0, [], [], a)
  {
    Ends(q, []);
    MergeStart(g, q, a);
  }

  lemma SievingStep(g: Gate, q: seq<Req>, start: Alloc, i: nat, yes: seq<Req>, no: seq<Req>, a: Alloc)
    requires Sieving(g, q, start, i, yes, no, a) && i < |q|
    ensures var t := Attempt(g, a, q[i]);
            if t.ok then Sieving(g, q, start, i + 1, yes + [t.req], no, t.alloc)
            else Sieving(g, q, start, i + 1, yes, no + [t.req], t.alloc)
  {
    hide Attempt, Merge, Sieve;
    Shift(q, i, []);
    MergeStep(g, yes, no, q[i..], a);
  }

  lemma SievingDone(g: Gate, q: seq<Req>, start: Alloc, yes: seq<Req>, no: seq<Req>, a: Alloc)
    requires Sieving(g, q, start, |q|, yes, no, a)
    ensures Sieve(g, q, start) == Sieved(yes, no, a)
  {
    MergeDone(g, yes, no, a);
  }

  function SwapState(st: St, i: nat, yes: seq<Req>, no: seq<Req>, a: Alloc): St
    requires i <= |st.swapOut|
  {
    st.(swapOut := st.swapOut[i..] + no, decode := st.decode + yes, alloc := a)
  }

  lemma SwapStart(st: St)
    ensures SwapState(st, 0, [], [], st.alloc) == st
  {
    Ends(st.swapOut, []);
    Ends(st.decode, []);
  }

  lemma SwapStep(st: St, i: nat, yes: seq<Req>, no: seq<Req>, a: Alloc)
    requires i < |st.swapOut|
    ensures var s := SwapState(st, i, yes, no, a);
            var t := Attempt(RetrySwapIn, a, st.swapOut[i]);
            && IsQueue(AtSwapOut) && IsQueue(AtDecode) && s.alloc == a
            && At(s, AtSwapOut) != [] && At(s, AtSwapOut)[0] == st.swapOut[i]
            && FrontMoved(RetrySwapIn, AtSwapOut, AtDecode, AtSwapOut, s)
               == SwapState(st, i + 1, if t.ok then yes + [t.req] else yes, if t.ok then no else no + [t.req], t.alloc)
  {
    hide Attempt;
    var t := Attempt(RetrySwapIn, a, st.swapOut[i]);
    Shift(st.swapOut, i, no);
    Assoc(st.decode, yes, t.req);
    Assoc(st.swapOut[i + 1..], no, t.req);
  }

  lemma SwapDone(st: St, yes: seq<Req>, no: seq<Req>, a: Alloc)
    requires Sieve(RetrySwapIn, st.swapOut, st.alloc) == Sieved(yes, no, a)
    ensures SwapState(st, |st.swapOut|, yes, no, a) == SchedulerModel.RetrySwapInRequests(st).st
    ensures SchedulerModel.RetrySwapInRequests(st).progress == (yes != [])
  {
    Ends(st.swapOut, no);
  }

  function RetryState(st: St, i: nat, yes: seq<Req>, no: seq<Req>, a: Alloc): St
    requires i <= |st.deferredPrefill|
  {
    st.(deferredPrefill := st.deferredPrefill[i..] + no, prefill := Reverse(yes) + st.prefill, alloc := a)
  }

  lemma RetryStart(st: St)
    ensures RetryState(st, 0, [], [], st.alloc) == st
  {
    Ends(st.deferredPrefill, []);
    EmptyReverse(st.prefill);
  }

  lemma RetryStep(st: St, i: nat, yes: seq<Req>, no: seq<Req>, a: Alloc)
    requires i < |st.deferredPrefill|
    ensures var s := RetryState(st, i, yes, no, a);
            var t := Attempt(RetryPrefill, a, st.deferredPrefill[i]);
            && IsQueue(AtDeferredPrefill) && IsQueue(AtPrefill) && s.alloc == a
            && At(s, AtDeferredPrefill) != [] && At(s, AtDeferredPrefill)[0] == st.deferredPrefill[i]
            && FrontMoved(RetryPrefill, AtDeferredPrefill, AtPrefill, AtDeferredPrefill, s)
               == RetryState(st, i + 1, if t.ok then yes + [t.req] else yes, if t.ok then no else no + [t.req], t.alloc)
  {
    hide Attempt, Reverse;
    var t := Attempt(RetryPrefill, a, st.deferredPrefill[i]);
    Shift(st.deferredPrefill, i, no);
    PushedInFront(yes, t.req, st.prefill);
    Assoc(st.deferredPrefill[i + 1..], no, t.req);
  }

  lemma RetryDone(st: St, yes: seq<Req>, no: seq<Req>, a: Alloc)
    requires Sieve(RetryPrefill, st.deferredPrefill, st.alloc) == Sieved(yes, no, a)
    ensures RetryState(st, |st.deferredPrefill|, yes, no, a) == SchedulerModel.RetryDeferredPrefill(st).st
    ensures SchedulerModel.RetryDeferredPrefill(st).progress == (yes != [])
  {
    Ends(st.deferredPrefill, no);
  }

  /** An admission pass: i requests let in, none refused yet. */
  ghost predicate Admitting(q: seq<Req>, start: Alloc, i: nat, yes: seq<Req>, a: Alloc) {
    i <= |q| && Ahead(yes, Admit(q[i..], a)) == Admit(q, start)
  }

  function AdmitState(st: St, i: nat, yes: seq<Req>, a: Alloc): St
    requires i <= |st.waiting|
  {
    st.(waiting := st.waiting[i..], prefill := st.prefill + yes, alloc := a)
  }

  lemma AdmitStart(st: St)
    ensures Admitting(st.waiting, st.alloc, 0, [], st.alloc) && AdmitState(st, 0, [], st.alloc) == st
  {
    Ends(st.waiting, []);
    Ends(st.prefill, []);
    AheadEnds([], st.waiting, st.alloc);
  }

  lemma AdmitStep(st: St, i: nat, yes: seq<Req>, a: Alloc)
    requires Admitting(st.waiting, st.alloc, i, yes, a) && i < |st.waiting|
    ensures var s := AdmitState(st, i, yes, a);
            var t := Attempt(AdmitPrefill, a, st.waiting[i]);
            var s' := FrontMoved(AdmitPrefill, AtWaiting, AtPrefill, AtDeferredPrefill, s);
            && s.alloc == a && At(s, AtWaiting) != [] && At(s, AtWaiting)[0] == st.waiting[i]
            && (t.ok ==> Admitting(st.waiting, st.alloc, i + 1, yes + [t.req], t.alloc)
                         && s' == AdmitState(st, i + 1, yes + [t.req], t.alloc))
            && (!t.ok ==> SchedulerModel.AdmitWaitingPrefill(st) == Phase(s', [], yes != []))
  {
    hide Attempt, Admit, Ahead;
    var t := Attempt(AdmitPrefill, a, st.waiting[i]);
    Shift(st.waiting, i, []);
    AheadStep(yes, st.waiting[i..], a);
    Assoc(st.prefill, yes, t.req);
  }

  lemma AdmitDone(st: St, yes: seq<Req>, a: Alloc)
    requires Admitting(st.waiting, st.alloc, |st.waiting|, yes, a)
    ensures SchedulerModel.AdmitWaitingPrefill(st) == Phase(AdmitState(st, |st.waiting|, yes, a), [], yes != [])
  {
    Ends(st.deferredPrefill, []);
    Ends(st.waiting, []);
    AheadEnds(yes, [], a);
  }

  /** A prefill batch being filled from the queue: the first requests, b, are in. */
  ghost predicate Gathering(st: St, b: seq<Req>) {
    && |b| <= |st.prefill| && |b| <= MAX_BATCH
    && JoinFill(b, [], FillBatch(Prefill, MAX_BATCH - |b|, st.prefill[|b|..], st.alloc))
       == FillBatch(Prefill, MAX_BATCH, st.prefill, st.alloc)
  }

  function GatherState(st: St, k: nat): St
    requires k <= |st.prefill|
  {
    st.(prefill := st.prefill[k..])
  }

  lemma GatherStart(st: St)
    ensures Gathering(st, []) && GatherState(st, 0) == st
  {
    Ends(st.prefill, []);
    JoinFillStart(Prefill, MAX_BATCH, st.prefill, st.alloc);
  }

  lemma GatherStep(st: St, b: seq<Req>)
    requires Gathering(st, b) && |b| < |st.prefill| && |b| < MAX_BATCH
    ensures var s := GatherState(st, |b|);
            && s.prefill != [] && s.prefill[0] == st.prefill[|b|]
            && Gathering(st, b + [st.prefill[|b|].(state := PrefillRunning)])
            && s.(prefill := s.prefill[1..]) == GatherState(st, |b| + 1)
  {
    hide JoinFill, FillBatch;
    Shift(st.prefill, |b|, []);
    JoinFillStep(Prefill, MAX_BATCH - |b|, b, [], st.prefill[|b|..], st.alloc);
  }

  lemma GatherBounds(st: St, b: seq<Req>)
    requires Gathering(st, b)
    ensures |b| <= |st.prefill| && |b| <= MAX_BATCH && |GatherState(st, |b|).prefill| == |st.prefill| - |b|
  {}

  lemma GatherDone(st: St, b: seq<Req>)
    requires Gathering(st, b) && (|b| == |st.prefill| || |b| == MAX_BATCH)
    ensures FillBatch(Prefill, MAX_BATCH, st.prefill, st.alloc) == Fill(b, [], st.prefill[|b|..], st.alloc)
    ensures GatherState(st, |b|) == st.(prefill := st.prefill[|b|..])
  {
    JoinFillEnds(Prefill, b, [], MAX_BATCH - |b|, st.prefill[|b|..], st.alloc);
  }

  lemma Ats(st: St)
    ensures IsQueue(AtWaiting) && IsQueue(AtDeferredPrefill) && IsQueue(AtSwapOut)
    ensures At(st, AtWaiting) == st.waiting && At(st, AtDeferredPrefill) == st.deferredPrefill
    ensures At(st, AtSwapOut) == st.swapOut
  {}

  class Scheduler {
    const requests: MutexQueue<Request>
    const responses: MutexQueue<Resp>
    const backend: Backend
    const allocator: KvAllocator
    const hasAsync: bool
    var signalled: bool

    const waiting: Deque
    const prefill: Deque
    const decode: Deque
    const finish: Deque
    const deferredPrefill: Deque
    const deferredDecode: Deque
    const swapOut: Deque
    var paused: bool
    var running: bool

    /** Every request that may be changed here. */
    ghost var owned: set<Request>

    ghost function Queue(h: Home): Deque
      requires IsQueue(h)
    {
      match h
      case AtWaiting => waiting
      case AtPrefill => prefill
      case AtDecode => decode
      case AtFinish => finish
      case AtDeferredPrefill => deferredPrefill
      case AtDeferredDecode => deferredDecode
      case _ => swapOut
    }

    ghost function Queues(): set<object> {
      {waiting, prefill, decode, finish, deferredPrefill, deferredDecode, swapOut}
    }

    /** One queue holds something else and the rest is as it was. */
    lemma Changed(st: St, h: Home, v: seq<Req>)
      requires IsQueue(h) && Named() && Queue(h).Holds(v, owned)
      requires forall g | IsQueue(g) && g != h :: Queue(g).Holds(At(st, g), owned)
      requires paused == st.paused && running == st.running && allocator.Val() == st.alloc
      ensures Is(With(st, h, v))
    {
      hide Deque.Holds;
    }

    /** Every queue has its name, so they are different objects. */
    ghost predicate Named() {
      && (forall h | IsQueue(h) :: Queue(h).home == h)
      && (requests as object) != responses
    }

    /** The queues hold what st says, and no request is in two of them. */
    ghost predicate Is(st: St)
      reads this, allocator, Queues(), waiting.items, prefill.items, decode.items, finish.items,
            deferredPrefill.items, deferredDecode.items, swapOut.items
    {
      && Named()
      && (forall h | IsQueue(h) :: Queue(h).Holds(At(st, h), owned))
      && paused == st.paused && running == st.running && allocator.Val() == st.alloc
    }

    constructor (requests: MutexQueue<Request>, responses: MutexQueue<Resp>, hasAsync: bool, backend: Backend,
                 allocator: KvAllocator)
      requires (requests as object) != responses
      ensures Is(St([], [], [], [], [], [], [], false, false, allocator.Val()))
      ensures this.requests == requests && this.responses == responses && this.backend == backend
      ensures this.allocator == allocator && this.hasAsync == hasAsync && !signalled
      ensures fresh(waiting) && fresh(prefill) && fresh(decode) && fresh(finish) && fresh(deferredPrefill)
      ensures fresh(deferredDecode) && fresh(swapOut) && owned == {}
    {
      hide Deque.Holds, Scheduler.Is, Scheduler.Named, Scheduler.Queue, IsQueue, Deque.IsNew;
      this.requests, this.responses, this.backend, this.allocator, this.hasAsync :=
        requests, responses, backend, allocator, hasAsync;
      waiting := new Deque(AtWaiting);
      prefill := new Deque(AtPrefill);
      decode := new Deque(AtDecode);
      finish := new Deque(AtFinish);
      deferredPrefill := new Deque(AtDeferredPrefill);
      deferredDecode := new Deque(AtDeferredDecode);
      swapOut := new Deque(AtSwapOut);
      paused, running, signalled := false, false, false;
      owned := {};
      new;
      Initially();
    }

    lemma Initially()
      requires (requests as object) != responses && !paused && !running
      requires waiting.IsNew(AtWaiting) && prefill.IsNew(AtPrefill) && decode.IsNew(AtDecode) && finish.IsNew(AtFinish)
      requires deferredPrefill.IsNew(AtDeferredPrefill) && deferredDecode.IsNew(AtDeferredDecode)
      requires swapOut.IsNew(AtSwapOut)
      ensures Is(St([], [], [], [], [], [], [], false, false, allocator.Val()))
    {
      hide Deque.Holds;
      forall h | IsQueue(h)
        ensures Queue(h).Holds([], owned)
      {
        Queue(h).Empty(owned);
      }
    }

    method Start(ghost st: St)
      requires Is(st)
      modifies this`running
      ensures Is(st.(running := true))
    {
      hide Deque.Holds;
      running := true;
    }

    /** Asks the worker to end; it does so at the head of its loop. */
    method Stop(ghost st: St)
      requires Is(st)
      modifies this`running, requests
      ensures Is(st.(running := false)) && requests.closed && requests.queue == old(requests.queue)
    {
      hide Deque.Holds;
      running := false;
      requests.Close();
    }

    /** A request is in no queue but the one it is at home in. */
    lemma Elsewhere(st: St, r: Request)
      requires Is(st)
      ensures forall h, i | IsQueue(h) && h != r.home && 0 <= i < |Queue(h).items| :: Queue(h).items[i] != r
    {
      hide Deque.Holds;
      forall h | IsQueue(h) && h != r.home
        ensures forall i | 0 <= i < |Queue(h).items| :: Queue(h).items[i] != r
      {
        Queue(h).Absent(At(st, h), owned, r);
      }
    }

    lemma Names(st: St)
      requires Is(st)
      ensures waiting.home == AtWaiting && prefill.home == AtPrefill && decode.home == AtDecode
          && finish.home == AtFinish
      ensures deferredPrefill.home == AtDeferredPrefill && deferredDecode.home == AtDeferredDecode
      ensures swapOut.home == AtSwapOut && (requests as object) != responses
      ensures IsQueue(AtWaiting) && IsQueue(AtPrefill) && IsQueue(AtDecode) && IsQueue(AtFinish)
      ensures IsQueue(AtDeferredPrefill) && IsQueue(AtDeferredDecode) && IsQueue(AtSwapOut)
      ensures !IsQueue(InBatch) && !IsQueue(AtNext)
      ensures Queue(AtWaiting) == waiting && Queue(AtPrefill) == prefill && Queue(AtDecode) == decode
      ensures Queue(AtFinish) == finish && Queue(AtDeferredPrefill) == deferredPrefill
      ensures Queue(AtDeferredDecode) == deferredDecode && Queue(AtSwapOut) == swapOut
    {
      hide Deque.Holds;
      assert forall h | IsQueue(h) :: Queue(h).home == h;
      assert Queue(AtWaiting).home == AtWaiting && Queue(AtPrefill).home == AtPrefill
          && Queue(AtDecode).home == AtDecode;
      assert Queue(AtFinish).home == AtFinish && Queue(AtDeferredPrefill).home == AtDeferredPrefill;
      assert Queue(AtDeferredDecode).home == AtDeferredDecode && Queue(AtSwapOut).home == AtSwapOut;
    }

    lemma QueueSize(h: Home, st: St)
      requires Is(st) && IsQueue(h)
      ensures Queue(h).home == h && |At(st, h)| == |Queue(h).items| && allocator.Val() == st.alloc
      ensures forall i | 0 <= i < |Queue(h).items| :: Queue(h).items[i] in owned && Queue(h).items[i].home == h
    {
      hide Deque.Holds;
      Queue(h).Size(At(st, h), owned);
    }

    lemma QueueVals(h: Home, st: St)
      requires Is(st) && IsQueue(h)
      ensures |At(st, h)| == |Queue(h).items|
      ensures forall i | 0 <= i < |Queue(h).items| :: Queue(h).items[i].Val() == At(st, h)[i]
    {
      hide Deque.Holds;
      Queue(h).Size(At(st, h), owned);
    }

    method TakeFront(d: Deque, ghost st: St) returns (req: Request)
      requires Is(st) && IsQueue(d.home) && d == Queue(d.home) && At(st, d.home) != []
      modifies d`items, (var r: Request := d.items[0]; r)`home
      ensures req == old(d.items[0]) && req in owned && req.home == InHand && req.Val() == At(st, d.home)[0]
      ensures Is(With(st, d.home, At(st, d.home)[1..]))
    {
      hide Deque.Holds, At, With;
      d.Size(At(st, d.home), owned);
      Elsewhere(st, d.items[0]);
      req := d.PopFront(At(st, d.home), owned);
      Changed(st, d.home, At(st, d.home)[1..]);
    }

    method Put(d: Deque, req: Request, ghost st: St)
      requires Is(st) && IsQueue(d.home) && d == Queue(d.home) && req.home == InHand && req in owned
      modifies d`items, req`home
      ensures req.home == d.home
      ensures Is(With(st, d.home, At(st, d.home) + [req.Val()]))
    {
      hide Deque.Holds;
      Elsewhere(st, req);
      d.PushBack(req, At(st, d.home), owned);
    }

    /** The allocator call of a gate and the state the request is in afterwards. */
    method Ask(g: Gate, req: Request) returns (ok: bool)
      modifies allocator, req`kv, req`residency, req`state
      ensures Try(ok, req.Val(), allocator.Val()) == Attempt(g, old(allocator.Val()), old(req.Val()))
    {
      match g {
        case AdmitPrefill =>
          ok := allocator.AllocatePrefill(req);
          req.state := if ok then PrefillRunning else DeferredPrefillKV;
        case RetryPrefill =>
          ok := allocator.AllocatePrefill(req);
          if ok { req.state := PrefillRunning; }
        case AdmitDecode =>
          ok := allocator.AllocateDecode(req);
          req.state := if ok then DecodeRunning else DeferredDecodeKV;
        case RetrySwapIn =>
          ok := allocator.SwapIn(req);
          req.state := if ok then DecodeReady else SwappedOut;
      }
    }

    method TryGate(g: Gate, req: Request, ghost st: St) returns (ok: bool)
      requires Is(st) && req.home == InHand
      modifies allocator, req`kv, req`residency, req`state
      ensures Try(ok, req.Val(), allocator.Val()) == Attempt(g, st.alloc, old(req.Val()))
      ensures Is(st.(alloc := allocator.Val()))
    {
      hide Deque.Holds, Attempt;
      Elsewhere(st, req);
      ok := Ask(g, req);
    }

    /** Takes the front request of a queue and tries the allocator for it. */
    method TryFront(g: Gate, d: Deque, ghost st: St) returns (ok: bool, req: Request)
      requires Is(st) && IsQueue(d.home) && d == Queue(d.home) && At(st, d.home) != []
      modifies d`items, allocator, (var r: Request := d.items[0]; r)
      ensures req == old(d.items[0]) && req in owned && req.home == InHand
      ensures Try(ok, req.Val(), allocator.Val()) == Attempt(g, st.alloc, At(st, d.home)[0])
      ensures Is(With(st, d.home, At(st, d.home)[1..]).(alloc := allocator.Val()))
    {
      hide Scheduler.Is, Attempt, Deque.Holds, Scheduler.Named;
      req := TakeFront(d, st);
      ok := TryGate(g, req, With(st, d.home, At(st, d.home)[1..]));
    }

    method PutFront(d: Deque, req: Request, ghost st: St)
      requires Is(st) && IsQueue(d.home) && d == Queue(d.home) && req.home == InHand && req in owned
      modifies d`items, req`home
      ensures req.home == d.home
      ensures Is(With(st, d.home, [req.Val()] + At(st, d.home)))
    {
      hide Deque.Holds;
      Elsewhere(st, req);
      d.PushFront(req, At(st, d.home), owned);
    }

    /** Tries the front request of a queue at a gate and puts it where it then belongs. */
    method MoveFront(g: Gate, from: Deque, yes: Deque, no: Deque, ghost st: St) returns (ok: bool)
      requires Is(st) && IsQueue(from.home) && from == Queue(from.home) && At(st, from.home) != []
      requires IsQueue(yes.home) && yes == Queue(yes.home) && IsQueue(no.home) && no == Queue(no.home)
      modifies from`items, yes`items, no`items, allocator, owned
      ensures ok == Attempt(g, st.alloc, At(st, from.home)[0]).ok && Is(FrontMoved(g, from.home, yes.home, no.home, st))
    {
      hide Scheduler.Is, Attempt, Deque.Holds, Scheduler.Named, Scheduler.Queue, IsQueue, At, With;
      QueueSize(from.home, st);
      var req;
      ok, req := TryFront(g, from, st);
      ghost var cur := With(st, from.home, At(st, from.home)[1..]).(alloc := allocator.Val());
      if !ok {
        Put(no, req, cur);
      } else if g == RetryPrefill {
        PutFront(yes, req, cur);
      } else {
        Put(yes, req, cur);
      }
    }

    method RetrySwapInRequests(ghost st: St) returns (progress: bool)
      requires Is(st)
      modifies swapOut, decode, allocator, owned
      ensures var p := SchedulerModel.RetrySwapInRequests(st); Is(p.st) && progress == p.progress
    {
      hide Scheduler.Is, Scheduler.Queue, IsQueue, Attempt, Sieve, Sieving, FrontMoved, Deque.Holds, Scheduler.Named,
           At, SwapState, SchedulerModel.RetrySwapInRequests;
      Names(st);
      Ats(st);
      QueueSize(AtSwapOut, st);
      ghost var yes, no: seq<Req>, a := [], [], st.alloc;
      SwapStart(st);
      SievingStart(RetrySwapIn, st.swapOut, st.alloc);
      progress := false;
      for i := 0 to |swapOut.items|
        invariant |st.swapOut| == |old(swapOut.items)| && progress == (yes != [])
        invariant Sieving(RetrySwapIn, st.swapOut, st.alloc, i, yes, no, a) && Is(SwapState(st, i, yes, no, a))
      {
        SwapStep(st, i, yes, no, a);
        SievingStep(RetrySwapIn, st.swapOut, st.alloc, i, yes, no, a);
        ghost var t := Attempt(RetrySwapIn, a, st.swapOut[i]);
        var ok := MoveFront(RetrySwapIn, swapOut, decode, swapOut, SwapState(st, i, yes, no, a));
        yes, no, a := if t.ok then yes + [t.req] else yes, if t.ok then no else no + [t.req], t.alloc;
        if ok {
          progress := true;
        }
      }
      SievingDone(RetrySwapIn, st.swapOut, st.alloc, yes, no, a);
      SwapDone(st, yes, no, a);
    }

    /** Gives a request in hand its new state. */
    method Mark(req: Request, state: RequestState, ghost st: St)
      requires Is(st) && req.home == InHand
      modifies req`state
      ensures req.state == state && Is(st)
    {
      hide Deque.Holds;
      Elsewhere(st, req);
      req.state := state;
    }

    method RetryDeferredPrefill(ghost st: St) returns (progress: bool)
      requires Is(st)
      modifies deferredPrefill, prefill, allocator, owned
      ensures var p := SchedulerModel.RetryDeferredPrefill(st); Is(p.st) && progress == p.progress
    {
      hide Scheduler.Is, Scheduler.Queue, IsQueue, Attempt, Sieve, Sieving, FrontMoved, Deque.Holds, Scheduler.Named,
           At, RetryState, SchedulerModel.RetryDeferredPrefill;
      Names(st);
      Ats(st);
      QueueSize(AtDeferredPrefill, st);
      ghost var q, yes, no: seq<Req>, a := st.deferredPrefill, [], [], st.alloc;
      RetryStart(st);
      SievingStart(RetryPrefill, q, st.alloc);
      progress := false;
      for i := 0 to |deferredPrefill.items|
        invariant |q| == |old(deferredPrefill.items)| && progress == (yes != [])
        invariant Sieving(RetryPrefill, q, st.alloc, i, yes, no, a) && Is(RetryState(st, i, yes, no, a))
      {
        RetryStep(st, i, yes, no, a);
        SievingStep(RetryPrefill, q, st.alloc, i, yes, no, a);
        ghost var t := Attempt(RetryPrefill, a, q[i]);
        var ok := MoveFront(RetryPrefill, deferredPrefill, prefill, deferredPrefill, RetryState(st, i, yes, no, a));
        yes, no, a := if t.ok then yes + [t.req] else yes, if t.ok then no else no + [t.req], t.alloc;
        if ok {
          progress := true;
        }
      }
      SievingDone(RetryPrefill, q, st.alloc, yes, no, a);
      RetryDone(st, yes, no, a);
    }

    method AdmitWaitingPrefill(ghost st: St) returns (progress: bool)
      requires Is(st)
      modifies waiting, prefill, deferredPrefill, allocator, owned
      ensures var p := SchedulerModel.AdmitWaitingPrefill(st); Is(p.st) && progress == p.progress
    {
      hide Scheduler.Is, Scheduler.Queue, IsQueue, Attempt, Admit, Admitting, FrontMoved, Deque.Holds, Scheduler.Named,
           At, AdmitState, SchedulerModel.AdmitWaitingPrefill;
      Names(st);
      Ats(st);
      QueueSize(AtWaiting, st);
      ghost var yes: seq<Req>, a := [], st.alloc;
      AdmitStart(st);
      progress := false;
      for i := 0 to |waiting.items|
        invariant |st.waiting| == |old(waiting.items)| && progress == (yes != [])
        invariant Admitting(st.waiting, st.alloc, i, yes, a) && Is(AdmitState(st, i, yes, a))
      {
        AdmitStep(st, i, yes, a);
        ghost var t := Attempt(AdmitPrefill, a, st.waiting[i]);
        var ok := MoveFront(AdmitPrefill, waiting, prefill, deferredPrefill, AdmitState(st, i, yes, a));
        if !ok {
          return;
        }
        yes, a := yes + [t.req], t.alloc;
        progress := true;
      }
      AdmitDone(st, yes, a);
    }

    /** The front deferred decode goes back to the decode queue. */
    method ReadyFront(ghost st: St)
      requires Is(st) && st.deferredDecode != []
      modifies deferredDecode, decode, owned
      ensures Is(st.(deferredDecode := st.deferredDecode[1..],
                     decode := st.decode + [st.deferredDecode[0].(state := DecodeReady)]))
    {
      hide Scheduler.Is, Scheduler.Queue, IsQueue, Deque.Holds, Scheduler.Named;
      Names(st);
      QueueSize(AtDeferredDecode, st);
      var req := TakeFront(deferredDecode, st);
      ghost var cur := st.(deferredDecode := st.deferredDecode[1..]);
      Mark(req, DecodeReady, cur);
      Put(decode, req, cur);
    }

    method RetryDeferredDecode(ghost st: St) returns (progress: bool)
      requires Is(st)
      modifies deferredDecode, decode, owned
      ensures var p := SchedulerModel.RetryDeferredDecode(st); Is(p.st) && progress == p.progress
    {
      hide Scheduler.Is, Scheduler.Queue, IsQueue, Deque.Holds, Scheduler.Named, Readied;
      ghost var v := st.deferredDecode;
      Names(st);
      QueueSize(AtDeferredDecode, st);
      EmptyReadied(v, st.decode);
      for i := 0 to |deferredDecode.items|
        invariant |v| == |old(deferredDecode.items)|
        invariant Is(st.(deferredDecode := v[i..], decode := st.decode + Readied(v[..i])))
      {
        Shift(v, i, []);
        ReadiedStep(v, i);
        Assoc(st.decode, Readied(v[..i]), v[i].(state := DecodeReady));
        ReadyFront(st.(deferredDecode := v[i..], decode := st.decode + Readied(v[..i])));
      }
      return false;
    }

    // ---- arrivals ----

    /** The locked queue holds new requests with the values v; nobody else has them yet. */
    ghost predicate Inbox(v: seq<Req>)
      reads this, requests, requests.queue
    {
      && |v| == |requests.queue|
      && (forall i :: 0 <= i < |v| ==> requests.queue[i].home == InHand && requests.queue[i].Val() == v[i]
                                       && requests.queue[i] !in owned)
      && (forall i, j :: 0 <= i < j < |v| ==> requests.queue[i] != requests.queue[j])
    }

    lemma Widen(st: St, more: set<Request>)
      requires Is(st)
      ensures forall h | IsQueue(h) :: Queue(h).Holds(At(st, h), owned + more)
    {
      hide Deque.Holds;
      forall h | IsQueue(h)
        ensures Queue(h).Holds(At(st, h), owned + more)
      {
        Queue(h).Widen(At(st, h), owned, owned + more);
      }
    }

    lemma InboxSize(v: seq<Req>)
      requires Inbox(v)
      ensures |v| == |requests.queue|
    {}

    /** Takes over a request that has just left the locked queue. */
    method Enqueue(req: Request, ghost st: St, ghost rest: seq<Req>)
      requires Is(st) && Inbox(rest) && req.home == InHand && req !in owned && req !in requests.queue
      modifies this`owned, waiting, req`home
      ensures Is(st.(waiting := st.waiting + [req.Val()])) && Inbox(rest) && owned == old(owned) + {req}
    {
      hide Scheduler.Is, Scheduler.Queue, IsQueue, Deque.Holds, Scheduler.Named;
      Own(req, st);
      Names(st);
      Put(waiting, req, st);
    }

    ghost method Own(req: Request, st: St)
      requires Is(st)
      modifies this`owned
      ensures Is(st) && owned == old(owned) + {req}
    {
      hide Deque.Holds;
      Widen(st, {req});
      owned := owned + {req};
    }

    /** Moves one request from the locked queue to the waiting queue. */
    method PopArrival(ghost st: St, ghost inbox: seq<Req>) returns (ok: bool)
      requires Is(st) && Inbox(inbox)
      modifies requests, this`owned, waiting, requests.queue
      ensures ok == (inbox != []) && requests.closed == old(requests.closed)
      ensures !ok ==> Is(st) && Inbox(inbox) && owned == old(owned) && requests.queue == old(requests.queue)
      ensures ok ==> Is(st.(waiting := st.waiting + [inbox[0]])) && Inbox(inbox[1..])
      ensures ok ==> requests.queue == old(requests.queue)[1..] && owned == old(owned) + {old(requests.queue)[0]}
    {
      hide Deque.Holds;
      var item: seq<Request>;
      ok, item := requests.TryPop();
      if ok {
        assert item == [old(requests.queue)[0]] && requests.queue == old(requests.queue)[1..];
        assert Inbox(inbox[1..]);
        Enqueue(item[0], st, inbox[1..]);
      }
    }

    method DrainNewRequests(ghost st: St, ghost inbox: seq<Req>)
      requires Is(st) && Inbox(inbox)
      modifies requests, this`owned, waiting, requests.queue
      ensures var n := if |inbox| < 16 then |inbox| else 16;
              Is(st.(waiting := st.waiting + inbox[..n])) && Inbox(inbox[n..])
      ensures requests.closed == old(requests.closed)
      ensures forall r | r in owned :: r in old(owned) || r in old(requests.queue)
    {
      hide Scheduler.Is, Deque.Holds, Scheduler.Named, Scheduler.Inbox;
      var nums := 0;
      assert |inbox| == |requests.queue| by { InboxSize(inbox); }
      Ends(inbox, []);
      Ends(st.waiting, []);
      while nums < MAX_BATCH
        invariant nums <= MAX_BATCH && nums <= |inbox| == |old(requests.queue)|
        invariant Is(st.(waiting := st.waiting + inbox[..nums])) && Inbox(inbox[nums..])
        invariant requests.closed == old(requests.closed)
        invariant requests.queue == old(requests.queue)[nums..]
        invariant forall r | r in owned :: r in old(owned) || r in old(requests.queue)
      {
        var ok := PopArrival(st.(waiting := st.waiting + inbox[..nums]), inbox[nums..]);
        if !ok {
          break;
        }
        Shift(inbox, nums, []);
        Assoc(st.waiting, inbox[..nums], inbox[nums]);
        assert inbox[..nums + 1] == inbox[..nums] + [inbox[nums]];
        nums := nums + 1;
      }
    }

    // ---- batches ----

    method NewAside(home: Home, ghost st: St) returns (d: Deque)
      requires Is(st) && home != InHand && !IsQueue(home)
      ensures fresh(d) && d.home == home && d.items == [] && d.Holds([], owned) && Is(st)
    {
      hide Deque.Holds;
      d := new Deque(home);
      d.Empty(owned);
    }

    /** Into a container that is not one of the queues. */
    method PutAside(d: Deque, req: Request, ghost v: seq<Req>, ghost st: St)
      requires Is(st) && !IsQueue(d.home) && d.Holds(v, owned) && req.home == InHand && req in owned
      modifies d`items, req`home
      ensures req.home == d.home && d.Holds(v + [req.Val()], owned) && Is(st)
    {
      hide Deque.Holds;
      Elsewhere(st, req);
      d.PushBack(req, v, owned);
    }

    method TakeAside(d: Deque, ghost v: seq<Req>, ghost st: St) returns (req: Request)
      requires Is(st) && !IsQueue(d.home) && d.Holds(v, owned) && v != []
      modifies d`items, (var r: Request := d.items[0]; r)`home
      ensures req == old(d.items[0]) && req in owned && req.home == InHand && req.Val() == v[0]
      ensures d.Holds(v[1..], owned) && Is(st)
    {
      hide Deque.Holds;
      d.Size(v, owned);
      Elsewhere(st, d.items[0]);
      req := d.PopFront(v, owned);
    }

    /** The front of the decode queue gets its block and joins the batch, or is deferred. */
    method TryIntoBatch(batch: Deque, next: Deque, ghost b: seq<Req>, ghost nv: seq<Req>, ghost st: St)
      requires Is(st) && st.decode != []
      requires batch.home == InBatch && batch.Holds(b, owned) && next.home == AtNext && next.Holds(nv, owned)
      modifies decode, deferredDecode, allocator, batch, owned
      ensures var t := Attempt(AdmitDecode, st.alloc, st.decode[0]);
              && next.Holds(nv, owned) && batch.Holds(if t.ok then b + [t.req] else b, owned)
              && Is(st.(decode := st.decode[1..], alloc := t.alloc,
                        deferredDecode := if t.ok then st.deferredDecode else st.deferredDecode + [t.req]))
    {
      hide Scheduler.Is, Scheduler.Queue, IsQueue, Attempt, Deque.Holds, Scheduler.Named, At, With;
      DecodeSize(st);
      batch.Absent(b, owned, decode.items[0]);
      next.Absent(nv, owned, decode.items[0]);
      var ok, req := TryFront(AdmitDecode, decode, st);
      BatchOrDefer(ok, batch, req, b, st.(decode := st.decode[1..], alloc := allocator.Val()));
    }

    lemma DecodeSize(st: St)
      requires Is(st)
      ensures IsQueue(AtDecode) && At(st, AtDecode) == st.decode && |decode.items| == |st.decode|
      ensures Queue(AtDecode) == decode && decode.home == AtDecode && deferredDecode.home == AtDeferredDecode
      ensures forall i | 0 <= i < |decode.items| :: decode.items[i] in owned && decode.items[i].home == AtDecode
      ensures st.decode != [] ==> With(st, AtDecode, st.decode[1..]) == st.(decode := st.decode[1..])
    {
      hide Deque.Holds, Scheduler.Is;
      Names(st);
      QueueSize(AtDecode, st);
    }

    method BatchOrDefer(ok: bool, batch: Deque, req: Request, ghost b: seq<Req>, ghost st: St)
      requires Is(st) && batch.home == InBatch && batch.Holds(b, owned) && req.home == InHand && req in owned
      modifies deferredDecode`items, batch`items, req`home
      ensures batch.Holds(if ok then b + [req.Val()] else b, owned)
      ensures Is(if ok then st else st.(deferredDecode := st.deferredDecode + [req.Val()]))
    {
      hide Scheduler.Is, Scheduler.Queue, IsQueue, Deque.Holds, Scheduler.Named;
      Names(st);
      batch.Absent(b, owned, req);
      if ok {
        PutAside(batch, req, b, st);
      } else {
        Put(deferredDecode, req, st);
      }
    }

    /** Fills a batch from the decode queue; what gets no block is deferred. */
    method FillDecodeBatch(remaining: nat, next: Deque, ghost nv: seq<Req>, ghost st: St) returns (batch: Deque,
        left: nat)
      requires Is(st) && remaining == |st.decode| && next.home == AtNext && next.Holds(nv, owned)
      modifies decode, deferredDecode, allocator, owned
      ensures fresh(batch) && batch.home == InBatch && next.Holds(nv, owned)
      ensures var f := FillBatch(Decode, MAX_BATCH, st.decode, st.alloc);
              && batch.Holds(f.batch, owned) && left == |f.rest|
              && Is(st.(decode := f.rest, deferredDecode := st.deferredDecode + f.deferred, alloc := f.alloc))
    {
      batch := NewAside(InBatch, st);
      hide *;
      ghost var i: nat, b: seq<Req>, d: seq<Req>, a := 0, [], [], st.alloc;
      FillingStart(st);
      left := remaining;
      while left > 0 && |batch.items| < MAX_BATCH
        invariant Filling(st, i, b, d, a) && i <= |st.decode| && left == |st.decode| - i
            && |batch.items| == |b| <= MAX_BATCH
        invariant Is(FillState(st, i, d, a)) && batch.Holds(b, owned) && next.Holds(nv, owned)
        decreases left
      {
        FillingStep(st, i, b, d, a);
        ghost var t := Attempt(AdmitDecode, a, st.decode[i]);
        TryIntoBatch(batch, next, b, nv, FillState(st, i, d, a));
        b, d := if t.ok then b + [t.req] else b, if t.ok then d else d + [t.req];
        left, i, a := left - 1, i + 1, t.alloc;
        FillingBounds(st, i, b, d, a);
        batch.Size(b, owned);
      }
      FillingDone(st, i, b, d, a);
    }

    /** Gives a request its new token: the cache grows, and a finished request gives its blocks back. */
    method Update(kind: Kind, req: Request, reply: Resp) returns (resp: Resp)
      modifies req`kv, req`tokens, req`state, req`residency
      ensures (req.Val(), resp) == Complete(kind, old(req.Val()), reply)
    {
      resp := reply;
      if kind == Decode {
        req.IncrementTokens();
      } else {
        req.SetNumTokens(req.promptLen);
      }
      req.tokens := req.tokens + [resp.token];
      if req.Val().IsFinish() {
        resp := resp.(finished := true);
      }
      if resp.finished {
        allocator.FreeRequest(req);
        req.state := Finished;
      } else {
        req.state := DecodeReady;
      }
      assert req.kv == Complete(kind, old(req.Val()), reply).0.kv;
    }

    method Send(kind: Kind, req: Request, reply: Resp, ghost st: St) returns (resp: Resp)
      requires Is(st) && req.home == InHand
      modifies req`kv, req`tokens, req`state, req`residency, responses
      ensures (req.Val(), resp) == Complete(kind, old(req.Val()), reply) && Is(st)
      ensures responses.queue == old(responses.queue) + [resp] && responses.closed == old(responses.closed)
    {
      hide Deque.Holds, Complete;
      Elsewhere(st, req);
      resp := Update(kind, req, reply);
      responses.Push(resp);
    }

    /** Takes the next request of a batch, gives it reply number i and sends the response. */
    method CompleteNext(kind: Kind, batch: Deque, replies: seq<Resp>, i: nat, ghost bv: seq<Req>, ghost st: St)
        returns (req: Request, finished: bool)
      requires Is(st) && batch.home == InBatch && batch.Holds(bv, owned) && bv != []
      modifies batch`items, responses, finish, (var r: Request := batch.items[0]; r)
      ensures var (r, resp) := Complete(kind, bv[0], ReplyAt(replies, i, bv[0]));
              && req == old(batch.items[0]) && req.Val() == r && req in owned && finished == resp.finished
              && responses.queue == old(responses.queue) + [resp] && responses.closed == old(responses.closed)
              && req.home == (if finished then AtFinish else InHand)
              && Is(if finished then st.(finish := st.finish + [r]) else st)
      ensures batch.Holds(bv[1..], owned)
    {
      hide Deque.Holds, Complete, Scheduler.Is, Scheduler.Named;
      Names(st);
      req := TakeAside(batch, bv, st);
      batch.Absent(bv[1..], owned, req);
      var resp := Send(kind, req, if i < |replies| then replies[i] else Resp(req.id, -1, true), st);
      finished := resp.finished;
      if finished {
        Put(finish, req, st);
      }
    }

    /** Completes one request of a decode batch; a survivor waits in `next`. */
    method CompleteIntoNext(batch: Deque, next: Deque, replies: seq<Resp>, i: nat,
                            ghost bv: seq<Req>, ghost nv: seq<Req>, ghost st: St)
      requires Is(st) && batch.home == InBatch && batch.Holds(bv, owned) && bv != []
      requires next.home == AtNext && next.Holds(nv, owned)
      modifies batch, next, responses, finish, owned
      ensures var (r, resp) := Complete(Decode, bv[0], ReplyAt(replies, i, bv[0]));
              && responses.queue == old(responses.queue) + [resp] && responses.closed == old(responses.closed)
              && Is(if resp.finished then st.(finish := st.finish + [r]) else st)
              && next.Holds(if resp.finished then nv else nv + [r], owned)
      ensures batch.Holds(bv[1..], owned)
    {
      hide Deque.Holds, Complete, Scheduler.Is, Scheduler.Named, ReplyAt;
      Names(st);
      batch.Size(bv, owned);
      next.Absent(nv, owned, batch.items[0]);
      var req, finished := CompleteNext(Decode, batch, replies, i, bv, st);
      if !finished {
        batch.Absent(bv[1..], owned, req);
        PutAside(next, req, nv, st);
      }
    }

    /** Completes one request of a prefill batch; a survivor goes straight to the decode queue. */
    method CompleteIntoDecode(batch: Deque, replies: seq<Resp>, i: nat, ghost bv: seq<Req>, ghost st: St)
      requires Is(st) && batch.home == InBatch && batch.Holds(bv, owned) && bv != []
      modifies batch, responses, finish, decode, owned
      ensures var (r, resp) := Complete(Prefill, bv[0], ReplyAt(replies, i, bv[0]));
              && responses.queue == old(responses.queue) + [resp] && responses.closed == old(responses.closed)
              && Is(if resp.finished then st.(finish := st.finish + [r]) else st.(decode := st.decode + [r]))
      ensures batch.Holds(bv[1..], owned)
    {
      hide Deque.Holds, Complete, Scheduler.Is, Scheduler.Named, ReplyAt;
      Names(st);
      batch.Size(bv, owned);
      var req, finished := CompleteNext(Prefill, batch, replies, i, bv, st);
      if !finished {
        batch.Absent(bv[1..], owned, req);
        Put(decode, req, st);
      }
    }

    method CompleteDecodeBatch(batch: Deque, next: Deque, replies: seq<Resp>, ghost bv: seq<Req>,
        ghost nv: seq<Req>, ghost st: St)
      requires Is(st) && batch.home == InBatch && batch.Holds(bv, owned) && next.home == AtNext && next.Holds(nv, owned)
      modifies batch, next, responses, finish, owned
      ensures var c := CompleteFrom(Decode, bv, replies, 0);
              && Is(st.(finish := st.finish + c.dead)) && next.Holds(nv + c.alive, owned)
              && responses.queue == old(responses.queue) + c.out && responses.closed == old(responses.closed)
    {
      hide Deque.Holds, Complete, Scheduler.Is, Scheduler.Named, CompleteFrom, ReplyAt, JoinCompleted;
      ghost var c := Completed([], [], []);
      batch.Size(bv, owned);
      JoinCompletedEnds(Decode, bv, replies, CompleteFrom(Decode, bv, replies, 0));
      Ends(bv, []);
      Ends(nv, []);
      Ends(st.finish, []);
      for i := 0 to |batch.items|
        invariant batch.Holds(bv[i..], owned) && next.Holds(nv + c.alive, owned)
        invariant Is(st.(finish := st.finish + c.dead))
        invariant responses.queue == old(responses.queue) + c.out && responses.closed == old(responses.closed)
        invariant JoinCompleted(c, CompleteFrom(Decode, bv, replies, i)) == CompleteFrom(Decode, bv, replies, 0)
      {
        Shift(bv, i, []);
        JoinCompletedStep(Decode, bv, replies, i, c);
        ghost var (r, resp) := Complete(Decode, bv[i], ReplyAt(replies, i, bv[i]));
        CompleteIntoNext(batch, next, replies, i, bv[i..], nv + c.alive, st.(finish := st.finish + c.dead));
        AssocOut(old(responses.queue), c.out, resp);
        Assoc(st.finish, c.dead, r);
        Assoc(nv, c.alive, r);
        c := Snoc(c, r, resp);
      }
      JoinCompletedEnds(Decode, bv, replies, c);
    }

    method CompletePrefillBatch(batch: Deque, replies: seq<Resp>, ghost bv: seq<Req>, ghost st: St)
      requires Is(st) && batch.home == InBatch && batch.Holds(bv, owned)
      modifies batch, responses, finish, decode, owned
      ensures var c := CompleteFrom(Prefill, bv, replies, 0);
              && Is(st.(finish := st.finish + c.dead, decode := st.decode + c.alive))
              && responses.queue == old(responses.queue) + c.out && responses.closed == old(responses.closed)
    {
      hide Deque.Holds, Complete, Scheduler.Is, Scheduler.Named, CompleteFrom, ReplyAt, JoinCompleted;
      ghost var c := Completed([], [], []);
      batch.Size(bv, owned);
      JoinCompletedEnds(Prefill, bv, replies, CompleteFrom(Prefill, bv, replies, 0));
      Ends(bv, []);
      Ends(st.decode, []);
      Ends(st.finish, []);
      for i := 0 to |batch.items|
        invariant batch.Holds(bv[i..], owned)
        invariant Is(st.(finish := st.finish + c.dead, decode := st.decode + c.alive))
        invariant responses.queue == old(responses.queue) + c.out && responses.closed == old(responses.closed)
        invariant JoinCompleted(c, CompleteFrom(Prefill, bv, replies, i)) == CompleteFrom(Prefill, bv, replies, 0)
      {
        Shift(bv, i, []);
        JoinCompletedStep(Prefill, bv, replies, i, c);
        ghost var (r, resp) := Complete(Prefill, bv[i], ReplyAt(replies, i, bv[i]));
        CompleteIntoDecode(batch, replies, i, bv[i..], st.(finish := st.finish + c.dead,
            decode := st.decode + c.alive));
        AssocOut(old(responses.queue), c.out, resp);
        Assoc(st.finish, c.dead, r);
        Assoc(st.decode, c.alive, r);
        c := Snoc(c, r, resp);
      }
      JoinCompletedEnds(Prefill, bv, replies, c);
    }

    method ReturnOne(next: Deque, ghost nv: seq<Req>, ghost st: St)
      requires Is(st) && next.home == AtNext && next.Holds(nv, owned) && nv != []
      modifies next, decode, owned
      ensures Is(st.(decode := st.decode + [nv[0]])) && next.Holds(nv[1..], owned)
    {
      hide Deque.Holds, Scheduler.Is, Scheduler.Queue, Scheduler.Named, IsQueue;
      Names(st);
      next.Size(nv, owned);
      var req := TakeAside(next, nv, st);
      next.Absent(nv[1..], owned, req);
      Put(decode, req, st);
    }

    /** Moves the survivors of all decode batches back to the decode queue. */
    method ReturnSurvivors(next: Deque, ghost nv: seq<Req>, ghost st: St)
      requires Is(st) && next.home == AtNext && next.Holds(nv, owned)
      modifies next, decode, owned
      ensures Is(st.(decode := st.decode + nv))
    {
      hide Deque.Holds, Scheduler.Is, Scheduler.Queue, Scheduler.Named;
      Ends(nv, []);
      Ends(st.decode, []);
      next.Size(nv, owned);
      ghost var i := 0;
      while next.items != []
        invariant i <= |nv| && |next.items| == |nv| - i
        invariant next.Holds(nv[i..], owned) && Is(st.(decode := st.decode + nv[..i]))
        decreases |nv| - i
      {
        Shift(nv, i, []);
        ReturnOne(next, nv[i..], st.(decode := st.decode + nv[..i]));
        Assoc(st.decode, nv[..i], nv[i]);
        assert nv[..i + 1] == nv[..i] + [nv[i]];
        i := i + 1;
        next.Size(nv[i..], owned);
      }
      assert nv[..|nv|] == nv;
    }

    /** One decode batch from the queue through the backend. */
    method DecodeOneBatch(remaining: nat, next: Deque, ghost nv: seq<Req>, ghost st: St) returns (left: nat,
        served: bool)
      requires Is(st) && remaining == |st.decode| && next.home == AtNext && next.Holds(nv, owned)
      modifies decode, deferredDecode, finish, allocator, responses, next, owned
      ensures var f := FillBatch(Decode, MAX_BATCH, st.decode, st.alloc);
              var c := Serve(backend, Decode, f.batch);
              && Is(st.(decode := f.rest, deferredDecode := st.deferredDecode + f.deferred, alloc := f.alloc,
                        finish := st.finish + c.dead))
              && next.Holds(nv + c.alive, owned) && left == |f.rest| && served == (c.out != [])
              && responses.queue == old(responses.queue) + c.out && responses.closed == old(responses.closed)
    {
      hide Deque.Holds, Scheduler.Is, Scheduler.Named, FillBatch, CompleteFrom;
      ghost var f := FillBatch(Decode, MAX_BATCH, st.decode, st.alloc);
      ghost var cur := st.(decode := f.rest, deferredDecode := st.deferredDecode + f.deferred, alloc := f.alloc);
      Names(st);
      Ends(nv, []);
      Ends(st.finish, []);
      var batch;
      batch, left := FillDecodeBatch(remaining, next, nv, st);
      batch.Size(f.batch, owned);
      if batch.items == [] {
        return left, false;
      }
      batch.HoldsVals(f.batch, owned);
      var replies := backend.decode(batch.Vals());
      CompleteDecodeBatch(batch, next, replies, f.batch, nv, cur);
      served := true;
    }

    /** Tells the event loop that there are responses. */
    method Signal(hasResponse: bool, ghost st: St)
      requires Is(st)
      modifies this`signalled
      ensures signalled == (old(signalled) || (hasResponse && hasAsync)) && Is(st)
    {
      hide Deque.Holds;
      if hasResponse && hasAsync {
        signalled := true;
      }
    }

    method RunDecodeBatch(ghost st: St) returns (progress: bool)
      requires Is(st)
      modifies decode, deferredDecode, finish, allocator, responses, this`signalled, owned
      ensures var p := SchedulerModel.RunDecodeBatch(backend, MAX_BATCH, st);
              && Is(p.st) && progress == p.progress && responses.queue == old(responses.queue) + p.out
              && responses.closed == old(responses.closed) && signalled == (old(signalled) || (p.out != [] && hasAsync))
    {
      hide Deque.Holds, Scheduler.Is, Scheduler.Named, FillBatch, Serve, RunBatches, JoinOutcome;
      ghost var all := RunBatches(backend, Decode, MAX_BATCH, st.decode, st.alloc);
      ghost var o, rest := Outcome([], [], [], [], st.alloc), st.decode;
      progress := false;
      QueueSize(AtDecode, st);
      var remaining := |decode.items|;
      var next := NewAside(AtNext, st);
      JoinOutcomeEnds(backend, Decode, MAX_BATCH, st.alloc, o, all);
      Ends(st.finish, []);
      Ends(st.deferredDecode, []);
      while remaining > 0
        invariant signalled == old(signalled) && remaining == |rest| && next.Holds(o.alive, owned)
            && progress == (o.out != [])
        invariant Is(st.(decode := rest, deferredDecode := st.deferredDecode + o.deferred, alloc := o.alloc,
                         finish := st.finish + o.dead))
        invariant responses.queue == old(responses.queue) + o.out && responses.closed == old(responses.closed)
        invariant JoinOutcome(o, RunBatches(backend, Decode, MAX_BATCH, rest, o.alloc)) == all
        decreases remaining
      {
        JoinOutcomeStep(backend, Decode, MAX_BATCH, rest, o.alloc, o);
        ghost var f := FillBatch(Decode, MAX_BATCH, rest, o.alloc);
        ghost var c := Serve(backend, Decode, f.batch);
        ghost var cur := st.(decode := rest, deferredDecode := st.deferredDecode + o.deferred, alloc := o.alloc,
                             finish := st.finish + o.dead);
        var served;
        remaining, served := DecodeOneBatch(remaining, next, o.alive, cur);
        progress := progress || served;
        AssocBatch(old(responses.queue), st, o, f, c);
        o, rest := AfterBatch(o, f, c), f.rest;
      }
      assert rest == [] && [] + o.alive == o.alive;
      JoinOutcomeEnds(backend, Decode, MAX_BATCH, o.alloc, o, all);
      ReturnSurvivors(next, o.alive, st.(decode := [], deferredDecode := st.deferredDecode + o.deferred,
                                         alloc := o.alloc, finish := st.finish + o.dead));
      Signal(progress, SchedulerModel.RunDecodeBatch(backend, MAX_BATCH, st).st);
    }

    /** Fills a batch from the prefill queue, which has all it needs already. */
    method FillPrefillBatch(ghost st: St) returns (batch: Deque)
      requires Is(st)
      modifies prefill, owned
      ensures fresh(batch) && batch.home == InBatch
      ensures var f := FillBatch(Prefill, MAX_BATCH, st.prefill, st.alloc);
              && batch.Holds(f.batch, owned) && f.deferred == [] && f.alloc == st.alloc && Is(st.(prefill := f.rest))
    {
      hide Scheduler.Is, Scheduler.Queue, FillBatch, JoinFill, Deque.Holds, Scheduler.Named, Gathering, GatherState;
      batch := NewAside(InBatch, st);
      PrefillSize(st);
      ghost var b: seq<Req> := [];
      GatherStart(st);
      while prefill.items != [] && |batch.items| < MAX_BATCH
        invariant |b| <= |st.prefill| && |prefill.items| == |st.prefill| - |b| && |batch.items| == |b| <= MAX_BATCH
        invariant Gathering(st, b) && Is(GatherState(st, |b|)) && batch.Holds(b, owned)
        decreases |st.prefill| - |b|
      {
        GatherStep(st, b);
        PrefillIntoBatch(batch, b, GatherState(st, |b|));
        b := b + [st.prefill[|b|].(state := PrefillRunning)];
        GatherBounds(st, b);
        PrefillSize(GatherState(st, |b|));
        batch.Size(b, owned);
      }
      GatherDone(st, b);
    }

    lemma PrefillSize(st: St)
      requires Is(st)
      ensures |prefill.items| == |st.prefill| && prefill.home == AtPrefill
    {
      hide Deque.Holds, Scheduler.Is;
      Names(st);
      QueueSize(AtPrefill, st);
    }

    method PrefillIntoBatch(batch: Deque, ghost b: seq<Req>, ghost st: St)
      requires Is(st) && st.prefill != [] && batch.home == InBatch && batch.Holds(b, owned)
      modifies prefill, batch, owned
      ensures Is(st.(prefill := st.prefill[1..])) && batch.Holds(b + [st.prefill[0].(state := PrefillRunning)], owned)
    {
      hide Scheduler.Is, Scheduler.Queue, Deque.Holds, Scheduler.Named;
      Names(st);
      QueueSize(AtPrefill, st);
      batch.Absent(b, owned, prefill.items[0]);
      var req := TakeFront(prefill, st);
      Mark(req, PrefillRunning, st.(prefill := st.prefill[1..]));
      PutAside(batch, req, b, st.(prefill := st.prefill[1..]));
    }

    /** One prefill batch from the queue through the backend. */
    method PrefillOneBatch(ghost st: St) returns (served: bool)
      requires Is(st)
      modifies prefill, decode, finish, responses, owned
      ensures var f := FillBatch(Prefill, MAX_BATCH, st.prefill, st.alloc);
              var c := Serve(backend, Prefill, f.batch);
              && f.deferred == [] && f.alloc == st.alloc
              && Is(st.(prefill := f.rest, decode := st.decode + c.alive, finish := st.finish + c.dead))
              && served == (c.out != [])
              && responses.queue == old(responses.queue) + c.out && responses.closed == old(responses.closed)
    {
      hide Deque.Holds, Scheduler.Is, Scheduler.Named, FillBatch, CompleteFrom;
      ghost var f := FillBatch(Prefill, MAX_BATCH, st.prefill, st.alloc);
      Names(st);
      Ends(st.decode, []);
      Ends(st.finish, []);
      var batch := FillPrefillBatch(st);
      batch.Size(f.batch, owned);
      if batch.items == [] {
        return false;
      }
      batch.HoldsVals(f.batch, owned);
      var replies := backend.prefill(batch.Vals());
      CompletePrefillBatch(batch, replies, f.batch, st.(prefill := f.rest));
      served := true;
    }

    method RunPrefillBatch(ghost st: St) returns (progress: bool)
      requires Is(st)
      modifies prefill, decode, finish, responses, this`signalled, owned
      ensures var p := SchedulerModel.RunPrefillBatch(backend, MAX_BATCH, st);
              && Is(p.st) && progress == p.progress && responses.queue == old(responses.queue) + p.out
              && responses.closed == old(responses.closed) && signalled == (old(signalled) || (p.out != [] && hasAsync))
    {
      hide Deque.Holds, Scheduler.Is, Scheduler.Named, FillBatch, Serve, RunBatches, JoinOutcome;
      ghost var all := RunBatches(backend, Prefill, MAX_BATCH, st.prefill, st.alloc);
      ghost var o, rest := Outcome([], [], [], [], st.alloc), st.prefill;
      progress := false;
      PrefillSize(st);
      JoinOutcomeEnds(backend, Prefill, MAX_BATCH, st.alloc, o, all);
      Ends(st.finish, []);
      Ends(st.decode, []);
      while prefill.items != []
        invariant signalled == old(signalled) && |prefill.items| == |rest| && progress == (o.out != [])
            && o.alloc == st.alloc && o.deferred == []
        invariant Is(st.(prefill := rest, decode := st.decode + o.alive, finish := st.finish + o.dead))
        invariant responses.queue == old(responses.queue) + o.out && responses.closed == old(responses.closed)
        invariant JoinOutcome(o, RunBatches(backend, Prefill, MAX_BATCH, rest, o.alloc)) == all
        decreases |rest|
      {
        JoinOutcomeStep(backend, Prefill, MAX_BATCH, rest, o.alloc, o);
        ghost var f := FillBatch(Prefill, MAX_BATCH, rest, o.alloc);
        ghost var c := Serve(backend, Prefill, f.batch);
        var served := PrefillOneBatch(st.(prefill := rest, decode := st.decode + o.alive,
            finish := st.finish + o.dead));
        progress := progress || served;
        AssocBatch(old(responses.queue), st, o, f, c);
        o, rest := AfterBatch(o, f, c), f.rest;
        PrefillSize(st.(prefill := rest, decode := st.decode + o.alive, finish := st.finish + o.dead));
      }
      assert rest == [];
      JoinOutcomeEnds(backend, Prefill, MAX_BATCH, o.alloc, o, all);
      Signal(progress, SchedulerModel.RunPrefillBatch(backend, MAX_BATCH, st).st);
    }

    // ---- eviction ----

    method TakeAt(d: Deque, i: nat, ghost st: St) returns (req: Request)
      requires Is(st) && IsQueue(d.home) && d == Queue(d.home) && i < |At(st, d.home)|
      modifies d`items, owned
      ensures req in owned && req.home == InHand && req.Val() == At(st, d.home)[i]
      ensures Is(With(st, d.home, At(st, d.home)[..i] + At(st, d.home)[i + 1..]))
    {
      hide Deque.Holds, At, With;
      d.Size(At(st, d.home), owned);
      Elsewhere(st, d.items[i]);
      req := d.Erase(i, At(st, d.home), owned);
      Changed(st, d.home, At(st, d.home)[..i] + At(st, d.home)[i + 1..]);
    }

    /** Tries to swap out the request at index i; if that is refused it goes to the back of its queue. */
    method EvictAt(d: Deque, i: nat, ghost st: St) returns (ok: bool)
      requires Is(st) && d.home in {AtDeferredDecode, AtDecode} && d == Queue(d.home) && i < |At(st, d.home)|
      modifies d, swapOut, allocator, this`paused, owned
      ensures var q := At(st, d.home);
              var t := Call(Op.SwapOut, st.alloc, q[i]);
              var s := With(st, d.home, q[..i] + q[i + 1..]).(alloc := t.alloc);
              && ok == t.ok
              && Is(if ok then s.(swapOut := st.swapOut + [t.req.(state := SwappedOut)], paused := true)
                    else With(s, d.home, q[..i] + q[i + 1..] + [t.req.(state := q[i].state)]))
    {
      hide Scheduler.Is, Scheduler.Queue, Deque.Holds, Scheduler.Named, Call;
      Names(st);
      ghost var q := At(st, d.home);
      ghost var s := With(st, d.home, q[..i] + q[i + 1..]);
      var req, oldState;
      ok, req, oldState := SwapOutAt(d, i, st);
      s := s.(alloc := allocator.Val());
      if !ok {
        PutBack(d, req, oldState, s);
        return;
      }
      ToHost(req, s);
    }

    method PutBack(d: Deque, req: Request, oldState: RequestState, ghost st: St)
      requires Is(st) && IsQueue(d.home) && d == Queue(d.home) && req.home == InHand && req in owned
      modifies d`items, req`home, req`state
      ensures Is(With(st, d.home, At(st, d.home) + [old(req.Val()).(state := oldState)]))
    {
      hide Scheduler.Is, Scheduler.Queue, Deque.Holds, Scheduler.Named, At, With, IsQueue;
      Mark(req, oldState, st);
      Put(d, req, st);
    }

    /** Takes the request at index i out of its queue and asks for its eviction. */
    method SwapOutAt(d: Deque, i: nat, ghost st: St) returns (ok: bool, req: Request, oldState: RequestState)
      requires Is(st) && IsQueue(d.home) && d == Queue(d.home) && i < |At(st, d.home)|
      modifies d`items, allocator, owned
      ensures req in owned && req.home == InHand && oldState == At(st, d.home)[i].state
      ensures Try(ok, req.Val(), allocator.Val()) == Call(Op.SwapOut, st.alloc, At(st, d.home)[i])
      ensures Is(With(st, d.home, At(st, d.home)[..i] + At(st, d.home)[i + 1..]).(alloc := allocator.Val()))
    {
      hide Scheduler.Is, Scheduler.Queue, Deque.Holds, Scheduler.Named, Call;
      req := TakeAt(d, i, st);
      oldState := req.state;
      ok := TrySwapOut(req, With(st, d.home, At(st, d.home)[..i] + At(st, d.home)[i + 1..]));
    }

    method ToHost(req: Request, ghost st: St)
      requires Is(st) && req.home == InHand && req in owned
      modifies swapOut, this`paused, req`home, req`state
      ensures Is(st.(swapOut := st.swapOut + [old(req.Val()).(state := SwappedOut)], paused := true))
    {
      hide Scheduler.Is, Scheduler.Queue, Deque.Holds, Scheduler.Named;
      Names(st);
      Mark(req, SwappedOut, st);
      Put(swapOut, req, st);
      Pause(st.(swapOut := st.swapOut + [req.Val()]));
    }

    method TrySwapOut(req: Request, ghost st: St) returns (ok: bool)
      requires Is(st) && req.home == InHand
      modifies allocator, req`kv, req`residency, req`state
      ensures Try(ok, req.Val(), allocator.Val()) == Call(Op.SwapOut, st.alloc, old(req.Val()))
      ensures Is(st.(alloc := allocator.Val()))
    {
      hide Deque.Holds, Call;
      Elsewhere(st, req);
      ok := allocator.SwapOut(req);
    }

    method Pause(ghost st: St)
      requires Is(st)
      modifies this`paused
      ensures paused && Is(st.(paused := true))
    {
      hide Deque.Holds;
      paused := true;
    }

    method TryFrom(d: Deque, ghost st: St) returns (ok: bool)
      requires Is(st) && d.home in {AtDeferredDecode, AtDecode} && d == Queue(d.home)
      modifies d, swapOut, allocator, this`paused, owned
      ensures var e := EvictFrom(At(st, d.home), st.alloc);
              && ok == (e.victim != [])
              && Is(With(st, d.home, e.q).(swapOut := st.swapOut + e.victim, paused := st.paused || e.victim != [],
                                           alloc := e.alloc))
    {
      hide Scheduler.Is, Deque.Holds, Scheduler.Named, Call;
      ghost var q := At(st, d.home);
      QueueSize(d.home, st);
      Ends(st.swapOut, []);
      for i := 0 to |d.items|
        invariant forall j :: 0 <= j < i ==> !IsVictim(q[j])
        invariant Is(st)
      {
        QueueVals(d.home, st);
        if d.items[i].residency != Gpu {
          continue;
        }
        if allocator.IsSwapped(d.items[i]) {
          continue;
        }
        ok := EvictAt(d, i, st);
        return;
      }
      ok := false;
    }

    method TrySwapOutVictim(ghost st: St) returns (progress: bool)
      requires Is(st)
      modifies deferredDecode, decode, swapOut, allocator, this`paused, owned
      ensures var p := SchedulerModel.TrySwapOutVictim(st); Is(p.st) && progress == p.progress
    {
      hide Scheduler.Is, Deque.Holds, Scheduler.Named, EvictFrom;
      Names(st);
      Ends(st.swapOut, []);
      ghost var e := EvictFrom(st.deferredDecode, st.alloc);
      progress := TryFrom(deferredDecode, st);
      if !progress {
        progress := TryFrom(decode, st.(deferredDecode := e.q, alloc := e.alloc));
      }
    }

    // ---- the worker loop ----

    function NoInternalWork(): bool
      reads waiting, prefill, decode, deferredPrefill, deferredDecode, swapOut
    {
      waiting.items == [] && prefill.items == [] && decode.items == []
      && deferredPrefill.items == [] && deferredDecode.items == [] && swapOut.items == []
    }

    lemma NoInternalWorkIsIdle(st: St)
      requires Is(st)
      ensures NoInternalWork() == st.Idle()
    {
      hide Scheduler.Is, Deque.Holds, Scheduler.Named;
      QueueSize(AtWaiting, st);
      QueueSize(AtPrefill, st);
      QueueSize(AtDecode, st);
      QueueSize(AtDeferredPrefill, st);
      QueueSize(AtDeferredDecode, st);
      QueueSize(AtSwapOut, st);
    }

    /** Called when there is a request to take or the queue is closed. */
    method WaitAndEnqueueOneRequest(ghost st: St, ghost inbox: seq<Req>)
      requires Is(st) && Inbox(inbox) && (inbox != [] || requests.closed)
      modifies requests, this`owned, this`running, waiting, requests.queue
      ensures requests.closed == old(requests.closed)
      ensures inbox == [] ==> Is(st.(running := false)) && Inbox([]) && owned == old(owned)
      ensures inbox != [] ==> Is(st.(waiting := st.waiting + [inbox[0]])) && Inbox(inbox[1..])
    {
      hide Deque.Holds, Scheduler.Is;
      var req := PopWaited(st, inbox);
      if req == [] {
        EndLoop(st, inbox);
        return;
      }
      Enqueue(req[0], st, inbox[1..]);
    }

    method PopWaited(ghost st: St, ghost inbox: seq<Req>) returns (item: seq<Request>)
      requires Is(st) && Inbox(inbox) && (inbox != [] || requests.closed)
      modifies requests
      ensures requests.closed == old(requests.closed) && Is(st) && |item| <= 1 && (item == [] <==> inbox == [])
      ensures item == [] ==> Inbox(inbox)
      ensures item != [] ==> Inbox(inbox[1..]) && item[0] !in requests.queue && item[0] !in owned
                             && item[0] in old(requests.queue) && item[0].home == InHand && item[0].Val() == inbox[0]
    {
      hide Deque.Holds;
      item := requests.WaitPop();
      if item != [] {
        assert item == [old(requests.queue)[0]] && requests.queue == old(requests.queue)[1..];
      }
    }

    method EndLoop(ghost st: St, ghost inbox: seq<Req>)
      requires Is(st) && Inbox(inbox)
      modifies this`running
      ensures Is(st.(running := false)) && Inbox(inbox)
    {
      hide Deque.Holds;
      running := false;
    }

    /** From the first swap-in retry to the end of the decode batch. */
    method DoDecodeHalf(ghost st: St) returns (progress: bool)
      requires Is(st)
      modifies Queues(), allocator, responses, this`signalled, owned
      ensures var p := DecodeHalf(backend, st);
              && Is(p.st) && progress == p.progress && responses.queue == old(responses.queue) + p.out
              && responses.closed == old(responses.closed) && signalled == (old(signalled) || (p.out != [] && hasAsync))
    {
      hide Scheduler.Is, Deque.Holds, Scheduler.Named;
      hide SchedulerModel.RetrySwapInRequests, SchedulerModel.RunDecodeBatch, SchedulerModel.RetryDeferredDecode;
      RetrySwapInEmits(st);
      ghost var p := SchedulerModel.RetrySwapInRequests(st);
      ghost var q := SchedulerModel.RetryDeferredDecode(p.st);
      progress := RetrySwapInRequests(st);
      var deferred := RetryDeferredDecode(p.st);
      var decoded := RunDecodeBatch(q.st);
      progress := progress || decoded;
    }

    /** From the second swap-in retry to the end of the prefill batch. */
    method DoPrefillHalf(ghost st: St) returns (progress: bool)
      requires Is(st)
      modifies Queues(), allocator, responses, this`signalled, owned
      ensures var p := PrefillHalf(backend, st);
              && Is(p.st) && progress == p.progress && responses.queue == old(responses.queue) + p.out
              && responses.closed == old(responses.closed) && signalled == (old(signalled) || (p.out != [] && hasAsync))
    {
      hide Scheduler.Is, Deque.Holds, Scheduler.Named, SchedulerModel.RetrySwapInRequests;
      hide SchedulerModel.RetryDeferredPrefill, SchedulerModel.AdmitWaitingPrefill, SchedulerModel.RunPrefillBatch;
      RetrySwapInEmits(st);
      ghost var p := SchedulerModel.RetrySwapInRequests(st);
      ghost var q := SchedulerModel.RetryDeferredPrefill(p.st);
      ghost var r := SchedulerModel.AdmitWaitingPrefill(q.st);
      AdmissionEmits(p.st, q.st);
      progress := RetrySwapInRequests(st);
      var retried := RetryDeferredPrefill(p.st);
      var admitted := AdmitWaitingPrefill(q.st);
      var prefilled := RunPrefillBatch(r.st);
      progress := progress || retried || admitted || prefilled;
    }

    /** The end of an iteration: a last swap-in retry, an eviction if nothing moved, and the admission gate. */
    method DoSettleHalf(before: bool, ghost st: St) returns (progress: bool)
      requires Is(st)
      modifies Queues(), allocator, this`paused, owned
      ensures var p := SettleHalf(st, before); Is(p.st) && progress == p.progress
    {
      hide Scheduler.Is, Deque.Holds, Scheduler.Named, St.Idle;
      hide SchedulerModel.RetrySwapInRequests, SchedulerModel.TrySwapOutVictim;
      var retried := RetrySwapInRequests(st);
      ghost var cur := SchedulerModel.RetrySwapInRequests(st).st;
      progress := before || retried;
      NoInternalWorkIsIdle(cur);
      if !progress && !NoInternalWork() {
        progress := TrySwapOutVictim(cur);
        cur := SchedulerModel.TrySwapOutVictim(cur).st;
      }
      NoInternalWorkIsIdle(cur);
      OpenGate(cur);
    }

    method OpenGate(ghost st: St)
      requires Is(st)
      modifies this`paused
      ensures Is(if st.paused && st.Idle() then st.(paused := false) else st)
    {
      hide Deque.Holds;
      NoInternalWorkIsIdle(st);
      if paused && NoInternalWork() {
        paused := false;
      }
    }

    /** One turn of the worker loop, up to the decision whether to wait for a request. */
    method WorkerTurn(ghost st: St, ghost inbox: seq<Req>) returns (wait: bool)
      requires Is(st) && Inbox(inbox)
      modifies Queues(), allocator, requests, responses, this`signalled, this`paused, this`owned, owned, requests.queue
      ensures var n := if st.paused then 0 else if |inbox| < 16 then |inbox| else 16;
              var p := Iteration(backend, st.(waiting := st.waiting + inbox[..n]));
              && Is(p.st) && Inbox(inbox[n..]) && wait == p.st.Idle()
              && responses.queue == old(responses.queue) + p.out
              && signalled == (old(signalled) || (p.out != [] && hasAsync))
              && responses.closed == old(responses.closed) && requests.closed == old(requests.closed)
    {
      hide Scheduler.Is, Deque.Holds, Scheduler.Named, Scheduler.Inbox, DecodeHalf, PrefillHalf, SettleHalf, St.Idle;
      ghost var cur, rest := st, inbox;
      Ends(inbox, []);
      Ends(st.waiting, []);
      GateIs(st);
      if !paused {
        DrainNewRequests(st, inbox);
        cur, rest := st.(waiting := st.waiting + inbox[..DrainCount(inbox)]), inbox[DrainCount(inbox)..];
      }
      wait := ServeTurn(cur, rest);
    }

    lemma GateIs(st: St)
      requires Is(st)
      ensures paused == st.paused
    {}

    method ServeTurn(ghost st: St, ghost inbox: seq<Req>) returns (wait: bool)
      requires Is(st) && Inbox(inbox)
      modifies Queues(), allocator, responses, this`signalled, this`paused, owned
      ensures var p := Iteration(backend, st);
              && Is(p.st) && wait == p.st.Idle() && Inbox(inbox)
              && responses.queue == old(responses.queue) + p.out
              && signalled == (old(signalled) || (p.out != [] && hasAsync))
              && responses.closed == old(responses.closed)
    {
      hide Scheduler.Is, Deque.Holds, Scheduler.Named, DecodeHalf, PrefillHalf, SettleHalf, St.Idle;
      ghost var p := DecodeHalf(backend, st);
      ghost var q := PrefillHalf(backend, p.st);
      ghost var s := SettleHalf(q.st, p.progress || q.progress);
      var moved := ServeBoth(st, inbox);
      var progress := DoSettleHalf(moved, q.st);
      NoInternalWorkIsIdle(s.st);
      wait := NoInternalWork();
    }

    method ServeBoth(ghost st: St, ghost inbox: seq<Req>) returns (moved: bool)
      requires Is(st) && Inbox(inbox)
      modifies Queues(), allocator, responses, this`signalled, owned
      ensures var p := DecodeHalf(backend, st);
              var q := PrefillHalf(backend, p.st);
              && Is(q.st) && moved == (p.progress || q.progress) && Inbox(inbox)
              && responses.queue == old(responses.queue) + (p.out + q.out)
              && signalled == (old(signalled) || (p.out + q.out != [] && hasAsync))
              && responses.closed == old(responses.closed)
    {
      hide Scheduler.Is, Deque.Holds, Scheduler.Named, DecodeHalf, PrefillHalf;
      ghost var p := DecodeHalf(backend, st);
      ghost var q := PrefillHalf(backend, p.st);
      var decoded := DoDecodeHalf(st);
      var prefilled := DoPrefillHalf(p.st);
      assert old(responses.queue) + p.out + q.out == old(responses.queue) + (p.out + q.out);
      return decoded || prefilled;
    }
  }

  lemma RetrySwapInEmits(st: St)
    ensures forall p: Phase :: SchedulerModel.RetrySwapInRequests(st).out + p.out == p.out
  {}

  lemma AdmissionEmits(st: St, st': St)
    ensures SchedulerModel.RetryDeferredPrefill(st).out == [] && SchedulerModel.AdmitWaitingPrefill(st').out == []
  {}
}
