/** What each phase of the scheduler does to its queues, as functions. */
module SchedulerModel {
  import opened Types
  import opened Allocation
  import opened Backends

  // ---- one request against the allocator, with the state the scheduler gives it afterwards ----

  datatype Gate = AdmitPrefill | RetryPrefill | AdmitDecode | RetrySwapIn

  function Attempt(g: Gate, a: Alloc, r: Req): Try {
    match g
    case AdmitPrefill =>
      var t := Call(AllocPrefill, a, r);
      t.(req := t.req.(state := if t.ok then PrefillRunning else DeferredPrefillKV))
    case RetryPrefill =>
      var t := Call(AllocPrefill, a, r);
      if t.ok then t.(req := t.req.(state := PrefillRunning)) else t
    case AdmitDecode =>
      var t := Call(AllocDecode, a, r);
      t.(req := t.req.(state := if t.ok then DecodeRunning else DeferredDecodeKV))
    case RetrySwapIn =>
      var t := Call(SwapIn, a, r);
      t.(req := t.req.(state := if t.ok then DecodeReady else SwappedOut))
  }

  /** One pass over a queue: the admitted and the refused requests, each in queue order. */
  datatype Sieved = Sieved(yes: seq<Req>, no: seq<Req>, alloc: Alloc)

  function Sieve(g: Gate, q: seq<Req>, a: Alloc): (s: Sieved)
    ensures |s.yes| + |s.no| == |q|
  {
    if q == [] then Sieved([], [], a)
    else
      var t := Attempt(g, a, q[0]);
      var s := Sieve(g, q[1..], t.alloc);
      if t.ok then s.(yes := [t.req] + s.yes) else s.(no := [t.req] + s.no)
  }

  /** Admission of waiting requests stops at the first refusal. */
  datatype Admission = Admission(yes: seq<Req>, no: seq<Req>, rest: seq<Req>, alloc: Alloc)

  function Admit(q: seq<Req>, a: Alloc): (s: Admission)
    ensures |s.yes| + |s.no| + |s.rest| == |q|
  {
    if q == [] then Admission([], [], [], a)
    else
      var t := Attempt(AdmitPrefill, a, q[0]);
      if t.ok then var s := Admit(q[1..], t.alloc); s.(yes := [t.req] + s.yes)
      else Admission([], [t.req], q[1..], t.alloc)
  }

  function Reverse(q: seq<Req>): (r: seq<Req>)
    ensures |r| == |q|
  {
    if q == [] then [] else Reverse(q[1..]) + [q[0]]
  }

  function Readied(q: seq<Req>): seq<Req> {
    seq(|q|, i requires 0 <= i < |q| => q[i].(state := DecodeReady))
  }

  // ---- one batch ----

  datatype Fill = Fill(batch: seq<Req>, deferred: seq<Req>, rest: seq<Req>, alloc: Alloc)

  /** Prefill batches take every request; decode batches take those that get their KV block. */
  function Enter(kind: Kind, a: Alloc, r: Req): Try {
    if kind == Prefill then Try(true, r.(state := PrefillRunning), a) else Attempt(AdmitDecode, a, r)
  }

  function FillBatch(kind: Kind, w: nat, q: seq<Req>, a: Alloc): (f: Fill)
    ensures |f.batch| <= w && |f.rest| <= |q|
    ensures w > 0 && q != [] ==> |f.rest| < |q|
    ensures f.batch == [] && w > 0 ==> f.rest == []
    decreases |q|
  {
    if q == [] || w == 0 then Fill([], [], q, a)
    else
      var t := Enter(kind, a, q[0]);
      if t.ok then
        var f := FillBatch(kind, w - 1, q[1..], t.alloc);
        f.(batch := [t.req] + f.batch)
      else
        var f := FillBatch(kind, w, q[1..], t.alloc);
        f.(deferred := [t.req] + f.deferred)
  }

  /** The request with its new token and the response that goes out for it. */
  function Complete(kind: Kind, r: Req, reply: Resp): (Req, Resp) {
    var kv := seq(|r.kv|, i requires 0 <= i < |r.kv| =>
                    r.kv[i].(numTokens := if kind == Prefill then r.promptLen else r.kv[i].numTokens + 1));
    var r1 := r.(kv := kv, tokens := r.tokens + [reply.token]);
    var resp := if r1.IsFinish() then reply.(finished := true) else reply;
    (if resp.finished then FreeRequest(r1).(state := Finished) else r1.(state := DecodeReady), resp)
  }

  /** A backend that returns too few responses has the missing ones replaced by an error token. */
  function ReplyAt(replies: seq<Resp>, i: nat, r: Req): Resp {
    if i < |replies| then replies[i] else Resp(r.id, -1, true)
  }

  datatype Outcome = Outcome(alive: seq<Req>, dead: seq<Req>, deferred: seq<Req>, out: seq<Resp>, alloc: Alloc)

  datatype Completed = Completed(alive: seq<Req>, dead: seq<Req>, out: seq<Resp>)

  /** Completes batch[i..]. */
  function CompleteFrom(kind: Kind, batch: seq<Req>, replies: seq<Resp>, i: nat): (c: Completed)
    requires i <= |batch|
    ensures |c.out| == |batch| - i
    decreases |batch| - i
  {
    if i == |batch| then Completed([], [], [])
    else
      var (r, resp) := Complete(kind, batch[i], ReplyAt(replies, i, batch[i]));
      var c := CompleteFrom(kind, batch, replies, i + 1);
      if resp.finished then Completed(c.alive, [r] + c.dead, [resp] + c.out)
      else Completed([r] + c.alive, c.dead, [resp] + c.out)
  }

  /** One batch through the backend; an empty batch never reaches it. */
  function Serve(be: Backend, kind: Kind, batch: seq<Req>): Completed {
    if batch == [] then Completed([], [], []) else CompleteFrom(kind, batch, be.Reply(kind, batch), 0)
  }

  /** The whole queue in batches of at most w. */
  function RunBatches(be: Backend, kind: Kind, w: nat, q: seq<Req>, a: Alloc): Outcome
    requires w > 0
    decreases |q|
  {
    if q == [] then Outcome([], [], [], [], a)
    else
      var f := FillBatch(kind, w, q, a);
      var c := Serve(be, kind, f.batch);
      var o := RunBatches(be, kind, w, f.rest, f.alloc);
      Outcome(c.alive + o.alive, c.dead + o.dead, f.deferred + o.deferred, c.out + o.out, o.alloc)
  }

  // ---- the phases of worker_loop ----

  datatype St = St(
    waiting: seq<Req>, prefill: seq<Req>, decode: seq<Req>, finish: seq<Req>,
    deferredPrefill: seq<Req>, deferredDecode: seq<Req>, swapOut: seq<Req>,
    paused: bool, running: bool, alloc: Alloc)
  {
    function Internal(): seq<Req> {
      waiting + deferredPrefill + prefill + decode + deferredDecode + swapOut
    }

    function All(): seq<Req> { Internal() + finish }

    predicate Idle() {
      waiting == [] && prefill == [] && decode == [] && deferredPrefill == [] && deferredDecode == [] && swapOut == []
    }
  }

  datatype Phase = Phase(st: St, out: seq<Resp>, progress: bool)

  function RetrySwapInRequests(st: St): Phase {
    var s := Sieve(RetrySwapIn, st.swapOut, st.alloc);
    Phase(st.(swapOut := s.no, decode := st.decode + s.yes, alloc := s.alloc), [], s.yes != [])
  }

  function RetryDeferredDecode(st: St): Phase {
    Phase(st.(deferredDecode := [], decode := st.decode + Readied(st.deferredDecode)), [], false)
  }

  function RunDecodeBatch(be: Backend, w: nat, st: St): Phase
    requires w > 0
  {
    var o := RunBatches(be, Decode, w, st.decode, st.alloc);
    Phase(st.(decode := o.alive, finish := st.finish + o.dead,
              deferredDecode := st.deferredDecode + o.deferred, alloc := o.alloc), o.out, o.out != [])
  }

  function RetryDeferredPrefill(st: St): Phase {
    var s := Sieve(RetryPrefill, st.deferredPrefill, st.alloc);
    Phase(st.(deferredPrefill := s.no, prefill := Reverse(s.yes) + st.prefill, alloc := s.alloc), [], s.yes != [])
  }

  function AdmitWaitingPrefill(st: St): Phase {
    var s := Admit(st.waiting, st.alloc);
    Phase(st.(waiting := s.rest, prefill := st.prefill + s.yes,
              deferredPrefill := st.deferredPrefill + s.no, alloc := s.alloc), [], s.yes != [])
  }

  function RunPrefillBatch(be: Backend, w: nat, st: St): Phase
    requires w > 0
  {
    var o := RunBatches(be, Prefill, w, st.prefill, st.alloc);
    Phase(st.(prefill := [], decode := st.decode + o.alive, finish := st.finish + o.dead), o.out, o.out != [])
  }

  predicate IsVictim(r: Req) { r.residency == Gpu && !IsSwapped(r) }

  /** The index of the first request that may be swapped out, |q| if there is none. */
  function FirstVictim(q: seq<Req>): (i: nat)
    ensures i <= |q|
    ensures i < |q| ==> IsVictim(q[i])
    ensures forall j :: 0 <= j < i ==> !IsVictim(q[j])
  {
    if q == [] || IsVictim(q[0]) then 0 else 1 + FirstVictim(q[1..])
  }

  /** A refused victim goes to the back of its queue. */
  datatype Evicted = Evicted(q: seq<Req>, victim: seq<Req>, alloc: Alloc)

  function EvictFrom(q: seq<Req>, a: Alloc): Evicted {
    var i := FirstVictim(q);
    if i == |q| then Evicted(q, [], a)
    else
      var t := Call(SwapOut, a, q[i]);
      if t.ok then Evicted(q[..i] + q[i + 1..], [t.req.(state := SwappedOut)], t.alloc)
      else Evicted(q[..i] + q[i + 1..] + [t.req.(state := q[i].state)], [], t.alloc)
  }

  function TrySwapOutVictim(st: St): Phase {
    var e := EvictFrom(st.deferredDecode, st.alloc);
    if e.victim != [] then
      Phase(st.(deferredDecode := e.q, swapOut := st.swapOut + e.victim, paused := true, alloc := e.alloc), [], true)
    else
      var f := EvictFrom(st.decode, e.alloc);
      Phase(st.(deferredDecode := e.q, decode := f.q, swapOut := st.swapOut + f.victim,
                paused := st.paused || f.victim != [], alloc := f.alloc), [], f.victim != [])
  }

  function Then(p: Phase, q: Phase): Phase {
    Phase(q.st, p.out + q.out, p.progress || q.progress)
  }

  /** From the drain to the end of the decode batch. */
  function DecodeHalf(be: Backend, st: St): Phase {
    var p := RetrySwapInRequests(st);
    var q := RetryDeferredDecode(p.st);
    Then(p, RunDecodeBatch(be, MAX_BATCH, q.st))
  }

  /** From there to the end of the prefill batch. */
  function PrefillHalf(be: Backend, st: St): Phase {
    var p := RetrySwapInRequests(st);
    var q := RetryDeferredPrefill(p.st);
    var r := AdmitWaitingPrefill(q.st);
    Then(p, Then(q, Then(r, RunPrefillBatch(be, MAX_BATCH, r.st))))
  }

  /** The rest of the iteration, given whether anything has moved so far. */
  function SettleHalf(st: St, progress: bool): Phase {
    var p := RetrySwapInRequests(st);
    var q := if !progress && !p.progress && !p.st.Idle() then TrySwapOutVictim(p.st) else Phase(p.st, [], false);
    var s := q.st;
    Phase(if s.paused && s.Idle() then s.(paused := false) else s, [], progress || p.progress || q.progress)
  }

  /** Everything an iteration does after its drain. */
  function Iteration(be: Backend, st: St): Phase {
    var p := DecodeHalf(be, st);
    var q := PrefillHalf(be, p.st);
    var s := SettleHalf(q.st, p.progress || q.progress);
    Phase(s.st, p.out + q.out, s.progress)
  }
}
