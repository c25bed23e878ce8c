/** Which requests a queue may hold: their state, their KV residency and the size of their tables. */
module Placement {
  import opened Types
  import opened Allocation
  import opened Backends
  import opened SchedulerModel

  datatype Place = Waiting | DeferredPre | Admitted | Ready | DeferredDec | Batched | Swapped | Done

  /** Every layer has this many blocks and this many cached tokens. */
  ghost predicate Shape(kv: seq<Kv>, blocks: nat, num: nat) {
    |kv| == N_LAYERS && forall l :: 0 <= l < |kv| ==> |kv[l].table| == blocks && kv[l].numTokens == num
  }

  function StateOf(p: Place): RequestState {
    match p
    case Waiting => WaitingPrefill
    case DeferredPre => DeferredPrefillKV
    case Admitted => PrefillRunning
    case Ready => DecodeReady
    case DeferredDec => DeferredDecodeKV
    case Batched => DecodeRunning
    case Swapped => SwappedOut
    case Done => Finished
  }

  function ResidencyOf(p: Place): Residency {
    if p.Waiting? || p.DeferredPre? || p.Done? then NoKv else if p.Swapped? then Cpu else Gpu
  }

  /** Blocks per layer of a request with r's tokens at place p. */
  function BlocksAt(p: Place, r: Req): nat {
    if p.Waiting? || p.DeferredPre? || p.Done? then 0
    else if p.Admitted? then CeilBlocks(r.promptLen)
    else if p.Batched? then CeilBlocks(|r.tokens|)
    else CeilBlocks(if |r.tokens| == 0 then 0 else |r.tokens| - 1)
  }

  function CachedAt(p: Place, r: Req): nat {
    if p.Waiting? || p.DeferredPre? || p.Done? || p.Admitted? || |r.tokens| == 0 then 0 else |r.tokens| - 1
  }

  /** `tables`: the allocator is a Bump one, so the shape of the block tables is known too. */
  ghost predicate Fits(tables: bool, p: Place, r: Req) {
    && r.state == StateOf(p) && r.residency == ResidencyOf(p)
    && r.promptLen <= |r.tokens|
    && (p.Waiting? || p.DeferredPre? || p.Admitted? ==> r.Generated() == 0)
    && (p.Ready? || p.DeferredDec? || p.Batched? || p.Swapped? ==> 1 <= r.Generated() < r.maxNew)
    && (p.Done? ==> 1 <= r.Generated())
    && (tables ==> Shape(r.kv, BlocksAt(p, r), CachedAt(p, r)))
  }

  ghost predicate AllFit(tables: bool, p: Place, q: seq<Req>) {
    forall i :: 0 <= i < |q| ==> Fits(tables, p, q[i])
  }

  function From(g: Gate): Place {
    match g
    case AdmitPrefill => Waiting
    case RetryPrefill => DeferredPre
    case AdmitDecode => Ready
    case RetrySwapIn => Swapped
  }

  function Yes(g: Gate): Place {
    match g
    case AdmitPrefill => Admitted
    case RetryPrefill => Admitted
    case AdmitDecode => Batched
    case RetrySwapIn => Ready
  }

  function No(g: Gate): Place {
    match g
    case AdmitPrefill => DeferredPre
    case RetryPrefill => DeferredPre
    case AdmitDecode => DeferredDec
    case RetrySwapIn => Swapped
  }

  lemma {:induction false} GrantLayersShape(kv: seq<Kv>, n: nat, lo: int, l: nat)
    requires l < |kv|
    ensures var r := GrantLayers(kv, n, lo)[l];
            r.numTokens == kv[l].numTokens && |r.table| == |kv[l].table| + n
  {
    if l > 0 {
      GrantLayersShape(kv[1..], n, lo + n, l - 1);
    }
  }

  lemma GrantShape(kv: seq<Kv>, blocks: nat, num: nat, n: nat, lo: int)
    requires Shape(kv, blocks, num)
    ensures Shape(GrantLayers(kv, n, lo), blocks + n, num)
  {
    forall l | 0 <= l < |kv|
      ensures |GrantLayers(kv, n, lo)[l].table| == blocks + n && GrantLayers(kv, n, lo)[l].numTokens == num
    {
      GrantLayersShape(kv, n, lo, l);
    }
  }

  lemma AttemptFits(g: Gate, a: Alloc, r: Req)
    requires Fits(a.policy.Bump?, From(g), r)
    ensures var t := Attempt(g, a, r);
            t.alloc.policy == a.policy && Fits(a.policy.Bump?, if t.ok then Yes(g) else No(g), t.req)
  {
    if a.policy.Bump? {
      AttemptShape(g, a, r);
    } else {
      hide Shape, CeilBlocks, GrantLayers;
    }
  }

  lemma AttemptShape(g: Gate, a: Alloc, r: Req)
    requires a.policy.Bump? && Fits(true, From(g), r)
    ensures var t := Attempt(g, a, r);
            t.alloc.policy == a.policy && Fits(true, if t.ok then Yes(g) else No(g), t.req)
  {
    var n := Need(if g.AdmitDecode? then AllocDecode else if g.RetrySwapIn? then SwapIn else AllocPrefill, r);
    GrantShape(r.kv, BlocksAt(From(g), r), CachedAt(From(g), r), n, a.nextBlock);
    assert BlocksAt(From(g), r) + n == BlocksAt(Yes(g), r);
    hide Shape, GrantLayers;
  }

  lemma JoinFits(tables: bool, p: Place, q: seq<Req>, s: seq<Req>)
    requires AllFit(tables, p, q) && AllFit(tables, p, s)
    ensures AllFit(tables, p, q + s)
  {
    hide Fits;
  }

  lemma {:induction false} SieveFits(g: Gate, q: seq<Req>, a: Alloc)
    requires AllFit(a.policy.Bump?, From(g), q)
    ensures var s := Sieve(g, q, a);
            s.alloc.policy == a.policy && AllFit(a.policy.Bump?, Yes(g), s.yes) && AllFit(a.policy.Bump?, No(g), s.no)
  {
    hide Fits, Attempt;
    if q != [] {
      AttemptFits(g, a, q[0]);
      SieveFits(g, q[1..], Attempt(g, a, q[0]).alloc);
    }
  }

  lemma {:induction false} AdmitFits(q: seq<Req>, a: Alloc)
    requires AllFit(a.policy.Bump?, Waiting, q)
    ensures var s := Admit(q, a);
            && s.alloc.policy == a.policy && AllFit(a.policy.Bump?, Admitted, s.yes)
            && AllFit(a.policy.Bump?, DeferredPre, s.no) && AllFit(a.policy.Bump?, Waiting, s.rest)
  {
    hide Fits, Attempt;
    if q != [] {
      AttemptFits(AdmitPrefill, a, q[0]);
      AdmitFits(q[1..], Attempt(AdmitPrefill, a, q[0]).alloc);
    }
  }

  function Source(kind: Kind): Place { if kind == Prefill then Admitted else Ready }
  function Inside(kind: Kind): Place { if kind == Prefill then Admitted else Batched }

  lemma {:induction false} FillFits(kind: Kind, w: nat, q: seq<Req>, a: Alloc)
    requires AllFit(a.policy.Bump?, Source(kind), q)
    ensures var f := FillBatch(kind, w, q, a);
            && f.alloc.policy == a.policy && AllFit(a.policy.Bump?, Inside(kind), f.batch)
            && AllFit(a.policy.Bump?, DeferredDec, f.deferred) && AllFit(a.policy.Bump?, Source(kind), f.rest)
    decreases |q|
  {
    if q != [] && w > 0 {
      if kind == Decode { AttemptFits(AdmitDecode, a, q[0]); }
      var t := Enter(kind, a, q[0]);
      FillFits(kind, if t.ok then w - 1 else w, q[1..], t.alloc);
    }
  }

  lemma CompleteFits(tables: bool, kind: Kind, r: Req, reply: Resp)
    requires Fits(tables, Inside(kind), r)
    ensures var (r', resp) := Complete(kind, r, reply);
            Fits(tables, if resp.finished then Done else Ready, r')
  {}

  lemma {:induction false} CompleteFromFits(tables: bool, kind: Kind, batch: seq<Req>, replies: seq<Resp>, i: nat)
    requires i <= |batch| && AllFit(tables, Inside(kind), batch)
    ensures var c := CompleteFrom(kind, batch, replies, i);
            AllFit(tables, Ready, c.alive) && AllFit(tables, Done, c.dead)
    decreases |batch| - i
  {
    if i < |batch| {
      CompleteFits(tables, kind, batch[i], ReplyAt(replies, i, batch[i]));
      CompleteFromFits(tables, kind, batch, replies, i + 1);
    }
  }

  lemma {:induction false} RunFits(be: Backend, kind: Kind, w: nat, q: seq<Req>, a: Alloc)
    requires w > 0 && AllFit(a.policy.Bump?, Source(kind), q)
    ensures var o := RunBatches(be, kind, w, q, a);
            && o.alloc.policy == a.policy && AllFit(a.policy.Bump?, Ready, o.alive)
            && AllFit(a.policy.Bump?, Done, o.dead) && AllFit(a.policy.Bump?, DeferredDec, o.deferred)
    decreases |q|
  {
    if q != [] {
      FillFits(kind, w, q, a);
      var f := FillBatch(kind, w, q, a);
      CompleteFromFits(a.policy.Bump?, kind, f.batch, be.Reply(kind, f.batch), 0);
      RunFits(be, kind, w, f.rest, f.alloc);
    }
  }

  /** The scheduler's queues between two phases. */
  ghost predicate Placed(st: St) {
    var tables := st.alloc.policy.Bump?;
    && AllFit(tables, Waiting, st.waiting)
    && AllFit(tables, DeferredPre, st.deferredPrefill)
    && AllFit(tables, Admitted, st.prefill)
    && AllFit(tables, Ready, st.decode)
    && AllFit(tables, DeferredDec, st.deferredDecode)
    && AllFit(tables, Swapped, st.swapOut)
    && AllFit(tables, Done, st.finish)
    && (st.swapOut != [] ==> st.paused)
  }

  lemma {:induction false} ReverseFits(tables: bool, p: Place, q: seq<Req>)
    requires AllFit(tables, p, q)
    ensures AllFit(tables, p, Reverse(q))
  {
    hide Fits;
    if q != [] { ReverseFits(tables, p, q[1..]); }
  }

  lemma SwapOutFits(p: Place, a: Alloc, r: Req)
    requires p.Ready? || p.DeferredDec?
    requires Fits(a.policy.Bump?, p, r)
    ensures var t := Call(SwapOut, a, r);
            && t.alloc.policy == a.policy
            && (t.ok ==> Fits(a.policy.Bump?, Swapped, t.req.(state := SwappedOut)))
            && (!t.ok ==> t.req == r)
  {
    if a.policy.Bump? {
      GrantShape(r.kv, BlocksAt(p, r), CachedAt(p, r), 0, a.nextBlock);
    }
  }

  lemma EvictFits(p: Place, q: seq<Req>, a: Alloc)
    requires p.Ready? || p.DeferredDec?
    requires AllFit(a.policy.Bump?, p, q)
    ensures var e := EvictFrom(q, a);
            && e.alloc.policy == a.policy && AllFit(a.policy.Bump?, p, e.q)
            && AllFit(a.policy.Bump?, Swapped, e.victim)
  {
    hide Fits, Call;
    var i := FirstVictim(q);
    if i < |q| {
      SwapOutFits(p, a, q[i]);
    }
  }

  lemma SwapInPlaced(st: St)
    requires Placed(st)
    ensures var p := RetrySwapInRequests(st).st;
            Placed(p) && p.alloc.policy == st.alloc.policy
  {
    hide Fits, Sieve;
    SieveFits(RetrySwapIn, st.swapOut, st.alloc);
  }

  lemma RetryDecodePlaced(st: St)
    requires Placed(st)
    ensures Placed(RetryDeferredDecode(st).st)
  {
    assert AllFit(st.alloc.policy.Bump?, Ready, Readied(st.deferredDecode));
    JoinFits(st.alloc.policy.Bump?, Ready, st.decode, Readied(st.deferredDecode));
  }

  lemma DecodeHalfPlaced(be: Backend, st: St)
    requires Placed(st)
    ensures Placed(DecodeHalf(be, st).st)
    ensures DecodeHalf(be, st).st.alloc.policy == st.alloc.policy
  {
    hide Fits, Sieve, RunBatches, RetrySwapInRequests;
    SwapInPlaced(st);
    var p := RetrySwapInRequests(st).st;
    RetryDecodePlaced(p);
    var q := RetryDeferredDecode(p).st;
    RunFits(be, Decode, MAX_BATCH, q.decode, q.alloc);
  }

  lemma PrefillHalfPlaced(be: Backend, st: St)
    requires Placed(st)
    ensures Placed(PrefillHalf(be, st).st) && PrefillHalf(be, st).st.prefill == []
    ensures PrefillHalf(be, st).st.alloc.policy == st.alloc.policy
  {
    hide Fits, Sieve, RunBatches, RetrySwapInRequests, Admit, Reverse;
    SwapInPlaced(st);
    var p := RetrySwapInRequests(st).st;
    SieveFits(RetryPrefill, p.deferredPrefill, p.alloc);
    ReverseFits(st.alloc.policy.Bump?, Place.Admitted, Sieve(RetryPrefill, p.deferredPrefill, p.alloc).yes);
    var q := RetryDeferredPrefill(p).st;
    assert Placed(q);
    AdmitFits(q.waiting, q.alloc);
    var r := AdmitWaitingPrefill(q).st;
    assert Placed(r);
    RunFits(be, Prefill, MAX_BATCH, r.prefill, r.alloc);
  }

  lemma SettleHalfPlaced(st: St, progress: bool)
    requires Placed(st)
    ensures Placed(SettleHalf(st, progress).st)
    ensures SettleHalf(st, progress).st.alloc.policy == st.alloc.policy
  {
    hide Fits, EvictFrom, RetrySwapInRequests;
    SwapInPlaced(st);
    var p := RetrySwapInRequests(st).st;
    EvictFits(DeferredDec, p.deferredDecode, p.alloc);
    var e := EvictFrom(p.deferredDecode, p.alloc);
    EvictFits(Ready, p.decode, e.alloc);
  }
}
