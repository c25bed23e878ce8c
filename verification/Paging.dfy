/** Paged addressing never aliases: no physical block is in two tables, or twice in one. */
module Paging {
  import opened Types
  import opened Allocation
  import opened Backends
  import opened SchedulerModel
  import opened Bags
  import opened Placement

  ghost function KvBag(kv: seq<Kv>): multiset<int> {
    if kv == [] then multiset{} else multiset(kv[0].table) + KvBag(kv[1..])
  }

  ghost function BlockBag(q: seq<Req>): multiset<int> {
    if q == [] then multiset{} else KvBag(q[0].kv) + BlockBag(q[1..])
  }

  /** Nothing was added but the blocks lo .. hi - 1, each at most once. */
  ghost predicate Grew(before: multiset<int>, after: multiset<int>, lo: int, hi: int) {
    lo <= hi && forall b :: after[b] <= before[b] + if lo <= b < hi then 1 else 0
  }

  lemma GrewTwice(x: multiset<int>, y: multiset<int>, z: multiset<int>, lo: int, mid: int, hi: int)
    requires Grew(x, y, lo, mid) && Grew(y, z, mid, hi)
    ensures Grew(x, z, lo, hi)
  {}

  lemma GrewLess(x: multiset<int>, y: multiset<int>, z: multiset<int>, lo: int, hi: int)
    requires Grew(x, y, lo, hi) && z <= y
    ensures Grew(x, z, lo, hi)
  {}

  lemma GrewBeside(x: multiset<int>, y: multiset<int>, w: multiset<int>, lo: int, hi: int)
    requires Grew(x, y, lo, hi)
    ensures Grew(x + w, y + w, lo, hi)
  {}

  /** One more request, granted blocks before the others are. */
  lemma ConsGrew(x: multiset<int>, x': multiset<int>, y: multiset<int>, y': multiset<int>, lo: int, mid: int, hi: int)
    requires Grew(x, x', lo, mid) && Grew(y, y', mid, hi)
    ensures Grew(x + y, x' + y', lo, hi)
  {}

  lemma {:induction false} JoinBlocks(p: seq<Req>, q: seq<Req>)
    ensures BlockBag(p + q) == BlockBag(p) + BlockBag(q)
  {
    hide KvBag;
    if p == [] {
      assert p + q == q;
    } else {
      JoinBlocks(p[1..], q);
      assert (p + q)[1..] == p[1..] + q;
    }
  }

  lemma {:induction false} RunOnce(lo: int, n: nat)
    ensures Grew(multiset{}, multiset(Consecutive(lo, n)), lo, lo + n)
  {
    if n > 0 {
      RunOnce(lo, n - 1);
      assert Consecutive(lo, n) == Consecutive(lo, n - 1) + [lo + n - 1];
    } else {
      assert Consecutive(lo, 0) == [];
    }
  }

  lemma GrantHead(kv: seq<Kv>, n: nat, lo: int)
    requires kv != []
    ensures KvBag(kv) == multiset(kv[0].table) + KvBag(kv[1..])
    ensures KvBag(GrantLayers(kv, n, lo))
         == multiset(kv[0].table) + multiset(Consecutive(lo, n)) + KvBag(GrantLayers(kv[1..], n, lo + n))
  {
    hide Consecutive;
    var r := GrantLayers(kv, n, lo);
    assert r[0].table == kv[0].table + Consecutive(lo, n);
    assert r[1..] == GrantLayers(kv[1..], n, lo + n);
  }

  lemma LayerGrew(t: multiset<int>, added: multiset<int>, rest: multiset<int>, rest': multiset<int>, lo: int,
      mid: int, hi: int)
    requires Grew(multiset{}, added, lo, mid) && Grew(rest, rest', mid, hi)
    ensures Grew(t + rest, t + added + rest', lo, hi)
  {}

  lemma GrewNot(x: multiset<int>, lo: int)
    ensures Grew(x, x, lo, lo)
  {}

  /** The blocks of k layers, n for each. */
  function Total(n: nat, k: nat): nat { if k == 0 then 0 else n + Total(n, k - 1) }

  lemma {:induction false} TotalIs(n: nat, k: nat)
    ensures Total(n, k) == n * k
  {
    if k > 0 {
      TotalIs(n, k - 1);
      assert n * k == n + n * (k - 1);
    }
  }

  lemma {:induction false} GrantGrew(kv: seq<Kv>, n: nat, lo: int, hi: int)
    requires hi == lo + Total(n, |kv|)
    ensures Grew(KvBag(kv), KvBag(GrantLayers(kv, n, lo)), lo, hi)
  {
    if kv != [] {
      var mid := lo + n;
      assert hi == mid + Total(n, |kv[1..]|);
      hide *;
      GrantGrew(kv[1..], n, mid, hi);
      GrantStep(kv, n, lo, hi);
    } else {
      hide KvBag, Total;
      assert GrantLayers(kv, n, lo) == kv && hi == lo by { NoLayers(n, lo); }
      GrewNot(KvBag(kv), lo);
    }
  }

  lemma NoLayers(n: nat, lo: int)
    ensures Total(n, 0) == 0 && GrantLayers([], n, lo) == []
  {}

  lemma GrantStep(kv: seq<Kv>, n: nat, lo: int, hi: int)
    requires kv != [] && Grew(KvBag(kv[1..]), KvBag(GrantLayers(kv[1..], n, lo + n)), lo + n, hi)
    ensures Grew(KvBag(kv), KvBag(GrantLayers(kv, n, lo)), lo, hi)
  {
    hide *;
    RunOnce(lo, n);
    GrantHead(kv, n, lo);
    LayerGrew(multiset(kv[0].table), multiset(Consecutive(lo, n)), KvBag(kv[1..]),
              KvBag(GrantLayers(kv[1..], n, lo + n)), lo, lo + n, hi);
  }

  lemma CallGrew(op: Op, a: Alloc, r: Req)
    requires a.policy.Bump?
    ensures var t := Call(op, a, r);
            t.alloc.policy == a.policy && Grew(KvBag(r.kv), KvBag(t.req.kv), a.nextBlock, t.alloc.nextBlock)
  {
    var n := Need(op, r);
    TotalIs(n, |r.kv|);
    GrantGrew(r.kv, n, a.nextBlock, a.nextBlock + n * |r.kv|);
  }

  lemma AttemptGrew(g: Gate, a: Alloc, r: Req)
    requires a.policy.Bump?
    ensures var t := Attempt(g, a, r);
            t.alloc.policy == a.policy && Grew(KvBag(r.kv), KvBag(t.req.kv), a.nextBlock, t.alloc.nextBlock)
  {
    hide KvBag, Call;
    CallGrew(if g.AdmitDecode? then AllocDecode else if g.RetrySwapIn? then SwapIn else AllocPrefill, a, r);
  }

  lemma {:induction false} SieveGrew(g: Gate, q: seq<Req>, a: Alloc)
    requires a.policy.Bump?
    ensures var s := Sieve(g, q, a);
            && s.alloc.policy == a.policy
            && Grew(BlockBag(q), BlockBag(s.yes) + BlockBag(s.no), a.nextBlock, s.alloc.nextBlock)
  {
    if q != [] {
      hide Attempt, KvBag;
      var t := Attempt(g, a, q[0]);
      AttemptGrew(g, a, q[0]);
      SieveGrew(g, q[1..], t.alloc);
      var s, e := Sieve(g, q, a), Sieve(g, q[1..], t.alloc);
      ConsGrew(KvBag(q[0].kv), KvBag(t.req.kv), BlockBag(q[1..]), BlockBag(e.yes) + BlockBag(e.no),
               a.nextBlock, t.alloc.nextBlock, s.alloc.nextBlock);
      assert BlockBag(s.yes) + BlockBag(s.no) == KvBag(t.req.kv) + (BlockBag(e.yes) + BlockBag(e.no));
    }
  }

  lemma {:induction false} AdmitGrew(q: seq<Req>, a: Alloc)
    requires a.policy.Bump?
    ensures var s := Admit(q, a);
            && s.alloc.policy == a.policy
            && Grew(BlockBag(q), BlockBag(s.yes) + BlockBag(s.no) + BlockBag(s.rest), a.nextBlock, s.alloc.nextBlock)
  {
    if q != [] {
      hide Attempt, KvBag;
      var t := Attempt(AdmitPrefill, a, q[0]);
      AttemptGrew(AdmitPrefill, a, q[0]);
      var s := Admit(q, a);
      if t.ok {
        AdmitGrew(q[1..], t.alloc);
        var e := Admit(q[1..], t.alloc);
        ConsGrew(KvBag(q[0].kv), KvBag(t.req.kv), BlockBag(q[1..]), BlockBag(e.yes) + BlockBag(e.no) + BlockBag(e.rest),
                 a.nextBlock, t.alloc.nextBlock, s.alloc.nextBlock);
        assert BlockBag(s.yes) + BlockBag(s.no) + BlockBag(s.rest)
            == KvBag(t.req.kv) + (BlockBag(e.yes) + BlockBag(e.no) + BlockBag(e.rest));
      } else {
        GrewBeside(KvBag(q[0].kv), KvBag(t.req.kv), BlockBag(q[1..]), a.nextBlock, t.alloc.nextBlock);
        assert [t.req][1..] == [];
        assert BlockBag([t.req]) == KvBag(t.req.kv);
      }
    }
  }

  lemma {:induction false} ReverseBlocks(q: seq<Req>)
    ensures BlockBag(Reverse(q)) == BlockBag(q)
  {
    if q != [] {
      ReverseBlocks(q[1..]);
      JoinBlocks(Reverse(q[1..]), [q[0]]);
      assert [q[0]][1..] == [];
      assert BlockBag([q[0]]) == KvBag(q[0].kv);
    }
  }

  lemma {:induction false} ReadiedBlocks(q: seq<Req>)
    ensures BlockBag(Readied(q)) == BlockBag(q)
  {
    if q != [] {
      ReadiedBlocks(q[1..]);
      assert Readied(q)[1..] == Readied(q[1..]);
    }
  }

  lemma HeadBlocks(q: seq<Req>)
    requires q != []
    ensures BlockBag(q) == KvBag(q[0].kv) + BlockBag(q[1..])
  {}

  lemma ConsBlocks(r: Req, q: seq<Req>)
    ensures BlockBag([r] + q) == KvBag(r.kv) + BlockBag(q)
  {
    hide KvBag;
    assert ([r] + q)[1..] == q;
  }

  lemma {:induction false} FillGrew(kind: Kind, w: nat, q: seq<Req>, a: Alloc)
    requires a.policy.Bump?
    ensures var f := FillBatch(kind, w, q, a);
            && f.alloc.policy == a.policy
            && Grew(BlockBag(q), BlockBag(f.batch) + BlockBag(f.deferred) + BlockBag(f.rest), a.nextBlock,
                f.alloc.nextBlock)
    decreases |q|
  {
    if q != [] && w > 0 {
      hide Attempt, KvBag, BlockBag, Grew, Enter;
      EnterGrew(kind, a, q[0]);
      var t := Enter(kind, a, q[0]);
      var w' := if t.ok then w - 1 else w;
      FillGrew(kind, w', q[1..], t.alloc);
      var f, e := FillBatch(kind, w, q, a), FillBatch(kind, w', q[1..], t.alloc);
      HeadBlocks(q);
      ConsBlocks(t.req, if t.ok then e.batch else e.deferred);
      ConsGrew(KvBag(q[0].kv), KvBag(t.req.kv), BlockBag(q[1..]),
               BlockBag(e.batch) + BlockBag(e.deferred) + BlockBag(e.rest),
               a.nextBlock, t.alloc.nextBlock, f.alloc.nextBlock);
      assert BlockBag(f.batch) + BlockBag(f.deferred) + BlockBag(f.rest)
          == KvBag(t.req.kv) + (BlockBag(e.batch) + BlockBag(e.deferred) + BlockBag(e.rest));
    } else {
      hide KvBag;
    }
  }

  lemma EnterGrew(kind: Kind, a: Alloc, r: Req)
    requires a.policy.Bump?
    ensures var t := Enter(kind, a, r);
            t.alloc.policy == a.policy && Grew(KvBag(r.kv), KvBag(t.req.kv), a.nextBlock, t.alloc.nextBlock)
  {
    hide Attempt, KvBag;
    AttemptGrew(AdmitDecode, a, r);
  }

  lemma {:induction false} SameTables(kv: seq<Kv>, kv': seq<Kv>)
    requires |kv'| == |kv| && forall i :: 0 <= i < |kv| ==> kv'[i].table == kv[i].table
    ensures KvBag(kv') == KvBag(kv)
  {
    if kv != [] { SameTables(kv[1..], kv'[1..]); }
  }

  lemma {:induction false} NoTables(kv: seq<Kv>)
    requires forall i :: 0 <= i < |kv| ==> kv[i].table == []
    ensures KvBag(kv) == multiset{}
  {
    if kv != [] { NoTables(kv[1..]); }
  }

  lemma CompleteGrew(kind: Kind, r: Req, reply: Resp)
    ensures KvBag(Complete(kind, r, reply).0.kv) <= KvBag(r.kv)
  {
    var (s, resp) := Complete(kind, r, reply);
    if resp.finished { NoTables(s.kv); } else { SameTables(r.kv, s.kv); }
  }

  lemma AddLess(x: multiset<int>, x': multiset<int>, y: multiset<int>, y': multiset<int>)
    requires x <= x' && y <= y'
    ensures x + y <= x' + y'
  {}

  lemma {:induction false} CompleteFromBlocks(kind: Kind, batch: seq<Req>, replies: seq<Resp>, i: nat)
    requires i <= |batch|
    ensures var c := CompleteFrom(kind, batch, replies, i);
            BlockBag(c.alive) + BlockBag(c.dead) <= BlockBag(batch[i..])
    decreases |batch| - i
  {
    hide KvBag, BlockBag, Complete, ReplyAt;
    if i < |batch| {
      var (r, resp) := Complete(kind, batch[i], ReplyAt(replies, i, batch[i]));
      CompleteGrew(kind, batch[i], ReplyAt(replies, i, batch[i]));
      CompleteFromBlocks(kind, batch, replies, i + 1);
      var e := CompleteFrom(kind, batch, replies, i + 1);
      assert batch[i..] == [batch[i]] + batch[i + 1..];
      ConsBlocks(batch[i], batch[i + 1..]);
      ConsBlocks(r, if resp.finished then e.dead else e.alive);
      AddLess(KvBag(r.kv), KvBag(batch[i].kv), BlockBag(e.alive) + BlockBag(e.dead), BlockBag(batch[i + 1..]));
    } else {
      NoBlocks();
      assert batch[i..] == [];
    }
  }

  lemma NoBlocks()
    ensures BlockBag([]) == multiset{}
  {}

  lemma ServeBlocks(be: Backend, kind: Kind, batch: seq<Req>)
    ensures var c := Serve(be, kind, batch); BlockBag(c.alive) + BlockBag(c.dead) <= BlockBag(batch)
  {
    if batch != [] {
      CompleteFromBlocks(kind, batch, be.Reply(kind, batch), 0);
      assert batch[0..] == batch;
    }
  }

  lemma {:induction false} RunGrew(be: Backend, kind: Kind, w: nat, q: seq<Req>, a: Alloc)
    requires w > 0 && a.policy.Bump?
    ensures var o := RunBatches(be, kind, w, q, a);
            && o.alloc.policy == a.policy
            && Grew(BlockBag(q), BlockBag(o.alive) + BlockBag(o.dead) + BlockBag(o.deferred), a.nextBlock,
                o.alloc.nextBlock)
    decreases |q|
  {
    if q != [] {
      var f := FillBatch(kind, w, q, a);
      FillGrew(kind, w, q, a);
      ServeBlocks(be, kind, f.batch);
      hide FillBatch, Serve, BlockBag, Grew;
      var c := Serve(be, kind, f.batch);
      RunGrew(be, kind, w, f.rest, f.alloc);
      var o, e := RunBatches(be, kind, w, q, a), RunBatches(be, kind, w, f.rest, f.alloc);
      JoinBlocks(c.alive, e.alive);
      JoinBlocks(c.dead, e.dead);
      JoinBlocks(f.deferred, e.deferred);
      var mine := BlockBag(c.alive) + BlockBag(c.dead) + BlockBag(f.deferred);
      var next := BlockBag(e.alive) + BlockBag(e.dead) + BlockBag(e.deferred);
      assert BlockBag(o.alive) + BlockBag(o.dead) + BlockBag(o.deferred) == next + mine;
      GrewLess(BlockBag(q), BlockBag(f.batch) + BlockBag(f.deferred) + BlockBag(f.rest), BlockBag(f.rest) + mine,
               a.nextBlock, f.alloc.nextBlock);
      GrewBeside(BlockBag(f.rest), next, mine, f.alloc.nextBlock, o.alloc.nextBlock);
      GrewTwice(BlockBag(q), BlockBag(f.rest) + mine, next + mine, a.nextBlock, f.alloc.nextBlock, o.alloc.nextBlock);
    }
  }

  lemma TakeOutBlocks(q: seq<Req>, i: nat)
    requires i < |q|
    ensures BlockBag(q[..i] + q[i + 1..]) + KvBag(q[i].kv) == BlockBag(q)
  {
    hide KvBag, BlockBag;
    JoinBlocks(q[..i], q[i + 1..]);
    JoinBlocks(q[..i], q[i..]);
    HeadBlocks(q[i..]);
    assert q == q[..i] + q[i..];
    assert q[i..][1..] == q[i + 1..];
  }

  lemma OneBlocks(r: Req)
    ensures BlockBag([r]) == KvBag(r.kv)
  {
    assert [r][1..] == [];
  }

  lemma EvictGrew(q: seq<Req>, a: Alloc)
    requires a.policy.Bump?
    ensures var e := EvictFrom(q, a);
            && e.alloc.policy == a.policy
            && Grew(BlockBag(q), BlockBag(e.q) + BlockBag(e.victim), a.nextBlock, e.alloc.nextBlock)
  {
    var i := FirstVictim(q);
    hide Call, KvBag, FirstVictim, BlockBag, Grew;
    if i < |q| {
      VictimGrew(q, a, i);
    } else {
      assert BlockBag(q) + BlockBag([]) == BlockBag(q) by { JoinBlocks(q, []); assert q + [] == q; }
      GrewNot(BlockBag(q), a.nextBlock);
    }
  }

  lemma VictimGrew(q: seq<Req>, a: Alloc, i: nat)
    requires a.policy.Bump? && i < |q|
    ensures var t := Call(SwapOut, a, q[i]);
            var rest, s := q[..i] + q[i + 1..], t.req.(state := if t.ok then SwappedOut else q[i].state);
            && t.alloc.policy == a.policy
            && Grew(BlockBag(q), BlockBag(rest) + BlockBag([s]), a.nextBlock, t.alloc.nextBlock)
            && Grew(BlockBag(q), BlockBag(rest + [s]) + BlockBag([]), a.nextBlock, t.alloc.nextBlock)
  {
    hide Call, KvBag;
    var t := Call(SwapOut, a, q[i]);
    CallGrew(SwapOut, a, q[i]);
    TakeOutBlocks(q, i);
    var rest := q[..i] + q[i + 1..];
    hide BlockBag;
    GrewBeside(KvBag(q[i].kv), KvBag(t.req.kv), BlockBag(rest), a.nextBlock, t.alloc.nextBlock);
    var s := t.req.(state := if t.ok then SwappedOut else q[i].state);
    OneBlocks(s);
    JoinBlocks(rest, [s]);
    JoinBlocks(rest + [s], []);
    assert rest + [s] + [] == rest + [s];
  }

  // ---- the whole scheduler ----

  ghost function Blocks(st: St): multiset<int> {
    BlockBag(st.waiting) + BlockBag(st.deferredPrefill) + BlockBag(st.prefill) + BlockBag(st.decode)
    + BlockBag(st.deferredDecode) + BlockBag(st.swapOut) + BlockBag(st.finish)
  }

  /** Every block is in at most one place, and none that has not been handed out is anywhere. */
  ghost predicate NoSharing(st: St) {
    forall b :: Blocks(st)[b] <= 1 && (b in Blocks(st) ==> b < st.alloc.nextBlock)
  }

  lemma GrewKeeps(st: St, st': St)
    requires NoSharing(st) && Grew(Blocks(st), Blocks(st'), st.alloc.nextBlock, st'.alloc.nextBlock)
    ensures NoSharing(st')
  {
    hide Blocks;
    forall b
      ensures Blocks(st')[b] <= 1 && (b in Blocks(st') ==> b < st'.alloc.nextBlock)
    {
      assert Blocks(st)[b] <= 1 && (b in Blocks(st) ==> b < st.alloc.nextBlock);
    }
  }

  lemma SwapInNoSharing(st: St)
    requires st.alloc.policy.Bump? && NoSharing(st)
    ensures var s := RetrySwapInRequests(st).st; s.alloc.policy == st.alloc.policy && NoSharing(s)
  {
    hide BlockBag, Sieve;
    var s := Sieve(RetrySwapIn, st.swapOut, st.alloc);
    var st' := RetrySwapInRequests(st).st;
    SieveGrew(RetrySwapIn, st.swapOut, st.alloc);
    JoinBlocks(st.decode, s.yes);
    GrewKeeps(st, st');
  }

  lemma DecodeHalfNoSharing(be: Backend, st: St)
    requires st.alloc.policy.Bump? && NoSharing(st)
    ensures NoSharing(DecodeHalf(be, st).st)
  {
    hide BlockBag, Sieve, RunBatches, RetrySwapInRequests;
    SwapInNoSharing(st);
    var p := RetrySwapInRequests(st).st;
    var q := RetryDeferredDecode(p).st;
    ReadiedBlocks(p.deferredDecode);
    JoinBlocks(p.decode, Readied(p.deferredDecode));
    JoinBlocks(p.deferredDecode, []);
    NoBlocks();
    GrewKeeps(p, q);
    RunGrew(be, Decode, MAX_BATCH, q.decode, q.alloc);
    var o := RunBatches(be, Decode, MAX_BATCH, q.decode, q.alloc);
    JoinBlocks(q.finish, o.dead);
    JoinBlocks(q.deferredDecode, o.deferred);
    GrewKeeps(q, RunDecodeBatch(be, MAX_BATCH, q).st);
  }

  lemma AdmitNoSharing(st: St)
    requires st.alloc.policy.Bump? && NoSharing(st)
    ensures var r := AdmitWaitingPrefill(st).st; r.alloc.policy == st.alloc.policy && NoSharing(r)
  {
    hide BlockBag, Admit;
    AdmitGrew(st.waiting, st.alloc);
    var s := Admit(st.waiting, st.alloc);
    JoinBlocks(st.prefill, s.yes);
    JoinBlocks(st.deferredPrefill, s.no);
    GrewKeeps(st, AdmitWaitingPrefill(st).st);
  }

  lemma RunPrefillNoSharing(be: Backend, st: St)
    requires st.alloc.policy.Bump? && NoSharing(st)
    ensures NoSharing(RunPrefillBatch(be, MAX_BATCH, st).st)
  {
    hide BlockBag, RunBatches;
    RunGrew(be, Prefill, MAX_BATCH, st.prefill, st.alloc);
    PrefillAsksNothing(be, MAX_BATCH, st.prefill, st.alloc);
    var o := RunBatches(be, Prefill, MAX_BATCH, st.prefill, st.alloc);
    JoinBlocks(st.decode, o.alive);
    JoinBlocks(st.finish, o.dead);
    NoBlocks();
    GrewKeeps(st, RunPrefillBatch(be, MAX_BATCH, st).st);
  }

  lemma PrefillHalfNoSharing(be: Backend, st: St)
    requires st.alloc.policy.Bump? && NoSharing(st)
    ensures NoSharing(PrefillHalf(be, st).st)
  {
    hide RunPrefillBatch, RetryDeferredPrefill, RetrySwapInRequests, AdmitWaitingPrefill, NoSharing;
    PrefillDeferredNoSharing(st);
    var q := RetryDeferredPrefill(RetrySwapInRequests(st).st).st;
    AdmitNoSharing(q);
    RunPrefillNoSharing(be, AdmitWaitingPrefill(q).st);
  }

  lemma PrefillDeferredNoSharing(st: St)
    requires st.alloc.policy.Bump? && NoSharing(st)
    ensures var q := RetryDeferredPrefill(RetrySwapInRequests(st).st).st;
            q.alloc.policy == st.alloc.policy && NoSharing(q)
  {
    hide BlockBag, Sieve, RetrySwapInRequests, Reverse;
    SwapInNoSharing(st);
    var p := RetrySwapInRequests(st).st;
    SieveGrew(RetryPrefill, p.deferredPrefill, p.alloc);
    var s := Sieve(RetryPrefill, p.deferredPrefill, p.alloc);
    ReverseBlocks(s.yes);
    JoinBlocks(Reverse(s.yes), p.prefill);
    GrewKeeps(p, RetryDeferredPrefill(p).st);
  }

  lemma VictimNoSharing(st: St)
    requires st.alloc.policy.Bump? && NoSharing(st)
    ensures NoSharing(TrySwapOutVictim(st).st)
  {
    hide BlockBag, EvictFrom;
    EvictGrew(st.deferredDecode, st.alloc);
    var e := EvictFrom(st.deferredDecode, st.alloc);
    JoinBlocks(st.swapOut, e.victim);
    var mid := st.(deferredDecode := e.q, swapOut := st.swapOut + e.victim, alloc := e.alloc);
    GrewKeeps(st, mid);
    if e.victim == [] {
      assert st.swapOut + e.victim == st.swapOut;
      EvictGrew(st.decode, e.alloc);
      var f := EvictFrom(st.decode, e.alloc);
      JoinBlocks(mid.swapOut, f.victim);
      GrewKeeps(mid, mid.(decode := f.q, swapOut := st.swapOut + f.victim, alloc := f.alloc));
    }
  }

  lemma SettleHalfNoSharing(st: St, progress: bool)
    requires st.alloc.policy.Bump? && NoSharing(st)
    ensures NoSharing(SettleHalf(st, progress).st)
  {
    hide RetrySwapInRequests, TrySwapOutVictim, NoSharing, St.Idle;
    SwapInNoSharing(st);
    var p := RetrySwapInRequests(st);
    VictimNoSharing(p.st);
    ResumedNoSharing(if !progress && !p.progress && !p.st.Idle() then TrySwapOutVictim(p.st).st else p.st);
  }

  lemma ResumedNoSharing(st: St)
    requires NoSharing(st)
    ensures NoSharing(st.(paused := false))
  {
    hide BlockBag;
    assert Blocks(st.(paused := false)) == Blocks(st);
  }

  // ---- what this means for addresses ----

  lemma {:induction false} InTable(q: seq<Req>, i: nat, l: nat, k: nat)
    requires i < |q| && l < |q[i].kv| && k < |q[i].kv[l].table|
    ensures q[i].kv[l].table[k] in KvBag(q[i].kv) && q[i].kv[l].table[k] in BlockBag(q)
  {
    InLayer(q[i].kv, l, k);
    if i > 0 { InTable(q[1..], i - 1, l, k); }
  }

  lemma {:induction false} InLayer(kv: seq<Kv>, l: nat, k: nat)
    requires l < |kv| && k < |kv[l].table|
    ensures kv[l].table[k] in KvBag(kv)
  {
    if l == 0 { assert kv[0].table[k] in multiset(kv[0].table); }
    else { InLayer(kv[1..], l - 1, k); }
  }

  lemma TwiceInTable(t: seq<int>, k: nat, k': nat)
    requires k < k' < |t| && t[k] == t[k']
    ensures multiset(t)[t[k]] >= 2
  {
    assert t == t[..k'] + t[k'..];
    assert multiset(t) == multiset(t[..k']) + multiset(t[k'..]);
    assert t[..k'][k] in multiset(t[..k']) && t[k'..][0] in multiset(t[k'..]);
  }

  lemma {:induction false} TwiceInKv(kv: seq<Kv>, l: nat, k: nat, l': nat, k': nat)
    requires l <= l' < |kv| && k < |kv[l].table| && k' < |kv[l'].table|
    requires l == l' ==> k < k'
    requires kv[l].table[k] == kv[l'].table[k']
    ensures KvBag(kv)[kv[l].table[k]] >= 2
  {
    if l > 0 {
      TwiceInKv(kv[1..], l - 1, k, l' - 1, k');
    } else if l == l' {
      TwiceInTable(kv[0].table, k, k');
    } else {
      assert kv[0].table[k] in multiset(kv[0].table);
      InLayer(kv[1..], l' - 1, k');
    }
  }

  lemma {:induction false} TwiceInQueue(q: seq<Req>, i: nat, l: nat, k: nat, i': nat, l': nat, k': nat)
    requires i <= i' < |q| && l < |q[i].kv| && k < |q[i].kv[l].table|
    requires l' < |q[i'].kv| && k' < |q[i'].kv[l'].table|
    requires i == i' ==> l <= l' && (l == l' ==> k < k')
    requires q[i].kv[l].table[k] == q[i'].kv[l'].table[k']
    ensures BlockBag(q)[q[i].kv[l].table[k]] >= 2
  {
    if i > 0 {
      TwiceInQueue(q[1..], i - 1, l, k, i' - 1, l', k');
    } else if i == i' {
      TwiceInKv(q[0].kv, l, k, l', k');
    } else {
      InTable(q, 0, l, k);
      InTable(q[1..], i' - 1, l', k');
    }
  }

  lemma BlocksOfAll(st: St)
    ensures BlockBag(st.All()) == Blocks(st)
  {
    var a, b, c, d, e, f, g := st.waiting, st.deferredPrefill, st.prefill, st.decode, st.deferredDecode,
        st.swapOut, st.finish;
    JoinBlocks(a, b);
    JoinBlocks(a + b, c);
    JoinBlocks(a + b + c, d);
    JoinBlocks(a + b + c + d, e);
    JoinBlocks(a + b + c + d + e, f);
    JoinBlocks(a + b + c + d + e + f, g);
  }

  lemma AtMostOnce(st: St, b: int)
    requires NoSharing(st)
    ensures Blocks(st)[b] <= 1
  {
    hide Blocks;
  }

  /** Where token t of layer l of a request is cached: physical block and offset in it. */
  function Address(r: Req, l: nat, t: nat): (int, nat)
    requires l < |r.kv| && t / KV_BLOCK < |r.kv[l].table|
  {
    (r.kv[l].table[t / KV_BLOCK], t % KV_BLOCK)
  }

  /** Every cached token of every layer of every request has an address. */
  lemma AddressDefined(st: St, i: nat, l: nat, t: nat)
    requires Placed(st) && st.alloc.policy.Bump? && i < |st.All()|
    requires l < |st.All()[i].kv| && t < st.All()[i].kv[l].numTokens
    ensures t / KV_BLOCK < |st.All()[i].kv[l].table|
  {
    var r := st.All()[i];
    assert exists p :: Fits(true, p, r) by { PlaceOf(st, i); }
  }

  lemma PlaceOf(st: St, i: nat)
    requires Placed(st) && i < |st.All()|
    ensures exists p: Place :: !p.Batched? && Fits(st.alloc.policy.Bump?, p, st.All()[i])
  {
    hide Fits;
    var w, x, y, z, v, u := |st.waiting|, |st.deferredPrefill|, |st.prefill|, |st.decode|, |st.deferredDecode|,
        |st.swapOut|;
    var r := st.All()[i];
    var tables := st.alloc.policy.Bump?;
    if i < w { assert r == st.waiting[i] && Fits(tables, Waiting, r); }
    else if i < w + x { assert r == st.deferredPrefill[i - w] && Fits(tables, DeferredPre, r); }
    else if i < w + x + y { assert r == st.prefill[i - w - x] && Fits(tables, Place.Admitted, r); }
    else if i < w + x + y + z { assert r == st.decode[i - w - x - y] && Fits(tables, Ready, r); }
    else if i < w + x + y + z + v { assert r == st.deferredDecode[i - w - x - y - z] && Fits(tables, DeferredDec, r); }
    else if i < w + x + y + z + v + u { assert r == st.swapOut[i - w - x - y - z - v] && Fits(tables, Swapped, r); }
    else { assert r == st.finish[i - w - x - y - z - v - u] && Fits(tables, Done, r); }
  }

  /** Two cached tokens with the same address are the same token of the same layer of the same request. */
  lemma AddressesDoNotAlias(st: St, i: nat, l: nat, t: nat, i': nat, l': nat, t': nat)
    requires NoSharing(st)
    requires i < |st.All()| && i' < |st.All()|
    requires l < |st.All()[i].kv| && t / KV_BLOCK < |st.All()[i].kv[l].table|
    requires l' < |st.All()[i'].kv| && t' / KV_BLOCK < |st.All()[i'].kv[l'].table|
    requires Address(st.All()[i], l, t) == Address(st.All()[i'], l', t')
    ensures i == i' && l == l' && t == t'
  {
    var q, k, k' := st.All(), t / KV_BLOCK, t' / KV_BLOCK;
    BlocksOfAll(st);
    AtMostOnce(st, q[i].kv[l].table[k]);
    if i < i' || (i == i' && (l < l' || (l == l' && k < k'))) {
      TwiceInQueue(q, i, l, k, i', l', k');
    } else if i' < i || (i == i' && (l' < l || (l == l' && k' < k))) {
      TwiceInQueue(q, i', l', k', i, l, k);
    }
  }
}
