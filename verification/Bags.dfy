/** Requests are neither lost nor duplicated: what a phase does to the multiset of requests. */
module Bags {
  import opened Types
  import opened Allocation
  import opened Backends
  import opened SchedulerModel
  import opened Placement

  function CoreBag(q: seq<Req>): multiset<Core> { multiset(Cores(q)) }
  function OriginBag(q: seq<Req>): multiset<Origin> { multiset(Origins(q)) }

  lemma JoinBags(p: seq<Req>, q: seq<Req>)
    ensures CoreBag(p + q) == CoreBag(p) + CoreBag(q)
    ensures OriginBag(p + q) == OriginBag(p) + OriginBag(q)
  {
    assert Cores(p + q) == Cores(p) + Cores(q);
    assert Origins(p + q) == Origins(p) + Origins(q);
  }

  lemma HeadBags(q: seq<Req>)
    requires q != []
    ensures CoreBag(q) == multiset{q[0].ToCore()} + CoreBag(q[1..])
    ensures OriginBag(q) == multiset{q[0].ToOrigin()} + OriginBag(q[1..])
  {
    JoinBags([q[0]], q[1..]);
    assert q == [q[0]] + q[1..];
    assert Cores([q[0]]) == [q[0].ToCore()];
    assert Origins([q[0]]) == [q[0].ToOrigin()];
  }

  lemma InBag(q: seq<Req>, i: nat)
    requires i < |q|
    ensures q[i].ToCore() in CoreBag(q) && q[i].ToOrigin() in OriginBag(q)
  {
    assert Cores(q)[i] in Cores(q) && Origins(q)[i] in Origins(q);
  }

  /** The same submission with the same tokens, unfinished before and after. */
  ghost predicate Same(r: Req, s: Req) {
    r.ToCore() == s.ToCore() && r.ToOrigin() == s.ToOrigin()
  }

  lemma AttemptSame(g: Gate, a: Alloc, r: Req)
    requires r.state != Finished
    ensures Same(r, Attempt(g, a, r).req)
  {}

  ghost predicate Unfinished(q: seq<Req>) { forall i :: 0 <= i < |q| ==> q[i].state != Finished }

  lemma {:induction false} SieveBags(g: Gate, q: seq<Req>, a: Alloc)
    requires Unfinished(q)
    ensures var s := Sieve(g, q, a);
            CoreBag(s.yes) + CoreBag(s.no) == CoreBag(q) && OriginBag(s.yes) + OriginBag(s.no) == OriginBag(q)
  {
    hide Attempt, CoreBag, OriginBag;
    if q == [] {
      assert CoreBag(q + q) == CoreBag(q) + CoreBag(q) by { JoinBags(q, q); }
      assert OriginBag(q + q) == OriginBag(q) + OriginBag(q) by { JoinBags(q, q); }
      assert q + q == q;
    } else {
      var t := Attempt(g, a, q[0]);
      AttemptSame(g, a, q[0]);
      SieveBags(g, q[1..], t.alloc);
      var s := Sieve(g, q[1..], t.alloc);
      HeadBags(q);
      HeadBags([t.req] + if t.ok then s.yes else s.no);
    }
  }

  lemma {:induction false} AdmitBags(q: seq<Req>, a: Alloc)
    requires Unfinished(q)
    ensures var s := Admit(q, a);
            && CoreBag(s.yes) + CoreBag(s.no) + CoreBag(s.rest) == CoreBag(q)
            && OriginBag(s.yes) + OriginBag(s.no) + OriginBag(s.rest) == OriginBag(q)
  {
    if q != [] {
      hide Attempt;
      var t := Attempt(AdmitPrefill, a, q[0]);
      AttemptSame(AdmitPrefill, a, q[0]);
      HeadBags(q);
      if t.ok {
        AdmitBags(q[1..], t.alloc);
        HeadBags([t.req] + Admit(q[1..], t.alloc).yes);
      } else {
        HeadBags([t.req]);
      }
    }
  }

  lemma {:induction false} ReverseBags(q: seq<Req>)
    ensures CoreBag(Reverse(q)) == CoreBag(q) && OriginBag(Reverse(q)) == OriginBag(q)
  {
    if q != [] {
      ReverseBags(q[1..]);
      JoinBags(Reverse(q[1..]), [q[0]]);
      HeadBags(q);
      HeadBags([q[0]]);
    }
  }

  lemma {:induction false} ReadiedBags(q: seq<Req>)
    requires Unfinished(q)
    ensures CoreBag(Readied(q)) == CoreBag(q) && OriginBag(Readied(q)) == OriginBag(q)
  {
    assert Cores(Readied(q)) == Cores(q);
    assert Origins(Readied(q)) == Origins(q);
  }

  /** Taking one request out of a queue, whatever is then done to its state and tables. */
  lemma TakeOutBags(q: seq<Req>, i: nat, s: Req)
    requires i < |q| && Same(q[i], s)
    ensures CoreBag(q[..i] + q[i + 1..]) + CoreBag([s]) == CoreBag(q)
    ensures OriginBag(q[..i] + q[i + 1..]) + OriginBag([s]) == OriginBag(q)
  {
    assert Cores(q) == Cores(q[..i]) + [s.ToCore()] + Cores(q[i + 1..]);
    assert Origins(q) == Origins(q[..i]) + [s.ToOrigin()] + Origins(q[i + 1..]);
    JoinBags(q[..i], q[i + 1..]);
    assert Cores([s]) == [s.ToCore()] && Origins([s]) == [s.ToOrigin()];
  }

  lemma EvictBags(q: seq<Req>, a: Alloc)
    requires Unfinished(q)
    ensures var e := EvictFrom(q, a);
            && CoreBag(e.q) + CoreBag(e.victim) == CoreBag(q)
            && OriginBag(e.q) + OriginBag(e.victim) == OriginBag(q)
  {
    var i := FirstVictim(q);
    var e := EvictFrom(q, a);
    if i < |q| {
      var t := Call(SwapOut, a, q[i]);
      var s := t.req.(state := if t.ok then SwappedOut else q[i].state);
      assert Same(q[i], s);
      hide Call, CoreBag, OriginBag, Same, FirstVictim;
      TakeOutBags(q, i, s);
      if t.ok {
        assert e.q == q[..i] + q[i + 1..] && e.victim == [s];
      } else {
        assert e.q == q[..i] + q[i + 1..] + [s] && e.victim == [];
        JoinBags(q[..i] + q[i + 1..], [s]);
        NoneBags(e.q);
      }
    } else {
      NoneBags(q);
    }
  }

  lemma NoneBags(q: seq<Req>)
    ensures CoreBag(q) + CoreBag([]) == CoreBag(q) && OriginBag(q) + OriginBag([]) == OriginBag(q)
  {
    assert Cores([]) == [] && Origins([]) == [];
  }

  // ---- a batch keeps every submission, though it changes the tokens ----

  lemma ConsOrigins(r: Req, s: Req, q: seq<Req>)
    requires Same(r, s) || r == s
    ensures OriginBag([r] + q) == OriginBag([s]) + OriginBag(q)
  {
    JoinBags([r], q);
    assert Origins([r]) == [r.ToOrigin()] && Origins([s]) == [s.ToOrigin()];
  }

  lemma {:induction false} FillOrigins(kind: Kind, w: nat, q: seq<Req>, a: Alloc)
    requires Unfinished(q)
    ensures var f := FillBatch(kind, w, q, a);
            OriginBag(f.batch) + OriginBag(f.deferred) + OriginBag(f.rest) == OriginBag(q)
    decreases |q|
  {
    if q == [] || w == 0 {
      assert OriginBag([]) == multiset{};
    } else {
      var t := Enter(kind, a, q[0]);
      AttemptSame(AdmitDecode, a, q[0]);
      assert Same(q[0], t.req);
      hide Attempt, Enter, CoreBag, OriginBag, Same;
      var w' := if t.ok then w - 1 else w;
      var f, e := FillBatch(kind, w, q, a), FillBatch(kind, w', q[1..], t.alloc);
      assert f == if t.ok then e.(batch := [t.req] + e.batch) else e.(deferred := [t.req] + e.deferred);
      hide *;
      FillOrigins(kind, w', q[1..], t.alloc);
      assert q == [q[0]] + q[1..];
      ConsOrigins(q[0], t.req, q[1..]);
      ConsOrigins(t.req, t.req, if t.ok then e.batch else e.deferred);
      PutOne(OriginBag([t.req]), OriginBag(e.batch), OriginBag(e.deferred), OriginBag(e.rest));
    }
  }

  lemma PutOne<T>(x: multiset<T>, a: multiset<T>, b: multiset<T>, c: multiset<T>)
    ensures (x + a) + b + c == x + (a + b + c) && a + (x + b) + c == x + (a + b + c)
  {}

  lemma CompleteOrigin(kind: Kind, r: Req, reply: Resp)
    requires r.promptLen <= |r.tokens|
    ensures Complete(kind, r, reply).0.ToOrigin() == r.ToOrigin()
  {
    assert (r.tokens + [reply.token])[..r.promptLen] == r.tokens[..r.promptLen];
  }

  lemma {:induction false} CompleteFromOrigins(kind: Kind, batch: seq<Req>, replies: seq<Resp>, i: nat)
    requires i <= |batch| && forall j :: 0 <= j < |batch| ==> batch[j].promptLen <= |batch[j].tokens|
    ensures var c := CompleteFrom(kind, batch, replies, i);
            OriginBag(c.alive) + OriginBag(c.dead) == OriginBag(batch[i..])
    decreases |batch| - i
  {
    if i < |batch| {
      var (r, resp) := Complete(kind, batch[i], ReplyAt(replies, i, batch[i]));
      CompleteOrigin(kind, batch[i], ReplyAt(replies, i, batch[i]));
      hide Complete;
      CompleteFromOrigins(kind, batch, replies, i + 1);
      var c := CompleteFrom(kind, batch, replies, i + 1);
      HeadBags(batch[i..]);
      HeadBags([r] + if resp.finished then c.dead else c.alive);
    }
  }

  lemma ServeOrigins(be: Backend, kind: Kind, batch: seq<Req>)
    requires forall j :: 0 <= j < |batch| ==> batch[j].promptLen <= |batch[j].tokens|
    ensures var c := Serve(be, kind, batch);
            OriginBag(c.alive) + OriginBag(c.dead) == OriginBag(batch)
  {
    if batch != [] {
      CompleteFromOrigins(kind, batch, be.Reply(kind, batch), 0);
      assert batch[0..] == batch;
    }
  }

  lemma {:induction false} RunOrigins(be: Backend, kind: Kind, w: nat, q: seq<Req>, a: Alloc)
    requires w > 0 && AllFit(a.policy.Bump?, Source(kind), q)
    ensures var o := RunBatches(be, kind, w, q, a);
            OriginBag(o.alive) + OriginBag(o.dead) + OriginBag(o.deferred) == OriginBag(q)
    decreases |q|
  {
    if q != [] {
      FillFits(kind, w, q, a);
      FillOrigins(kind, w, q, a);
      var f := FillBatch(kind, w, q, a);
      ServeOrigins(be, kind, f.batch);
      hide CoreBag, OriginBag, FillBatch, Serve, Fits;
      var c := Serve(be, kind, f.batch);
      RunOrigins(be, kind, w, f.rest, f.alloc);
      var o := RunBatches(be, kind, w, f.rest, f.alloc);
      JoinBags(c.alive, o.alive);
      JoinBags(c.dead, o.dead);
      JoinBags(f.deferred, o.deferred);
    }
  }

  /** A prefill batch makes no allocator call and defers nothing. */
  lemma {:induction false} PrefillFillsAll(w: nat, q: seq<Req>, a: Alloc)
    ensures var f := FillBatch(Prefill, w, q, a); f.alloc == a && f.deferred == []
    decreases |q|
  {
    if q != [] && w > 0 { PrefillFillsAll(w - 1, q[1..], a); }
  }

  lemma {:induction false} PrefillAsksNothing(be: Backend, w: nat, q: seq<Req>, a: Alloc)
    requires w > 0
    ensures var o := RunBatches(be, Prefill, w, q, a); o.alloc == a && o.deferred == []
    decreases |q|
  {
    if q != [] {
      PrefillFillsAll(w, q, a);
      PrefillAsksNothing(be, w, FillBatch(Prefill, w, q, a).rest, a);
    }
  }
}
