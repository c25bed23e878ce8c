/** Batch size is unobservable: a pointwise backend serves a queue as if one request at a time. */
module Batching {
  import opened Types
  import opened Allocation
  import opened Backends
  import opened SchedulerModel

  function ReplyTo(m: Model, kind: Kind, r: Req): Resp {
    var o := m.Step(kind, r.ToCore()); Resp(r.id, o.token, o.last)
  }

  /** The queue one request at a time: admit it, and if admitted complete it, before the next. */
  function RunEach(m: Model, kind: Kind, q: seq<Req>, a: Alloc): Outcome {
    if q == [] then Outcome([], [], [], [], a)
    else
      var t := Enter(kind, a, q[0]);
      var o := RunEach(m, kind, q[1..], t.alloc);
      if !t.ok then o.(deferred := [t.req] + o.deferred)
      else
        var (r, resp) := Complete(kind, t.req, ReplyTo(m, kind, t.req));
        if resp.finished then o.(dead := [r] + o.dead, out := [resp] + o.out)
        else o.(alive := [r] + o.alive, out := [resp] + o.out)
  }

  function CompleteEach(m: Model, kind: Kind, batch: seq<Req>): Completed {
    if batch == [] then Completed([], [], [])
    else
      var (r, resp) := Complete(kind, batch[0], ReplyTo(m, kind, batch[0]));
      var c := CompleteEach(m, kind, batch[1..]);
      if resp.finished then Completed(c.alive, [r] + c.dead, [resp] + c.out)
      else Completed([r] + c.alive, c.dead, [resp] + c.out)
  }

  lemma {:induction false} CompleteFromEach(m: Model, kind: Kind, batch: seq<Req>, i: nat)
    requires i <= |batch|
    ensures CompleteFrom(kind, batch, Replies(m, kind, batch), i) == CompleteEach(m, kind, batch[i..])
    decreases |batch| - i
  {
    hide Complete;
    if i < |batch| {
      CompleteFromEach(m, kind, batch, i + 1);
      assert batch[i..][1..] == batch[i + 1..];
    }
  }

  function Appended(c: Completed, deferred: seq<Req>, o: Outcome): Outcome {
    Outcome(c.alive + o.alive, c.dead + o.dead, deferred + o.deferred, c.out + o.out, o.alloc)
  }

  /** One more completed request in front of what the others give. */
  function Led(r: Req, resp: Resp, o: Outcome): Outcome {
    if resp.finished then o.(dead := [r] + o.dead, out := [resp] + o.out)
    else o.(alive := [r] + o.alive, out := [resp] + o.out)
  }

  lemma LedAppended(m: Model, kind: Kind, r: Req, batch: seq<Req>, deferred: seq<Req>, o: Outcome)
    ensures var (s, resp) := Complete(kind, r, ReplyTo(m, kind, r));
            Appended(CompleteEach(m, kind, [r] + batch), deferred, o)
            == Led(s, resp, Appended(CompleteEach(m, kind, batch), deferred, o))
  {
    hide Complete, ReplyTo;
    var (s, resp) := Complete(kind, r, ReplyTo(m, kind, r));
    assert ([r] + batch)[1..] == batch;
    var c := CompleteEach(m, kind, batch);
    assert [s] + c.alive + o.alive == [s] + (c.alive + o.alive);
    assert [s] + c.dead + o.dead == [s] + (c.dead + o.dead);
    assert [resp] + c.out + o.out == [resp] + (c.out + o.out);
  }

  lemma DeferredAppended(c: Completed, r: Req, deferred: seq<Req>, o: Outcome)
    ensures var p := Appended(c, deferred, o);
            Appended(c, [r] + deferred, o) == p.(deferred := [r] + p.deferred)
  {
    assert [r] + deferred + o.deferred == [r] + (deferred + o.deferred);
  }

  lemma {:induction false} FillThenEach(m: Model, kind: Kind, w: nat, q: seq<Req>, a: Alloc)
    ensures var f := FillBatch(kind, w, q, a);
            RunEach(m, kind, q, a) ==
            Appended(CompleteEach(m, kind, f.batch), f.deferred, RunEach(m, kind, f.rest, f.alloc))
    decreases |q|
  {
    hide Complete, Enter, ReplyTo, CompleteEach, Appended;
    var f := FillBatch(kind, w, q, a);
    if q == [] || w == 0 {
      NothingAppended(m, kind, RunEach(m, kind, q, a));
    } else {
      var t := Enter(kind, a, q[0]);
      var w' := if t.ok then w - 1 else w;
      var g := FillBatch(kind, w', q[1..], t.alloc);
      var o := RunEach(m, kind, g.rest, g.alloc);
      FillThenEach(m, kind, w', q[1..], t.alloc);
      if t.ok {
        LedAppended(m, kind, t.req, g.batch, g.deferred, o);
      } else {
        DeferredAppended(CompleteEach(m, kind, g.batch), t.req, g.deferred, o);
      }
    }
  }

  lemma NothingAppended(m: Model, kind: Kind, o: Outcome)
    ensures Appended(CompleteEach(m, kind, []), [], o) == o
  {}

  lemma {:induction false} RunBatchesIsRunEach(be: Backend, m: Model, kind: Kind, w: nat, q: seq<Req>, a: Alloc)
    requires w > 0 && Pointwise(be, m)
    ensures RunBatches(be, kind, w, q, a) == RunEach(m, kind, q, a)
    decreases |q|
  {
    if q != [] {
      var f := FillBatch(kind, w, q, a);
      FillThenEach(m, kind, w, q, a);
      RunBatchesIsRunEach(be, m, kind, w, f.rest, f.alloc);
      assert be.Reply(kind, f.batch) == Replies(m, kind, f.batch);
      CompleteFromEach(m, kind, f.batch, 0);
      assert f.batch[0..] == f.batch;
    }
  }

  /** Any two batch widths give the same queues, requests, block tables and response order. */
  lemma BatchSizeIsUnobservable(be: Backend, m: Model, kind: Kind, w: nat, v: nat, q: seq<Req>, a: Alloc)
    requires w > 0 && v > 0 && Pointwise(be, m)
    ensures RunBatches(be, kind, w, q, a) == RunBatches(be, kind, v, q, a)
  {
    RunBatchesIsRunEach(be, m, kind, w, q, a);
    RunBatchesIsRunEach(be, m, kind, v, q, a);
  }

  function Ids(q: seq<Req>): seq<nat> { seq(|q|, i requires 0 <= i < |q| => q[i].id) }
  function RespIds(q: seq<Resp>): seq<nat> { seq(|q|, i requires 0 <= i < |q| => q[i].id) }

  /** xs is ys with some elements left out. */
  predicate Subsequence(xs: seq<nat>, ys: seq<nat>) {
    xs == [] || (ys != [] && if xs[0] == ys[0] then Subsequence(xs[1..], ys[1..]) else Subsequence(xs, ys[1..]))
  }

  lemma {:induction false} DropFirst(xs: seq<nat>, ys: seq<nat>)
    requires xs != [] && Subsequence(xs, ys)
    ensures Subsequence(xs[1..], ys)
    decreases |ys|, 1
  {
    if xs[0] == ys[0] {
      SkipTail(ys[0], xs[1..], ys);
    } else {
      DropFirst(xs, ys[1..]);
      SkipTail(ys[0], xs[1..], ys);
    }
  }

  lemma {:induction false} SkipTail(x: nat, xs: seq<nat>, ys: seq<nat>)
    requires ys != [] && x == ys[0] && Subsequence(xs, ys[1..])
    ensures Subsequence(xs, ys)
    decreases |ys|, 0
  {
    if xs != [] && xs[0] == ys[0] {
      DropFirst(xs, ys[1..]);
    }
  }

  /** The request keeps its id through its turn, and so does its response for a pointwise backend. */
  lemma TurnIds(m: Model, kind: Kind, q: Req, a: Alloc)
    ensures var t := Enter(kind, a, q);
            var (r, resp) := Complete(kind, t.req, ReplyTo(m, kind, t.req));
            t.req.id == q.id && r.id == q.id && resp.id == q.id
  {}

  lemma ConsIds(r: Req, q: seq<Req>)
    ensures Ids([r] + q) == [r.id] + Ids(q)
  {}

  lemma ConsRespIds(r: Resp, q: seq<Resp>)
    ensures RespIds([r] + q) == [r.id] + RespIds(q)
  {}

  /** Survivors, finished requests, deferred requests and responses all keep the queue's order. */
  lemma {:induction false} RunKeepsOrder(m: Model, kind: Kind, q: seq<Req>, a: Alloc)
    ensures var o := RunEach(m, kind, q, a);
            && Subsequence(Ids(o.alive), Ids(q)) && Subsequence(Ids(o.dead), Ids(q))
            && Subsequence(Ids(o.deferred), Ids(q)) && Subsequence(RespIds(o.out), Ids(q))
  {
    hide Complete, Enter, ReplyTo, Ids, RespIds;
    if q == [] {
      assert Ids([]) == [] && RespIds([]) == [] by { NoIds(); }
    } else {
      var t := Enter(kind, a, q[0]);
      var (r, resp) := Complete(kind, t.req, ReplyTo(m, kind, t.req));
      RunKeepsOrder(m, kind, q[1..], t.alloc);
      var e := RunEach(m, kind, q[1..], t.alloc);
      TurnIds(m, kind, q[0], a);
      assert q == [q[0]] + q[1..];
      ConsIds(q[0], q[1..]);
      ConsIds(t.req, e.deferred);
      ConsIds(r, e.alive);
      ConsIds(r, e.dead);
      ConsRespIds(resp, e.out);
      Kept(q[0].id, Ids(e.alive), Ids(q[1..]));
      Kept(q[0].id, Ids(e.dead), Ids(q[1..]));
      Kept(q[0].id, Ids(e.deferred), Ids(q[1..]));
      Kept(q[0].id, RespIds(e.out), Ids(q[1..]));
    }
  }

  lemma NoIds()
    ensures Ids([]) == [] && RespIds([]) == []
  {}

  lemma Kept(x: nat, s: seq<nat>, t: seq<nat>)
    requires Subsequence(s, t)
    ensures Subsequence(s, [x] + t) && Subsequence([x] + s, [x] + t)
  {
    assert ([x] + t)[1..] == t && ([x] + s)[1..] == s;
    SkipTail(x, s, [x] + t);
  }
}
