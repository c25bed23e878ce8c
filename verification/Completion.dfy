/** What one batch does to each of its requests, whatever the backend replies. */
module Completion {
  import opened Types
  import opened Allocation
  import opened Backends
  import opened SchedulerModel
  import opened Batching
  import opened Order

  /** What the backend has said about request i of a batch; if it has said too little, an error token that ends the
      request. */
  function Said(replies: seq<Resp>, i: nat, r: Req): Resp {
    if i < |replies| then replies[i] else Resp(r.id, -1, true)
  }

  /** s is r with one token more. Finished it has given everything back; otherwise it is ready for the next token and
      every layer caches the prompt, after a prefill, or one token more, after a decode. */
  ghost predicate Updated(kind: Kind, r: Req, token: int, last: bool, s: Req) {
    && s.id == r.id && s.tokens == r.tokens + [token] && s.promptLen == r.promptLen && s.maxNew == r.maxNew
    && |s.kv| == |r.kv|
    && (last ==> s.state == Finished && s.residency == NoKv
                 && forall l :: 0 <= l < |s.kv| ==> s.kv[l].table == [] && s.kv[l].numTokens == 0)
    && (!last ==> s.state == DecodeReady && s.residency == r.residency
                  && forall l :: 0 <= l < |s.kv| ==>
                       && s.kv[l].table == r.kv[l].table
                       && s.kv[l].numTokens == if kind == Prefill then r.promptLen else r.kv[l].numTokens + 1)
  }

  lemma CompleteUpdates(kind: Kind, r: Req, reply: Resp)
    ensures var (s, resp) := Complete(kind, r, reply);
            var last := reply.finished || |r.tokens| + 1 - r.promptLen >= r.maxNew;
            resp == Resp(reply.id, reply.token, last) && Updated(kind, r, reply.token, last, s)
  {}

  lemma {:induction false} CompletedAt(kind: Kind, batch: seq<Req>, replies: seq<Resp>, k: nat, i: nat)
    requires k <= i < |batch|
    ensures var c := CompleteFrom(kind, batch, replies, k);
            var said := Said(replies, i, batch[i]);
            var last := said.finished || |batch[i].tokens| + 1 - batch[i].promptLen >= batch[i].maxNew;
            && |c.out| == |batch| - k && c.out[i - k] == Resp(said.id, said.token, last)
            && exists s :: s in (if last then c.dead else c.alive) && Updated(kind, batch[i], said.token, last, s)
    decreases |batch| - k
  {
    CompleteUpdates(kind, batch[k], ReplyAt(replies, k, batch[k]));
    hide Complete, Updated;
    var (r, resp) := Complete(kind, batch[k], ReplyAt(replies, k, batch[k]));
    var c := CompleteFrom(kind, batch, replies, k);
    if k == i {
      assert r in (if resp.finished then c.dead else c.alive);
    } else {
      CompletedAt(kind, batch, replies, k + 1, i);
    }
  }

  /** Each request of a batch gets one response, in its place: what the backend has said about it, and the last one
      if the backend says so or the request has all the tokens it asked for. */
  lemma ServedOne(be: Backend, kind: Kind, batch: seq<Req>, i: nat)
    requires i < |batch|
    ensures var c := Serve(be, kind, batch);
            var said := Said(be.Reply(kind, batch), i, batch[i]);
            var last := said.finished || |batch[i].tokens| + 1 - batch[i].promptLen >= batch[i].maxNew;
            && |c.out| == |batch| && c.out[i] == Resp(said.id, said.token, last)
            && exists s :: s in (if last then c.dead else c.alive) && Updated(kind, batch[i], said.token, last, s)
  {
    CompletedAt(kind, batch, be.Reply(kind, batch), 0, i);
  }

  // ---- the batches a queue is cut into ----

  /** The batches that RunBatches hands to the backend. */
  function Batches(kind: Kind, w: nat, q: seq<Req>, a: Alloc): seq<seq<Req>>
    requires w > 0
    decreases |q|
  {
    if q == [] then []
    else
      var f := FillBatch(kind, w, q, a);
      (if f.batch == [] then [] else [f.batch]) + Batches(kind, w, f.rest, f.alloc)
  }

  /** The batches in the list are all that RunBatches asks of the backend: one that replies alike to those
      serves the whole queue alike. */
  lemma {:induction false} BatchesAreTheCalls(b: Backend, c: Backend, kind: Kind, w: nat, q: seq<Req>, a: Alloc)
    requires w > 0
    requires forall batch :: batch in Batches(kind, w, q, a) ==> b.Reply(kind, batch) == c.Reply(kind, batch)
    ensures RunBatches(b, kind, w, q, a) == RunBatches(c, kind, w, q, a)
    decreases |q|
  {
    if q != [] {
      var f := FillBatch(kind, w, q, a);
      assert f.batch != [] ==> Batches(kind, w, q, a)[0] == f.batch;
      var n := if f.batch == [] then 0 else 1;
      assert Batches(kind, w, q, a)[n..] == Batches(kind, w, f.rest, f.alloc);
      forall batch | batch in Batches(kind, w, f.rest, f.alloc)
        ensures b.Reply(kind, batch) == c.Reply(kind, batch)
      {
        assert batch in Batches(kind, w, q, a);
      }
      BatchesAreTheCalls(b, c, kind, w, f.rest, f.alloc);
    }
  }

  function Together(batches: seq<seq<Req>>): seq<Req> {
    if batches == [] then [] else batches[0] + Together(batches[1..])
  }

  lemma TogetherCons(b: seq<Req>, bs: seq<seq<Req>>)
    ensures Together([b] + bs) == b + Together(bs)
  {
    assert ([b] + bs)[1..] == bs;
  }

  /** One batch behind the other, they are those who may enter, in queue order. */
  lemma {:induction false} BatchesKeepOrder(kind: Kind, w: nat, q: seq<Req>, a: Alloc)
    requires w > 0
    ensures Ids(Together(Batches(kind, w, q, a))) == Entering(kind, Ids(q), a, 0)
    decreases |q|
  {
    hide FillBatch, Ids, Entering, Staying, Together;
    if q == [] {
      NoIds();
      NothingEnters(kind, a);
      assert Together([]) == [] by { NobodyTogether(); }
    } else {
      var n := FillChoice(kind, w, q, a);
      var f := FillBatch(kind, w, q, a);
      var bs := Batches(kind, w, f.rest, f.alloc);
      BatchesKeepOrder(kind, w, f.rest, f.alloc);
      assert q == q[..n] + q[n..];
      IdsConcat(q[..n], q[n..]);
      IdsSize(q[..n]);
      EnteringConcat(kind, Ids(q[..n]), Ids(q[n..]), a, f.alloc);
      TogetherCons(f.batch, bs);
      IdsConcat(f.batch, Together(bs));
      NoIds();
      assert [] + bs == bs && [] + Ids(Together(bs)) == Ids(Together(bs));
    }
  }

  lemma NobodyTogether()
    ensures Together([]) == []
  {}

  /** Every batch but the last one is full. */
  lemma {:induction false} BatchesAreFull(kind: Kind, w: nat, q: seq<Req>, a: Alloc, b: nat)
    requires w > 0 && b < |Batches(kind, w, q, a)|
    ensures 0 < |Batches(kind, w, q, a)[b]| <= w
    ensures b + 1 < |Batches(kind, w, q, a)| ==> |Batches(kind, w, q, a)[b]| == w
    decreases |q|
  {
    hide Ids, Entering, Staying;
    var n := FillChoice(kind, w, q, a);
    var f := FillBatch(kind, w, q, a);
    var k := if f.batch == [] then 0 else 1;
    if b >= k { BatchesAreFull(kind, w, f.rest, f.alloc, b - k); }
  }

  /** The batch functions of the worker: sixteen at a time, as long as there are sixteen. */
  lemma BatchesOfSixteen(kind: Kind, q: seq<Req>, a: Alloc, b: nat)
    requires b < |Batches(kind, MAX_BATCH, q, a)|
    ensures var n := |Batches(kind, MAX_BATCH, q, a)|;
            var size := |Batches(kind, MAX_BATCH, q, a)[b]|;
            1 <= size <= 16 && (b + 1 < n ==> size == 16)
  {
    BatchesAreFull(kind, MAX_BATCH, q, a, b);
  }
}
