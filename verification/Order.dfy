/** Who stands where after each pass over the queues, said in ids and in the allocator's answers alone. */
module Order {
  import opened Types
  import opened Allocation
  import opened Backends
  import opened SchedulerModel
  import opened Batching

  // ---- answers ----

  /** Of these ids, asked for one after the other from the k-th call on, those whose call is granted, or those
      whose call is refused, in their order. */
  function Chosen(ids: seq<nat>, a: Alloc, k: nat, granted: bool): seq<nat>
    decreases |ids|
  {
    if ids == [] then []
    else (if Refused(a, k) != granted then [ids[0]] else []) + Chosen(ids[1..], a, k + 1, granted)
  }

  /** Those of these ids whose response is the last one, or those whose response is not, in their order. */
  function Flagged(ids: seq<nat>, out: seq<Resp>, last: bool): seq<nat>
    decreases |ids|
  {
    if ids == [] || out == [] then []
    else (if out[0].finished == last then [ids[0]] else []) + Flagged(ids[1..], out[1..], last)
  }

  function Backwards(ids: seq<nat>): seq<nat> { seq(|ids|, i requires 0 <= i < |ids| => ids[|ids| - 1 - i]) }

  lemma IdsConcat(p: seq<Req>, q: seq<Req>)
    ensures Ids(p + q) == Ids(p) + Ids(q)
  {}

  lemma {:induction false} ChosenConcat(x: seq<nat>, y: seq<nat>, a: Alloc, k: nat, granted: bool)
    ensures Chosen(x + y, a, k, granted) == Chosen(x, a, k, granted) + Chosen(y, a, k + |x|, granted)
    decreases |x|
  {
    hide Refused;
    if x == [] {
      assert x + y == y;
    } else {
      assert (x + y)[1..] == x[1..] + y && (x + y)[0] == x[0];
      ChosenConcat(x[1..], y, a, k + 1, granted);
    }
  }

  /** n calls later. */
  lemma {:induction false} ChosenLater(ids: seq<nat>, a: Alloc, b: Alloc, n: nat, k: nat, granted: bool)
    requires b.policy == a.policy && b.calls == a.calls + n
    ensures Chosen(ids, b, k, granted) == Chosen(ids, a, n + k, granted)
    decreases |ids|
  {
    if ids != [] { ChosenLater(ids[1..], a, b, n, k + 1, granted); }
  }

  lemma {:induction false} NobodyChosen(ids: seq<nat>, a: Alloc, k: nat)
    ensures Chosen(ids, a, k, true) == [] <==> forall i :: k <= i < k + |ids| ==> Refused(a, i)
    ensures Chosen(ids, a, k, true) == [] ==> Chosen(ids, a, k, false) == ids
    decreases |ids|
  {
    hide Refused;
    if ids != [] { NobodyChosen(ids[1..], a, k + 1); }
  }

  lemma {:induction false} FlaggedConcat(x: seq<nat>, y: seq<nat>, o: seq<Resp>, p: seq<Resp>, last: bool)
    requires |x| == |o| && |y| == |p|
    ensures Flagged(x + y, o + p, last) == Flagged(x, o, last) + Flagged(y, p, last)
    decreases |x|
  {
    if x == [] {
      NothingFlagged();
      hide Flagged;
      assert x + y == y && o + p == p;
    } else {
      hide Flagged;
      FlaggedConcat(x[1..], y, o[1..], p, last);
      FlaggedCons(x, o, last);
      FlaggedCons(x + y, o + p, last);
      assert (x + y)[1..] == x[1..] + y && (o + p)[1..] == o[1..] + p;
    }
  }

  lemma FlaggedCons(ids: seq<nat>, out: seq<Resp>, last: bool)
    requires ids != [] && out != []
    ensures Flagged(ids, out, last)
         == (if out[0].finished == last then [ids[0]] else []) + Flagged(ids[1..], out[1..], last)
  {}

  lemma AttemptAsks(g: Gate, a: Alloc, r: Req)
    ensures var t := Attempt(g, a, r);
            && t.ok == !Refused(a, 0) && t.req.id == r.id
            && t.alloc.policy == a.policy && t.alloc.calls == a.calls + 1
            && forall k: nat :: Refused(t.alloc, k) == Refused(a, k + 1)
  {}

  // ---- passes over a queue ----

  lemma ChosenCons(id: nat, ids: seq<nat>, a: Alloc, b: Alloc, granted: bool)
    requires b.policy == a.policy && b.calls == a.calls + 1
    ensures Chosen([id] + ids, a, 0, granted)
         == (if Refused(a, 0) != granted then [id] else []) + Chosen(ids, b, 0, granted)
  {
    hide Refused;
    assert ([id] + ids)[1..] == ids;
    ChosenLater(ids, a, b, 1, 0, granted);
  }

  lemma SieveHead(g: Gate, q: seq<Req>, a: Alloc)
    requires q != []
    ensures var t := Attempt(g, a, q[0]);
            var s := Sieve(g, q[1..], t.alloc);
            Sieve(g, q, a) == if t.ok then s.(yes := [t.req] + s.yes) else s.(no := [t.req] + s.no)
  {
    hide Attempt;
  }

  lemma {:induction false} SieveChoice(g: Gate, q: seq<Req>, a: Alloc)
    ensures var s := Sieve(g, q, a);
            && Ids(s.yes) == Chosen(Ids(q), a, 0, true) && Ids(s.no) == Chosen(Ids(q), a, 0, false)
            && s.alloc.policy == a.policy && s.alloc.calls == a.calls + |q|
  {
    NoIds();
    if q != [] {
      hide Attempt, Refused, Ids, Chosen;
      var t := Attempt(g, a, q[0]);
      var e := Sieve(g, q[1..], t.alloc);
      AttemptAsks(g, a, q[0]);
      SieveHead(g, q, a);
      hide Sieve;
      SieveChoice(g, q[1..], t.alloc);
      ChosenCons(q[0].id, Ids(q[1..]), a, t.alloc, true);
      ChosenCons(q[0].id, Ids(q[1..]), a, t.alloc, false);
      assert q == [q[0]] + q[1..];
      ConsIds(q[0], q[1..]);
      ConsIds(t.req, e.yes);
      ConsIds(t.req, e.no);
    }
  }

  /** How many of the next n calls are granted before the first refusal. */
  function FirstRefusal(a: Alloc, k: nat, n: nat): (f: nat)
    ensures f <= n && (f < n ==> Refused(a, k + f)) && forall i :: k <= i < k + f ==> !Refused(a, i)
    decreases n
  {
    if n == 0 || Refused(a, k) then 0 else 1 + FirstRefusal(a, k + 1, n - 1)
  }

  lemma {:induction false} RefusalLater(a: Alloc, b: Alloc, d: nat, k: nat, n: nat)
    requires b.policy == a.policy && b.calls == a.calls + d
    ensures FirstRefusal(b, k, n) == FirstRefusal(a, d + k, n)
    decreases n
  {
    if n > 0 {
      assert Refused(b, k) == Refused(a, d + k);
      hide Refused;
      RefusalLater(a, b, d, k + 1, n - 1);
    }
  }

  lemma RefusalStep(a: Alloc, b: Alloc, n: nat)
    requires b.policy == a.policy && b.calls == a.calls + 1 && n > 0
    ensures FirstRefusal(a, 0, n) == if Refused(a, 0) then 0 else 1 + FirstRefusal(b, 0, n - 1)
    ensures FirstRefusal(a, 0, n) <= n
  {
    hide Refused;
    RefusalLater(a, b, 1, 0, n - 1);
  }

  lemma FrontIds(q: seq<Req>, f: nat)
    requires q != [] && f < |q|
    ensures Ids(q[..f + 1]) == [q[0].id] + Ids(q[1..][..f])
    ensures f + 1 < |q| ==> q[1..][f] == q[f + 1]
    ensures q[1..][f..] == q[f + 1..]
  {}

  /** Admission lets in those before the first refusal, defers the refused one, and asks for nobody behind it. */
  lemma {:induction false} AdmitChoice(q: seq<Req>, a: Alloc)
    ensures var s := Admit(q, a);
            var f := FirstRefusal(a, 0, |q|);
            && f <= |q| && Ids(s.yes) == Ids(q[..f]) && Ids(s.no) == (if f < |q| then [q[f].id] else [])
            && s.rest == (if f < |q| then q[f + 1..] else [])
            && s.alloc.policy == a.policy && s.alloc.calls == a.calls + if f < |q| then f + 1 else f
  {
    NoIds();
    if q != [] {
      hide Attempt, Refused, Ids;
      var t := Attempt(AdmitPrefill, a, q[0]);
      AttemptAsks(AdmitPrefill, a, q[0]);
      RefusalStep(a, t.alloc, |q|);
      AdmitFirst(q, a);
      hide FirstRefusal, Admit;
      if t.ok {
        AdmitChoice(q[1..], t.alloc);
        ConsIds(t.req, Admit(q[1..], t.alloc).yes);
        FrontIds(q, FirstRefusal(t.alloc, 0, |q| - 1));
      } else {
        ConsIds(t.req, []);
        assert [t.req] + [] == [t.req];
      }
    }
  }

  lemma AdmitFirst(q: seq<Req>, a: Alloc)
    requires q != []
    ensures var t := Attempt(AdmitPrefill, a, q[0]);
            Admit(q, a) == if t.ok then var s := Admit(q[1..], t.alloc); s.(yes := [t.req] + s.yes)
                           else Admission([], [t.req], q[1..], t.alloc)
  {
    hide Attempt;
  }

  lemma IdsSize(q: seq<Req>)
    ensures |Ids(q)| == |q|
  {}

  lemma {:induction false} ReversedIds(q: seq<Req>)
    ensures Ids(Reverse(q)) == Backwards(Ids(q))
  {
    if q != [] {
      ReversedIds(q[1..]);
      IdsConcat(Reverse(q[1..]), [q[0]]);
      hide Reverse;
      assert Backwards(Ids(q)) == Backwards(Ids(q[1..])) + [q[0].id] by {
        assert forall i :: 0 <= i < |q| - 1 ==> Ids(q[1..])[i] == Ids(q)[i + 1];
      }
    }
  }

  // ---- batches ----

  /** Prefill takes everybody, decode those that get their block. */
  function Entering(kind: Kind, ids: seq<nat>, a: Alloc, k: nat): seq<nat> {
    if kind == Prefill then ids else Chosen(ids, a, k, true)
  }

  function Staying(kind: Kind, ids: seq<nat>, a: Alloc, k: nat): seq<nat> {
    if kind == Prefill then [] else Chosen(ids, a, k, false)
  }

  function Asked(kind: Kind, n: nat): nat { if kind == Prefill then 0 else n }

  lemma EnterAsks(kind: Kind, a: Alloc, r: Req)
    ensures var t := Enter(kind, a, r);
            && t.ok == (kind == Prefill || !Refused(a, 0)) && t.req.id == r.id
            && t.alloc.policy == a.policy && t.alloc.calls == a.calls + Asked(kind, 1)
  {
    hide Attempt;
    AttemptAsks(AdmitDecode, a, r);
  }

  lemma EnteringCons(kind: Kind, id: nat, ids: seq<nat>, a: Alloc, b: Alloc)
    requires b.policy == a.policy && b.calls == a.calls + Asked(kind, 1)
    ensures Entering(kind, [id] + ids, a, 0)
         == (if kind == Prefill || !Refused(a, 0) then [id] else []) + Entering(kind, ids, b, 0)
    ensures Staying(kind, [id] + ids, a, 0)
         == (if kind == Prefill || !Refused(a, 0) then [] else [id]) + Staying(kind, ids, b, 0)
  {
    hide Refused, Chosen;
    if kind == Decode {
      ChosenCons(id, ids, a, b, true);
      ChosenCons(id, ids, a, b, false);
    }
  }

  /** One batch: the front part q[..n] of the queue, those that may enter and those that may not, in order. It is
      full unless the queue has run out. */
  lemma {:induction false} FillChoice(kind: Kind, w: nat, q: seq<Req>, a: Alloc) returns (n: nat)
    ensures n <= |q|
    ensures var f := FillBatch(kind, w, q, a);
            && f.rest == q[n..] && Ids(f.batch) == Entering(kind, Ids(q[..n]), a, 0)
            && Ids(f.deferred) == Staying(kind, Ids(q[..n]), a, 0)
            && f.alloc.policy == a.policy && f.alloc.calls == a.calls + Asked(kind, n)
            && (|f.batch| == w || n == |q|)
    decreases |q|
  {
    hide Enter, Refused, Ids, Entering, Staying;
    NothingEnters(kind, a);
    NoIds();
    assert q[0..] == q && q[..0] == [];
    if q == [] || w == 0 {
      n := 0;
    } else {
      var t := Enter(kind, a, q[0]);
      EnterAsks(kind, a, q[0]);
      var w' := if t.ok then w - 1 else w;
      var k := FillChoice(kind, w', q[1..], t.alloc);
      var e := FillBatch(kind, w', q[1..], t.alloc);
      n := k + 1;
      assert q[..n] == [q[0]] + q[1..][..k] && q[1..][k..] == q[n..];
      ConsIds(q[0], q[1..][..k]);
      EnteringCons(kind, q[0].id, Ids(q[1..][..k]), a, t.alloc);
      ConsIds(t.req, e.batch);
      ConsIds(t.req, e.deferred);
    }
  }

  lemma NothingEnters(kind: Kind, a: Alloc)
    ensures Entering(kind, [], a, 0) == [] && Staying(kind, [], a, 0) == []
  {}

  lemma CompleteId(kind: Kind, r: Req, reply: Resp)
    ensures Complete(kind, r, reply).0.id == r.id
  {}

  lemma {:induction false} CompleteChoice(kind: Kind, batch: seq<Req>, replies: seq<Resp>, i: nat)
    requires i <= |batch|
    ensures var c := CompleteFrom(kind, batch, replies, i);
            && |Ids(batch[i..])| == |c.out|
            && Ids(c.alive) == Flagged(Ids(batch[i..]), c.out, false)
            && Ids(c.dead) == Flagged(Ids(batch[i..]), c.out, true)
    decreases |batch| - i
  {
    hide Complete, Ids;
    IdsSize(batch[i..]);
    if i == |batch| {
      NoIds();
    } else {
      var (r, resp) := Complete(kind, batch[i], ReplyAt(replies, i, batch[i]));
      var c := CompleteFrom(kind, batch, replies, i + 1);
      CompleteId(kind, batch[i], ReplyAt(replies, i, batch[i]));
      CompleteChoice(kind, batch, replies, i + 1);
      assert batch[i..] == [batch[i]] + batch[i + 1..];
      ConsIds(batch[i], batch[i + 1..]);
      ConsIds(r, c.alive);
      ConsIds(r, c.dead);
      assert ([resp] + c.out)[1..] == c.out;
    }
  }

  lemma ServeChoice(be: Backend, kind: Kind, batch: seq<Req>)
    ensures var c := Serve(be, kind, batch);
            && |Ids(batch)| == |c.out| && Ids(c.alive) == Flagged(Ids(batch), c.out, false)
            && Ids(c.dead) == Flagged(Ids(batch), c.out, true)
  {
    hide CompleteFrom;
    if batch != [] {
      CompleteChoice(kind, batch, be.Reply(kind, batch), 0);
      assert batch[0..] == batch;
    }
  }

  lemma EnteringConcat(kind: Kind, x: seq<nat>, y: seq<nat>, a: Alloc, b: Alloc)
    requires b.policy == a.policy && b.calls == a.calls + Asked(kind, |x|)
    ensures Entering(kind, x + y, a, 0) == Entering(kind, x, a, 0) + Entering(kind, y, b, 0)
    ensures Staying(kind, x + y, a, 0) == Staying(kind, x, a, 0) + Staying(kind, y, b, 0)
  {
    if kind == Decode {
      ChosenConcat(x, y, a, 0, true);
      ChosenConcat(x, y, a, 0, false);
      ChosenLater(y, a, b, |x|, 0, true);
      ChosenLater(y, a, b, |x|, 0, false);
    }
  }

  /** A whole batch function with any backend: everybody who may enter gets one response, in queue order; of them
      those whose response is not the last survive in queue order, the others finish in queue order; the rest is
      deferred in queue order. */
  lemma {:induction false} RunChoice(be: Backend, kind: Kind, w: nat, q: seq<Req>, a: Alloc)
    requires w > 0
    ensures var o := RunBatches(be, kind, w, q, a);
            var entered := Entering(kind, Ids(q), a, 0);
            && |entered| == |o.out| && Ids(o.alive) == Flagged(entered, o.out, false)
            && Ids(o.dead) == Flagged(entered, o.out, true)
            && Ids(o.deferred) == Staying(kind, Ids(q), a, 0)
            && o.alloc.policy == a.policy && o.alloc.calls == a.calls + Asked(kind, |q|)
    decreases |q|
  {
    hide FillBatch, Serve, Ids, Entering, Staying, Flagged;
    if q == [] {
      NoIds();
      NothingEnters(kind, a);
      assert Flagged([], [], false) == [] && Flagged([], [], true) == [] by { NothingFlagged(); }
    } else {
      var n := FillChoice(kind, w, q, a);
      var f := FillBatch(kind, w, q, a);
      var c := Serve(be, kind, f.batch);
      ServeChoice(be, kind, f.batch);
      RunChoice(be, kind, w, f.rest, f.alloc);
      var o := RunBatches(be, kind, w, f.rest, f.alloc);
      assert q == q[..n] + q[n..];
      IdsConcat(q[..n], q[n..]);
      IdsSize(q[..n]);
      EnteringConcat(kind, Ids(q[..n]), Ids(q[n..]), a, f.alloc);
      var x, y := Ids(f.batch), Entering(kind, Ids(f.rest), f.alloc, 0);
      FlaggedConcat(x, y, c.out, o.out, false);
      FlaggedConcat(x, y, c.out, o.out, true);
      IdsConcat(c.alive, o.alive);
      IdsConcat(c.dead, o.dead);
      IdsConcat(f.deferred, o.deferred);
    }
  }

  lemma NothingFlagged()
    ensures Flagged([], [], false) == [] && Flagged([], [], true) == []
  {}

  // ---- the passes of an iteration ----

  /** Swap-in: those let in go behind the decode queue in their old order, the others keep theirs. */
  lemma SwapInOrder(st: St)
    ensures var p, a := RetrySwapInRequests(st), st.alloc;
            && st.decode <= p.st.decode && Ids(p.st.decode) == Ids(st.decode) + Chosen(Ids(st.swapOut), a, 0, true)
            && Ids(p.st.swapOut) == Chosen(Ids(st.swapOut), a, 0, false)
            && p.st.alloc.calls == a.calls + |st.swapOut| && p.out == []
            && (p.progress <==> exists k :: 0 <= k < |st.swapOut| && !Refused(a, k))
            && p.st == st.(decode := p.st.decode, swapOut := p.st.swapOut, alloc := p.st.alloc)
  {
    hide Sieve, Refused, Chosen, Ids;
    var s := Sieve(RetrySwapIn, st.swapOut, st.alloc);
    SieveChoice(RetrySwapIn, st.swapOut, st.alloc);
    IdsConcat(st.decode, s.yes);
    IdsSize(s.yes);
    IdsSize(st.swapOut);
    NobodyChosen(Ids(st.swapOut), st.alloc, 0);
  }

  /** Deferred decodes: all of them go behind the decode queue in their old order; nothing is asked. */
  lemma RetryDecodeOrder(st: St)
    ensures var p := RetryDeferredDecode(st);
            && st.decode <= p.st.decode && Ids(p.st.decode) == Ids(st.decode) + Ids(st.deferredDecode)
            && p.st == st.(decode := p.st.decode, deferredDecode := []) && p.out == []
  {
    hide Readied, Ids;
    ReadiedIds(st.deferredDecode);
    IdsConcat(st.decode, Readied(st.deferredDecode));
  }

  /** Deferred prefills: those let in stand in front of the prefill queue, the last one first. */
  lemma RetryPrefillOrder(st: St)
    ensures var p, a := RetryDeferredPrefill(st), st.alloc;
            && Ids(p.st.prefill) == Backwards(Chosen(Ids(st.deferredPrefill), a, 0, true)) + Ids(st.prefill)
            && Ids(p.st.deferredPrefill) == Chosen(Ids(st.deferredPrefill), a, 0, false)
            && p.st.alloc.calls == a.calls + |st.deferredPrefill| && p.out == []
            && (p.progress <==> exists k :: 0 <= k < |st.deferredPrefill| && !Refused(a, k))
            && p.st == st.(prefill := p.st.prefill, deferredPrefill := p.st.deferredPrefill, alloc := p.st.alloc)
  {
    hide Sieve, Refused, Chosen, Ids, Reverse, Backwards;
    var s := Sieve(RetryPrefill, st.deferredPrefill, st.alloc);
    SieveChoice(RetryPrefill, st.deferredPrefill, st.alloc);
    ReversedIds(s.yes);
    IdsConcat(Reverse(s.yes), st.prefill);
    IdsSize(s.yes);
    IdsSize(st.deferredPrefill);
    NobodyChosen(Ids(st.deferredPrefill), st.alloc, 0);
  }

  /** Survivors of a prefill go behind the decode queue in the order of the prefill queue. */
  lemma RunPrefillOrder(be: Backend, st: St)
    ensures var p := RunPrefillBatch(be, MAX_BATCH, st);
            && |p.out| == |st.prefill| && st.decode <= p.st.decode && p.st.prefill == []
            && Ids(p.st.decode) == Ids(st.decode) + Flagged(Ids(st.prefill), p.out, false)
            && Ids(p.st.finish) == Ids(st.finish) + Flagged(Ids(st.prefill), p.out, true)
            && p.st == st.(decode := p.st.decode, finish := p.st.finish, prefill := [])
  {
    hide RunBatches, Ids, Flagged;
    var o := RunBatches(be, Prefill, MAX_BATCH, st.prefill, st.alloc);
    RunChoice(be, Prefill, MAX_BATCH, st.prefill, st.alloc);
    IdsConcat(st.decode, o.alive);
    IdsConcat(st.finish, o.dead);
    IdsSize(st.prefill);
  }

  // ---- the halves of an iteration ----

  lemma ReadiedIds(q: seq<Req>)
    ensures Ids(Readied(q)) == Ids(q)
  {}

  /** The decode half: the swapped-out requests are asked for first and those let in go behind the decode queue, the
      deferred ones behind them; then a block is asked for each of these in turn. */
  lemma DecodeHalfOrder(be: Backend, st: St)
    ensures var p, a, n := DecodeHalf(be, st), st.alloc, |st.swapOut|;
            var back := Chosen(Ids(st.swapOut), a, 0, true);
            var line := Ids(st.decode) + back + Ids(st.deferredDecode);
            var entered := Chosen(line, a, n, true);
            && |entered| == |p.out| && Ids(p.st.decode) == Flagged(entered, p.out, false)
            && Ids(p.st.finish) == Ids(st.finish) + Flagged(entered, p.out, true)
            && Ids(p.st.deferredDecode) == Chosen(line, a, n, false)
            && Ids(p.st.swapOut) == Chosen(Ids(st.swapOut), a, 0, false)
            && p.st.waiting == st.waiting && p.st.deferredPrefill == st.deferredPrefill && p.st.prefill == st.prefill
            && p.st.paused == st.paused && p.st.alloc.policy == a.policy && p.st.alloc.calls == a.calls + n + |line|
            && p.progress == (back != [] || p.out != [])
  {
    hide Sieve, RunBatches, Ids, Readied, Refused, Chosen, Flagged;
    var s := Sieve(RetrySwapIn, st.swapOut, st.alloc);
    SieveChoice(RetrySwapIn, st.swapOut, st.alloc);
    var q := st.decode + s.yes + Readied(st.deferredDecode);
    IdsConcat(st.decode + s.yes, Readied(st.deferredDecode));
    IdsConcat(st.decode, s.yes);
    ReadiedIds(st.deferredDecode);
    IdsSize(q);
    IdsSize(s.yes);
    RunChoice(be, Decode, MAX_BATCH, q, s.alloc);
    var o := RunBatches(be, Decode, MAX_BATCH, q, s.alloc);
    ChosenLater(Ids(q), st.alloc, s.alloc, |st.swapOut|, 0, true);
    ChosenLater(Ids(q), st.alloc, s.alloc, |st.swapOut|, 0, false);
    IdsConcat(st.finish, o.dead);
    DecodeHalfIs(be, st);
  }

  lemma DecodeHalfIs(be: Backend, st: St)
    ensures var s := Sieve(RetrySwapIn, st.swapOut, st.alloc);
            var o := RunBatches(be, Decode, MAX_BATCH, st.decode + s.yes + Readied(st.deferredDecode), s.alloc);
            DecodeHalf(be, st)
            == Phase(st.(swapOut := s.no, decode := o.alive, finish := st.finish + o.dead,
                         deferredDecode := o.deferred, alloc := o.alloc), o.out, s.yes != [] || o.out != [])
  {
    hide Sieve, RunBatches, Readied;
    var s := Sieve(RetrySwapIn, st.swapOut, st.alloc);
    var o := RunBatches(be, Decode, MAX_BATCH, st.decode + s.yes + Readied(st.deferredDecode), s.alloc);
    assert [] + o.deferred == o.deferred && [] + o.out == o.out;
  }

  /** The prefill half: the swapped-out requests are asked for first again and those let in go behind the decode
      queue; then the deferred prefills are asked for, and those let in go to the front, each before the last;
      then the waiting ones up to the first refusal. All of these are answered and the survivors go behind the
      decode queue. */
  lemma PrefillHalfOrder(be: Backend, st: St)
    ensures var p, a, n, d := PrefillHalf(be, st), st.alloc, |st.swapOut|, |st.deferredPrefill|;
            var back := Chosen(Ids(st.swapOut), a, 0, true);
            var f := FirstRefusal(a, n + d, |st.waiting|);
            var entered := Backwards(Chosen(Ids(st.deferredPrefill), a, n, true)) + Ids(st.prefill)
                           + Ids(st.waiting[..f]);
            && |entered| == |p.out| && Ids(p.st.decode) == Ids(st.decode) + back + Flagged(entered, p.out, false)
            && Ids(p.st.finish) == Ids(st.finish) + Flagged(entered, p.out, true)
            && Ids(p.st.deferredPrefill) == Chosen(Ids(st.deferredPrefill), a, n, false)
                                            + (if f < |st.waiting| then [st.waiting[f].id] else [])
            && p.st.waiting == (if f < |st.waiting| then st.waiting[f + 1..] else []) && p.st.prefill == []
            && Ids(p.st.swapOut) == Chosen(Ids(st.swapOut), a, 0, false) && p.st.deferredDecode == st.deferredDecode
            && p.st.paused == st.paused && p.st.alloc.policy == a.policy
            && p.st.alloc.calls == a.calls + n + d + (if f < |st.waiting| then f + 1 else f)
            && p.progress == (back != [] || p.out != [])
  {
    hide Sieve, Admit, Reverse, RunBatches, Ids, Refused, Chosen, Flagged, Backwards, FirstRefusal;
    var n := |st.swapOut|;
    var s := Sieve(RetrySwapIn, st.swapOut, st.alloc);
    SieveChoice(RetrySwapIn, st.swapOut, st.alloc);
    var t := Sieve(RetryPrefill, st.deferredPrefill, s.alloc);
    SieveChoice(RetryPrefill, st.deferredPrefill, s.alloc);
    ChosenLater(Ids(st.deferredPrefill), st.alloc, s.alloc, n, 0, true);
    ChosenLater(Ids(st.deferredPrefill), st.alloc, s.alloc, n, 0, false);
    var u := Admit(st.waiting, t.alloc);
    AdmitChoice(st.waiting, t.alloc);
    RefusalLater(st.alloc, t.alloc, n + |st.deferredPrefill|, 0, |st.waiting|);
    ReversedIds(t.yes);
    var q := Reverse(t.yes) + st.prefill + u.yes;
    IdsConcat(Reverse(t.yes) + st.prefill, u.yes);
    IdsConcat(Reverse(t.yes), st.prefill);
    RunChoice(be, Prefill, MAX_BATCH, q, u.alloc);
    var o := RunBatches(be, Prefill, MAX_BATCH, q, u.alloc);
    IdsConcat(st.decode + s.yes, o.alive);
    IdsConcat(st.decode, s.yes);
    IdsConcat(st.finish, o.dead);
    IdsConcat(t.no, u.no);
    IdsSize(s.yes);
    IdsSize(q);
    PrefillHalfIs(be, st);
  }

  lemma PrefillHalfIs(be: Backend, st: St)
    ensures var s := Sieve(RetrySwapIn, st.swapOut, st.alloc);
            var t := Sieve(RetryPrefill, st.deferredPrefill, s.alloc);
            var u := Admit(st.waiting, t.alloc);
            var o := RunBatches(be, Prefill, MAX_BATCH, Reverse(t.yes) + st.prefill + u.yes, u.alloc);
            PrefillHalf(be, st)
            == Phase(st.(swapOut := s.no, decode := st.decode + s.yes + o.alive, finish := st.finish + o.dead,
                         deferredPrefill := t.no + u.no, waiting := u.rest, prefill := [], alloc := u.alloc),
                     o.out, s.yes != [] || t.yes != [] || u.yes != [] || o.out != [])
  {
    hide Sieve, Admit, Reverse, RunBatches;
    var s := Sieve(RetrySwapIn, st.swapOut, st.alloc);
    var t := Sieve(RetryPrefill, st.deferredPrefill, s.alloc);
    var u := Admit(st.waiting, t.alloc);
    var o := RunBatches(be, Prefill, MAX_BATCH, Reverse(t.yes) + st.prefill + u.yes, u.alloc);
    assert [] + ([] + ([] + o.out)) == o.out;
  }

  // ---- the end of an iteration ----

  /** i is the first request of q whose cache is on the GPU, |q| if there is none. */
  ghost predicate FirstOnGpu(q: seq<Req>, i: nat) {
    i <= |q| && (i < |q| ==> q[i].residency == Gpu) && forall j :: 0 <= j < i ==> q[j].residency != Gpu
  }

  lemma {:induction false} VictimAt(q: seq<Req>, i: nat)
    requires FirstOnGpu(q, i)
    ensures FirstVictim(q) == i
  {
    if q != [] && i > 0 {
      assert forall j :: 0 <= j < i - 1 ==> q[1..][j] == q[j + 1];
      VictimAt(q[1..], i - 1);
    }
  }

  lemma SomeFirstOnGpu(q: seq<Req>) returns (i: nat)
    ensures FirstOnGpu(q, i)
  {
    i := 0;
    while i < |q| && q[i].residency != Gpu
      invariant i <= |q| && forall j :: 0 <= j < i ==> q[j].residency != Gpu
    {
      i := i + 1;
    }
  }

  lemma CallAsks(op: Op, a: Alloc, r: Req)
    ensures var t := Call(op, a, r);
            && t.ok == !Refused(a, 0) && t.req.id == r.id && t.alloc.policy == a.policy && t.alloc.calls == a.calls + 1
  {}

  function Without(q: seq<Req>, i: nat): seq<Req> { if i < |q| then q[..i] + q[i + 1..] else q }

  /** One try to evict from a queue: only the first request on the GPU is asked for; granted it leaves, refused it
      goes to the back. */
  lemma EvictChoice(q: seq<Req>, a: Alloc, i: nat)
    requires FirstOnGpu(q, i)
    ensures var e := EvictFrom(q, a);
            && e.alloc.policy == a.policy && e.alloc.calls == a.calls + (if i < |q| then 1 else 0)
            && Ids(e.victim) == (if i < |q| && !Refused(a, 0) then [q[i].id] else [])
            && Ids(e.q) == Ids(Without(q, i)) + (if i < |q| && Refused(a, 0) then [q[i].id] else [])
  {
    VictimAt(q, i);
    hide Call, Refused, FirstVictim, Ids;
    NoIds();
    if i < |q| {
      var t := Call(SwapOut, a, q[i]);
      CallAsks(SwapOut, a, q[i]);
      var s := t.req.(state := if t.ok then SwappedOut else q[i].state);
      OneId(s);
      IdsConcat(Without(q, i), [s]);
    }
  }

  lemma OneId(r: Req)
    ensures Ids([r]) == [r.id]
  {}

  lemma SwapInIs(st: St)
    ensures var s := Sieve(RetrySwapIn, st.swapOut, st.alloc);
            RetrySwapInRequests(st)
            == Phase(st.(swapOut := s.no, decode := st.decode + s.yes, alloc := s.alloc), [], s.yes != [])
  {}

  lemma SettleIs(st: St, progress: bool)
    ensures var p := RetrySwapInRequests(st);
            var q := if !progress && !p.progress && !p.st.Idle() then TrySwapOutVictim(p.st)
                     else Phase(p.st, [], false);
            SettleHalf(st, progress)
            == Phase(if q.st.paused && q.st.Idle() then q.st.(paused := false) else q.st, [],
                     progress || p.progress || q.progress)
  {
    hide RetrySwapInRequests, TrySwapOutVictim, St.Idle;
  }

  lemma IdleIs(st: St)
    ensures st.Idle() <==> st.Internal() == []
  {}

  /** If the iteration has moved anything, or one of the swap-in calls at its end is granted, or nobody is held,
      these |swapOut| calls are all that is asked and nobody is evicted. */
  lemma SettleKeepsEverybody(st: St, progress: bool)
    requires progress || st.Internal() == [] || exists k :: 0 <= k < |st.swapOut| && !Refused(st.alloc, k)
    ensures var p, a, n := SettleHalf(st, progress), st.alloc, |st.swapOut|;
            var back := Chosen(Ids(st.swapOut), a, 0, true);
            && Ids(p.st.decode) == Ids(st.decode) + back && st.decode <= p.st.decode
            && Ids(p.st.swapOut) == Chosen(Ids(st.swapOut), a, 0, false)
            && p.st.alloc.policy == a.policy && p.st.alloc.calls == a.calls + n
            && p.st.deferredDecode == st.deferredDecode && p.st.waiting == st.waiting && p.st.prefill == st.prefill
            && p.st.deferredPrefill == st.deferredPrefill && p.st.finish == st.finish
            && p.st.paused == (st.paused && p.st.Internal() != []) && p.progress == (progress || back != [])
  {
    hide Sieve, Refused, Chosen, Ids, St.Internal, TrySwapOutVictim;
    var s := Sieve(RetrySwapIn, st.swapOut, st.alloc);
    SieveChoice(RetrySwapIn, st.swapOut, st.alloc);
    NobodyChosen(Ids(st.swapOut), st.alloc, 0);
    IdsSize(st.swapOut);
    IdsSize(s.yes);
    IdsConcat(st.decode, s.yes);
    SwapInIs(st);
    SettleIs(st, progress);
    var p := RetrySwapInRequests(st).st;
    IdleIs(st);
    IdleIs(p);
    IdleIs(SettleHalf(st, progress).st);
    hide St.Idle;
    if st.Internal() == [] { StillIdle(st); }
    PauseIrrelevant(p);
  }

  lemma StillIdle(st: St)
    requires st.Idle()
    ensures RetrySwapInRequests(st).st.Idle()
  {}

  lemma PauseIrrelevant(st: St)
    ensures st.(paused := false).Idle() == st.Idle() && st.(paused := false).Internal() == st.Internal()
  {}

  lemma AllRefused(st: St)
    requires forall k :: 0 <= k < |st.swapOut| ==> Refused(st.alloc, k)
    ensures var p := RetrySwapInRequests(st);
            && p.st.decode == st.decode && Ids(p.st.swapOut) == Ids(st.swapOut) && !p.progress
            && p.st.deferredDecode == st.deferredDecode && p.st.waiting == st.waiting && p.st.prefill == st.prefill
            && p.st.deferredPrefill == st.deferredPrefill && p.st.finish == st.finish && p.st.paused == st.paused
            && p.st.alloc.policy == st.alloc.policy && p.st.alloc.calls == st.alloc.calls + |st.swapOut|
            && p.st.Idle() == st.Idle()
  {
    hide Sieve, Refused, Chosen, Ids;
    var s := Sieve(RetrySwapIn, st.swapOut, st.alloc);
    SieveChoice(RetrySwapIn, st.swapOut, st.alloc);
    NobodyChosen(Ids(st.swapOut), st.alloc, 0);
    IdsSize(st.swapOut);
    IdsSize(s.yes);
    IdsSize(s.no);
    assert st.decode + [] == st.decode;
  }

  /** Who is asked to leave: the first deferred decode on the GPU, and if there is none or it may not, the first
      ready one. Whoever may leaves and pauses admission; whoever may not goes to the back of its queue. */
  ghost predicate Evicts(st: St, p: Phase, a: Alloc, i: nat, j: nat) {
    var d, q := st.deferredDecode, st.decode;
    var first := i < |d| && !Refused(a, 0);
    var m := if i < |d| then 1 else 0;
    var second := !first && j < |q| && !Refused(a, m);
    && Ids(p.st.deferredDecode) == Ids(Without(d, i)) + (if i < |d| && !first then [d[i].id] else [])
    && Ids(p.st.decode) == (if first then Ids(q)
                            else Ids(Without(q, j)) + (if j < |q| && !second then [q[j].id] else []))
    && Ids(p.st.swapOut) == Ids(st.swapOut) + (if first then [d[i].id] else if second then [q[j].id] else [])
    && p.st.paused == (st.paused || first || second) && p.progress == (first || second)
    && p.st.alloc.policy == a.policy && p.st.alloc.calls == a.calls + m + (if first || j >= |q| then 0 else 1)
    && p.st.waiting == st.waiting && p.st.prefill == st.prefill
    && p.st.deferredPrefill == st.deferredPrefill && p.st.finish == st.finish
  }

  lemma VictimChoice(st: St, i: nat, j: nat)
    requires FirstOnGpu(st.deferredDecode, i) && FirstOnGpu(st.decode, j)
    ensures Evicts(st, TrySwapOutVictim(st), st.alloc, i, j)
  {
    hide Refused, Ids, FirstOnGpu, EvictFrom, TrySwapOutVictim, Without;
    var e := EvictFrom(st.deferredDecode, st.alloc);
    var f := EvictFrom(st.decode, e.alloc);
    EvictChoice(st.deferredDecode, st.alloc, i);
    EvictChoice(st.decode, e.alloc, j);
    VictimIs(st);
    IdsSize(e.victim);
    IdsSize(f.victim);
    LaterRefusals(st.alloc, e.alloc, e.alloc.calls - st.alloc.calls, 0);
    IdsConcat(st.swapOut, e.victim);
    IdsConcat(st.swapOut, f.victim);
    NoIds();
  }

  /** If nothing has moved, every swap-in call at the end is refused and somebody is held, somebody is asked to
      leave, with the very next call. */
  lemma SettleEvicts(st: St, i: nat, j: nat)
    requires st.Internal() != [] && forall k :: 0 <= k < |st.swapOut| ==> Refused(st.alloc, k)
    requires FirstOnGpu(st.deferredDecode, i) && FirstOnGpu(st.decode, j)
    ensures Evicts(st, SettleHalf(st, false), st.alloc.(calls := st.alloc.calls + |st.swapOut|), i, j)
  {
    hide Refused, Ids, St.Internal, RetrySwapInRequests, TrySwapOutVictim, FirstOnGpu, St.Idle, SettleHalf, Without;
    AllRefused(st);
    IdleIs(st);
    SettleIs(st, false);
    var p := RetrySwapInRequests(st).st;
    VictimChoice(p, i, j);
    NeverIdle(p);
    var b := st.alloc.(calls := st.alloc.calls + |st.swapOut|);
    LaterRefusals(b, p.alloc, 0, 0);
    LaterRefusals(b, p.alloc, 0, 1);
  }

  lemma LaterRefusals(a: Alloc, b: Alloc, n: nat, k: nat)
    requires b.policy == a.policy && b.calls == a.calls + n
    ensures Refused(b, k) == Refused(a, n + k)
  {}

  lemma VictimIs(st: St)
    ensures var e := EvictFrom(st.deferredDecode, st.alloc);
            var f := EvictFrom(st.decode, e.alloc);
            TrySwapOutVictim(st)
            == if e.victim != [] then Phase(st.(deferredDecode := e.q, swapOut := st.swapOut + e.victim, paused := true,
                                                alloc := e.alloc), [], true)
               else Phase(st.(deferredDecode := e.q, decode := f.q, swapOut := st.swapOut + f.victim,
                              paused := st.paused || f.victim != [], alloc := f.alloc), [], f.victim != [])
  {
    hide EvictFrom;
  }

  /** Eviction does not empty the queues. */
  lemma NeverIdle(st: St)
    requires !st.Idle()
    ensures !TrySwapOutVictim(st).st.Idle()
  {}
}
