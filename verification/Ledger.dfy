/** What one request outputs: the responses sent so far plus those to come are the responses of
    generating alone, whatever batching, deferral and swapping happened in between. */
module Ledger {
  import opened Types
  import opened Allocation
  import opened Backends
  import opened SchedulerModel
  import opened Placement
  import opened Bags
  import opened Batching

  /** The responses to one request, in order. */
  function Project(log: seq<Resp>, id: nat): seq<Resp> {
    if log == [] then []
    else Project(log[..|log| - 1], id) + if log[|log| - 1].id == id then [log[|log| - 1]] else []
  }

  lemma {:induction false} ProjectConcat(p: seq<Resp>, q: seq<Resp>, id: nat)
    ensures Project(p + q, id) == Project(p, id) + Project(q, id)
    decreases |q|
  {
    if q == [] {
      assert p + q == p;
    } else {
      assert (p + q)[..|p + q| - 1] == p + q[..|q| - 1];
      ProjectConcat(p, q[..|q| - 1], id);
    }
  }

  /** Sequential generation: the responses a request alone would still get. */
  function Rest(m: Model, c: Core): seq<Resp>
    decreases if c.done then 0 else Max(0, c.maxNew - c.Generated())
  {
    if c.done then []
    else
      var o := m.Step(if c.Generated() == 0 then Prefill else Decode, c);
      var d := c.(tokens := c.tokens + [o.token]);
      if o.last || d.Generated() >= c.maxNew then [Resp(c.id, o.token, true)]
      else [Resp(c.id, o.token, false)] + Rest(m, d)
  }

  function Prompted(c: Core): Core {
    c.(tokens := if c.promptLen <= |c.tokens| then c.tokens[..c.promptLen] else c.tokens, done := false)
  }

  /** The whole output of a request. */
  function Full(m: Model, c: Core): seq<Resp> { Rest(m, Prompted(c)) }

  function Tokens(out: seq<Resp>): seq<int> {
    seq(|out|, i requires 0 <= i < |out| => out[i].token)
  }

  /** What has been sent and what is still to come are the whole output, and the tokens sent are the tokens
      the request has generated. */
  ghost predicate Balanced(m: Model, c: Core, log: seq<Resp>) {
    && Project(log, c.id) + Rest(m, c) == Full(m, c)
    && c.promptLen <= |c.tokens| && Tokens(Project(log, c.id)) == c.tokens[c.promptLen..]
  }

  ghost predicate AllBalanced(m: Model, bag: multiset<Core>, log: seq<Resp>) {
    forall c :: c in bag ==> Balanced(m, c, log)
  }

  ghost predicate UniqueIds(bag: multiset<Core>) {
    && (forall c :: c in bag ==> bag[c] == 1)
    && (forall c, d :: c in bag && d in bag && c.id == d.id ==> c == d)
  }

  /** Replacing c by its successor when its next response goes out. */
  lemma AdvanceBalanced(m: Model, others: multiset<Core>, c: Core, d: Core, resp: Resp, log: seq<Resp>)
    requires UniqueIds(others + multiset{c}) && AllBalanced(m, others + multiset{c}, log)
    requires resp.id == c.id == d.id && Full(m, c) == Full(m, d)
    requires Rest(m, c) == [resp] + Rest(m, d) && d.tokens == c.tokens + [resp.token] && d.promptLen == c.promptLen
    ensures UniqueIds(others + multiset{d}) && AllBalanced(m, others + multiset{d}, log + [resp])
  {
    hide Rest, Full;
    var bag := others + multiset{c};
    forall e | e in others
      ensures e.id != c.id && others[e] == 1
    {
      assert e in bag && c in bag && bag[e] == 1;
    }
    forall e | e in others + multiset{d}
      ensures Balanced(m, e, log + [resp])
    {
      ProjectConcat(log, [resp], e.id);
      assert Project([resp], e.id) == if e.id == c.id then [resp] else [] by {
        assert [resp][..0] == [];
      }
      if e in others {
        assert e in bag;
        assert Balanced(m, e, log);
        assert Project(log, e.id) + [] == Project(log, e.id);
      } else {
        assert c in bag && Balanced(m, c, log);
        assert Project(log, c.id) + ([resp] + Rest(m, d)) == Project(log, c.id) + [resp] + Rest(m, d);
        assert Tokens(Project(log, c.id) + [resp]) == Tokens(Project(log, c.id)) + [resp.token];
      }
    }
  }

  lemma CompleteAdvances(m: Model, tables: bool, kind: Kind, r: Req)
    requires Fits(tables, Inside(kind), r)
    ensures var (s, resp) := Complete(kind, r, ReplyTo(m, kind, r));
            && resp.id == r.id == s.id
            && Rest(m, r.ToCore()) == [resp] + Rest(m, s.ToCore())
            && Full(m, r.ToCore()) == Full(m, s.ToCore())
            && s.tokens == r.tokens + [resp.token] && s.promptLen == r.promptLen
  {
    var (s, resp) := Complete(kind, r, ReplyTo(m, kind, r));
    assert s.tokens[..s.promptLen] == r.tokens[..r.promptLen];
    assert Prompted(r.ToCore()) == Prompted(s.ToCore());
  }

  /** The core of r after its turn, and the response its turn sends, if any. */
  function NextCore(m: Model, kind: Kind, r: Req, a: Alloc): Core {
    var t := Enter(kind, a, r);
    if t.ok then Complete(kind, t.req, ReplyTo(m, kind, t.req)).0.ToCore() else t.req.ToCore()
  }

  function NextOut(m: Model, kind: Kind, r: Req, a: Alloc): seq<Resp> {
    var t := Enter(kind, a, r);
    if t.ok then [Complete(kind, t.req, ReplyTo(m, kind, t.req)).1] else []
  }

  lemma EnterFits(kind: Kind, a: Alloc, r: Req)
    requires Fits(a.policy.Bump?, Source(kind), r)
    ensures var t := Enter(kind, a, r);
            && t.alloc.policy == a.policy && t.req.ToCore() == r.ToCore()
            && Fits(a.policy.Bump?, if t.ok then Inside(kind) else DeferredDec, t.req)
  {
    if kind == Decode { AttemptFits(AdmitDecode, a, r); }
    AttemptSame(AdmitDecode, a, r);
  }

  lemma TurnBalanced(m: Model, kind: Kind, r: Req, a: Alloc, others: multiset<Core>, log: seq<Resp>)
    requires Fits(a.policy.Bump?, Source(kind), r)
    requires UniqueIds(others + multiset{r.ToCore()}) && AllBalanced(m, others + multiset{r.ToCore()}, log)
    ensures var bag := others + multiset{NextCore(m, kind, r, a)};
            UniqueIds(bag) && AllBalanced(m, bag, log + NextOut(m, kind, r, a))
  {
    EnterFits(kind, a, r);
    var t := Enter(kind, a, r);
    if t.ok {
      CompleteAdvances(m, a.policy.Bump?, kind, t.req);
      var (s, resp) := Complete(kind, t.req, ReplyTo(m, kind, t.req));
      AdvanceBalanced(m, others, r.ToCore(), s.ToCore(), resp, log);
    } else {
      assert log + [] == log;
    }
  }

  lemma TurnBags(m: Model, kind: Kind, q: seq<Req>, a: Alloc)
    requires q != []
    ensures var o := RunEach(m, kind, q, a);
            var e := RunEach(m, kind, q[1..], Enter(kind, a, q[0]).alloc);
            && o.out == NextOut(m, kind, q[0], a) + e.out
            && CoreBag(o.alive) + CoreBag(o.dead) + CoreBag(o.deferred)
               == multiset{NextCore(m, kind, q[0], a)} + (CoreBag(e.alive) + CoreBag(e.dead) + CoreBag(e.deferred))
  {
    hide Enter, Complete, ReplyTo, CoreBag;
    var o := RunEach(m, kind, q, a);
    var t := Enter(kind, a, q[0]);
    if !t.ok {
      HeadBags(o.deferred);
    } else if Complete(kind, t.req, ReplyTo(m, kind, t.req)).1.finished {
      HeadBags(o.dead);
    } else {
      HeadBags(o.alive);
    }
  }

  lemma {:induction false} RunEachBalanced(m: Model, kind: Kind, q: seq<Req>, a: Alloc,
                                           others: multiset<Core>, log: seq<Resp>)
    requires AllFit(a.policy.Bump?, Source(kind), q)
    requires UniqueIds(others + CoreBag(q)) && AllBalanced(m, others + CoreBag(q), log)
    ensures var o := RunEach(m, kind, q, a);
            var bag := others + (CoreBag(o.alive) + CoreBag(o.dead) + CoreBag(o.deferred));
            UniqueIds(bag) && AllBalanced(m, bag, log + o.out)
    decreases |q|
  {
    hide Fits, Enter, CoreBag, NextCore, NextOut, AllBalanced, UniqueIds;
    var o := RunEach(m, kind, q, a);
    if q == [] {
      assert log + o.out == log;
      assert CoreBag([]) == multiset{} by { JoinBags([], []); assert [] + q == q; }
    } else {
      HeadBags(q);
      var tail := CoreBag(q[1..]);
      var c, d := q[0].ToCore(), NextCore(m, kind, q[0], a);
      var log' := log + NextOut(m, kind, q[0], a);
      Beside(others, multiset{c}, tail);
      TurnBalanced(m, kind, q[0], a, others + tail, log);
      Beside(others, multiset{d}, tail);
      EnterFits(kind, a, q[0]);
      RunEachBalanced(m, kind, q[1..], Enter(kind, a, q[0]).alloc, others + multiset{d}, log');
      TurnBags(m, kind, q, a);
      var e := RunEach(m, kind, q[1..], Enter(kind, a, q[0]).alloc);
      assert log' + e.out == log + o.out;
      Beside(others, multiset{d}, CoreBag(e.alive) + CoreBag(e.dead) + CoreBag(e.deferred));
    }
  }

  lemma Beside<T>(x: multiset<T>, y: multiset<T>, z: multiset<T>)
    ensures x + (y + z) == x + y + z && x + z + y == x + y + z
  {}

  /** A whole phase, in batches. */
  lemma RunBalanced(be: Backend, m: Model, kind: Kind, w: nat, q: seq<Req>, a: Alloc,
                    others: multiset<Core>, log: seq<Resp>)
    requires w > 0 && Pointwise(be, m)
    requires AllFit(a.policy.Bump?, Source(kind), q)
    requires UniqueIds(others + CoreBag(q)) && AllBalanced(m, others + CoreBag(q), log)
    ensures var o := RunBatches(be, kind, w, q, a);
            var bag := others + (CoreBag(o.alive) + CoreBag(o.dead) + CoreBag(o.deferred));
            UniqueIds(bag) && AllBalanced(m, bag, log + o.out)
  {
    RunBatchesIsRunEach(be, m, kind, w, q, a);
    RunEachBalanced(m, kind, q, a, others, log);
  }

  // ---- the mock backend in closed form ----

  /** The k-th response, counting from 0, to a request that asks for maxNew tokens. */
  function MockResponse(id: nat, maxNew: int, k: nat): Resp {
    Resp(id,
         if k == 0 then FIRST_TOKEN else if k == maxNew - 1 then EOS else FIRST_TOKEN + k,
         k == Max(1, maxNew) - 1)
  }

  function MockOutput(id: nat, maxNew: int): seq<Resp> {
    seq(Max(1, maxNew), k requires 0 <= k < Max(1, maxNew) => MockResponse(id, maxNew, k))
  }

  lemma {:induction false} MockRest(c: Core)
    requires !c.done && 0 <= c.Generated() && (c.Generated() == 0 || c.Generated() < c.maxNew)
    ensures Rest(MOCK_MODEL, c) == MockOutput(c.id, c.maxNew)[c.Generated()..]
    decreases c.maxNew - c.Generated()
  {
    var g := c.Generated();
    var o := MOCK_MODEL.Step(if g == 0 then Prefill else Decode, c);
    var d := c.(tokens := c.tokens + [o.token]);
    var all := MockOutput(c.id, c.maxNew);
    assert all[g..] == [all[g]] + all[g + 1..];
    if !(o.last || d.Generated() >= c.maxNew) {
      MockRest(d);
    } else {
      assert all[g + 1..] == [];
    }
  }

  /** 1000, 1001, ..., then EOS; max(1, maxNew) responses, the last one and only it flagged. */
  lemma MockFull(c: Core)
    requires c.promptLen <= |c.tokens|
    ensures Full(MOCK_MODEL, c) == MockOutput(c.id, c.maxNew)
  {
    MockRest(Prompted(c));
    assert MockOutput(c.id, c.maxNew)[0..] == MockOutput(c.id, c.maxNew);
  }

  /** Only the last response of a generation carries the finished flag. */
  lemma {:induction false} RestFlags(m: Model, c: Core)
    ensures var r := Rest(m, c);
            && (!c.done ==> r != [])
            && (forall k :: 0 <= k < |r| ==> r[k].id == c.id && (r[k].finished <==> k == |r| - 1))
    decreases if c.done then 0 else Max(0, c.maxNew - c.Generated())
  {
    if !c.done {
      var o := m.Step(if c.Generated() == 0 then Prefill else Decode, c);
      var d := c.(tokens := c.tokens + [o.token]);
      if !(o.last || d.Generated() >= c.maxNew) {
        RestFlags(m, d);
      }
    }
  }
}
