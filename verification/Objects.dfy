/** The mutable objects of the runtime: requests, the locked queue and the KV allocator. */
module Objects {
  import opened Types
  import opened Allocation

  /** The queue that owns a request; ownership makes the queues disjoint, as unique_ptr does. */
  datatype Home = AtWaiting | AtPrefill | AtDecode | AtFinish | AtDeferredPrefill | AtDeferredDecode | AtSwapOut
                | InHand | InBatch | AtNext

  class Request {
    const id: nat
    const promptLen: nat
    const maxNew: int
    var tokens: seq<int>
    var kv: seq<Kv>
    var state: RequestState
    var residency: Residency
    ghost var home: Home

    function Val(): Req
      reads this
    {
      Req(id, tokens, promptLen, kv, maxNew, state, residency)
    }

    constructor (id: nat, prompt: seq<int>, maxNew: int)
      ensures Val() == NewRequest(id, prompt, maxNew) && home == InHand
    {
      this.id := id;
      tokens := prompt;
      promptLen := |prompt|;
      this.maxNew := maxNew;
      state := WaitingPrefill;
      residency := NoKv;
      kv := [];
      home := InHand;
      new;
      for i := 0 to N_LAYERS
        invariant kv == seq(i, _ => Kv([], 0))
        invariant Val() == NewRequest(id, prompt, maxNew).(kv := kv) && home == InHand
      {
        kv := kv + [Kv([], 0)];
      }
    }

    method AppendBlock(layer: nat, block: int)
      requires layer < |kv|
      modifies this`kv
      ensures kv == old(kv)[layer := Kv(old(kv)[layer].table + [block], old(kv)[layer].numTokens)]
    {
      kv := kv[layer := Kv(kv[layer].table + [block], kv[layer].numTokens)];
    }

    /** Every layer now caches n tokens. */
    method SetNumTokens(n: int)
      modifies this`kv
      ensures kv == seq(|old(kv)|, i requires 0 <= i < |old(kv)| => old(kv)[i].(numTokens := n))
    {
      for layer := 0 to |kv|
        invariant |kv| == |old(kv)|
        invariant forall l :: 0 <= l < |kv| ==> kv[l] == if l < layer then old(kv)[l].(numTokens := n) else old(kv)[l]
      {
        kv := kv[layer := kv[layer].(numTokens := n)];
      }
    }

    /** Every layer now caches one token more. */
    method IncrementTokens()
      modifies this`kv
      ensures kv == seq(|old(kv)|, i requires 0 <= i < |old(kv)| => old(kv)[i].(numTokens := old(kv)[i].numTokens + 1))
    {
      for layer := 0 to |kv|
        invariant |kv| == |old(kv)|
        invariant forall l :: 0 <= l < |kv| ==>
                    kv[l] == if l < layer then old(kv)[l].(numTokens := old(kv)[l].numTokens + 1) else old(kv)[l]
      {
        kv := kv[layer := kv[layer].(numTokens := kv[layer].numTokens + 1)];
      }
    }

    method Reset()
      modifies this`kv
      ensures kv == seq(|old(kv)|, i requires 0 <= i < |old(kv)| => Kv([], 0))
    {
      for layer := 0 to |kv|
        invariant |kv| == |old(kv)|
        invariant forall l :: 0 <= l < |kv| ==> kv[l] == if l < layer then Kv([], 0) else old(kv)[l]
      {
        kv := kv[layer := Kv([], 0)];
      }
    }
  }

  /** A std::deque or std::vector of unique pointers to requests. A request is at home in at most one. */
  class Deque {
    const home: Home
    var items: seq<Request>

    /** Distinct requests out of `owned`, all at home here, with the values v. */
    ghost predicate Holds(v: seq<Req>, owned: set<Request>)
      reads this, items
    {
      && home != InHand && |v| == |items|
      && (forall i :: 0 <= i < |items| ==> items[i].home == home && items[i].Val() == v[i] && items[i] in owned)
      && (forall i, j :: 0 <= i < j < |items| ==> items[i] != items[j])
    }

    predicate IsNew(home: Home)
      reads this
    {
      this.home == home && items == []
    }

    function Vals(): (v: seq<Req>)
      reads this, items
      ensures |v| == |items| && forall i :: 0 <= i < |items| ==> v[i] == items[i].Val()
    {
      ValsOf(items)
    }

    constructor (home: Home)
      requires home != InHand
      ensures IsNew(home)
    {
      this.home := home;
      items := [];
    }

    lemma Empty(owned: set<Request>)
      requires home != InHand && items == []
      ensures Holds([], owned)
    {}

    lemma HoldsVals(v: seq<Req>, owned: set<Request>)
      requires Holds(v, owned)
      ensures v == Vals()
    {}

    lemma Size(v: seq<Req>, owned: set<Request>)
      requires Holds(v, owned)
      ensures |v| == |items| && home != InHand
      ensures forall i :: 0 <= i < |items| ==> items[i].home == home && items[i] in owned && items[i].Val() == v[i]
    {}

    /** A request that is at home elsewhere is not here. */
    lemma Absent(v: seq<Req>, owned: set<Request>, r: Request)
      requires Holds(v, owned)
      ensures r.home != home ==> forall i :: 0 <= i < |items| ==> items[i] != r
    {}

    lemma Widen(v: seq<Req>, small: set<Request>, owned: set<Request>)
      requires Holds(v, small) && small <= owned
      ensures Holds(v, owned)
    {}

    method PushBack(r: Request, ghost v: seq<Req>, ghost owned: set<Request>)
      requires Holds(v, owned) && r.home == InHand && r in owned
      modifies this`items, r`home
      ensures items == old(items) + [r] && r.home == home
      ensures Holds(v + [r.Val()], owned)
    {
      items := items + [r];
      r.home := home;
    }

    method PushFront(r: Request, ghost v: seq<Req>, ghost owned: set<Request>)
      requires Holds(v, owned) && r.home == InHand && r in owned
      modifies this`items, r`home
      ensures items == [r] + old(items) && r.home == home
      ensures Holds([r.Val()] + v, owned)
    {
      items := [r] + items;
      r.home := home;
    }

    method PopFront(ghost v: seq<Req>, ghost owned: set<Request>) returns (r: Request)
      requires Holds(v, owned) && v != []
      modifies this`items, (var r: Request := items[0]; r)`home
      ensures r == old(items)[0] && items == old(items)[1..] && r.home == InHand && r.Val() == v[0] && r in owned
      ensures Holds(v[1..], owned)
    {
      r := items[0];
      items := items[1..];
      r.home := InHand;
    }

    /** Removes the request at index i. */
    method Erase(i: nat, ghost v: seq<Req>, ghost owned: set<Request>) returns (r: Request)
      requires Holds(v, owned) && i < |v|
      modifies this`items, (var r: Request := items[i]; r)`home
      ensures r == old(items)[i] && items == old(items)[..i] + old(items)[i + 1..]
      ensures r.home == InHand && r.Val() == v[i] && r in owned
      ensures Holds(v[..i] + v[i + 1..], owned)
    {
      r := items[i];
      items := items[..i] + items[i + 1..];
      r.home := InHand;
    }
  }

  function ValsOf(q: seq<Request>): (v: seq<Req>)
    reads q
    ensures |v| == |q| && forall i :: 0 <= i < |q| ==> v[i] == q[i].Val()
  {
    if q == [] then [] else [q[0].Val()] + ValsOf(q[1..])
  }

  /** A queue whose operations each hold the lock throughout. */
  class MutexQueue<T> {
    var queue: seq<T>
    var closed: bool

    constructor ()
      ensures queue == [] && !closed
    {
      queue := [];
      closed := false;
    }

    method Push(item: T)
      modifies this
      ensures queue == old(queue) + [item] && closed == old(closed)
    {
      queue := queue + [item];
    }

    method TryPop() returns (ok: bool, item: seq<T>)
      modifies this
      ensures ok == (old(queue) != []) && closed == old(closed)
      ensures item + queue == old(queue) && |item| == if ok then 1 else 0
    {
      if queue == [] {
        return false, [];
      }
      ok, item := true, [queue[0]];
      queue := queue[1..];
    }

    /** Called when the wait is over: there is an item, or the queue has been closed. No item means
        closed and empty. */
    method WaitPop() returns (item: seq<T>)
      requires queue != [] || closed
      modifies this
      ensures item + queue == old(queue) && closed == old(closed) && |item| <= 1
      ensures item == [] <==> old(queue) == []
      ensures item == [] ==> closed && queue == []
    {
      if queue == [] {
        return [];
      }
      item := [queue[0]];
      queue := queue[1..];
    }

    method Close()
      modifies this
      ensures closed && queue == old(queue)
    {
      closed := true;
    }
  }

  // ---- the allocator ----

  /** What one layer looks like after n fresh blocks. */
  function Granted(k: Kv, lo: int, n: nat): Kv { Kv(k.table + Consecutive(lo, n), k.numTokens) }

  lemma {:induction false} GrantLayersAt(kv: seq<Kv>, n: nat, lo: int, l: nat)
    requires l < |kv|
    ensures GrantLayers(kv, n, lo)[l] == Granted(kv[l], lo + l * n, n)
  {
    if l > 0 {
      GrantLayersAt(kv[1..], n, lo + n, l - 1);
      assert lo + n + (l - 1) * n == lo + l * n;
    }
  }

  class KvAllocator {
    const policy: Policy
    var nextBlock: int
    var calls: nat

    constructor (policy: Policy)
      ensures Val() == Alloc(policy, 0, 0)
    {
      this.policy := policy;
      nextBlock := 0;
      calls := 0;
    }

    function Val(): Alloc
      reads this
    {
      Alloc(policy, nextBlock, calls)
    }

    /** Appends n fresh blocks to every layer, layer by layer. */
    method GrantBlocks(req: Request, n: nat)
      modifies this`nextBlock, req`kv
      ensures req.kv == GrantLayers(old(req.kv), n, old(nextBlock))
      ensures nextBlock == old(nextBlock) + n * |old(req.kv)|
    {
      ghost var kv0, lo := req.kv, nextBlock;
      for layer := 0 to |req.kv|
        invariant |req.kv| == |kv0| && nextBlock == lo + layer * n
        invariant forall l :: 0 <= l < |kv0| ==>
                    req.kv[l] == if l < layer then Granted(kv0[l], lo + l * n, n) else kv0[l]
      {
        for i := 0 to n
          invariant |req.kv| == |kv0| && nextBlock == lo + layer * n + i
          invariant forall l :: 0 <= l < |kv0| && l != layer ==>
                      req.kv[l] == if l < layer then Granted(kv0[l], lo + l * n, n) else kv0[l]
          invariant req.kv[layer] == Granted(kv0[layer], lo + layer * n, i)
        {
          assert Consecutive(lo + layer * n, i + 1) == Consecutive(lo + layer * n, i) + [nextBlock];
          req.AppendBlock(layer, nextBlock);
          nextBlock := nextBlock + 1;
        }
        assert (layer + 1) * n == layer * n + n;
      }
      forall l | 0 <= l < |kv0|
        ensures req.kv[l] == GrantLayers(kv0, n, lo)[l]
      {
        GrantLayersAt(kv0, n, lo, l);
      }
      assert n * |kv0| == |kv0| * n;
    }

    /** Whether this call is refused; a scripted grant leaves the tables it likes. */
    method Answered(req: Request) returns (ok: bool)
      modifies this`calls, req`kv
      ensures calls == old(calls) + 1
      ensures ok == match policy
                    case Bump(refuses) => !refuses(old(calls))
                    case Script(answer) => answer(old(calls)).Grant?
      ensures req.kv == if policy.Script? && ok then policy.answer(old(calls)).kv else old(req.kv)
    {
      match policy {
        case Bump(refuses) => ok := !refuses(calls);
        case Script(answer) =>
          var a := answer(calls);
          ok := a.Grant?;
          if a.Grant? { req.kv := a.kv; }
      }
      calls := calls + 1;
    }

    method AllocatePrefill(req: Request) returns (ok: bool)
      modifies this`nextBlock, this`calls, req`kv, req`residency
      ensures Try(ok, req.Val(), Val()) == Call(AllocPrefill, old(Val()), old(req.Val()))
      ensures ok && policy.Bump? ==> Extended(old(req.kv), req.kv, (req.promptLen + 15) / 16, old(nextBlock))
    {
      if policy.Bump? { var n := WhatACallDoes(AllocPrefill, Val(), req.Val()); }
      ok := Answered(req);
      if ok {
        if policy.Bump? {
          GrantBlocks(req, (req.promptLen + KV_BLOCK - 1) / KV_BLOCK);
        }
        req.residency := Gpu;
      }
    }

    method AllocateDecode(req: Request) returns (ok: bool)
      modifies this`nextBlock, this`calls, req`kv, req`residency
      ensures Try(ok, req.Val(), Val()) == Call(AllocDecode, old(Val()), old(req.Val()))
      ensures ok && policy.Bump? ==>
                Extended(old(req.kv), req.kv, if |old(req.kv)| > 0 && old(req.kv)[0].numTokens % 16 == 0 then 1 else 0,
                         old(nextBlock))
    {
      if policy.Bump? { var n := WhatACallDoes(AllocDecode, Val(), req.Val()); }
      ok := Answered(req);
      if ok {
        if policy.Bump? {
          var needNewBlock := |req.kv| > 0 && req.kv[0].numTokens % KV_BLOCK == 0;
          if !needNewBlock {
            return;
          }
          GrantBlocks(req, 1);
        }
        req.residency := Gpu;
      }
    }

    method FreeRequest(req: Request)
      modifies req`kv, req`residency
      ensures req.Val() == Allocation.FreeRequest(old(req.Val()))
    {
      req.Reset();
      req.residency := NoKv;
    }

    method SwapOut(req: Request) returns (ok: bool)
      modifies this`nextBlock, this`calls, req`kv, req`residency, req`state
      ensures Try(ok, req.Val(), Val()) == Call(Op.SwapOut, old(Val()), old(req.Val()))
    {
      ok := Answered(req);
      if ok {
        NoBlocksGranted(req.kv, nextBlock);
        req.residency := Cpu;
        req.state := SwappedOut;
      }
    }

    method SwapIn(req: Request) returns (ok: bool)
      modifies this`nextBlock, this`calls, req`kv, req`residency, req`state
      ensures Try(ok, req.Val(), Val()) == Call(Op.SwapIn, old(Val()), old(req.Val()))
    {
      ok := Answered(req);
      if ok {
        NoBlocksGranted(req.kv, nextBlock);
        req.residency := Gpu;
        req.state := DecodeReady;
      }
    }

    function IsSwapped(req: Request): bool
      reads req
    {
      req.residency == Cpu
    }
  }

  lemma {:induction false} NoBlocksGranted(kv: seq<Kv>, lo: int)
    ensures GrantLayers(kv, 0, lo) == kv
  {
    if kv != [] {
      NoBlocksGranted(kv[1..], lo);
      assert kv[0].table + Consecutive(lo, 0) == kv[0].table;
    }
  }
}
