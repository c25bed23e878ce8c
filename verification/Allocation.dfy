/** The KV allocator interface: any call may fail, and a failed call leaves the request alone. */
module Allocation {
  import opened Types

  /** What a scripted allocator says to one call; a grant may leave any block tables behind. */
  datatype Answer = Refuse | Grant(kv: seq<Kv>)

  /** Bump hands out fresh block numbers as the mock allocator does, but refuses the calls that
      `refuses` picks; the mock allocator itself is the Bump that never refuses. Script stands for
      every other allocator: what it answers and which tables it builds are unconstrained. */
  datatype Policy = Bump(refuses: nat -> bool) | Script(answer: nat -> Answer)

  datatype Alloc = Alloc(policy: Policy, nextBlock: int, calls: nat)

  datatype Op = AllocPrefill | AllocDecode | SwapOut | SwapIn

  datatype Try = Try(ok: bool, req: Req, alloc: Alloc)

  /** Consecutive block numbers lo, lo + 1, ... */
  function Consecutive(lo: int, n: nat): seq<int> {
    seq(n, i requires 0 <= i < n => lo + i)
  }

  /** Appends n fresh blocks to each layer in turn. */
  function GrantLayers(kv: seq<Kv>, n: nat, lo: int): (r: seq<Kv>)
    ensures |r| == |kv|
  {
    if kv == [] then []
    else [Kv(kv[0].table + Consecutive(lo, n), kv[0].numTokens)] + GrantLayers(kv[1..], n, lo + n)
  }

  /** Blocks per layer that a call must add. */
  function Need(op: Op, r: Req): nat {
    match op
    case AllocPrefill => CeilBlocks(r.promptLen)
    case AllocDecode => if |r.kv| > 0 && r.kv[0].numTokens % KV_BLOCK == 0 then 1 else 0
    case _ => 0
  }

  function Moved(op: Op, r: Req): Req {
    match op
    case AllocPrefill => r.(residency := Gpu)
    case AllocDecode => r.(residency := Gpu)
    case SwapOut => r.(residency := Cpu, state := SwappedOut)
    case SwapIn => r.(residency := Gpu, state := DecodeReady)
  }

  function Call(op: Op, a: Alloc, r: Req): Try {
    var a' := a.(calls := a.calls + 1);
    match a.policy
    case Bump(refuses) =>
      if refuses(a.calls) then Try(false, r, a')
      else
        var n := Need(op, r);
        Try(true, BumpGrant(op, r, n, a.nextBlock), a'.(nextBlock := a.nextBlock + n * |r.kv|))
    case Script(answer) =>
      match answer(a.calls)
      case Refuse => Try(false, r, a')
      case Grant(kv) => Try(true, Moved(op, r.(kv := kv)), a')
  }

  /** A decode call that needs no block returns before it touches the request. */
  function BumpGrant(op: Op, r: Req, n: nat, lo: int): Req {
    if op == AllocDecode && n == 0 then r else Moved(op, r.(kv := GrantLayers(r.kv, n, lo)))
  }

  function FreeRequest(r: Req): Req {
    r.(kv := seq(|r.kv|, i requires 0 <= i < |r.kv| => Kv([], 0)), residency := NoKv)
  }

  predicate IsSwapped(r: Req) { r.residency == Cpu }

  /** Whether the k-th call from now on will be refused. */
  predicate Refused(a: Alloc, k: nat) {
    match a.policy
    case Bump(refuses) => refuses(a.calls + k)
    case Script(answer) => answer(a.calls + k).Refuse?
  }

  // ---- what a call does, said without the functions above ----

  /** Every layer's table has grown by n entries at its end: layer l has got lo + l * n and the n - 1 after it. */
  ghost predicate Extended(before: seq<Kv>, after: seq<Kv>, n: nat, lo: int) {
    && |after| == |before|
    && forall l :: 0 <= l < |before| ==>
         && |after[l].table| == |before[l].table| + n && before[l].table <= after[l].table
         && after[l].numTokens == before[l].numTokens
         && forall i :: |before[l].table| <= i < |after[l].table| ==>
              after[l].table[i] == lo + l * n + (i - |before[l].table|)
  }

  lemma {:induction false} LayersExtended(kv: seq<Kv>, n: nat, lo: int)
    ensures Extended(kv, GrantLayers(kv, n, lo), n, lo)
  {
    var r := GrantLayers(kv, n, lo);
    if kv != [] {
      LayersExtended(kv[1..], n, lo + n);
      assert r[1..] == GrantLayers(kv[1..], n, lo + n);
      forall l | 0 <= l < |kv|
        ensures |r[l].table| == |kv[l].table| + n && kv[l].table <= r[l].table && r[l].numTokens == kv[l].numTokens
        ensures forall i :: |kv[l].table| <= i < |r[l].table| ==> r[l].table[i] == lo + l * n + (i - |kv[l].table|)
      {
        if l > 0 {
          assert r[l] == r[1..][l - 1] && kv[l] == kv[1..][l - 1];
          assert lo + n + (l - 1) * n == lo + l * n;
        }
      }
    }
  }

  /** How many blocks each layer gets: for a prefill enough for the prompt and no more, for a decode one when the
      last block is full, for a swap none. */
  predicate Needed(op: Op, r: Req, n: nat) {
    match op
    case AllocPrefill => 16 * n >= r.promptLen && (n > 0 ==> 16 * (n - 1) < r.promptLen)
    case AllocDecode => n == if |r.kv| > 0 && r.kv[0].numTokens % 16 == 0 then 1 else 0
    case _ => n == 0
  }

  /** A granted call appends fresh blocks behind those that are there, a refused one changes nothing but the count
      of calls. */
  lemma WhatACallDoes(op: Op, a: Alloc, r: Req) returns (n: nat)
    requires a.policy.Bump?
    ensures var t := Call(op, a, r);
            t.ok == !a.policy.refuses(a.calls) && t.alloc.policy == a.policy && t.alloc.calls == a.calls + 1
    ensures var t := Call(op, a, r); !t.ok ==> t.req == r && t.alloc.nextBlock == a.nextBlock
    ensures var t := Call(op, a, r);
            t.ok ==>
              && Needed(op, r, n) && Extended(r.kv, t.req.kv, n, a.nextBlock)
              && t.alloc.nextBlock == a.nextBlock + |r.kv| * n
              && t.req == r.(kv := t.req.kv,
                             state := if op.SwapOut? then SwappedOut else if op.SwapIn? then DecodeReady else r.state,
                             residency := if op.SwapOut? then Cpu else if op.AllocDecode? && n == 0 then r.residency
                                          else Gpu)
  {
    n := Need(op, r);
    LayersExtended(r.kv, n, a.nextBlock);
    if op == AllocDecode && n == 0 { assert Extended(r.kv, r.kv, 0, a.nextBlock); }
    hide GrantLayers, Extended;
    assert n * |r.kv| == |r.kv| * n;
  }
}
