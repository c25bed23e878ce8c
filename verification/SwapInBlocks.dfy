/** Swapping blocks back in: one copy per block, or one buffer and a scatter kernel. */
module SwapInBlocks {
  import opened Matrices

  /** Block `from` of the source becomes block `to` of the pool. */
  function CopyBlock(pool: seq<real>, source: seq<real>, to: nat, from: nat, elems: nat): (r: seq<real>)
    requires (to + 1) * elems <= |pool| && (from + 1) * elems <= |source|
    ensures |r| == |pool|
  {
    seq(|pool|, k requires 0 <= k < |pool| =>
      if to * elems <= k < to * elems + elems then InBlock(source, from, elems, k - to * elems) else pool[k])
  }

  function InBlock(source: seq<real>, from: nat, elems: nat, e: nat): real
    requires (from + 1) * elems <= |source| && e < elems
  {
    assert (from + 1) * elems == from * elems + elems;
    source[from * elems + e]
  }

  /** Every source block and every destination exists. */
  ghost predicate Fits(poolSize: nat, source: seq<real>, dst: seq<nat>, elems: nat) {
    forall i :: 0 <= i < |dst| ==> (dst[i] + 1) * elems <= poolSize && (i + 1) * elems <= |source|
  }

  /** The pool after the source blocks in `order` have been copied one after the other. */
  function CopyAll(pool: seq<real>, source: seq<real>, dst: seq<nat>, elems: nat, order: seq<nat>): (r: seq<real>)
    requires Fits(|pool|, source, dst, elems) && forall k :: 0 <= k < |order| ==> order[k] < |dst|
    ensures |r| == |pool|
  {
    if order == [] then pool
    else
      var i := order[|order| - 1];
      CopyBlock(CopyAll(pool, source, dst, elems, order[..|order| - 1]), source, dst[i], i, elems)
  }

  function UpTo(n: nat): (s: seq<nat>)
    ensures |s| == n && forall i :: 0 <= i < n ==> s[i] == i
  {
    seq(n, i requires 0 <= i < n => i)
  }

  lemma UpToSnoc(n: nat)
    ensures UpTo(n + 1) == UpTo(n) + [n]
  {}

  // ---- the direct form ----

  method CopyBlocksDirect(pool: array<real>, source: seq<real>, dst: seq<nat>, elems: nat)
    requires Fits(pool.Length, source, dst, elems)
    modifies pool
    ensures pool[..] == CopyAll(old(pool[..]), source, dst, elems, UpTo(|dst|))
  {
    hide CopyBlock;
    for i := 0 to |dst|
      invariant pool[..] == CopyAll(old(pool[..]), source, dst, elems, UpTo(i))
    {
      ghost var p := pool[..];
      Memcpy(pool, source, dst[i], i, elems);
      UpToSnoc(i);
      assert UpTo(i + 1)[..i] == UpTo(i);
    }
  }

  lemma BlockEnd(b: nat, elems: nat)
    ensures (b + 1) * elems == b * elems + elems
  {}

  lemma BlockCopied(p: seq<real>, p': seq<real>, source: seq<real>, to: nat, from: nat, elems: nat)
    requires (to + 1) * elems <= |p| && (from + 1) * elems <= |source| && |p'| == |p|
    requires forall k :: 0 <= k < |p| ==>
               p'[k] == if to * elems <= k < to * elems + elems then InBlock(source, from, elems, k - to * elems)
                        else p[k]
    ensures p' == CopyBlock(p, source, to, from, elems)
  {}

  method Memcpy(pool: array<real>, source: seq<real>, to: nat, from: nat, elems: nat)
    requires (to + 1) * elems <= pool.Length && (from + 1) * elems <= |source|
    modifies pool
    ensures pool[..] == CopyBlock(old(pool[..]), source, to, from, elems)
  {
    hide CopyBlock;
    BlockEnd(to, elems);
    BlockEnd(from, elems);
    CopyRange(pool, source, to * elems, from * elems, elems);
    BlockCopied(old(pool[..]), pool[..], source, to, from, elems);
  }

  method CopyRange(pool: array<real>, source: seq<real>, to: nat, from: nat, elems: nat)
    requires to + elems <= pool.Length && from + elems <= |source|
    modifies pool
    ensures forall k :: 0 <= k < pool.Length ==>
        pool[k] == if to <= k < to + elems then source[from + (k - to)] else old(pool[k])
  {
    for e := 0 to elems
      invariant forall k :: 0 <= k < pool.Length ==>
                  pool[k] == if to <= k < to + e then source[from + (k - to)] else old(pool[k])
    {
      pool[to + e] := source[from + e];
    }
  }

  // ---- the scatter kernel ----

  /** The thread a strided loop gives number x to. */
  function Lane(x: nat, threads: nat): (tid: nat)
    requires threads > 0
    ensures tid < threads
  {
    x % threads
  }

  lemma FirstOfThread(tid: nat, threads: nat)
    requires tid < threads
    ensures Lane(tid, threads) == tid && forall k :: 0 <= k < tid ==> Lane(k, threads) != tid
  {}

  lemma NextOfThread(idx: nat, tid: nat, threads: nat)
    requires threads > 0 && Lane(idx, threads) == tid
    ensures Lane(idx + threads, threads) == tid
    ensures forall k :: idx < k < idx + threads ==> Lane(k, threads) != tid
  {
    Remainder(idx / threads + 1, tid, threads, idx + threads);
    forall k | idx < k < idx + threads
      ensures Lane(k, threads) != tid
    {
      if k % threads == tid { Apart(idx, k, threads); }
    }
  }

  /** Numbers of one thread are a stride apart. */
  lemma Apart(a: nat, b: nat, t: nat)
    requires t > 0 && a % t == b % t && a < b
    ensures a + t <= b
  {
    var p, q := a / t, b / t;
    assert a == t * p + a % t && b == t * q + b % t;
    NotBelow(p, q, t, a % t, a, b);
    MulMono(p + 1, q, t);
    assert t * (p + 1) == t * p + t;
  }

  lemma NotBelow(p: nat, q: nat, t: nat, r: nat, a: nat, b: nat)
    requires a == t * p + r && b == t * q + r && a < b
    ensures p < q
  {
    if q <= p { MulMono(q, p, t); }
  }

  lemma Remainder(q: nat, r: nat, t: nat, n: nat)
    requires t > 0 && r < t && n == t * q + r
    ensures n % t == r
  {
    var p := n / t;
    assert n == t * p + n % t;
    if p < q { MulMono(p + 1, q, t); } else if q < p { MulMono(q + 1, p, t); }
  }

  /** The thread that moves element e of a block: whole vectors of four first, then the tail. */
  function Mover(e: nat, elems: nat, threads: nat): (tid: nat)
    requires e < elems && threads > 0
    ensures tid < threads
  {
    if e < elems / 4 * 4 then Lane(e / 4, threads) else Lane(e - elems / 4 * 4, threads)
  }

  function Cell(to: nat, e: nat): nat { to + e }

  /** One block of the kernel is the copy of one KV block, whatever the order of its threads. */
  method ScatterBlock(pool: array<real>, buffer: seq<real>, dst: seq<nat>, elems: nat, blockIdx: nat, threads: nat,
      order: seq<nat>)
    requires Fits(pool.Length, buffer, dst, elems) && threads > 0 && Schedule(order, threads)
    modifies pool
    ensures pool[..] == if blockIdx < |dst| then CopyBlock(old(pool[..]), buffer, dst[blockIdx], blockIdx, elems)
                        else old(pool[..])
  {
    if blockIdx >= |dst| {
      return;
    }
    hide CopyBlock;
    BlockEnd(dst[blockIdx], elems);
    BlockEnd(blockIdx, elems);
    ScatterThreads(pool, buffer, dst[blockIdx] * elems, blockIdx * elems, elems, threads, order);
    BlockCopied(old(pool[..]), pool[..], buffer, dst[blockIdx], blockIdx, elems);
  }

  method ScatterThreads(pool: array<real>, buffer: seq<real>, to: nat, from: nat, elems: nat, threads: nat,
      order: seq<nat>)
    requires to + elems <= pool.Length && from + elems <= |buffer| && threads > 0 && Schedule(order, threads)
    modifies pool
    ensures forall k :: 0 <= k < pool.Length ==>
        pool[k] == if to <= k < to + elems then buffer[from + (k - to)] else old(pool[k])
  {
    hide Mover;
    for p := 0 to |order|
      invariant forall k :: 0 <= k < pool.Length && !(to <= k < to + elems) ==> pool[k] == old(pool[k])
      invariant forall e :: 0 <= e < elems ==>
                  pool[Cell(to, e)] == if Mover(e, elems, threads) in order[..p] then buffer[from + e]
                      else old(pool[Cell(to, e)])
    {
      ScatterThread(pool, buffer, to, from, elems, order[p], threads);
      assert order[..p + 1] == order[..p] + [order[p]];
    }
    assert order[..|order|] == order;
    forall k | 0 <= k < pool.Length && to <= k < to + elems
      ensures pool[k] == buffer[from + (k - to)]
    {
      assert Mover(k - to, elems, threads) in order;
      assert pool[Cell(to, k - to)] == buffer[from + (k - to)];
    }
  }

  method ScatterThread(pool: array<real>, buffer: seq<real>, to: nat, from: nat, elems: nat, tid: nat, threads: nat)
    requires to + elems <= pool.Length && from + elems <= |buffer| && tid < threads
    modifies pool
    ensures forall k :: 0 <= k < pool.Length && !(to <= k < to + elems) ==> pool[k] == old(pool[k])
    ensures forall e :: 0 <= e < elems ==>
              pool[Cell(to, e)] == if Mover(e, elems, threads) == tid then buffer[from + e] else old(pool[Cell(to, e)])
  {
    MoveVectors(pool, buffer, to, from, elems, tid, threads);
    MoveTail(pool, buffer, to, from, elems, tid, threads);
  }

  /** Vectors tid, tid + threads, ... */
  method MoveVectors(pool: array<real>, buffer: seq<real>, to: nat, from: nat, elems: nat, tid: nat, threads: nat)
    requires to + elems <= pool.Length && from + elems <= |buffer| && tid < threads
    modifies pool
    ensures forall k :: 0 <= k < pool.Length && !(to <= k < to + elems) ==> pool[k] == old(pool[k])
    ensures forall e :: 0 <= e < elems ==>
              pool[Cell(to, e)] == if e < elems / 4 * 4 && Lane(e / 4, threads) == tid then buffer[from + e]
                  else old(pool[Cell(to, e)])
  {
    hide Lane;
    var vec4 := elems / 4;
    var v := tid;
    FirstOfThread(tid, threads);
    while v < vec4
      invariant Lane(v, threads) == tid
      invariant forall k :: 0 <= k < pool.Length && !(to <= k < to + elems) ==> pool[k] == old(pool[k])
      invariant forall e :: 0 <= e < elems ==>
                  pool[Cell(to, e)] == if e < elems / 4 * 4 && e / 4 < v
                      && Lane(e / 4, threads) == tid then buffer[from + e]
                                       else old(pool[Cell(to, e)])
      decreases vec4 + threads - v
    {
      MoveVector(pool, buffer, to, from, elems, v);
      NextOfThread(v, tid, threads);
      v := v + threads;
    }
  }

  method MoveVector(pool: array<real>, buffer: seq<real>, to: nat, from: nat, elems: nat, v: nat)
    requires to + elems <= pool.Length && from + elems <= |buffer| && v < elems / 4
    modifies pool
    ensures forall k :: 0 <= k < pool.Length && !(to <= k < to + elems) ==> pool[k] == old(pool[k])
    ensures forall e :: 0 <= e < elems ==> pool[Cell(to, e)] == if e / 4 == v then buffer[from + e]
        else old(pool[Cell(to, e)])
  {
    pool[to + v * 4] := buffer[from + v * 4];
    pool[to + v * 4 + 1] := buffer[from + v * 4 + 1];
    pool[to + v * 4 + 2] := buffer[from + v * 4 + 2];
    pool[to + v * 4 + 3] := buffer[from + v * 4 + 3];
  }

  /** Elements tailStart + tid, tailStart + tid + threads, ... */
  method MoveTail(pool: array<real>, buffer: seq<real>, to: nat, from: nat, elems: nat, tid: nat, threads: nat)
    requires to + elems <= pool.Length && from + elems <= |buffer| && tid < threads
    modifies pool
    ensures forall k :: 0 <= k < pool.Length && !(to <= k < to + elems) ==> pool[k] == old(pool[k])
    ensures forall e :: 0 <= e < elems ==>
              pool[Cell(to, e)] == if elems / 4 * 4 <= e
                  && Lane(e - elems / 4 * 4, threads) == tid then buffer[from + e]
                                   else old(pool[Cell(to, e)])
  {
    hide Lane;
    var tailStart := elems / 4 * 4;
    var e := tailStart + tid;
    FirstOfThread(tid, threads);
    while e < elems
      invariant tailStart <= e && Lane(e - tailStart, threads) == tid
      invariant forall k :: 0 <= k < pool.Length && !(to <= k < to + elems) ==> pool[k] == old(pool[k])
      invariant forall i :: 0 <= i < elems ==>
                  pool[Cell(to, i)] == if tailStart <= i < e
                      && Lane(i - tailStart, threads) == tid then buffer[from + i]
                                       else old(pool[Cell(to, i)])
      decreases elems + threads - e
    {
      pool[to + e] := buffer[from + e];
      NextOfThread(e - tailStart, tid, threads);
      e := e + threads;
    }
  }

  /** The launch: any grid that covers the blocks, in any order; `order` is the order of the real blocks in it. */
  method Scatter(pool: array<real>, buffer: seq<real>, dst: seq<nat>, elems: nat, threads: nat, grid: seq<nat>,
                 threadOrder: nat -> seq<nat>)
    requires Fits(pool.Length, buffer, dst, elems) && threads > 0 && Schedule(grid, |dst|)
    requires forall b :: Schedule(threadOrder(b), threads)
    modifies pool
    ensures pool[..] == CopyAll(old(pool[..]), buffer, dst, elems, grid)
  {
    hide CopyBlock;
    assert grid[..0] == [];
    for k := 0 to |grid|
      invariant pool[..] == CopyAll(old(pool[..]), buffer, dst, elems, grid[..k])
    {
      ScatterBlock(pool, buffer, dst, elems, grid[k], threads, threadOrder(grid[k]));
      assert grid[..k + 1][..k] == grid[..k];
    }
    assert grid[..|grid|] == grid;
  }

  // ---- when the two forms agree ----

  ghost predicate Distinct(dst: seq<nat>) { forall i, j :: 0 <= i < j < |dst| ==> dst[i] != dst[j] }

  /** Source blocks with the same destination have the same contents. */
  ghost predicate Agreeing(poolSize: nat, source: seq<real>, dst: seq<nat>, elems: nat)
    requires Fits(poolSize, source, dst, elems)
  {
    forall i, j, e :: 0 <= i < |dst| && 0 <= j < |dst| && dst[i] == dst[j] && 0 <= e < elems ==>
      InBlock(source, i, elems, e) == InBlock(source, j, elems, e)
  }

  /** Cell k of the pool belongs to destination block b. */
  predicate Inside(b: nat, elems: nat, k: nat) { b * elems <= k < b * elems + elems }

  lemma OneBlock(b: nat, b': nat, elems: nat, k: nat)
    requires Inside(b, elems, k) && Inside(b', elems, k)
    ensures b == b'
  {
    if b < b' { RowsApart(b, b', elems); } else if b' < b { RowsApart(b', b, elems); }
  }

  lemma CopyBlockAt(pool: seq<real>, source: seq<real>, to: nat, from: nat, elems: nat, k: nat)
    requires (to + 1) * elems <= |pool| && (from + 1) * elems <= |source| && k < |pool|
    ensures CopyBlock(pool, source, to, from, elems)[k]
         == if Inside(to, elems, k) then InBlock(source, from, elems, k - to * elems) else pool[k]
  {}

  /** The last block in `order` that is copied over cell k, -1 if there is none. */
  function LastTo(dst: seq<nat>, elems: nat, order: seq<nat>, k: nat): (x: int)
    requires forall p :: 0 <= p < |order| ==> order[p] < |dst|
    ensures x == -1 || (x >= 0 && x in order && x < |dst| && Inside(dst[x], elems, k))
    ensures x == -1 ==> forall p :: 0 <= p < |order| ==> !Inside(dst[order[p]], elems, k)
  {
    if order == [] then -1
    else if Inside(dst[order[|order| - 1]], elems, k) then order[|order| - 1]
    else LastTo(dst, elems, order[..|order| - 1], k)
  }

  lemma {:induction false} CopyAllAt(pool: seq<real>, source: seq<real>, dst: seq<nat>, elems: nat,
      order: seq<nat>, k: nat)
    requires Fits(|pool|, source, dst, elems) && (forall p :: 0 <= p < |order| ==> order[p] < |dst|) && k < |pool|
    ensures var x := LastTo(dst, elems, order, k);
            CopyAll(pool, source, dst, elems, order)[k]
            == if x < 0 then pool[k] else InBlock(source, x, elems, k - dst[x] * elems)
  {
    hide CopyBlock, InBlock, Inside;
    if order != [] {
      var n := |order| - 1;
      CopyAllAt(pool, source, dst, elems, order[..n], k);
      CopyBlockAt(CopyAll(pool, source, dst, elems, order[..n]), source, dst[order[n]], order[n], elems, k);
    }
  }

  /** Blocks in any order do what the direct form does. */
  lemma AgreeingOrders(pool: seq<real>, source: seq<real>, dst: seq<nat>, elems: nat, order: seq<nat>, order': seq<nat>)
    requires Fits(|pool|, source, dst, elems) && Agreeing(|pool|, source, dst, elems)
    requires Schedule(order, |dst|) && Schedule(order', |dst|)
    ensures CopyAll(pool, source, dst, elems, order) == CopyAll(pool, source, dst, elems, order')
  {
    forall k | 0 <= k < |pool|
      ensures CopyAll(pool, source, dst, elems, order)[k] == CopyAll(pool, source, dst, elems, order')[k]
    {
      SameCell(pool, source, dst, elems, order, order', k);
    }
  }

  lemma SameCell(pool: seq<real>, source: seq<real>, dst: seq<nat>, elems: nat, order: seq<nat>, order': seq<nat>,
      k: nat)
    requires Fits(|pool|, source, dst, elems) && Agreeing(|pool|, source, dst, elems) && k < |pool|
    requires Schedule(order, |dst|) && Schedule(order', |dst|)
    ensures CopyAll(pool, source, dst, elems, order)[k] == CopyAll(pool, source, dst, elems, order')[k]
  {
    hide CopyAll, InBlock, LastTo, Inside;
    CopyAllAt(pool, source, dst, elems, order, k);
    CopyAllAt(pool, source, dst, elems, order', k);
    var x, x' := LastTo(dst, elems, order, k), LastTo(dst, elems, order', k);
    SomeWriter(dst, elems, order, order', k);
    if x >= 0 {
      OneBlock(dst[x], dst[x'], elems, k);
      WithinBlock(dst[x], elems, k);
    }
  }

  lemma SomeWriter(dst: seq<nat>, elems: nat, order: seq<nat>, order': seq<nat>, k: nat)
    requires Schedule(order, |dst|) && Schedule(order', |dst|)
    ensures LastTo(dst, elems, order, k) < 0 <==> LastTo(dst, elems, order', k) < 0
  {
    hide LastTo, Inside;
    var x, x' := LastTo(dst, elems, order, k), LastTo(dst, elems, order', k);
    if x >= 0 { assert x in order'; }
    if x' >= 0 { assert x' in order; }
  }

  lemma WithinBlock(b: nat, elems: nat, k: nat)
    requires Inside(b, elems, k)
    ensures 0 <= k - b * elems < elems
  {}

  /** Buffered swap-in equals direct swap-in when the destinations are distinct. */
  lemma BufferedIsDirect(pool: seq<real>, source: seq<real>, dst: seq<nat>, elems: nat, grid: seq<nat>)
    requires Fits(|pool|, source, dst, elems) && Distinct(dst) && Schedule(grid, |dst|)
    ensures CopyAll(pool, source, dst, elems, grid) == CopyAll(pool, source, dst, elems, UpTo(|dst|))
  {
    hide CopyAll, InBlock;
    UpToSchedule(|dst|);
    AgreeingOrders(pool, source, dst, elems, grid, UpTo(|dst|));
  }

  /** Then every destination block holds its source block, and every other block is as it was. */
  lemma BlocksInPlace(pool: seq<real>, source: seq<real>, dst: seq<nat>, elems: nat, grid: seq<nat>)
    requires Fits(|pool|, source, dst, elems) && Distinct(dst) && Schedule(grid, |dst|)
    ensures forall i, e :: 0 <= i < |dst| && 0 <= e < elems ==>
              dst[i] * elems + e < |pool| &&
              CopyAll(pool, source, dst, elems, grid)[dst[i] * elems + e] == InBlock(source, i, elems, e)
    ensures forall k :: 0 <= k < |pool| && (forall i :: 0 <= i < |dst| ==> !Inside(dst[i], elems, k)) ==>
              CopyAll(pool, source, dst, elems, grid)[k] == pool[k]
  {
    hide CopyAll, InBlock;
    forall i, e | 0 <= i < |dst| && 0 <= e < elems
      ensures dst[i] * elems + e < |pool|
      ensures CopyAll(pool, source, dst, elems, grid)[dst[i] * elems + e] == InBlock(source, i, elems, e)
    {
      BlockEnd(dst[i], elems);
      FilledFrom(pool, source, dst, elems, grid, i, dst[i] * elems + e);
    }
    hide Inside;
    forall k | 0 <= k < |pool| && forall i :: 0 <= i < |dst| ==> !Inside(dst[i], elems, k)
      ensures CopyAll(pool, source, dst, elems, grid)[k] == pool[k]
    {
      CopyAllAt(pool, source, dst, elems, grid, k);
    }
  }

  lemma UpToSchedule(n: nat)
    ensures Schedule(UpTo(n), n)
  {
    forall t | 0 <= t < n ensures t in UpTo(n) { assert UpTo(n)[t] == t; }
  }

  lemma FilledFrom(pool: seq<real>, source: seq<real>, dst: seq<nat>, elems: nat, grid: seq<nat>, i: nat, k: nat)
    requires Fits(|pool|, source, dst, elems) && Distinct(dst) && Schedule(grid, |dst|)
    requires i < |dst| && k < |pool| && Inside(dst[i], elems, k)
    ensures CopyAll(pool, source, dst, elems, grid)[k] == InBlock(source, i, elems, k - dst[i] * elems)
  {
    hide CopyAll, InBlock, LastTo, Inside;
    CopyAllAt(pool, source, dst, elems, grid, k);
    var x := LastTo(dst, elems, grid, k);
    assert i in grid;
    if x >= 0 { OneBlock(dst[i], dst[x], elems, k); }
  }

  /** One buffered swap-in: the blocks go to the device in one piece and are scattered there. */
  method RunBufferedOnce(pool: array<real>, buffer: array<real>, host: seq<real>, dst: seq<nat>, elems: nat,
      threads: nat,
                         grid: seq<nat>, threadOrder: nat -> seq<nat>)
    requires pool != buffer && buffer.Length == |host| && Fits(pool.Length, host, dst, elems) && Distinct(dst)
    requires threads > 0 && Schedule(grid, |dst|) && forall b :: Schedule(threadOrder(b), threads)
    modifies pool, buffer
    ensures pool[..] == CopyAll(old(pool[..]), host, dst, elems, UpTo(|dst|))
  {
    hide CopyAll;
    CopyRange(buffer, host, 0, 0, |host|);
    assert buffer[..] == host;
    Scatter(pool, buffer[..], dst, elems, threads, grid, threadOrder);
    BufferedIsDirect(old(pool[..]), host, dst, elems, grid);
  }

  // ---- and when they do not ----

  /** All of 0, ..., n - 1 with x last. */
  function WithLast(n: nat, x: nat): seq<nat>
    requires x < n
  {
    seq(n, i requires 0 <= i < n => if i < x then i else if i < n - 1 then i + 1 else x)
  }

  lemma WithLastSchedule(n: nat, x: nat)
    requires x < n
    ensures |WithLast(n, x)| == n && Schedule(WithLast(n, x), n) && WithLast(n, x)[n - 1] == x
  {
    forall t | 0 <= t < n
      ensures t in WithLast(n, x)
    {
      assert WithLast(n, x)[if t < x then t else if t == x then n - 1 else t - 1] == t;
    }
  }

  lemma LastOfAll(dst: seq<nat>, elems: nat, order: seq<nat>, k: nat)
    requires order != [] && (forall p :: 0 <= p < |order| ==> order[p] < |dst|)
    requires Inside(dst[order[|order| - 1]], elems, k)
    ensures LastTo(dst, elems, order, k) == order[|order| - 1]
  {}

  /** With the block x launched last, the destination of x holds block x. */
  lemma LastWins(pool: seq<real>, source: seq<real>, dst: seq<nat>, elems: nat, x: nat, e: nat)
    requires Fits(|pool|, source, dst, elems) && x < |dst| && e < elems
    ensures dst[x] * elems + e < |pool|
    ensures Schedule(WithLast(|dst|, x), |dst|)
    ensures CopyAll(pool, source, dst, elems, WithLast(|dst|, x))[dst[x] * elems + e] == InBlock(source, x, elems, e)
  {
    hide CopyAll, InBlock, WithLast, LastTo;
    BlockEnd(dst[x], elems);
    WithLastSchedule(|dst|, x);
    var k := dst[x] * elems + e;
    assert Inside(dst[x], elems, k);
    hide Inside;
    LastOfAll(dst, elems, WithLast(|dst|, x), k);
    CopyAllAt(pool, source, dst, elems, WithLast(|dst|, x), k);
  }

  /** The launch order of the blocks is unobservable exactly when blocks that share a destination agree. */
  lemma OrderIsUnobservable(pool: seq<real>, source: seq<real>, dst: seq<nat>, elems: nat)
    requires Fits(|pool|, source, dst, elems)
    ensures Agreeing(|pool|, source, dst, elems) <==>
            forall grid :: Schedule(grid, |dst|) ==>
              CopyAll(pool, source, dst, elems, grid) == CopyAll(pool, source, dst, elems, UpTo(|dst|))
  {
    hide CopyAll, InBlock;
    UpToSchedule(|dst|);
    if Agreeing(|pool|, source, dst, elems) {
      forall grid | Schedule(grid, |dst|)
        ensures CopyAll(pool, source, dst, elems, grid) == CopyAll(pool, source, dst, elems, UpTo(|dst|))
      {
        AgreeingOrders(pool, source, dst, elems, grid, UpTo(|dst|));
      }
    } else {
      var i, j, e :| 0 <= i < |dst| && 0 <= j < |dst| && dst[i] == dst[j] && 0 <= e < elems
                     && InBlock(source, i, elems, e) != InBlock(source, j, elems, e);
      LastWins(pool, source, dst, elems, i, e);
      LastWins(pool, source, dst, elems, j, e);
      assert CopyAll(pool, source, dst, elems, WithLast(|dst|, i)) != CopyAll(pool, source, dst, elems,
          WithLast(|dst|, j));
    }
  }

  /** make_destination_blocks shuffles 0, ..., n - 1, so its result has what the kernel needs. */
  lemma ShuffledDestinations(dst: seq<nat>, n: nat, elems: nat, poolSize: nat, source: seq<real>)
    requires Schedule(dst, n) && |dst| == n && poolSize == n * elems && |source| == n * elems
    ensures Distinct(dst) && Fits(poolSize, source, dst, elems)
  {
    forall i | 0 <= i < |dst|
      ensures (dst[i] + 1) * elems <= poolSize && (i + 1) * elems <= |source|
    {
      MulMono(dst[i] + 1, n, elems);
      MulMono(i + 1, n, elems);
    }
  }
}
