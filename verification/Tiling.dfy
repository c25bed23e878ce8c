/** The 64x64 block of the vectorised GEMM kernels: shared tiles, register tiles, and the epilogue.
    Both kernels run the same code here and differ only in how they load A. */
module Tiling {
  import opened Matrices
  import opened Grids

  const BK: nat := 8
  const TM: nat := 8
  const TN: nat := 8
  const SA_STRIDE: nat := 68
  const THREADS: nat := 64

  datatype Float4 = Float4(x: real, y: real, z: real, w: real)

  function Load4(s: seq<real>, at: nat): Float4
    requires at + 4 <= |s|
  {
    Float4(s[at], s[at + 1], s[at + 2], s[at + 3])
  }

  function Get(v: Float4, e: nat): real
    requires e < 4
  {
    if e == 0 then v.x else if e == 1 then v.y else if e == 2 then v.z else v.w
  }

  method Read4(a: array<real>, at: nat) returns (v: Float4)
    requires at + 4 <= a.Length
    ensures v.x == a[at] && v.y == a[at + 1] && v.z == a[at + 2] && v.w == a[at + 3]
  {
    v := Float4(a[at], a[at + 1], a[at + 2], a[at + 3]);
  }

  method Store4(a: array<real>, at: nat, v: Float4)
    requires at + 4 <= a.Length
    modifies a
    ensures a[at] == v.x && a[at + 1] == v.y && a[at + 2] == v.z && a[at + 3] == v.w
    ensures forall k :: 0 <= k < a.Length ==> a[k] == if at <= k < at + 4 then Get(v, k - at) else old(a[k])
  {
    a[at], a[at + 1], a[at + 2], a[at + 3] := v.x, v.y, v.z, v.w;
  }

  // ---- the shared tiles ----

  /** The transposed, padded tile of A: element (r, k) of the tile is at k * 68 + r. */
  function CellA(k: nat, r: nat): nat { k * SA_STRIDE + r }

  function CellB(k: nat, c: nat): nat { k * BN + c }

  ghost predicate TileA(a: Matrix, row0: nat, k0: nat, sA: seq<real>)
    requires a.Valid() && row0 + BM <= a.rows && k0 + BK <= a.cols
  {
    && |sA| == BK * SA_STRIDE
    && forall k, r :: 0 <= k < BK && 0 <= r < BM ==> sA[CellA(k, r)] == a.At(row0 + r, k0 + k)
  }

  ghost predicate TileB(b: Matrix, col0: nat, k0: nat, sB: seq<real>)
    requires b.Valid() && col0 + BN <= b.cols && k0 + BK <= b.rows
  {
    && |sB| == BK * BN
    && forall k, c :: 0 <= k < BK && 0 <= c < BN ==> sB[CellB(k, c)] == b.At(k0 + k, col0 + c)
  }

  // ---- loading B: vector v covers row v / 16 and columns 4 * (v % 16), ... ----

  /** v holds elements (r, c), ..., (r, c + 3). */
  ghost predicate IsRun(v: Float4, m: Matrix, r: nat, c: nat)
    requires m.Valid() && r < m.rows && c + 4 <= m.cols
  {
    v.x == m.At(r, c) && v.y == m.At(r, c + 1) && v.z == m.At(r, c + 2) && v.w == m.At(r, c + 3)
  }

  /** Where the pointer arithmetic of a tile load leads. */
  lemma RunAt(m: Matrix, row0: nat, col0: nat, r: nat, c: nat)
    requires m.Valid() && row0 + r < m.rows && col0 + c + 4 <= m.cols
    ensures var at := row0 * m.cols + col0 + (r * m.cols + c);
            at + 4 <= |m.cells| && IsRun(Load4(m.cells, at), m, row0 + r, col0 + c)
  {
    assert (row0 + r) * m.cols == row0 * m.cols + r * m.cols;
    assert Index(m.rows, m.cols, row0 + r, col0 + c + 3) == (row0 + r) * m.cols + col0 + c + 3;
  }

  /** Vector v of the B tile: row v / 16, columns 4 * (v % 16), ... */
  method LoadVectorB(b: Matrix, k0: nat, col0: nat, sB: array<real>, v: nat)
    requires b.Valid() && col0 + BN <= b.cols && k0 + BK <= b.rows && sB.Length == BK * BN && v < BK * BN / 4
    modifies sB
    ensures forall k, c :: 0 <= k < BK && 0 <= c < BN ==>
              sB[CellB(k, c)] == if k * 16 + c / 4 == v then b.At(k0 + k, col0 + c) else old(sB[CellB(k, c)])
  {
    hide Matrix.At;
    var rowB, colB4 := v / 16, v % 16;
    RunAt(b, k0, col0, rowB, colB4 * 4);
    var tmp := Load4(b.cells, k0 * b.cols + col0 + (rowB * b.cols + colB4 * 4));
    Store4(sB, rowB * BN + colB4 * 4, tmp);
    forall k, c | 0 <= k < BK && 0 <= c < BN
      ensures sB[CellB(k, c)] == if k * 16 + c / 4 == v then b.At(k0 + k, col0 + c) else old(sB[CellB(k, c)])
    {
      InVector(k, c, v);
      if k * 16 + c / 4 == v {
        assert Get(tmp, c % 4) == b.At(k0 + rowB, col0 + colB4 * 4 + c % 4);
      }
    }
  }

  /** Vectors of four cells tile the 64-wide rows. */
  lemma InVector(k: nat, c: nat, v: nat)
    requires c < BN
    ensures k * 16 + c / 4 == v <==> 4 * v <= CellB(k, c) < 4 * v + 4
    ensures k * 16 + c / 4 == v ==> v / 16 == k && v % 16 == c / 4 && CellB(k, c) == 4 * v + c % 4
    ensures v / 16 * BN + v % 16 * 4 == 4 * v
  {}

  method LoadB(b: Matrix, k0: nat, col0: nat, sB: array<real>, tid: nat)
    requires b.Valid() && col0 + BN <= b.cols && k0 + BK <= b.rows && sB.Length == BK * BN && tid < THREADS
    modifies sB
    ensures forall k, c :: 0 <= k < BK && 0 <= c < BN ==>
              sB[CellB(k, c)] == if (k * 16 + c / 4) % THREADS == tid then b.At(k0 + k, col0 + c)
                  else old(sB[CellB(k, c)])
  {
    hide Matrix.At;
    for i := 0 to BK * BN / (THREADS * 4)
      invariant forall k, c :: 0 <= k < BK && 0 <= c < BN ==>
                  sB[CellB(k, c)] == if (k * 16 + c / 4) % THREADS == tid && (k * 16 + c / 4) / THREADS < i
                                     then b.At(k0 + k, col0 + c) else old(sB[CellB(k, c)])
    {
      LoadVectorB(b, k0, col0, sB, tid + i * THREADS);
    }
  }

  // ---- the products of one pair of tiles ----

  /** The first row and column of a thread's 8x8 register tile. */
  function ThreadRow(tid: nat): nat { tid / 8 * TM }
  function ThreadCol(tid: nat): nat { tid % 8 * TN }

  lemma ThreadBounds(tid: nat)
    requires tid < THREADS
    ensures ThreadRow(tid) + TM <= BM && ThreadCol(tid) + TN <= BN
  {}

  /** A thread's registers hold the first n terms of each of its products. */
  ghost predicate Partial(call: Call, row0: nat, col0: nat, n: nat, tid: nat, results: array3<real>)
    requires call.a.Valid() && call.b.Valid() && call.a.cols == call.b.rows && n <= call.a.cols && tid < THREADS
    requires row0 + BM <= call.a.rows && col0 + BN <= call.b.cols
    requires results.Length0 == THREADS && results.Length1 == TM && results.Length2 == TN
    reads results
  {
    forall i, j :: 0 <= i < TM && 0 <= j < TN ==>
      results[tid, i, j] == Dot(call.a, call.b, row0 + ThreadRow(tid) + i, col0 + ThreadCol(tid) + j, n)
  }

  /** One step of the products: column `dotIdx` of the A tile times row `dotIdx` of the B tile. */
  method MultiplyStep(ghost call: Call, row0: nat, col0: nat, k0: nat, dotIdx: nat, sA: array<real>, sB: array<real>,
                      tid: nat, results: array3<real>)
    requires call.a.Valid() && call.b.Valid() && call.a.cols == call.b.rows && k0 + BK <= call.a.cols
    requires row0 + BM <= call.a.rows && col0 + BN <= call.b.cols && dotIdx < BK && tid < THREADS
    requires results.Length0 == THREADS && results.Length1 == TM && results.Length2 == TN
    requires TileA(call.a, row0, k0, sA[..]) && TileB(call.b, col0, k0, sB[..])
    requires Partial(call, row0, col0, k0 + dotIdx, tid, results)
    modifies results
    ensures Partial(call, row0, col0, k0 + dotIdx + 1, tid, results)
    ensures OthersKept(tid, results)
  {
    hide Dot, Matrix.At;
    var regA := Registers(sA, dotIdx * SA_STRIDE + ThreadRow(tid));
    var regB := Registers(sB, dotIdx * BN + ThreadCol(tid));
    Outer(regA, regB, tid, results);
    forall i, j | 0 <= i < TM && 0 <= j < TN
      ensures results[tid, i, j]
           == Dot(call.a, call.b, row0 + ThreadRow(tid) + i, col0 + ThreadCol(tid) + j, k0 + dotIdx + 1)
    {
      var r, c := ThreadRow(tid) + i, ThreadCol(tid) + j;
      assert regA[i] == sA[..][CellA(dotIdx, r)] == call.a.At(row0 + r, k0 + dotIdx);
      assert regB[j] == sB[..][CellB(dotIdx, c)] == call.b.At(k0 + dotIdx, col0 + c);
      DotStep(call.a, call.b, row0 + r, col0 + c, k0 + dotIdx);
    }
  }

  twostate predicate OthersKept(tid: nat, results: array3<real>)
    requires results.Length0 == THREADS && results.Length1 == TM && results.Length2 == TN
    reads results
  {
    forall t, i, j :: 0 <= t < THREADS && t != tid && 0 <= i < TM && 0 <= j < TN ==>
        results[t, i, j] == old(results[t, i, j])
  }

  method Multiply(ghost call: Call, row0: nat, col0: nat, k0: nat, sA: array<real>, sB: array<real>, tid: nat,
      results: array3<real>)
    requires call.a.Valid() && call.b.Valid() && call.a.cols == call.b.rows && k0 + BK <= call.a.cols && tid < THREADS
    requires row0 + BM <= call.a.rows && col0 + BN <= call.b.cols
    requires results.Length0 == THREADS && results.Length1 == TM && results.Length2 == TN
    requires TileA(call.a, row0, k0, sA[..]) && TileB(call.b, col0, k0, sB[..])
    requires Partial(call, row0, col0, k0, tid, results)
    modifies results
    ensures Partial(call, row0, col0, k0 + BK, tid, results)
    ensures OthersKept(tid, results)
  {
    hide TileA, TileB, Partial;
    for dotIdx := 0 to BK
      invariant Partial(call, row0, col0, k0 + dotIdx, tid, results)
      invariant OthersKept(tid, results)
    {
      MultiplyStep(call, row0, col0, k0, dotIdx, sA, sB, tid, results);
    }
  }

  method Registers(s: array<real>, at: nat) returns (reg: seq<real>)
    requires at + 8 <= s.Length
    ensures |reg| == 8 && forall i :: 0 <= i < 8 ==> reg[i] == s[at + i]
  {
    var a0 := Read4(s, at);
    var a1 := Read4(s, at + 4);
    reg := [a0.x, a0.y, a0.z, a0.w, a1.x, a1.y, a1.z, a1.w];
  }

  /** Adds the outer product of the two register vectors. */
  method Outer(regA: seq<real>, regB: seq<real>, tid: nat, results: array3<real>)
    requires |regA| == TM && |regB| == TN && tid < THREADS
    requires results.Length0 == THREADS && results.Length1 == TM && results.Length2 == TN
    modifies results
    ensures forall t, i, j :: 0 <= t < THREADS && 0 <= i < TM && 0 <= j < TN ==>
              results[t, i, j] == if t == tid then old(results[t, i, j]) + regA[i] * regB[j] else old(results[t, i, j])
  {
    for i := 0 to TM
      invariant forall t, p, j :: 0 <= t < THREADS && 0 <= p < TM && 0 <= j < TN ==>
                  results[t, p, j] == if t == tid && p < i then old(results[t, p, j]) + regA[p] * regB[j]
                                      else old(results[t, p, j])
    {
      for j := 0 to TN
        invariant forall t, p, q :: 0 <= t < THREADS && 0 <= p < TM && 0 <= q < TN ==>
                    results[t, p, q] == if t == tid && (p < i || (p == i && q < j))
                                        then old(results[t, p, q]) + regA[p] * regB[q]
                                        else old(results[t, p, q])
      {
        results[tid, i, j] := results[tid, i, j] + regA[i] * regB[j];
      }
    }
  }

  // ---- the epilogue ----

  method Blend4(alpha: real, beta: real, x: seq<real>, i: nat, old': Float4) returns (r: Float4)
    requires i + 4 <= |x|
    ensures r.x == Mix(alpha, beta, x[i], old'.x) && r.y == Mix(alpha, beta, x[i + 1], old'.y)
    ensures r.z == Mix(alpha, beta, x[i + 2], old'.z) && r.w == Mix(alpha, beta, x[i + 3], old'.w)
  {
    r := Float4(alpha * x[i] + beta * old'.x, alpha * x[i + 1] + beta * old'.y,
                alpha * x[i + 2] + beta * old'.z, alpha * x[i + 3] + beta * old'.w);
  }

  /** Both epilogues; with beta == 0 the old contents of C are not read. */
  method StoreStrip(alpha: real, beta: real, x: seq<real>, at: nat, c: array<real>)
    requires |x| == TN && at + 8 <= c.Length
    modifies c
    ensures forall k :: 0 <= k < c.Length ==>
              c[k] == if at <= k < at + 8 then Mix(alpha, beta, x[k - at], old(c[k])) else old(c[k])
  {
    hide Mix;
    if beta == 0.0 {
      MixZero(alpha);
      Store4(c, at, Float4(alpha * x[0], alpha * x[1], alpha * x[2], alpha * x[3]));
      Store4(c, at + 4, Float4(alpha * x[4], alpha * x[5], alpha * x[6], alpha * x[7]));
    } else {
      var ec0 := Read4(c, at);
      var ec1 := Read4(c, at + 4);
      ec0 := Blend4(alpha, beta, x, 0, ec0);
      Store4(c, at, ec0);
      ec1 := Blend4(alpha, beta, x, 4, ec1);
      Store4(c, at + 4, ec1);
    }
  }

  method ReadRow(tid: nat, i: nat, results: array3<real>) returns (x: seq<real>)
    requires results.Length0 == THREADS && results.Length1 == TM && results.Length2 == TN && tid < THREADS && i < TM
    ensures |x| == TN && forall e :: 0 <= e < TN ==> x[e] == results[tid, i, e]
  {
    x := [results[tid, i, 0], results[tid, i, 1], results[tid, i, 2], results[tid, i, 3],
          results[tid, i, 4], results[tid, i, 5], results[tid, i, 6], results[tid, i, 7]];
  }

  /** Row i of a thread's register tile. */
  method StoreRow(ghost call: Call, alpha: real, beta: real, n: nat, row0: nat, col0: nat, tid: nat, i: nat,
      results: array3<real>, c: array<real>)
    requires alpha == call.alpha && beta == call.beta && n == call.b.cols
    requires call.Fits(c[..]) && row0 + BM <= call.a.rows && col0 + BN <= call.b.cols && tid < THREADS && i < TM
    requires results.Length0 == THREADS && results.Length1 == TM && results.Length2 == TN
    requires Partial(call, row0, col0, call.a.cols, tid, results)
    modifies c
    ensures Written(call, old(c[..]), c[..], Strip(row0 + ThreadRow(tid) + i, col0 + ThreadCol(tid), TN))
  {
    hide Dot, Mix, Written, ThreadRow, ThreadCol, Offset;
    ThreadBounds(tid);
    ghost var c0 := c[..];
    ghost var r, q := row0 + ThreadRow(tid) + i, col0 + ThreadCol(tid);
    var at := Offset(n, row0, col0, ThreadRow(tid) + i, ThreadCol(tid));
    StripAt(call.a.rows, n, row0, col0, ThreadRow(tid) + i, ThreadCol(tid), TN);
    var x := ReadRow(tid, i, results);
    StoreStrip(alpha, beta, x, at, c);
    StripWritten(call, c0, c[..], x, r, q, at);
  }

  /** The first n rows of a thread's register tile. */
  function ThreadRows(row0: nat, col0: nat, tid: nat, n: nat): (nat, nat) -> bool {
    (i, j) => row0 + ThreadRow(tid) <= i < row0 + ThreadRow(tid) + n
        && col0 + ThreadCol(tid) <= j < col0 + ThreadCol(tid) + TN
  }

  method StoreThread(ghost call: Call, alpha: real, beta: real, n: nat, row0: nat, col0: nat, tid: nat,
      results: array3<real>, c: array<real>)
    requires alpha == call.alpha && beta == call.beta && n == call.b.cols
    requires call.Fits(c[..]) && row0 + BM <= call.a.rows && col0 + BN <= call.b.cols && tid < THREADS
    requires results.Length0 == THREADS && results.Length1 == TM && results.Length2 == TN
    requires Partial(call, row0, col0, call.a.cols, tid, results)
    modifies c
    ensures Written(call, old(c[..]), c[..], ThreadRows(row0, col0, tid, TM))
  {
    hide Partial, Written;
    ghost var c0 := c[..];
    NothingWritten(call, c0, ThreadRows(row0, col0, tid, 0));
    for i := 0 to TM
      invariant Written(call, c0, c[..], ThreadRows(row0, col0, tid, i))
    {
      ghost var c1 := c[..];
      StoreRow(call, alpha, beta, n, row0, col0, tid, i, results, c);
      WrittenThen(call, c0, c1, c[..], ThreadRows(row0, col0, tid, i),
                  Strip(row0 + ThreadRow(tid) + i, col0 + ThreadCol(tid), TN), ThreadRows(row0, col0, tid, i + 1));
    }
  }

  /** The elements of a block that the threads in `done` own. */
  function BlockPart(row0: nat, col0: nat, done: seq<nat>): (nat, nat) -> bool {
    (i, j) => row0 <= i < row0 + BM && col0 <= j < col0 + BN && Owner(i - row0, j - col0) in done
  }

  /** The one thread that computes element (i, j) of a block. */
  function Owner(i: nat, j: nat): (tid: nat)
    requires i < BM && j < BN
    ensures tid < THREADS && ThreadRow(tid) <= i < ThreadRow(tid) + TM && ThreadCol(tid) <= j < ThreadCol(tid) + TN
    ensures forall t :: 0 <= t < THREADS ==>
              (ThreadRow(t) <= i < ThreadRow(t) + TM && ThreadCol(t) <= j < ThreadCol(t) + TN <==> t == tid)
  {
    i / 8 * 8 + j / 8
  }

  /** All threads of a block store their tiles, in any order. */
  method StoreBlock(ghost call: Call, alpha: real, beta: real, n: nat, row0: nat, col0: nat, order: seq<nat>,
      results: array3<real>, c: array<real>)
    requires alpha == call.alpha && beta == call.beta && n == call.b.cols
    requires call.Fits(c[..]) && row0 + BM <= call.a.rows && col0 + BN <= call.b.cols && Schedule(order, THREADS)
    requires results.Length0 == THREADS && results.Length1 == TM && results.Length2 == TN
    requires AllPartial(call, row0, col0, call.a.cols, results)
    modifies c
    ensures Written(call, old(c[..]), c[..], Block(row0, col0))
  {
    hide Partial, Written, Dot;
    ghost var c0 := c[..];
    NothingWritten(call, c0, BlockPart(row0, col0, []));
    assert order[..0] == [];
    for k := 0 to |order|
      invariant |c[..]| == |c0| && Written(call, c0, c[..], BlockPart(row0, col0, order[..k]))
    {
      ghost var c1 := c[..];
      StoreThread(call, alpha, beta, n, row0, col0, order[k], results, c);
      StoreStep(call, row0, col0, order, k, c0, c1, c[..]);
    }
    assert order[..|order|] == order;
    forall i, j | 0 <= i < call.a.rows && 0 <= j < call.b.cols
      ensures Block(row0, col0)(i, j) == BlockPart(row0, col0, order)(i, j)
    {
      if Block(row0, col0)(i, j) {
        assert Owner(i - row0, j - col0) in order;
      }
    }
    WrittenSame(call, c0, c[..], BlockPart(row0, col0, order), Block(row0, col0));
  }

  lemma OwnerWrites(row0: nat, col0: nat, tid: nat, i: nat, j: nat)
    requires tid < THREADS
    ensures ThreadRows(row0, col0, tid, TM)(i, j) <==> Block(row0, col0)(i, j) && Owner(i - row0, j - col0) == tid
  {
    assert ThreadRow(tid) + TM <= BM && ThreadCol(tid) + TN <= BN;
    if ThreadRows(row0, col0, tid, TM)(i, j) {
      assert row0 <= i < row0 + BM && col0 <= j < col0 + BN;
      assert Owner(i - row0, j - col0) == tid;
    }
  }

  lemma StoreStep(call: Call, row0: nat, col0: nat, order: seq<nat>, k: nat, c0: seq<real>, c1: seq<real>,
      c2: seq<real>)
    requires call.Fits(c0) && call.Fits(c1) && k < |order| && Schedule(order, THREADS)
    requires Written(call, c0, c1, BlockPart(row0, col0, order[..k]))
    requires Written(call, c1, c2, ThreadRows(row0, col0, order[k], TM))
    requires row0 + BM <= call.a.rows && col0 + BN <= call.b.cols
    ensures Written(call, c0, c2, BlockPart(row0, col0, order[..k + 1]))
  {
    hide Written, Dot;
    NotYet(order, k);
    var d, e, f := BlockPart(row0, col0, order[..k]), ThreadRows(row0, col0, order[k], TM), BlockPart(row0, col0,
        order[..k + 1]);
    forall i, j | 0 <= i < call.a.rows && 0 <= j < call.b.cols
      ensures !(d(i, j) && e(i, j)) && f(i, j) == (d(i, j) || e(i, j))
    {
      OwnerWrites(row0, col0, order[k], i, j);
      if Block(row0, col0)(i, j) {
        TakeOne(order, k, Owner(i - row0, j - col0));
      }
    }
    WrittenThen(call, c0, c1, c2, d, e, f);
  }

  // ---- the phases between two barriers ----

  /** The threads in `done` have multiplied this pair of tiles and the others have not. */
  ghost predicate Multiplied(call: Call, row0: nat, col0: nat, n: nat, n': nat, done: seq<nat>, results: array3<real>)
    requires call.a.Valid() && call.b.Valid() && call.a.cols == call.b.rows && n <= call.a.cols && n' <= call.a.cols
    requires row0 + BM <= call.a.rows && col0 + BN <= call.b.cols
    requires results.Length0 == THREADS && results.Length1 == TM && results.Length2 == TN
    reads results
  {
    forall t :: 0 <= t < THREADS ==>
      if t in done then Partial(call, row0, col0, n', t, results) else Partial(call, row0, col0, n, t, results)
  }

  method MultiplyThread(ghost call: Call, row0: nat, col0: nat, k0: nat, tid: nat, ghost done: seq<nat>,
                        sA: array<real>, sB: array<real>, results: array3<real>)
    requires call.a.Valid() && call.b.Valid() && call.a.cols == call.b.rows && k0 + BK <= call.a.cols
    requires row0 + BM <= call.a.rows && col0 + BN <= call.b.cols && tid < THREADS && tid !in done
    requires results.Length0 == THREADS && results.Length1 == TM && results.Length2 == TN
    requires TileA(call.a, row0, k0, sA[..]) && TileB(call.b, col0, k0, sB[..])
    requires Multiplied(call, row0, col0, k0, k0 + BK, done, results)
    modifies results
    ensures Multiplied(call, row0, col0, k0, k0 + BK, done + [tid], results)
  {
    hide TileA, TileB, Dot;
    Multiply(call, row0, col0, k0, sA, sB, tid, results);
    forall t | 0 <= t < THREADS
      ensures if t in done + [tid] then Partial(call, row0, col0, k0 + BK, t, results)
              else Partial(call, row0, col0, k0, t, results)
    {
      if t != tid {
        assert old(if t in done then Partial(call, row0, col0, k0 + BK, t, results)
            else Partial(call, row0, col0, k0, t, results));
        assert forall i, j :: 0 <= i < TM && 0 <= j < TN ==> results[t, i, j] == old(results[t, i, j]);
      }
    }
  }

  /** All threads multiply, in any order. */
  method MultiplyPhase(ghost call: Call, row0: nat, col0: nat, k0: nat, order: seq<nat>, sA: array<real>,
      sB: array<real>,
                       results: array3<real>)
    requires call.a.Valid() && call.b.Valid() && call.a.cols == call.b.rows && k0 + BK <= call.a.cols
    requires row0 + BM <= call.a.rows && col0 + BN <= call.b.cols && Schedule(order, THREADS)
    requires results.Length0 == THREADS && results.Length1 == TM && results.Length2 == TN
    requires TileA(call.a, row0, k0, sA[..]) && TileB(call.b, col0, k0, sB[..])
    requires AllPartial(call, row0, col0, k0, results)
    modifies results
    ensures AllPartial(call, row0, col0, k0 + BK, results)
  {
    hide TileA, TileB, Partial, Dot;
    for k := 0 to |order|
      invariant Multiplied(call, row0, col0, k0, k0 + BK, order[..k], results)
    {
      NotYet(order, k);
      MultiplyThread(call, row0, col0, k0, order[k], order[..k], sA, sB, results);
      assert order[..k + 1] == order[..k] + [order[k]];
    }
    assert order[..|order|] == order;
  }

  ghost predicate AllPartial(call: Call, row0: nat, col0: nat, n: nat, results: array3<real>)
    requires call.a.Valid() && call.b.Valid() && call.a.cols == call.b.rows && n <= call.a.cols
    requires row0 + BM <= call.a.rows && col0 + BN <= call.b.cols
    requires results.Length0 == THREADS && results.Length1 == TM && results.Length2 == TN
    reads results
  {
    forall t :: 0 <= t < THREADS ==> Partial(call, row0, col0, n, t, results)
  }

  /** The registers of all threads, cleared. */
  method NewResults(ghost call: Call, ghost row0: nat, ghost col0: nat) returns (results: array3<real>)
    requires call.a.Valid() && call.b.Valid() && call.a.cols == call.b.rows
    requires row0 + BM <= call.a.rows && col0 + BN <= call.b.cols
    ensures fresh(results) && results.Length0 == THREADS && results.Length1 == TM && results.Length2 == TN
    ensures AllPartial(call, row0, col0, 0, results)
  {
    results := new real[THREADS, TM, TN]((t, i, j) => 0.0);
  }

  /** All threads load their vectors of B, in any order. */
  method LoadPhaseB(b: Matrix, k0: nat, col0: nat, order: seq<nat>, sB: array<real>)
    requires b.Valid() && col0 + BN <= b.cols && k0 + BK <= b.rows && sB.Length == BK * BN && Schedule(order, THREADS)
    modifies sB
    ensures TileB(b, col0, k0, sB[..])
  {
    hide Matrix.At;
    for p := 0 to |order|
      invariant forall k, c :: 0 <= k < BK && 0 <= c < BN && (k * 16 + c / 4) % THREADS in order[..p] ==>
                  sB[CellB(k, c)] == b.At(k0 + k, col0 + c)
    {
      LoadB(b, k0, col0, sB, order[p]);
      assert order[..p + 1] == order[..p] + [order[p]];
    }
    assert order[..|order|] == order;
  }
}
