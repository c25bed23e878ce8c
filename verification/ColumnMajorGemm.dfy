/** The tiled transpose, and the kernel that needs it: A arrives transposed and is loaded as it lies. */
module ColumnMajorGemm {
  import opened Matrices
  import opened Grids
  import opened Tiling

  /** t is m with rows and columns exchanged. */
  ghost predicate Transposed(m: Matrix, t: Matrix) {
    && m.Valid() && t.Valid() && t.rows == m.cols && t.cols == m.rows
    && forall r, c :: 0 <= r < m.rows && 0 <= c < m.cols ==> t.At(c, r) == m.At(r, c)
  }

  // ---- the tiled transpose, for any size ----

  const TILE: nat := 32
  const BLOCK_ROWS: nat := 8

  /** Some elements of AT have been written and the others are as they were. */
  ghost predicate Moved(m: Matrix, t0: seq<real>, t: seq<real>, done: (nat, nat) -> bool)
    requires m.Valid() && |t0| == m.cols * m.rows
  {
    && |t| == |t0|
    && forall k, r :: 0 <= k < m.cols && 0 <= r < m.rows ==>
         var at := Index(m.cols, m.rows, k, r);
         t[at] == if done(k, r) then m.At(r, k) else t0[at]
  }

  lemma MovedThen(m: Matrix, t0: seq<real>, t1: seq<real>, t2: seq<real>,
                  d: (nat, nat) -> bool, e: (nat, nat) -> bool, f: (nat, nat) -> bool)
    requires m.Valid() && |t0| == m.cols * m.rows && Moved(m, t0, t1, d) && Moved(m, t1, t2, e)
    requires forall k, r :: 0 <= k < m.cols && 0 <= r < m.rows ==>
        !(d(k, r) && e(k, r)) && f(k, r) == (d(k, r) || e(k, r))
    ensures Moved(m, t0, t2, f)
  {
    hide Matrix.At;
  }

  lemma NothingMoved(m: Matrix, t: seq<real>, d: (nat, nat) -> bool)
    requires m.Valid() && |t| == m.cols * m.rows
    requires forall k, r :: 0 <= k < m.cols && 0 <= r < m.rows ==> !d(k, r)
    ensures Moved(m, t, t, d)
  {}

  /** The cells of the tile that the threads in `done` have filled from inside the matrix. */
  ghost predicate Loaded(m: Matrix, gx: nat, gy: nat, done: seq<(nat, nat)>, tile: array2<real>)
    requires m.Valid() && tile.Length0 == TILE && tile.Length1 == TILE + 1
    reads tile
  {
    forall p, q :: 0 <= p < TILE && 0 <= q < TILE && gy * TILE + p < m.rows && gx * TILE + q < m.cols
                   && (q, p % BLOCK_ROWS) in done ==>
      tile[p, q] == m.At(gy * TILE + p, gx * TILE + q)
  }

  /** First phase of one thread. */
  method LoadTile(m: Matrix, gx: nat, gy: nat, tx: nat, ty: nat, tile: array2<real>)
    requires m.Valid() && tile.Length0 == TILE && tile.Length1 == TILE + 1 && tx < TILE && ty < BLOCK_ROWS
    modifies tile
    ensures forall p, q :: 0 <= p < TILE && 0 <= q < TILE && gy * TILE + p < m.rows && gx * TILE + q < m.cols ==>
              tile[p, q] == if q == tx && p % BLOCK_ROWS == ty then m.At(gy * TILE + p, gx * TILE + q)
                  else old(tile[p, q])
  {
    hide Matrix.At;
    var j := 0;
    while j < TILE
      invariant j <= TILE && j % BLOCK_ROWS == 0
      invariant forall p, q :: 0 <= p < TILE && 0 <= q < TILE && gy * TILE + p < m.rows && gx * TILE + q < m.cols ==>
                  tile[p, q] == if q == tx && p % BLOCK_ROWS == ty && p < j then m.At(gy * TILE + p, gx * TILE + q)
                                else old(tile[p, q])
    {
      LoadCell(m, gx, gy, tx, ty + j, tile);
      forall p | 0 <= p < TILE
        ensures p < j + BLOCK_ROWS && p % BLOCK_ROWS == ty <==> (p < j && p % BLOCK_ROWS == ty) || p == ty + j
      {
        NextInClass(p, j, ty);
      }
      j := j + BLOCK_ROWS;
    }
  }

  method LoadCell(m: Matrix, gx: nat, gy: nat, tx: nat, p: nat, tile: array2<real>)
    requires m.Valid() && tile.Length0 == TILE && tile.Length1 == TILE + 1 && tx < TILE && p < TILE
    modifies tile
    ensures forall i, j :: 0 <= i < TILE && 0 <= j < TILE && !(i == p && j == tx) ==> tile[i, j] == old(tile[i, j])
    ensures gy * TILE + p < m.rows && gx * TILE + tx < m.cols ==> tile[p, tx] == m.At(gy * TILE + p, gx * TILE + tx)
  {
    var x, y := gx * TILE + tx, gy * TILE + p;
    if x < m.cols && y < m.rows {
      tile[p, tx] := m.At(y, x);
    }
  }

  /** What one thread writes in the second phase. */
  function Column(gx: nat, gy: nat, tx: nat, ty: nat, n: nat): (nat, nat) -> bool {
    (k, r) => r == gy * TILE + tx && gx * TILE <= k < gx * TILE + n && (k - gx * TILE) % BLOCK_ROWS == ty
  }

  /** One cell of the second phase: it was filled in the first. */
  method StoreCell(m: Matrix, gx: nat, gy: nat, tx: nat, q: nat, tile: array2<real>, ghost all: seq<(nat, nat)>,
      t: array<real>)
    requires m.Valid() && tile.Length0 == TILE && tile.Length1 == TILE + 1 && tx < TILE && q < TILE
    requires t.Length == m.cols * m.rows && Loaded(m, gx, gy, all, tile) && Covers(all)
    modifies t
    ensures Moved(m, old(t[..]), t[..], Single(gx * TILE + q, gy * TILE + tx))
  {
    hide Matrix.At, Moved;
    ghost var t0 := t[..];
    var x, y := gy * TILE + tx, gx * TILE + q;
    if x < m.rows && y < m.cols {
      assert (q, tx % BLOCK_ROWS) in all;
      t[Index(m.cols, m.rows, y, x)] := tile[tx, q];
    }
    StoreOne(m, t0, t[..], x, y);
  }

  /** Second phase of one thread: it reads a row of the tile where it has written a column. */
  method StoreTile(m: Matrix, gx: nat, gy: nat, tx: nat, ty: nat, tile: array2<real>, ghost all: seq<(nat, nat)>,
      t: array<real>)
    requires m.Valid() && tile.Length0 == TILE && tile.Length1 == TILE + 1 && tx < TILE && ty < BLOCK_ROWS
    requires t.Length == m.cols * m.rows && Loaded(m, gx, gy, all, tile) && Covers(all)
    modifies t
    ensures Moved(m, old(t[..]), t[..], Column(gx, gy, tx, ty, TILE))
  {
    hide Matrix.At, Moved, Loaded, Covers;
    ghost var t0 := t[..];
    var j := 0;
    NothingMoved(m, t0, Column(gx, gy, tx, ty, 0));
    while j < TILE
      invariant j <= TILE && j % BLOCK_ROWS == 0
      invariant |t[..]| == |t0| && Moved(m, t0, t[..], Column(gx, gy, tx, ty, j))
    {
      ghost var t1 := t[..];
      StoreCell(m, gx, gy, tx, ty + j, tile, all, t);
      ColumnGrows(m, gx, gy, tx, ty, j);
      MovedThen(m, t0, t1, t[..], Column(gx, gy, tx, ty, j), Single(gx * TILE + (ty + j), gy * TILE + tx),
                Column(gx, gy, tx, ty, j + BLOCK_ROWS));
      j := j + BLOCK_ROWS;
    }
  }

  lemma ColumnGrows(m: Matrix, gx: nat, gy: nat, tx: nat, ty: nat, j: nat)
    requires tx < TILE && ty < BLOCK_ROWS && j < TILE && j % BLOCK_ROWS == 0
    ensures forall k, r :: 0 <= k < m.cols && 0 <= r < m.rows ==>
              var d, e := Column(gx, gy, tx, ty, j), Single(gx * TILE + (ty + j), gy * TILE + tx);
              !(d(k, r) && e(k, r)) && Column(gx, gy, tx, ty, j + BLOCK_ROWS)(k, r) == (d(k, r) || e(k, r))
  {
    forall k: nat, r: nat
      ensures Column(gx, gy, tx, ty, j + BLOCK_ROWS)(k, r)
           == (Column(gx, gy, tx, ty, j)(k, r) || Single(gx * TILE + (ty + j), gy * TILE + tx)(k, r))
    {
      if k >= gx * TILE { NextInClass(k - gx * TILE, j, ty); }
    }
  }

  /** In each run of eight there is one number of each residue class. */
  lemma NextInClass(k: nat, j: nat, ty: nat)
    requires ty < BLOCK_ROWS && j % BLOCK_ROWS == 0
    ensures k < j + BLOCK_ROWS && k % BLOCK_ROWS == ty <==> (k < j && k % BLOCK_ROWS == ty) || k == ty + j
  {}

  ghost predicate Covers(all: seq<(nat, nat)>) {
    forall tx, ty :: 0 <= tx < TILE && 0 <= ty < BLOCK_ROWS ==> (tx, ty) in all
  }

  function Single(k: nat, r: nat): (nat, nat) -> bool { (i, j) => i == k && j == r }

  lemma StoreOne(m: Matrix, t: seq<real>, t': seq<real>, x: nat, y: nat)
    requires m.Valid() && |t| == m.cols * m.rows
    requires x < m.rows && y < m.cols ==> t' == t[Index(m.cols, m.rows, y, x) := m.At(x, y)]
    requires !(x < m.rows && y < m.cols) ==> t' == t
    ensures Moved(m, t, t', Single(y, x))
  {
    hide Matrix.At;
    forall k, r | 0 <= k < m.cols && 0 <= r < m.rows
      ensures var at := Index(m.cols, m.rows, k, r);
              t'[at] == if Single(y, x)(k, r) then m.At(r, k) else t[at]
    {
      if x < m.rows && y < m.cols && Index(m.cols, m.rows, k, r) == Index(m.cols, m.rows, y, x) {
        IndexInjective(m.rows, k, r, y, x);
      }
    }
  }

  /** What the threads in `done` have written of block (gx, gy). */
  function Columns(gx: nat, gy: nat, done: seq<(nat, nat)>): (nat, nat) -> bool {
    (k, r) => gx * TILE <= k < gx * TILE + TILE && gy * TILE <= r < gy * TILE + TILE
              && (r - gy * TILE, (k - gx * TILE) % BLOCK_ROWS) in done
  }

  function TransposeTile(gx: nat, gy: nat): (nat, nat) -> bool { (k, r) => k / TILE == gx && r / TILE == gy }

  /** One block; the threads of each phase run in any order. */
  method TransposeBlock(m: Matrix, gx: nat, gy: nat, order: seq<(nat, nat)>, order': seq<(nat, nat)>, t: array<real>)
    requires m.Valid() && t.Length == m.cols * m.rows
    requires GridSchedule(order, TILE, BLOCK_ROWS) && GridSchedule(order', TILE, BLOCK_ROWS)
    modifies t
    ensures Moved(m, old(t[..]), t[..], TransposeTile(gx, gy))
  {
    var tile := new real[TILE, TILE + 1];
    LoadPhase(m, gx, gy, order, tile);
    StorePhase(m, gx, gy, order', tile, order, t);
  }

  method LoadPhase(m: Matrix, gx: nat, gy: nat, order: seq<(nat, nat)>, tile: array2<real>)
    requires m.Valid() && tile.Length0 == TILE && tile.Length1 == TILE + 1 && GridSchedule(order, TILE, BLOCK_ROWS)
    modifies tile
    ensures Loaded(m, gx, gy, order, tile) && Covers(order)
  {
    hide Matrix.At;
    for k := 0 to |order|
      invariant Loaded(m, gx, gy, order[..k], tile)
    {
      LoadTile(m, gx, gy, order[k].0, order[k].1, tile);
      assert order[..k + 1] == order[..k] + [order[k]];
    }
    assert order[..|order|] == order;
  }

  method StorePhase(m: Matrix, gx: nat, gy: nat, order: seq<(nat, nat)>, tile: array2<real>,
                    ghost all: seq<(nat, nat)>, t: array<real>)
    requires m.Valid() && tile.Length0 == TILE && tile.Length1 == TILE + 1 && t.Length == m.cols * m.rows
    requires GridSchedule(order, TILE, BLOCK_ROWS) && Loaded(m, gx, gy, all, tile) && Covers(all)
    modifies t
    ensures Moved(m, old(t[..]), t[..], TransposeTile(gx, gy))
  {
    hide Matrix.At, Moved, Loaded, Covers;
    ghost var t0 := t[..];
    NothingMoved(m, t0, Columns(gx, gy, []));
    assert order[..0] == [];
    for k := 0 to |order|
      invariant |t[..]| == |t0| && Moved(m, t0, t[..], Columns(gx, gy, order[..k]))
    {
      ghost var t1 := t[..];
      StoreTile(m, gx, gy, order[k].0, order[k].1, tile, all, t);
      ColumnsStep(m, gx, gy, order, k, t0, t1, t[..]);
    }
    assert order[..|order|] == order;
    ColumnsDone(m, gx, gy, order, t0, t[..]);
  }

  lemma ColumnsStep(m: Matrix, gx: nat, gy: nat, order: seq<(nat, nat)>, k: nat, t0: seq<real>, t1: seq<real>,
      t2: seq<real>)
    requires m.Valid() && |t0| == |t1| == m.cols * m.rows && k < |order| && GridSchedule(order, TILE, BLOCK_ROWS)
    requires Moved(m, t0, t1, Columns(gx, gy, order[..k]))
        && Moved(m, t1, t2, Column(gx, gy, order[k].0, order[k].1, TILE))
    ensures Moved(m, t0, t2, Columns(gx, gy, order[..k + 1]))
  {
    hide Moved;
    NotYet(order, k);
    var d, e := Columns(gx, gy, order[..k]), Column(gx, gy, order[k].0, order[k].1, TILE);
    var f := Columns(gx, gy, order[..k + 1]);
    forall p, r | 0 <= p < m.cols && 0 <= r < m.rows
      ensures !(d(p, r) && e(p, r)) && f(p, r) == (d(p, r) || e(p, r))
    {
      if gx * TILE <= p < gx * TILE + TILE && gy * TILE <= r < gy * TILE + TILE {
        TakeOne(order, k, (r - gy * TILE, (p - gx * TILE) % BLOCK_ROWS));
      }
    }
    MovedThen(m, t0, t1, t2, d, e, f);
  }

  lemma ColumnsDone(m: Matrix, gx: nat, gy: nat, order: seq<(nat, nat)>, t0: seq<real>, t: seq<real>)
    requires m.Valid() && |t0| == m.cols * m.rows && GridSchedule(order, TILE, BLOCK_ROWS)
    requires Moved(m, t0, t, Columns(gx, gy, order))
    ensures Moved(m, t0, t, TransposeTile(gx, gy))
  {
    hide Matrix.At;
    forall k, r | 0 <= k < m.cols && 0 <= r < m.rows
      ensures TransposeTile(gx, gy)(k, r) == Columns(gx, gy, order)(k, r)
    {
      if TransposeTile(gx, gy)(k, r) {
        assert (r - gy * TILE, (k - gx * TILE) % BLOCK_ROWS) in order;
      }
    }
  }

  function CeilTiles(n: nat): nat { (n + TILE - 1) / TILE }

  function Tiles(done: seq<(nat, nat)>): (nat, nat) -> bool { (k, r) => (k / TILE, r / TILE) in done }

  /** The launch: a grid of ceil(K / 32) by ceil(M / 32) blocks in any order. */
  method TransposeA(m: Matrix, grid: seq<(nat, nat)>, threads: (nat, nat, nat) -> seq<(nat, nat)>, t: array<real>)
    requires m.Valid() && t.Length == m.cols * m.rows && GridSchedule(grid, CeilTiles(m.cols), CeilTiles(m.rows))
    requires forall gx, gy, phase :: GridSchedule(threads(gx, gy, phase), TILE, BLOCK_ROWS)
    modifies t
    ensures Transposed(m, Matrix(m.cols, m.rows, t[..]))
  {
    hide Matrix.At, Moved;
    ghost var t0 := t[..];
    NothingMoved(m, t0, Tiles([]));
    assert grid[..0] == [];
    for k := 0 to |grid|
      invariant |t[..]| == |t0| && Moved(m, t0, t[..], Tiles(grid[..k]))
    {
      var (gx, gy) := grid[k];
      ghost var t1 := t[..];
      TransposeBlock(m, gx, gy, threads(gx, gy, 0), threads(gx, gy, 1), t);
      NotYet(grid, k);
      TilesStep(m, grid, k, t0, t1, t[..]);
    }
    assert grid[..|grid|] == grid;
    TilesDone(m, grid, t0, t[..]);
  }

  lemma TilesStep(m: Matrix, grid: seq<(nat, nat)>, k: nat, t0: seq<real>, t1: seq<real>, t2: seq<real>)
    requires m.Valid() && |t0| == |t1| == m.cols * m.rows && k < |grid| && grid[k] !in grid[..k]
    requires Moved(m, t0, t1, Tiles(grid[..k])) && Moved(m, t1, t2, TransposeTile(grid[k].0, grid[k].1))
    ensures Moved(m, t0, t2, Tiles(grid[..k + 1]))
  {
    hide Moved;
    forall p, r | 0 <= p < m.cols && 0 <= r < m.rows
      ensures !(Tiles(grid[..k])(p, r) && TransposeTile(grid[k].0, grid[k].1)(p, r))
      ensures Tiles(grid[..k + 1])(p, r) == (Tiles(grid[..k])(p, r) || TransposeTile(grid[k].0, grid[k].1)(p, r))
    {
      TakeOne(grid, k, (p / TILE, r / TILE));
    }
    MovedThen(m, t0, t1, t2, Tiles(grid[..k]), TransposeTile(grid[k].0, grid[k].1), Tiles(grid[..k + 1]));
  }

  lemma TilesDone(m: Matrix, grid: seq<(nat, nat)>, t0: seq<real>, t: seq<real>)
    requires m.Valid() && |t0| == m.cols * m.rows && GridSchedule(grid, CeilTiles(m.cols), CeilTiles(m.rows))
    requires Moved(m, t0, t, Tiles(grid))
    ensures Transposed(m, Matrix(m.cols, m.rows, t))
  {
    forall r, c | 0 <= r < m.rows && 0 <= c < m.cols
      ensures Matrix(m.cols, m.rows, t).At(c, r) == m.At(r, c)
    {
      assert c / TILE < CeilTiles(m.cols) && r / TILE < CeilTiles(m.rows);
      assert Tiles(grid)(c, r);
      assert t[Index(m.cols, m.rows, c, r)] == m.At(r, c);
    }
  }

  // ---- the kernel ----

  /** Vectors of four cells tile the first 64 cells of the 68-wide rows. */
  lemma InVectorA(k: nat, r: nat, v: nat)
    requires r < BM
    ensures var at := v / 16 * SA_STRIDE + v % 16 * 4;
            && (k * 16 + r / 4 == v <==> at <= CellA(k, r) < at + 4)
            && (k * 16 + r / 4 == v ==> v / 16 == k && v % 16 == r / 4 && CellA(k, r) == at + r % 4)
  {}

  /** Vector v of the A tile: k = v / 16, rows 4 * (v % 16), ...; AT holds them side by side. */
  method LoadVectorA(ghost a: Matrix, at: Matrix, row0: nat, k0: nat, sA: array<real>, v: nat)
    requires Transposed(a, at) && row0 + BM <= a.rows && k0 + BK <= a.cols && sA.Length == BK * SA_STRIDE
        && v < BM * BK / 4
    modifies sA
    ensures forall k, r :: 0 <= k < BK && 0 <= r < BM ==>
              sA[CellA(k, r)] == if k * 16 + r / 4 == v then a.At(row0 + r, k0 + k) else old(sA[CellA(k, r)])
  {
    hide Matrix.At;
    var localK, rowA4 := v / 16, v % 16;
    RunAt(at, k0, row0, localK, rowA4 * 4);
    var tmp := Load4(at.cells, k0 * at.cols + row0 + (localK * at.cols + rowA4 * 4));
    Store4(sA, localK * SA_STRIDE + rowA4 * 4, tmp);
    forall k, r | 0 <= k < BK && 0 <= r < BM
      ensures sA[CellA(k, r)] == if k * 16 + r / 4 == v then a.At(row0 + r, k0 + k) else old(sA[CellA(k, r)])
    {
      InVectorA(k, r, v);
      if k * 16 + r / 4 == v {
        assert Get(tmp, r % 4) == at.At(k0 + localK, row0 + rowA4 * 4 + r % 4);
      }
    }
  }

  method LoadA(ghost a: Matrix, at: Matrix, row0: nat, k0: nat, sA: array<real>, tid: nat)
    requires Transposed(a, at) && row0 + BM <= a.rows && k0 + BK <= a.cols && sA.Length == BK * SA_STRIDE
        && tid < THREADS
    modifies sA
    ensures forall k, r :: 0 <= k < BK && 0 <= r < BM ==>
              sA[CellA(k, r)] == if (k * 16 + r / 4) % THREADS == tid then a.At(row0 + r, k0 + k)
                  else old(sA[CellA(k, r)])
  {
    hide Matrix.At;
    for i := 0 to BM * BK / (THREADS * 4)
      invariant forall k, r :: 0 <= k < BK && 0 <= r < BM ==>
                  sA[CellA(k, r)] == if (k * 16 + r / 4) % THREADS == tid && (k * 16 + r / 4) / THREADS < i
                                     then a.At(row0 + r, k0 + k) else old(sA[CellA(k, r)])
    {
      LoadVectorA(a, at, row0, k0, sA, tid + i * THREADS);
    }
  }

  /** All threads load their vectors of AT, in any order. */
  method LoadPhaseA(ghost a: Matrix, at: Matrix, row0: nat, k0: nat, order: seq<nat>, sA: array<real>)
    requires Transposed(a, at) && row0 + BM <= a.rows && k0 + BK <= a.cols && sA.Length == BK * SA_STRIDE
    requires Schedule(order, THREADS)
    modifies sA
    ensures TileA(a, row0, k0, sA[..])
  {
    hide Matrix.At;
    for p := 0 to |order|
      invariant forall k, r :: 0 <= k < BK && 0 <= r < BM && (k * 16 + r / 4) % THREADS in order[..p] ==>
                  sA[CellA(k, r)] == a.At(row0 + r, k0 + k)
    {
      LoadA(a, at, row0, k0, sA, order[p]);
      assert order[..p + 1] == order[..p] + [order[p]];
    }
    assert order[..|order|] == order;
  }

  method ColumnMajorBlock(ghost call: Call, alpha: real, at: Matrix, b: Matrix, beta: real, row0: nat, col0: nat,
                          threads: nat -> seq<nat>, c: array<real>)
    requires alpha == call.alpha && b == call.b && beta == call.beta && Transposed(call.a, at)
    requires call.Fits(c[..]) && row0 + BM <= call.a.rows && col0 + BN <= call.b.cols && call.a.cols % BK == 0
    requires forall phase :: Schedule(threads(phase), THREADS)
    modifies c
    ensures Written(call, old(c[..]), c[..], Block(row0, col0))
  {
    hide Written, TileA, TileB, AllPartial;
    var sA := new real[BK * SA_STRIDE];
    var sB := new real[BK * BN];
    var results := NewResults(call, row0, col0);
    var bkIdx, phase: nat := 0, 0;
    while bkIdx < at.rows
      invariant bkIdx <= at.rows && bkIdx % BK == 0
      invariant AllPartial(call, row0, col0, bkIdx, results)
      invariant c[..] == old(c[..])
    {
      LoadPhaseA(call.a, at, row0, bkIdx, threads(phase), sA);
      LoadPhaseB(b, bkIdx, col0, threads(phase + 1), sB);
      MultiplyPhase(call, row0, col0, bkIdx, threads(phase + 2), sA, sB, results);
      bkIdx, phase := bkIdx + BK, phase + 3;
    }
    StoreBlock(call, alpha, beta, b.cols, row0, col0, threads(phase), results, c);
  }

  method VectorizedColumnMajorGemm(ghost call: Call, alpha: real, at: Matrix, b: Matrix, beta: real,
      grid: seq<(nat, nat)>,
                                   threads: (nat, nat, nat) -> seq<nat>, c: array<real>)
      returns (launched: bool)
    requires alpha == call.alpha && b == call.b && beta == call.beta && Transposed(call.a, at)
    requires call.Fits(c[..])
    requires GridSchedule(grid, call.a.rows / BM, call.b.cols / BN)
    requires forall row, col, phase :: Schedule(threads(row, col, phase), THREADS)
    modifies c
    ensures launched == (call.a.rows % 64 == 0 && call.b.cols % 64 == 0 && call.a.cols % 8 == 0)
    ensures launched ==> call.IsGemm(old(c[..]), c[..])
    ensures !launched ==> c[..] == old(c[..])
  {
    hide Written;
    if at.cols % BM != 0 || b.cols % BN != 0 || at.rows % BK != 0 {
      return false;
    }
    ghost var c0 := c[..];
    NothingWritten(call, c0, Blocks([]));
    assert grid[..0] == [];
    for k := 0 to |grid|
      invariant |c[..]| == |c0| && Written(call, c0, c[..], Blocks(grid[..k]))
    {
      var (row, col) := grid[k];
      ghost var c1 := c[..];
      BlockInside(call.a.rows, row);
      BlockInside(call.b.cols, col);
      ColumnMajorBlock(call, alpha, at, b, beta, row * BM, col * BN, phase => threads(row, col, phase), c);
      NotYet(grid, k);
      GridStep(call, grid, k, c0, c1, c[..]);
    }
    assert grid[..|grid|] == grid;
    GridDone(call, grid, call.a.rows / BM, call.b.cols / BN, c0, c[..]);
    launched := true;
  }

  /** Transposing A and then running the column-major kernel is a GEMM with A itself. */
  method TransposeThenGemm(call: Call, tiles: seq<(nat, nat)>, tileThreads: (nat, nat, nat) -> seq<(nat, nat)>,
                           grid: seq<(nat, nat)>, threads: (nat, nat, nat) -> seq<nat>, c: array<real>)
      returns (launched: bool)
    requires call.Fits(c[..])
    requires GridSchedule(tiles, CeilTiles(call.a.cols), CeilTiles(call.a.rows))
    requires forall gx, gy, phase :: GridSchedule(tileThreads(gx, gy, phase), TILE, BLOCK_ROWS)
    requires GridSchedule(grid, call.a.rows / BM, call.b.cols / BN)
    requires forall row, col, phase :: Schedule(threads(row, col, phase), THREADS)
    modifies c
    ensures launched == (call.a.rows % 64 == 0 && call.b.cols % 64 == 0 && call.a.cols % 8 == 0)
    ensures launched ==> call.IsGemm(old(c[..]), c[..])
    ensures !launched ==> c[..] == old(c[..])
  {
    var t := new real[call.a.cols * call.a.rows];
    TransposeA(call.a, tiles, tileThreads, t);
    launched := VectorizedColumnMajorGemm(call, call.alpha, Matrix(call.a.cols, call.a.rows, t[..]), call.b, call.beta,
                                          grid, threads, c);
  }
}
