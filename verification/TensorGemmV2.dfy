/** The tensor-core kernel with eight-wide loads, which lays its B tile out by columns. */
module TensorGemmV2 {
  import opened Matrices
  import opened Grids
  import opened WarpTiles

  const VEC: nat := 8

  function CellA(r: nat, k: nat): nat { r * STEP + k }
  function CellB(c: nat, k: nat): nat { c * STEP + k }

  ghost predicate TileA(a: Matrix, row0: nat, k0: nat, sA: seq<real>)
    requires a.Valid() && row0 + BM <= a.rows && k0 + STEP <= a.cols
  {
    && |sA| == BM * STEP
    && forall r, k :: 0 <= r < BM && 0 <= k < STEP ==> sA[CellA(r, k)] == a.At(row0 + r, k0 + k)
  }

  /** Column c of the tile is contiguous. */
  ghost predicate TileB(b: Matrix, k0: nat, col0: nat, sB: seq<real>)
    requires b.Valid() && k0 + STEP <= b.rows && col0 + BN <= b.cols
  {
    && |sB| == BN * STEP
    && forall k, c :: 0 <= k < STEP && 0 <= c < BN ==> sB[CellB(c, k)] == b.At(k0 + k, col0 + c)
  }

  /** One wide load: m[row, col], ..., m[row, col + 7]. */
  method LoadPack(m: Matrix, row: nat, col: nat) returns (pack: seq<real>)
    requires m.Valid() && row < m.rows && col + VEC <= m.cols
    ensures |pack| == VEC && forall i :: 0 <= i < VEC ==> pack[i] == m.At(row, col + i)
  {
    var g := row * m.cols + col;
    assert Index(m.rows, m.cols, row, col + VEC - 1) == g + VEC - 1;
    pack := m.cells[g..g + VEC];
    forall i | 0 <= i < VEC
      ensures pack[i] == m.At(row, col + i)
    {
      assert Index(m.rows, m.cols, row, col + i) == g + i;
    }
  }

  /** Vector v of the A tile: row v / 2, columns 8 * (v % 2), ... */
  method LoadVectorA(a: Matrix, row0: nat, k0: nat, sA: array<real>, v: nat)
    requires a.Valid() && row0 + BM <= a.rows && k0 + STEP <= a.cols && sA.Length == BM * STEP && v < 128
    modifies sA
    ensures forall r, k :: 0 <= r < BM && 0 <= k < STEP ==>
              sA[CellA(r, k)] == if r * 2 + k / VEC == v then a.At(row0 + r, k0 + k) else old(sA[CellA(r, k)])
  {
    hide Matrix.At;
    var localRow, localVec := v / 2, v % 2;
    var pack := LoadPack(a, row0 + localRow, k0 + localVec * VEC);
    for i := 0 to VEC
      invariant forall r, k :: 0 <= r < BM && 0 <= k < STEP ==>
                  sA[CellA(r, k)] == if r * 2 + k / VEC == v && k % VEC < i then a.At(row0 + r, k0 + k)
                      else old(sA[CellA(r, k)])
    {
      sA[localRow * STEP + localVec * VEC + i] := pack[i];
    }
  }

  /** Element i of vector v goes to a cell of its own. */
  lemma InPackB(k: nat, c: nat, v: nat, i: nat)
    requires k < STEP && c < BN && i < VEC
    ensures k * 8 + c / VEC == v && c % VEC == i <==> c == v % 8 * VEC + i && k == v / 8
  {}

  lemma CellsDiffer(c: nat, k: nat, c': nat, k': nat)
    requires k < STEP && k' < STEP && CellB(c, k) == CellB(c', k')
    ensures c == c' && k == k'
  {}

  /** Vector v of the B tile: row v / 8, columns 8 * (v % 8), ...; each element goes to another column. */
  method LoadVectorB(b: Matrix, k0: nat, col0: nat, sB: array<real>, v: nat)
    requires b.Valid() && k0 + STEP <= b.rows && col0 + BN <= b.cols && sB.Length == BN * STEP && v < 128
    modifies sB
    ensures forall k, c :: 0 <= k < STEP && 0 <= c < BN ==>
              sB[CellB(c, k)] == if k * 8 + c / VEC == v then b.At(k0 + k, col0 + c) else old(sB[CellB(c, k)])
  {
    hide Matrix.At;
    var localK, localVec := v / 8, v % 8;
    var pack := LoadPack(b, k0 + localK, col0 + localVec * VEC);
    for i := 0 to VEC
      invariant forall k, c :: 0 <= k < STEP && 0 <= c < BN ==>
                  sB[CellB(c, k)] == if k * 8 + c / VEC == v && c % VEC < i then b.At(k0 + k, col0 + c)
                      else old(sB[CellB(c, k)])
    {
      var localCol := localVec * VEC + i;
      ghost var s := sB[..];
      sB[localCol * STEP + localK] := pack[i];
      forall k, c | 0 <= k < STEP && 0 <= c < BN
        ensures sB[CellB(c, k)]
             == if k * 8 + c / VEC == v && c % VEC < i + 1 then b.At(k0 + k, col0 + c) else old(sB[CellB(c, k)])
      {
        InPackB(k, c, v, i);
        if CellB(c, k) == CellB(localCol, localK) {
          CellsDiffer(c, k, localCol, localK);
        } else {
          assert sB[CellB(c, k)] == s[CellB(c, k)];
        }
      }
    }
  }

  /** All threads load, in any order; thread t has vectors t, t + 512, ... of each tile, that is one or none. */
  method LoadPhase(a: Matrix, b: Matrix, row0: nat, col0: nat, k0: nat, order: seq<nat>, sA: array<real>,
      sB: array<real>)
    requires a.Valid() && row0 + BM <= a.rows && k0 + STEP <= a.cols && sA.Length == BM * STEP
    requires b.Valid() && k0 + STEP <= b.rows && col0 + BN <= b.cols && sB.Length == BN * STEP
    requires sA != sB && Schedule(order, LANES)
    modifies sA, sB
    ensures TileA(a, row0, k0, sA[..]) && TileB(b, k0, col0, sB[..])
  {
    hide Matrix.At;
    for p := 0 to |order|
      invariant forall r, k :: 0 <= r < BM && 0 <= k < STEP && r * 2 + k / VEC in order[..p] ==>
                  sA[CellA(r, k)] == a.At(row0 + r, k0 + k)
      invariant forall k, c :: 0 <= k < STEP && 0 <= c < BN && k * 8 + c / VEC in order[..p] ==>
                  sB[CellB(c, k)] == b.At(k0 + k, col0 + c)
    {
      LoadThread(a, b, row0, col0, k0, order[p], sA, sB);
      assert order[..p + 1] == order[..p] + [order[p]];
    }
    assert order[..|order|] == order;
  }

  method LoadThread(a: Matrix, b: Matrix, row0: nat, col0: nat, k0: nat, tid: nat, sA: array<real>, sB: array<real>)
    requires a.Valid() && row0 + BM <= a.rows && k0 + STEP <= a.cols && sA.Length == BM * STEP
    requires b.Valid() && k0 + STEP <= b.rows && col0 + BN <= b.cols && sB.Length == BN * STEP
    requires sA != sB && tid < LANES
    modifies sA, sB
    ensures forall r, k :: 0 <= r < BM && 0 <= k < STEP ==>
              sA[CellA(r, k)] == if r * 2 + k / VEC == tid then a.At(row0 + r, k0 + k) else old(sA[CellA(r, k)])
    ensures forall k, c :: 0 <= k < STEP && 0 <= c < BN ==>
              sB[CellB(c, k)] == if k * 8 + c / VEC == tid then b.At(k0 + k, col0 + c) else old(sB[CellB(c, k)])
  {
    hide Matrix.At;
    if tid < 128 {
      LoadVectorA(a, row0, k0, sA, tid);
      LoadVectorB(b, k0, col0, sB, tid);
    }
  }

  method WarpStep(ghost call: Call, ghost row0: nat, ghost col0: nat, ghost k0: nat, w: nat, ghost done: seq<nat>,
                  sA: array<real>, sB: array<real>, frags: array3<real>)
    requires call.a.Valid() && call.b.Valid() && call.a.cols == call.b.rows && k0 + STEP <= call.a.cols && w < WARPS
    requires row0 + BM <= call.a.rows && col0 + BN <= call.b.cols
    requires frags.Length0 == WARPS && frags.Length1 == W && frags.Length2 == W
    requires TileA(call.a, row0, k0, sA[..]) && TileB(call.b, k0, col0, sB[..])
    requires w !in done && Multiplied(call, row0, col0, k0, k0 + STEP, done, frags)
    modifies frags
    ensures Multiplied(call, row0, col0, k0, k0 + STEP, done + [w], frags)
  {
    hide Multiplied, Matrix.At, Dot;
    WarpBounds(w);
    var fragA := LoadFragment(sA, WarpRow(w) * STEP, STEP, false);
    var fragB := LoadFragment(sB, WarpCol(w) * STEP, STEP, true);
    assert Fragments(call, row0, col0, k0, w, fragA, fragB) by {
      hide WarpRow, WarpCol;
      forall i, k | 0 <= i < W && 0 <= k < STEP
        ensures fragA[i, k] == call.a.At(row0 + WarpRow(w) + i, k0 + k)
        ensures fragB[k, i] == call.b.At(k0 + k, col0 + WarpCol(w) + i)
      {
        assert FragmentAt(sA.Length, WarpRow(w) * STEP, STEP, false, i, k) == CellA(WarpRow(w) + i, k);
        assert fragA[i, k] == sA[..][CellA(WarpRow(w) + i, k)];
        assert FragmentAt(sB.Length, WarpCol(w) * STEP, STEP, true, k, i) == CellB(WarpCol(w) + i, k);
        assert fragB[k, i] == sB[..][CellB(WarpCol(w) + i, k)];
      }
    }
    MultiplyWarp(call, row0, col0, k0, w, done, fragA, fragB, frags);
  }

  method StepPhase(ghost call: Call, ghost row0: nat, ghost col0: nat, ghost k0: nat, order: seq<nat>,
                   sA: array<real>, sB: array<real>, frags: array3<real>)
    requires call.a.Valid() && call.b.Valid() && call.a.cols == call.b.rows && k0 + STEP <= call.a.cols
    requires row0 + BM <= call.a.rows && col0 + BN <= call.b.cols
    requires frags.Length0 == WARPS && frags.Length1 == W && frags.Length2 == W && Schedule(order, WARPS)
    requires TileA(call.a, row0, k0, sA[..]) && TileB(call.b, k0, col0, sB[..])
    requires AllPartial(call, row0, col0, k0, frags)
    modifies frags
    ensures AllPartial(call, row0, col0, k0 + STEP, frags)
  {
    hide TileA, TileB, Partial;
    for k := 0 to |order|
      invariant Multiplied(call, row0, col0, k0, k0 + STEP, order[..k], frags)
    {
      NotYet(order, k);
      WarpStep(call, row0, col0, k0, order[k], order[..k], sA, sB, frags);
      assert order[..k + 1] == order[..k] + [order[k]];
    }
    assert order[..|order|] == order;
  }

  method TensorBlockV2(call: Call, row0: nat, col0: nat, threads: nat -> seq<nat>, warps: nat -> seq<nat>,
      c: array<real>)
    requires call.Fits(c[..]) && row0 + BM <= call.a.rows && col0 + BN <= call.b.cols && call.a.cols % STEP == 0
    requires call.a.rows % W == 0 && call.b.cols % W == 0 && row0 % BM == 0 && col0 % BN == 0
    requires (forall phase :: Schedule(threads(phase), LANES)) && forall phase :: Schedule(warps(phase), WARPS)
    modifies c
    ensures Written(call, old(c[..]), c[..], Block(row0, col0))
  {
    hide Written, TileA, TileB, AllPartial;
    var sA := new real[BM * STEP];
    var sB := new real[BN * STEP];
    var frags := NewFragments(call, row0, col0);
    var k0, phase: nat := 0, 0;
    while k0 < call.a.cols
      invariant k0 <= call.a.cols && k0 % STEP == 0
      invariant AllPartial(call, row0, col0, k0, frags)
      invariant c[..] == old(c[..])
    {
      LoadPhase(call.a, call.b, row0, col0, k0, threads(phase), sA, sB);
      StepPhase(call, row0, col0, k0, warps(phase + 1), sA, sB, frags);
      k0, phase := k0 + STEP, phase + 2;
    }
    StoreBlock(call, call.alpha, call.beta, call.a.rows, call.b.cols, row0, col0, warps(phase), frags, c);
  }

  method Launch(call: Call, grid: seq<(nat, nat)>, threads: (nat, nat, nat) -> seq<nat>,
                warps: (nat, nat, nat) -> seq<nat>, c: array<real>)
    requires call.Fits(c[..])
    requires call.a.rows % BM == 0 && call.b.cols % BN == 0 && call.a.cols % STEP == 0
    requires GridSchedule(grid, call.a.rows / BM, call.b.cols / BN)
    requires forall row, col, phase :: Schedule(threads(row, col, phase), LANES)
    requires forall row, col, phase :: Schedule(warps(row, col, phase), WARPS)
    modifies c
    ensures call.IsGemm(old(c[..]), c[..])
  {
    hide Written;
    ghost var c0 := c[..];
    NothingWritten(call, c0, Blocks([]));
    assert grid[..0] == [];
    for k := 0 to |grid|
      invariant |c[..]| == |c0| && Written(call, c0, c[..], Blocks(grid[..k]))
    {
      var (row, col) := grid[k];
      ghost var c1 := c[..];
      BlockInside(call.a.rows, row);
      BlockInside(call.b.cols, col);
      TensorBlockV2(call, row * BM, col * BN, phase => threads(row, col, phase), phase => warps(row, col, phase), c);
      NotYet(grid, k);
      GridStep(call, grid, k, c0, c1, c[..]);
    }
    assert grid[..|grid|] == grid;
    GridDone(call, grid, call.a.rows / BM, call.b.cols / BN, c0, c[..]);
  }

  /** The launch. */
  method TensorCoreV2Gemm(call: Call, grid: seq<(nat, nat)>, threads: (nat, nat, nat) -> seq<nat>,
                          warps: (nat, nat, nat) -> seq<nat>, c: array<real>)
      returns (launched: bool)
    requires call.Fits(c[..])
    requires GridSchedule(grid, call.a.rows / BM, call.b.cols / BN)
    requires forall row, col, phase :: Schedule(threads(row, col, phase), LANES)
    requires forall row, col, phase :: Schedule(warps(row, col, phase), WARPS)
    modifies c
    ensures launched == (call.a.rows > 0 && call.b.cols > 0 && call.a.cols > 0
                         && call.a.rows % 64 == 0 && call.b.cols % 64 == 0 && call.a.cols % 16 == 0)
    ensures launched ==> call.IsGemm(old(c[..]), c[..])
    ensures !launched ==> c[..] == old(c[..])
    ensures call.a.rows % 64 == 0 && call.b.cols % 64 == 0 && call.a.cols % 16 == 0 ==>
              (call.IsGemm(old(c[..]), c[..]) <==> call.a.cols > 0 || call.beta == 1.0 || AllZero(old(c[..])))
  {
    hide AllZero;
    if call.a.rows == 0 || call.b.cols == 0 || call.a.cols == 0 {
      EmptyProduct(call, c[..]);
      return false;
    }
    if call.a.rows % BM != 0 || call.b.cols % BN != 0 || call.a.cols % STEP != 0 {
      return false;
    }
    Launch(call, grid, threads, warps, c);
    launched := true;
  }
}
