/** The kernel that transposes its A tile into padded shared memory while loading it. */
module BankGemm {
  import opened Matrices
  import opened Grids
  import opened Tiling

  /** Vector v of the A tile: row v / 2, columns 4 * (v % 2), ...; stored as a column. */
  method LoadVectorA(a: Matrix, row0: nat, k0: nat, sA: array<real>, v: nat)
    requires a.Valid() && row0 + BM <= a.rows && k0 + BK <= a.cols && sA.Length == BK * SA_STRIDE && v < BM * BK / 4
    modifies sA
    ensures forall k, r :: 0 <= k < BK && 0 <= r < BM ==>
              sA[CellA(k, r)] == if r * 2 + k / 4 == v then a.At(row0 + r, k0 + k) else old(sA[CellA(k, r)])
  {
    hide Matrix.At;
    var rowA, colA4 := v / 2, v % 2;
    RunAt(a, row0, k0, rowA, colA4 * 4);
    var tmp := Load4(a.cells, row0 * a.cols + k0 + (rowA * a.cols + colA4 * 4));
    sA[(colA4 * 4 + 0) * SA_STRIDE + rowA] := tmp.x;
    sA[(colA4 * 4 + 1) * SA_STRIDE + rowA] := tmp.y;
    sA[(colA4 * 4 + 2) * SA_STRIDE + rowA] := tmp.z;
    sA[(colA4 * 4 + 3) * SA_STRIDE + rowA] := tmp.w;
    forall k, r | 0 <= k < BK && 0 <= r < BM
      ensures sA[CellA(k, r)] == if r * 2 + k / 4 == v then a.At(row0 + r, k0 + k) else old(sA[CellA(k, r)])
    {
      InColumn(k, r, v);
      if r * 2 + k / 4 == v {
        assert Get(tmp, k % 4) == a.At(row0 + rowA, k0 + colA4 * 4 + k % 4);
      }
    }
  }

  lemma CellsDiffer(k: nat, r: nat, k': nat, r': nat)
    requires r < SA_STRIDE && r' < SA_STRIDE
    ensures CellA(k, r) == CellA(k', r') <==> k == k' && r == r'
  {}

  /** The four elements of vector v go to four cells of column v / 2, and to no other. */
  lemma InColumn(k: nat, r: nat, v: nat)
    requires k < BK && r < BM && v < BM * BK / 4
    ensures CellA(k, r) == CellA(v % 2 * 4, v / 2) <==> r * 2 + k / 4 == v && k % 4 == 0
    ensures CellA(k, r) == CellA(v % 2 * 4 + 1, v / 2) <==> r * 2 + k / 4 == v && k % 4 == 1
    ensures CellA(k, r) == CellA(v % 2 * 4 + 2, v / 2) <==> r * 2 + k / 4 == v && k % 4 == 2
    ensures CellA(k, r) == CellA(v % 2 * 4 + 3, v / 2) <==> r * 2 + k / 4 == v && k % 4 == 3
  {
    CellsDiffer(k, r, v % 2 * 4, v / 2);
    CellsDiffer(k, r, v % 2 * 4 + 1, v / 2);
    CellsDiffer(k, r, v % 2 * 4 + 2, v / 2);
    CellsDiffer(k, r, v % 2 * 4 + 3, v / 2);
    hide CellA;
  }

  method LoadA(a: Matrix, row0: nat, k0: nat, sA: array<real>, tid: nat)
    requires a.Valid() && row0 + BM <= a.rows && k0 + BK <= a.cols && sA.Length == BK * SA_STRIDE && tid < THREADS
    modifies sA
    ensures forall k, r :: 0 <= k < BK && 0 <= r < BM ==>
              sA[CellA(k, r)] == if (r * 2 + k / 4) % THREADS == tid then a.At(row0 + r, k0 + k)
                  else old(sA[CellA(k, r)])
  {
    hide Matrix.At;
    for i := 0 to BM * BK / (THREADS * 4)
      invariant forall k, r :: 0 <= k < BK && 0 <= r < BM ==>
                  sA[CellA(k, r)] == if (r * 2 + k / 4) % THREADS == tid && (r * 2 + k / 4) / THREADS < i
                                     then a.At(row0 + r, k0 + k) else old(sA[CellA(k, r)])
    {
      LoadVectorA(a, row0, k0, sA, tid + i * THREADS);
    }
  }

  /** All threads load their vectors of A, in any order. */
  method LoadPhaseA(a: Matrix, row0: nat, k0: nat, order: seq<nat>, sA: array<real>)
    requires a.Valid() && row0 + BM <= a.rows && k0 + BK <= a.cols && sA.Length == BK * SA_STRIDE
        && Schedule(order, THREADS)
    modifies sA
    ensures TileA(a, row0, k0, sA[..])
  {
    hide Matrix.At;
    for p := 0 to |order|
      invariant forall k, r :: 0 <= k < BK && 0 <= r < BM && (r * 2 + k / 4) % THREADS in order[..p] ==>
                  sA[CellA(k, r)] == a.At(row0 + r, k0 + k)
    {
      LoadA(a, row0, k0, sA, order[p]);
      assert order[..p + 1] == order[..p] + [order[p]];
    }
    assert order[..|order|] == order;
  }

  /** One block: K in steps of 8, two barriers a step, then the epilogue. Every phase runs its threads
      in an order of its own. */
  method BankBlock(call: Call, row0: nat, col0: nat, threads: nat -> seq<nat>, c: array<real>)
    requires call.Fits(c[..]) && row0 + BM <= call.a.rows && col0 + BN <= call.b.cols && call.a.cols % BK == 0
    requires forall phase :: Schedule(threads(phase), THREADS)
    modifies c
    ensures Written(call, old(c[..]), c[..], Block(row0, col0))
  {
    hide Written, TileA, TileB, AllPartial;
    var sA := new real[BK * SA_STRIDE];
    var sB := new real[BK * BN];
    var results := NewResults(call, row0, col0);
    var bkIdx, phase: nat := 0, 0;
    while bkIdx < call.a.cols
      invariant bkIdx <= call.a.cols && bkIdx % BK == 0
      invariant AllPartial(call, row0, col0, bkIdx, results)
      invariant c[..] == old(c[..])
    {
      LoadPhaseA(call.a, row0, bkIdx, threads(phase), sA);
      LoadPhaseB(call.b, bkIdx, col0, threads(phase + 1), sB);
      MultiplyPhase(call, row0, col0, bkIdx, threads(phase + 2), sA, sB, results);
      bkIdx, phase := bkIdx + BK, phase + 3;
    }
    StoreBlock(call, call.alpha, call.beta, call.b.cols, row0, col0, threads(phase), results, c);
  }

  /** The launch: sizes that the block does not divide are turned away, and otherwise the blocks run in
      any order. */
  method VectorizedBankGemm(call: Call, grid: seq<(nat, nat)>, threads: (nat, nat, nat) -> seq<nat>, c: array<real>)
      returns (launched: bool)
    requires call.Fits(c[..])
    requires GridSchedule(grid, call.a.rows / BM, call.b.cols / BN)
    requires forall row, col, phase :: Schedule(threads(row, col, phase), THREADS)
    modifies c
    ensures launched == (call.a.rows % 64 == 0 && call.b.cols % 64 == 0 && call.a.cols % 8 == 0)
    ensures launched ==> call.IsGemm(old(c[..]), c[..])
    ensures !launched ==> c[..] == old(c[..])
  {
    hide Written;
    if call.a.rows % BM != 0 || call.b.cols % BN != 0 || call.a.cols % BK != 0 {
      return false;
    }
    ghost var c0 := c[..];
    NothingWritten(call, c0, Blocks([]));
    assert grid[..0] == [];
    for k := 0 to |grid|
      invariant |c[..]| == |c0| && Written(call, c0, c[..], Blocks(grid[..k]))
    {
      var (row, col) := grid[k];
      ghost var c1 := c[..];
      BlockInside(call.a.rows, row);
      BlockInside(call.b.cols, col);
      BankBlock(call, row * BM, col * BN, phase => threads(row, col, phase), c);
      NotYet(grid, k);
      GridStep(call, grid, k, c0, c1, c[..]);
    }
    assert grid[..|grid|] == grid;
    GridDone(call, grid, call.a.rows / BM, call.b.cols / BN, c0, c[..]);
    launched := true;
  }
}
