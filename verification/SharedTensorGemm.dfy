/** The tensor-core kernel with scalar loads: sizes are multiples of 16, blocks may hang over the edge
    and load zeros there. */
module SharedTensorGemm {
  import opened Matrices
  import opened Grids
  import opened WarpTiles

  function CellA(r: nat, k: nat): nat { r * STEP + k }
  function CellB(k: nat, c: nat): nat { k * BN + c }

  /** Row-major tiles; what lies outside the matrices is zero. */
  ghost predicate PaddedA(a: Matrix, row0: nat, k0: nat, sA: seq<real>)
    requires a.Valid()
  {
    && |sA| == BM * STEP
    && forall r, k :: 0 <= r < BM && 0 <= k < STEP ==>
         sA[CellA(r, k)] == if row0 + r < a.rows && k0 + k < a.cols then a.At(row0 + r, k0 + k) else 0.0
  }

  ghost predicate PaddedB(b: Matrix, k0: nat, col0: nat, sB: seq<real>)
    requires b.Valid()
  {
    && |sB| == STEP * BN
    && forall k, c :: 0 <= k < STEP && 0 <= c < BN ==>
         sB[CellB(k, c)] == if k0 + k < b.rows && col0 + c < b.cols then b.At(k0 + k, col0 + c) else 0.0
  }

  /** The cells of one thread: every 512th of the tile. */
  method LoadThread(m: Matrix, row0: nat, col0: nat, width: nat, height: nat, s: array<real>, tid: nat)
    requires m.Valid() && width > 0 && s.Length == height * width && tid < LANES
    modifies s
    ensures forall idx :: 0 <= idx < s.Length ==>
              s[idx] == if idx % LANES == tid then Padded(m, row0, col0, width, idx) else old(s[idx])
  {
    hide Padded;
    var idx := tid;
    while idx < s.Length
      invariant idx % LANES == tid
      invariant forall k :: 0 <= k < s.Length ==>
                  s[k] == if k % LANES == tid && k < idx then Padded(m, row0, col0, width, k) else old(s[k])
      decreases s.Length + LANES - idx
    {
      s[idx] := Padded(m, row0, col0, width, idx);
      NextOfThread(idx, tid);
      idx := idx + LANES;
    }
  }

  lemma NextOfThread(idx: nat, tid: nat)
    requires tid < LANES && idx % LANES == tid
    ensures (idx + LANES) % LANES == tid
    ensures forall k :: idx < k < idx + LANES ==> k % LANES != tid
  {}

  /** What the kernel puts into cell idx of a tile of the given width. */
  function Padded(m: Matrix, row0: nat, col0: nat, width: nat, idx: nat): real
    requires m.Valid() && width > 0
  {
    var r, c := row0 + idx / width, col0 + idx % width;
    if r < m.rows && c < m.cols then m.At(r, c) else 0.0
  }

  /** All threads load, in any order. */
  method LoadPhase(m: Matrix, row0: nat, col0: nat, width: nat, height: nat, order: seq<nat>, s: array<real>)
    requires m.Valid() && width > 0 && s.Length == height * width && Schedule(order, LANES)
    modifies s
    ensures forall idx :: 0 <= idx < s.Length ==> s[idx] == Padded(m, row0, col0, width, idx)
  {
    hide Padded;
    for p := 0 to |order|
      invariant forall idx :: 0 <= idx < s.Length && idx % LANES in order[..p] ==>
          s[idx] == Padded(m, row0, col0, width, idx)
    {
      LoadThread(m, row0, col0, width, height, s, order[p]);
      assert order[..p + 1] == order[..p] + [order[p]];
    }
    assert order[..|order|] == order;
  }

  lemma TilesPadded(a: Matrix, b: Matrix, row0: nat, col0: nat, k0: nat, sA: seq<real>, sB: seq<real>)
    requires a.Valid() && b.Valid() && |sA| == BM * STEP && |sB| == STEP * BN
    requires forall idx :: 0 <= idx < |sA| ==> sA[idx] == Padded(a, row0, k0, STEP, idx)
    requires forall idx :: 0 <= idx < |sB| ==> sB[idx] == Padded(b, k0, col0, BN, idx)
    ensures PaddedA(a, row0, k0, sA) && PaddedB(b, k0, col0, sB)
  {
    hide Matrix.At;
    forall r, k | 0 <= r < BM && 0 <= k < STEP
      ensures sA[CellA(r, k)] == if row0 + r < a.rows && k0 + k < a.cols then a.At(row0 + r, k0 + k) else 0.0
    {
      assert CellA(r, k) / STEP == r && CellA(r, k) % STEP == k;
    }
    forall k, c | 0 <= k < STEP && 0 <= c < BN
      ensures sB[CellB(k, c)] == if k0 + k < b.rows && col0 + c < b.cols then b.At(k0 + k, col0 + c) else 0.0
    {
      assert CellB(k, c) / BN == k && CellB(k, c) % BN == c;
    }
  }

  /** One warp's fragments and its multiply. */
  method WarpStep(ghost call: Call, ghost row0: nat, ghost col0: nat, ghost k0: nat, w: nat, ghost done: seq<nat>,
                  sA: array<real>, sB: array<real>, frags: array3<real>)
    requires call.a.Valid() && call.b.Valid() && call.a.cols == call.b.rows && k0 + STEP <= call.a.cols && w < WARPS
    requires frags.Length0 == WARPS && frags.Length1 == W && frags.Length2 == W
    requires PaddedA(call.a, row0, k0, sA[..]) && PaddedB(call.b, k0, col0, sB[..])
    requires w !in done && Multiplied(call, row0, col0, k0, k0 + STEP, done, frags)
    modifies frags
    ensures Multiplied(call, row0, col0, k0, k0 + STEP, done + [w], frags)
  {
    hide Multiplied, Matrix.At, Dot;
    WarpBounds(w);
    var fragA := LoadFragment(sA, WarpRow(w) * STEP, STEP, false);
    var fragB := LoadFragment(sB, WarpCol(w), BN, false);
    assert Fragments(call, row0, col0, k0, w, fragA, fragB) by {
      hide WarpRow, WarpCol;
      forall i, k | TileValid(row0, col0, w, call.a.rows, call.b.cols) && 0 <= i < W && 0 <= k < STEP
        ensures fragA[i, k] == call.a.At(row0 + WarpRow(w) + i, k0 + k)
        ensures fragB[k, i] == call.b.At(k0 + k, col0 + WarpCol(w) + i)
      {
        assert fragA[i, k] == sA[..][CellA(WarpRow(w) + i, k)];
        assert FragmentAt(sB.Length, WarpCol(w), BN, false, k, i) == CellB(k, WarpCol(w) + i);
        assert fragB[k, i] == sB[..][CellB(k, WarpCol(w) + i)];
      }
    }
    MultiplyWarp(call, row0, col0, k0, w, done, fragA, fragB, frags);
  }

  method StepPhase(ghost call: Call, ghost row0: nat, ghost col0: nat, ghost k0: nat, order: seq<nat>,
                   sA: array<real>, sB: array<real>, frags: array3<real>)
    requires call.a.Valid() && call.b.Valid() && call.a.cols == call.b.rows && k0 + STEP <= call.a.cols
    requires frags.Length0 == WARPS && frags.Length1 == W && frags.Length2 == W && Schedule(order, WARPS)
    requires PaddedA(call.a, row0, k0, sA[..]) && PaddedB(call.b, k0, col0, sB[..])
    requires AllPartial(call, row0, col0, k0, frags)
    modifies frags
    ensures AllPartial(call, row0, col0, k0 + STEP, frags)
  {
    hide PaddedA, PaddedB, Partial;
    for k := 0 to |order|
      invariant Multiplied(call, row0, col0, k0, k0 + STEP, order[..k], frags)
    {
      NotYet(order, k);
      WarpStep(call, row0, col0, k0, order[k], order[..k], sA, sB, frags);
      assert order[..k + 1] == order[..k] + [order[k]];
    }
    assert order[..|order|] == order;
  }

  /** One block; `threads` orders the loads and `warps` the multiplies and the stores. */
  method SharedTensorBlock(call: Call, row0: nat, col0: nat, threads: nat -> seq<nat>, warps: nat -> seq<nat>,
      c: array<real>)
    requires call.Fits(c[..]) && call.a.rows % W == 0 && call.b.cols % W == 0 && call.a.cols % STEP == 0
    requires row0 % BM == 0 && col0 % BN == 0
    requires (forall phase :: Schedule(threads(phase), LANES)) && forall phase :: Schedule(warps(phase), WARPS)
    modifies c
    ensures Written(call, old(c[..]), c[..], Block(row0, col0))
  {
    hide Written, PaddedA, PaddedB, Padded, AllPartial;
    var sA := new real[BM * STEP];
    var sB := new real[STEP * BN];
    var frags := NewFragments(call, row0, col0);
    var k0, phase: nat := 0, 0;
    while k0 < call.a.cols
      invariant k0 <= call.a.cols && k0 % STEP == 0
      invariant AllPartial(call, row0, col0, k0, frags)
      invariant c[..] == old(c[..])
    {
      LoadPhase(call.a, row0, k0, STEP, BM, threads(phase), sA);
      LoadPhase(call.b, k0, col0, BN, STEP, threads(phase + 1), sB);
      TilesPadded(call.a, call.b, row0, col0, k0, sA[..], sB[..]);
      StepPhase(call, row0, col0, k0, warps(phase + 2), sA, sB, frags);
      k0, phase := k0 + STEP, phase + 3;
    }
    StoreBlock(call, call.alpha, call.beta, call.a.rows, call.b.cols, row0, col0, warps(phase), frags, c);
  }

  function Ceil64(n: nat): nat { (n + 63) / 64 }

  method Launch(call: Call, grid: seq<(nat, nat)>, threads: (nat, nat, nat) -> seq<nat>,
                warps: (nat, nat, nat) -> seq<nat>, c: array<real>)
    requires call.Fits(c[..]) && call.a.rows % W == 0 && call.b.cols % W == 0 && call.a.cols % W == 0
    requires GridSchedule(grid, Ceil64(call.a.rows), Ceil64(call.b.cols))
    requires forall row, col, phase :: Schedule(threads(row, col, phase), LANES)
    requires forall row, col, phase :: Schedule(warps(row, col, phase), WARPS)
    modifies c
    ensures call.IsGemm(old(c[..]), c[..])
  {
    hide Written;
    ghost var c0 := c[..];
    NothingWritten(call, c0, Blocks([]));
    assert grid[..0] == [];
    for k := 0 to |grid|
      invariant |c[..]| == |c0| && Written(call, c0, c[..], Blocks(grid[..k]))
    {
      var (row, col) := grid[k];
      ghost var c1 := c[..];
      SharedTensorBlock(call, row * BM, col * BN, phase => threads(row, col, phase),
                        phase => warps(row, col, phase), c);
      NotYet(grid, k);
      GridStep(call, grid, k, c0, c1, c[..]);
    }
    assert grid[..|grid|] == grid;
    GridDone(call, grid, Ceil64(call.a.rows), Ceil64(call.b.cols), c0, c[..]);
  }

  /** The launch. */
  method SharedTensorCoreGemm(call: Call, grid: seq<(nat, nat)>, threads: (nat, nat, nat) -> seq<nat>,
                              warps: (nat, nat, nat) -> seq<nat>, c: array<real>)
      returns (launched: bool)
    requires call.Fits(c[..])
    requires GridSchedule(grid, Ceil64(call.a.rows), Ceil64(call.b.cols))
    requires forall row, col, phase :: Schedule(threads(row, col, phase), LANES)
    requires forall row, col, phase :: Schedule(warps(row, col, phase), WARPS)
    modifies c
    ensures launched == (call.a.rows > 0 && call.b.cols > 0 && call.a.cols > 0
                         && call.a.rows % 16 == 0 && call.b.cols % 16 == 0 && call.a.cols % 16 == 0)
    ensures launched ==> call.IsGemm(old(c[..]), c[..])
    ensures !launched ==> c[..] == old(c[..])
    ensures call.a.rows % 16 == 0 && call.b.cols % 16 == 0 && call.a.cols % 16 == 0 ==>
              (call.IsGemm(old(c[..]), c[..]) <==> call.a.cols > 0 || call.beta == 1.0 || AllZero(old(c[..])))
  {
    hide AllZero;
    if call.a.rows == 0 || call.b.cols == 0 || call.a.cols == 0 {
      EmptyProduct(call, c[..]);
      return false;
    }
    if call.a.rows % W != 0 || call.b.cols % W != 0 || call.a.cols % W != 0 {
      return false;
    }
    Launch(call, grid, threads, warps, c);
    launched := true;
  }
}
