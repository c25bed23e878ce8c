/** The 64x64 block of the tensor-core kernels: sixteen warps, each with a 16x16 accumulator. A fragment
    multiply is an exact 16x16x16 multiply-accumulate. */
module WarpTiles {
  import opened Matrices
  import opened Grids

  const W: nat := 16
  const WARPS: nat := 16
  const LANES: nat := 512
  const STEP: nat := 16

  /** The first row and column of a warp's tile. */
  function WarpRow(w: nat): nat { w / 4 * W }
  function WarpCol(w: nat): nat { w % 4 * W }

  lemma WarpBounds(w: nat)
    requires w < WARPS
    ensures WarpRow(w) + W <= BM && WarpCol(w) + W <= BN
  {}

  /** With sizes that are multiples of 16 no warp tile straddles an edge of C. */
  lemma InsideOrOutside(rows: nat, cols: nat, row0: nat, col0: nat, w: nat)
    requires rows % W == 0 && cols % W == 0 && row0 % BM == 0 && col0 % BN == 0 && w < WARPS
    ensures row0 + WarpRow(w) + W <= rows || rows <= row0 + WarpRow(w)
    ensures col0 + WarpCol(w) + W <= cols || cols <= col0 + WarpCol(w)
  {
    assert (row0 + WarpRow(w)) % W == 0 by { Aligned(row0, w / 4); }
    assert (col0 + WarpCol(w)) % W == 0 by { Aligned(col0, w % 4); }
    hide WarpRow, WarpCol;
    MultiplesApart(rows, row0 + WarpRow(w));
    MultiplesApart(cols, col0 + WarpCol(w));
  }

  lemma Aligned(x: nat, k: nat)
    requires x % BM == 0
    ensures (x + k * W) % W == 0
  {
    assert x + k * W == W * (4 * (x / BM) + k);
  }

  lemma MultiplesApart(n: nat, at: nat)
    requires n % W == 0 && at % W == 0
    ensures at + W <= n || n <= at
  {}

  predicate TileValid(row0: nat, col0: nat, w: nat, rows: nat, cols: nat) {
    row0 + WarpRow(w) + W <= rows && col0 + WarpCol(w) + W <= cols
  }

  /** A warp inside C has accumulated the first n terms of each of its products. */
  ghost predicate Partial(call: Call, row0: nat, col0: nat, n: nat, w: nat, frags: array3<real>)
    requires call.a.Valid() && call.b.Valid() && call.a.cols == call.b.rows && n <= call.a.cols && w < WARPS
    requires frags.Length0 == WARPS && frags.Length1 == W && frags.Length2 == W
    reads frags
  {
    TileValid(row0, col0, w, call.a.rows, call.b.cols) ==>
      forall i, j :: 0 <= i < W && 0 <= j < W ==>
        frags[w, i, j] == Dot(call.a, call.b, row0 + WarpRow(w) + i, col0 + WarpCol(w) + j, n)
  }

  // ---- fragments ----

  /** load_matrix_sync: a 16x16 piece of shared memory, by rows or by columns. */
  method LoadFragment(s: array<real>, at: nat, ld: nat, byColumns: bool) returns (frag: array2<real>)
    requires at + (W - 1) * ld + W <= s.Length
    ensures fresh(frag) && frag.Length0 == W && frag.Length1 == W
    ensures forall i, j :: 0 <= i < W && 0 <= j < W ==>
              FragmentAt(s.Length, at, ld, byColumns, i, j) < s.Length
              && frag[i, j] == s[FragmentAt(s.Length, at, ld, byColumns, i, j)]
  {
    frag := new real[W, W]((i, j) requires 0 <= i < W && 0 <= j < W && at + (W - 1) * ld + W <= s.Length reads s =>
      s[FragmentAt(s.Length, at, ld, byColumns, i, j)]);
  }

  function FragmentAt(length: nat, at: nat, ld: nat, byColumns: bool, i: nat, j: nat): (k: nat)
    requires at + (W - 1) * ld + W <= length && i < W && j < W
    ensures k < length && k == at + (if byColumns then j * ld + i else i * ld + j)
  {
    MulMono(i, W - 1, ld);
    MulMono(j, W - 1, ld);
    at + (if byColumns then j * ld + i else i * ld + j)
  }

  /** The fragments hold columns k0, ..., k0 + 15 of the warp's rows of A, and the same rows of its columns of B. */
  ghost predicate Fragments(call: Call, row0: nat, col0: nat, k0: nat, w: nat, fragA: array2<real>, fragB: array2<real>)
    requires call.a.Valid() && call.b.Valid() && call.a.cols == call.b.rows && k0 + STEP <= call.a.cols && w < WARPS
    requires fragA.Length0 == W && fragA.Length1 == W && fragB.Length0 == W && fragB.Length1 == W
    reads fragA, fragB
  {
    TileValid(row0, col0, w, call.a.rows, call.b.cols) ==>
      forall i, k :: 0 <= i < W && 0 <= k < STEP ==>
        && fragA[i, k] == call.a.At(row0 + WarpRow(w) + i, k0 + k)
        && fragB[k, i] == call.b.At(k0 + k, col0 + WarpCol(w) + i)
  }

  /** mma_sync on one accumulator element. */
  method Accumulate(ghost call: Call, ghost row0: nat, ghost col0: nat, ghost k0: nat, w: nat, i: nat, j: nat,
                    fragA: array2<real>, fragB: array2<real>, acc: real)
      returns (sum: real)
    requires call.a.Valid() && call.b.Valid() && call.a.cols == call.b.rows && k0 + STEP <= call.a.cols && w < WARPS
    requires fragA.Length0 == W && fragA.Length1 == W && fragB.Length0 == W && fragB.Length1 == W && i < W && j < W
    requires Fragments(call, row0, col0, k0, w, fragA, fragB)
    requires TileValid(row0, col0, w, call.a.rows, call.b.cols) ==>
               acc == Dot(call.a, call.b, row0 + WarpRow(w) + i, col0 + WarpCol(w) + j, k0)
    ensures TileValid(row0, col0, w, call.a.rows, call.b.cols) ==>
              sum == Dot(call.a, call.b, row0 + WarpRow(w) + i, col0 + WarpCol(w) + j, k0 + STEP)
  {
    hide Dot, Matrix.At, WarpRow, WarpCol;
    WarpBounds(w);
    sum := acc;
    for k := 0 to STEP
      invariant TileValid(row0, col0, w, call.a.rows, call.b.cols) ==>
                  sum == Dot(call.a, call.b, row0 + WarpRow(w) + i, col0 + WarpCol(w) + j, k0 + k)
    {
      sum := sum + fragA[i, k] * fragB[k, j];
      if TileValid(row0, col0, w, call.a.rows, call.b.cols) {
        DotStep(call.a, call.b, row0 + WarpRow(w) + i, col0 + WarpCol(w) + j, k0 + k);
      }
    }
  }

  method MmaSync(ghost call: Call, ghost row0: nat, ghost col0: nat, ghost k0: nat, w: nat,
                 fragA: array2<real>, fragB: array2<real>, frags: array3<real>)
    requires call.a.Valid() && call.b.Valid() && call.a.cols == call.b.rows && k0 + STEP <= call.a.cols && w < WARPS
    requires fragA.Length0 == W && fragA.Length1 == W && fragB.Length0 == W && fragB.Length1 == W
    requires frags.Length0 == WARPS && frags.Length1 == W && frags.Length2 == W
    requires Fragments(call, row0, col0, k0, w, fragA, fragB) && Partial(call, row0, col0, k0, w, frags)
    modifies frags
    ensures Partial(call, row0, col0, k0 + STEP, w, frags) && OthersKept(w, frags)
  {
    hide Dot, Fragments;
    for i := 0 to W
      invariant HalfDone(call, row0, col0, k0, w, i, 0, frags) && OthersKept(w, frags)
    {
      for j := 0 to W
        invariant HalfDone(call, row0, col0, k0, w, i, j, frags) && OthersKept(w, frags)
      {
        frags[w, i, j] := Accumulate(call, row0, col0, k0, w, i, j, fragA, fragB, frags[w, i, j]);
      }
    }
  }

  /** Within a fragment multiply: the elements before (i, j) are done. */
  ghost predicate HalfDone(call: Call, row0: nat, col0: nat, k0: nat, w: nat, i: nat, j: nat, frags: array3<real>)
    requires call.a.Valid() && call.b.Valid() && call.a.cols == call.b.rows && k0 + STEP <= call.a.cols && w < WARPS
    requires frags.Length0 == WARPS && frags.Length1 == W && frags.Length2 == W
    reads frags
  {
    TileValid(row0, col0, w, call.a.rows, call.b.cols) ==>
      forall p, q :: 0 <= p < W && 0 <= q < W ==>
        frags[w, p, q] == Dot(call.a, call.b, row0 + WarpRow(w) + p, col0 + WarpCol(w) + q,
                              if p < i || (p == i && q < j) then k0 + STEP else k0)
  }

  twostate predicate OthersKept(w: nat, frags: array3<real>)
    requires frags.Length0 == WARPS && frags.Length1 == W && frags.Length2 == W
    reads frags
  {
    forall v, i, j :: 0 <= v < WARPS && v != w && 0 <= i < W && 0 <= j < W ==> frags[v, i, j] == old(frags[v, i, j])
  }

  /** The warps in `done` have taken this step and the others have not. */
  ghost predicate Multiplied(call: Call, row0: nat, col0: nat, n: nat, n': nat, done: seq<nat>, frags: array3<real>)
    requires call.a.Valid() && call.b.Valid() && call.a.cols == call.b.rows && n <= call.a.cols && n' <= call.a.cols
    requires frags.Length0 == WARPS && frags.Length1 == W && frags.Length2 == W
    reads frags
  {
    forall w :: 0 <= w < WARPS ==>
      if w in done then Partial(call, row0, col0, n', w, frags) else Partial(call, row0, col0, n, w, frags)
  }

  ghost predicate AllPartial(call: Call, row0: nat, col0: nat, n: nat, frags: array3<real>)
    requires call.a.Valid() && call.b.Valid() && call.a.cols == call.b.rows && n <= call.a.cols
    requires frags.Length0 == WARPS && frags.Length1 == W && frags.Length2 == W
    reads frags
  {
    forall w :: 0 <= w < WARPS ==> Partial(call, row0, col0, n, w, frags)
  }

  method MultiplyWarp(ghost call: Call, ghost row0: nat, ghost col0: nat, ghost k0: nat, w: nat, ghost done: seq<nat>,
                      fragA: array2<real>, fragB: array2<real>, frags: array3<real>)
    requires call.a.Valid() && call.b.Valid() && call.a.cols == call.b.rows && k0 + STEP <= call.a.cols && w < WARPS
    requires fragA.Length0 == W && fragA.Length1 == W && fragB.Length0 == W && fragB.Length1 == W
    requires frags.Length0 == WARPS && frags.Length1 == W && frags.Length2 == W
    requires Fragments(call, row0, col0, k0, w, fragA, fragB)
    requires w !in done && Multiplied(call, row0, col0, k0, k0 + STEP, done, frags)
    modifies frags
    ensures Multiplied(call, row0, col0, k0, k0 + STEP, done + [w], frags)
  {
    hide Dot, Fragments;
    MmaSync(call, row0, col0, k0, w, fragA, fragB, frags);
    forall v | 0 <= v < WARPS
      ensures if v in done + [w] then Partial(call, row0, col0, k0 + STEP, v, frags)
              else Partial(call, row0, col0, k0, v, frags)
    {
      if v != w {
        assert old(if v in done then Partial(call, row0, col0, k0 + STEP, v, frags)
            else Partial(call, row0, col0, k0, v, frags));
        assert forall i, j :: 0 <= i < W && 0 <= j < W ==> frags[v, i, j] == old(frags[v, i, j]);
      }
    }
  }

  /** fill_fragment for every warp. */
  method NewFragments(ghost call: Call, ghost row0: nat, ghost col0: nat) returns (frags: array3<real>)
    requires call.a.Valid() && call.b.Valid() && call.a.cols == call.b.rows
    ensures fresh(frags) && frags.Length0 == WARPS && frags.Length1 == W && frags.Length2 == W
    ensures AllPartial(call, row0, col0, 0, frags)
  {
    frags := new real[WARPS, W, W]((w, i, j) => 0.0);
  }

  // ---- the epilogue ----

  /** What a valid warp stores. */
  ghost predicate ResultTile(call: Call, row0: nat, col0: nat, w: nat, c: seq<real>, tile: array2<real>)
    requires call.Fits(c) && w < WARPS && TileValid(row0, col0, w, call.a.rows, call.b.cols)
    requires tile.Length0 == W && tile.Length1 == W
    reads tile
  {
    forall i, j :: 0 <= i < W && 0 <= j < W ==>
      tile[i, j] == call.Want(c, row0 + WarpRow(w) + i, col0 + WarpCol(w) + j)
  }

  /** The two paths to the result: the accumulator as it is, or scaled and added to what C held. */
  method Scale(ghost call: Call, alpha: real, beta: real, n: nat, row0: nat, col0: nat, w: nat,
      frags: array3<real>, c: array<real>)
      returns (tile: array2<real>)
    requires alpha == call.alpha && beta == call.beta && n == call.b.cols
    requires call.Fits(c[..]) && w < WARPS && TileValid(row0, col0, w, call.a.rows, call.b.cols)
    requires frags.Length0 == WARPS && frags.Length1 == W && frags.Length2 == W
    requires Partial(call, row0, col0, call.a.cols, w, frags)
    ensures fresh(tile) && tile.Length0 == W && tile.Length1 == W && ResultTile(call, row0, col0, w, c[..], tile)
  {
    hide Dot, Mix, WarpRow, WarpCol;
    WarpBounds(w);
    tile := new real[W, W];
    for i := 0 to W
      invariant forall p, q :: 0 <= p < i && 0 <= q < W ==>
                  tile[p, q] == call.Want(c[..], row0 + WarpRow(w) + p, col0 + WarpCol(w) + q)
    {
      for j := 0 to W
        invariant forall p, q :: 0 <= p < W && 0 <= q < W && (p < i || (p == i && q < j)) ==>
                    tile[p, q] == call.Want(c[..], row0 + WarpRow(w) + p, col0 + WarpCol(w) + q)
      {
        StripAt(call.a.rows, n, row0 + WarpRow(w), col0 + WarpCol(w), i, j, 1);
        var at := Offset(n, row0 + WarpRow(w), col0 + WarpCol(w), i, j);
        assert at == Index(call.a.rows, n, row0 + WarpRow(w) + i, col0 + WarpCol(w) + j);
        tile[i, j] := ScaleOne(alpha, beta, frags[w, i, j], c[at]);
      }
    }
  }

  method ScaleOne(alpha: real, beta: real, x: real, old': real) returns (r: real)
    ensures r == Mix(alpha, beta, x, old')
  {
    if alpha == 1.0 && beta == 0.0 {
      return x;
    }
    r := alpha * x + beta * (if beta != 0.0 then old' else 0.0);
  }

  /** The first n rows of a warp's tile. */
  function WarpRows(row0: nat, col0: nat, w: nat, n: nat): (nat, nat) -> bool {
    (i, j) => row0 + WarpRow(w) <= i < row0 + WarpRow(w) + n && col0 + WarpCol(w) <= j < col0 + WarpCol(w) + W
  }

  method StoreTileRow(tile: array2<real>, i: nat, at: nat, c: array<real>)
    requires tile.Length0 == W && tile.Length1 == W && i < W && at + W <= c.Length
    modifies c
    ensures forall k :: 0 <= k < c.Length ==> c[k] == if at <= k < at + W then tile[i, k - at] else old(c[k])
  {
    for j := 0 to W
      invariant forall k :: 0 <= k < c.Length ==> c[k] == if at <= k < at + j then tile[i, k - at] else old(c[k])
    {
      c[at + j] := tile[i, j];
    }
  }

  /** Row i of a result tile, stored where nothing has been stored yet. */
  lemma RowWritten(call: Call, c0: seq<real>, c1: seq<real>, c2: seq<real>, row0: nat, col0: nat, w: nat, i: nat,
                   tile: array2<real>, at: nat)
    requires call.Fits(c0) && w < WARPS && TileValid(row0, col0, w, call.a.rows, call.b.cols) && i < W
    requires tile.Length0 == W && tile.Length1 == W && ResultTile(call, row0, col0, w, c0, tile)
    requires Written(call, c0, c1, WarpRows(row0, col0, w, i)) && |c2| == |c1|
    requires Stored(c1, c2, at, i, tile) && at == (row0 + WarpRow(w) + i) * call.b.cols + (col0 + WarpCol(w))
    ensures Written(call, c0, c2, WarpRows(row0, col0, w, i + 1))
  {
    hide Dot, Mix, WarpRow, WarpCol, Stored, ResultTile, Call.Want;
    forall p, j | 0 <= p < call.a.rows && 0 <= j < call.b.cols
      ensures var k := Index(call.a.rows, call.b.cols, p, j);
              c2[k] == if WarpRows(row0, col0, w, i + 1)(p, j) then call.Want(c0, p, j) else c0[k]
    {
      var k := Index(call.a.rows, call.b.cols, p, j);
      var r, q := row0 + WarpRow(w) + i, col0 + WarpCol(w);
      InStrip(call.a.rows, call.b.cols, r, q, W, p, j);
      CellStored(c1, c2, at, i, tile, k);
      if Strip(r, q, W)(p, j) {
        ResultAt(call, row0, col0, w, c0, tile, i, j - q);
        assert k == at + (j - q);
      } else {
        assert WarpRows(row0, col0, w, i + 1)(p, j) == WarpRows(row0, col0, w, i)(p, j);
        assert c1[k] == if WarpRows(row0, col0, w, i)(p, j) then call.Want(c0, p, j) else c0[k];
      }
    }
  }

  ghost predicate Stored(c1: seq<real>, c2: seq<real>, at: nat, i: nat, tile: array2<real>)
    requires |c2| == |c1| && tile.Length0 == W && tile.Length1 == W && i < W
    reads tile
  {
    forall k :: 0 <= k < |c1| ==> c2[k] == if at <= k < at + W then tile[i, k - at] else c1[k]
  }

  lemma CellStored(c1: seq<real>, c2: seq<real>, at: nat, i: nat, tile: array2<real>, k: nat)
    requires |c2| == |c1| && tile.Length0 == W && tile.Length1 == W && i < W && Stored(c1, c2, at, i, tile) && k < |c1|
    ensures c2[k] == if at <= k < at + W then tile[i, k - at] else c1[k]
  {}

  lemma ResultAt(call: Call, row0: nat, col0: nat, w: nat, c: seq<real>, tile: array2<real>, i: nat, j: nat)
    requires call.Fits(c) && w < WARPS && TileValid(row0, col0, w, call.a.rows, call.b.cols) && i < W && j < W
    requires tile.Length0 == W && tile.Length1 == W && ResultTile(call, row0, col0, w, c, tile)
    ensures tile[i, j] == call.Want(c, row0 + WarpRow(w) + i, col0 + WarpCol(w) + j)
  {}

  method StoreMatrixSync(ghost call: Call, n: nat, row0: nat, col0: nat, w: nat, tile: array2<real>, c: array<real>)
    requires n == call.b.cols && call.Fits(c[..]) && w < WARPS && TileValid(row0, col0, w, call.a.rows, call.b.cols)
    requires tile.Length0 == W && tile.Length1 == W && ResultTile(call, row0, col0, w, c[..], tile)
    modifies c
    ensures Written(call, old(c[..]), c[..], WarpRows(row0, col0, w, W))
  {
    hide Dot, Mix, Written, WarpRow, WarpCol, ResultTile;
    ghost var c0 := c[..];
    NothingWritten(call, c0, WarpRows(row0, col0, w, 0));
    for i := 0 to W
      invariant |c[..]| == |c0| && Written(call, c0, c[..], WarpRows(row0, col0, w, i))
    {
      ghost var c1 := c[..];
      StripAt(call.a.rows, n, row0 + WarpRow(w), col0 + WarpCol(w), i, 0, W);
      var at := Offset(n, row0 + WarpRow(w), col0 + WarpCol(w), i, 0);
      StoreTileRow(tile, i, at, c);
      RowWritten(call, c0, c1, c[..], row0, col0, w, i, tile, at);
    }
  }

  method StoreWarp(ghost call: Call, alpha: real, beta: real, m: nat, n: nat, row0: nat, col0: nat, w: nat,
                   frags: array3<real>, c: array<real>)
    requires alpha == call.alpha && beta == call.beta && m == call.a.rows && n == call.b.cols
    requires call.Fits(c[..]) && w < WARPS && m % W == 0 && n % W == 0 && row0 % BM == 0 && col0 % BN == 0
    requires frags.Length0 == WARPS && frags.Length1 == W && frags.Length2 == W
    requires Partial(call, row0, col0, call.a.cols, w, frags)
    modifies c
    ensures Written(call, old(c[..]), c[..], WarpRows(row0, col0, w, W))
  {
    hide Written, Partial;
    if !TileValid(row0, col0, w, m, n) {
      InsideOrOutside(m, n, row0, col0, w);
      NothingWritten(call, c[..], WarpRows(row0, col0, w, W));
      return;
    }
    var tile := Scale(call, alpha, beta, n, row0, col0, w, frags, c);
    StoreMatrixSync(call, n, row0, col0, w, tile, c);
  }

  /** The one warp that computes element (i, j) of a block. */
  function Owner(i: nat, j: nat): (w: nat)
    requires i < BM && j < BN
    ensures w < WARPS
    ensures forall v :: 0 <= v < WARPS ==>
              (WarpRow(v) <= i < WarpRow(v) + W && WarpCol(v) <= j < WarpCol(v) + W <==> v == w)
  {
    i / W * 4 + j / W
  }

  function BlockPart(row0: nat, col0: nat, done: seq<nat>): (nat, nat) -> bool {
    (i, j) => row0 <= i < row0 + BM && col0 <= j < col0 + BN && Owner(i - row0, j - col0) in done
  }

  lemma OwnerWrites(row0: nat, col0: nat, w: nat, i: nat, j: nat)
    requires w < WARPS
    ensures WarpRows(row0, col0, w, W)(i, j) <==> Block(row0, col0)(i, j) && Owner(i - row0, j - col0) == w
  {
    WarpBounds(w);
    hide WarpRow, WarpCol;
    if WarpRows(row0, col0, w, W)(i, j) {
      assert row0 <= i < row0 + BM && col0 <= j < col0 + BN;
      assert Owner(i - row0, j - col0) == w;
    }
  }

  lemma StoreStep(call: Call, row0: nat, col0: nat, order: seq<nat>, k: nat, c0: seq<real>, c1: seq<real>,
      c2: seq<real>)
    requires call.Fits(c0) && call.Fits(c1) && k < |order| && Schedule(order, WARPS)
    requires Written(call, c0, c1, BlockPart(row0, col0, order[..k]))
    requires Written(call, c1, c2, WarpRows(row0, col0, order[k], W))
    ensures Written(call, c0, c2, BlockPart(row0, col0, order[..k + 1]))
  {
    hide Written, Dot, WarpRow, WarpCol;
    NotYet(order, k);
    var d, e, f := BlockPart(row0, col0, order[..k]), WarpRows(row0, col0, order[k], W), BlockPart(row0, col0,
        order[..k + 1]);
    forall i, j | 0 <= i < call.a.rows && 0 <= j < call.b.cols
      ensures !(d(i, j) && e(i, j)) && f(i, j) == (d(i, j) || e(i, j))
    {
      OwnerWrites(row0, col0, order[k], i, j);
      if Block(row0, col0)(i, j) {
        TakeOne(order, k, Owner(i - row0, j - col0));
      }
    }
    WrittenThen(call, c0, c1, c2, d, e, f);
  }

  /** All warps store their tiles, in any order; a warp outside C stores nothing. */
  method StoreBlock(ghost call: Call, alpha: real, beta: real, m: nat, n: nat, row0: nat, col0: nat, order: seq<nat>,
                    frags: array3<real>, c: array<real>)
    requires alpha == call.alpha && beta == call.beta && m == call.a.rows && n == call.b.cols
    requires call.Fits(c[..]) && m % W == 0 && n % W == 0 && row0 % BM == 0 && col0 % BN == 0 && Schedule(order, WARPS)
    requires frags.Length0 == WARPS && frags.Length1 == W && frags.Length2 == W
    requires AllPartial(call, row0, col0, call.a.cols, frags)
    modifies c
    ensures Written(call, old(c[..]), c[..], Block(row0, col0))
  {
    hide Partial, Written, Dot, WarpRow, WarpCol;
    ghost var c0 := c[..];
    NothingWritten(call, c0, BlockPart(row0, col0, []));
    assert order[..0] == [];
    for k := 0 to |order|
      invariant |c[..]| == |c0| && Written(call, c0, c[..], BlockPart(row0, col0, order[..k]))
    {
      ghost var c1 := c[..];
      StoreWarp(call, alpha, beta, m, n, row0, col0, order[k], frags, c);
      StoreStep(call, row0, col0, order, k, c0, c1, c[..]);
    }
    assert order[..|order|] == order;
    forall i, j | 0 <= i < call.a.rows && 0 <= j < call.b.cols
      ensures Block(row0, col0)(i, j) == BlockPart(row0, col0, order)(i, j)
    {
      if Block(row0, col0)(i, j) {
        assert Owner(i - row0, j - col0) in order;
      }
    }
    WrittenSame(call, c0, c[..], BlockPart(row0, col0, order), Block(row0, col0));
  }

  // ---- the launch guard ----

  ghost predicate AllZero(c: seq<real>) { forall k :: 0 <= k < |c| ==> c[k] == 0.0 }

  lemma ScaleChangesNothing(beta: real, x: real)
    ensures beta * x == x <==> beta == 1.0 || x == 0.0
  {
    if beta * x == x && x != 0.0 {
      assert beta == (beta * x) / x == 1.0;
    }
  }

  /** Both launches return at once when a dimension is 0 and leave C alone. That meets the specification exactly
      when the sum is not empty, or C is not scaled, or C is zero. */
  lemma EmptyProduct(call: Call, c: seq<real>)
    requires call.Fits(c) && (call.a.rows == 0 || call.b.cols == 0 || call.a.cols == 0)
    ensures call.IsGemm(c, c) <==> call.a.cols > 0 || call.beta == 1.0 || AllZero(c)
  {
    if call.a.rows == 0 || call.b.cols == 0 {
      assert |c| == 0;
    } else {
      forall k | 0 <= k < |c|
        ensures call.beta * c[k] == c[k] <==> call.beta == 1.0 || c[k] == 0.0
      {
        ScaleChangesNothing(call.beta, c[k]);
      }
      EmptySums(call, c);
    }
  }

  lemma EmptySums(call: Call, c: seq<real>)
    requires call.Fits(c) && call.a.cols == 0
    ensures call.IsGemm(c, c) <==> forall k :: 0 <= k < |c| ==> call.beta * c[k] == c[k]
  {
    if call.IsGemm(c, c) {
      forall k | 0 <= k < |c|
        ensures call.beta * c[k] == c[k]
      {
        var i, j := IndexSurjective(call.a.rows, call.b.cols, k);
        assert call.Want(c, i, j) == c[k];
      }
    }
  }

  /** It does not always: beta = 0 should clear C. Here C is all ones, of any size, so of sizes the launches
      accept too, 16 x 16 or 64 x 64. */
  lemma EmptyProductNotCleared(rows: nat, cols: nat, c: seq<real>)
    requires rows > 0 && cols > 0 && c == seq(rows * cols, _ => 1.0)
    ensures var call := Call(1.0, Matrix(rows, 0, []), Matrix(0, cols, []), 0.0);
            call.Fits(c) && !call.IsGemm(c, c)
  {
    var call := Call(1.0, Matrix(rows, 0, []), Matrix(0, cols, []), 0.0);
    assert rows * cols > 0 && rows * 0 == 0 && 0 * cols == 0;
    EmptyProduct(call, c);
    assert c[0] != 0.0;
  }
}
