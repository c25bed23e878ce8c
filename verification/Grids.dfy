/** The 64x64 blocks that every tiled kernel cuts C into, and what a grid of them writes. */
module Grids {
  import opened Matrices

  const BM: nat := 64
  const BN: nat := 64

  function Block(row0: nat, col0: nat): (nat, nat) -> bool {
    (i, j) => row0 <= i < row0 + BM && col0 <= j < col0 + BN
  }

  lemma BlockInside(n: nat, k: nat)
    requires n % 64 == 0 && k < n / 64
    ensures k * 64 + 64 <= n && n % 16 == 0 && (k * 64) % 64 == 0
  {}

  lemma DotStep(a: Matrix, b: Matrix, r: nat, c: nat, n: nat)
    requires a.Valid() && b.Valid() && r < a.rows && c < b.cols && n < a.cols && n < b.rows
    ensures Dot(a, b, r, c, n + 1) == Dot(a, b, r, c, n) + a.At(r, n) * b.At(n, c)
  {}

  /** The elements of the blocks in `done`. */
  function Blocks(done: seq<(nat, nat)>): (nat, nat) -> bool { (i, j) => (i / BM, j / BN) in done }

  lemma GridStep(call: Call, order: seq<(nat, nat)>, k: nat, c0: seq<real>, c1: seq<real>, c2: seq<real>)
    requires call.Fits(c0) && call.Fits(c1) && k < |order| && order[k] !in order[..k]
    requires Written(call, c0, c1, Blocks(order[..k])) && Written(call, c1, c2, Block(order[k].0 * BM, order[k].1 * BN))
    ensures Written(call, c0, c2, Blocks(order[..k + 1]))
  {
    hide Written, Dot;
    var d, e, f := Blocks(order[..k]), Block(order[k].0 * BM, order[k].1 * BN), Blocks(order[..k + 1]);
    forall i, j | 0 <= i < call.a.rows && 0 <= j < call.b.cols
      ensures !(d(i, j) && e(i, j)) && f(i, j) == (d(i, j) || e(i, j))
    {
      TakeOne(order, k, (i / BM, j / BN));
    }
    WrittenThen(call, c0, c1, c2, d, e, f);
  }

  lemma GridDone(call: Call, order: seq<(nat, nat)>, rows: nat, cols: nat, c0: seq<real>, c: seq<real>)
    requires call.Fits(c0) && call.a.rows <= rows * BM && call.b.cols <= cols * BN
    requires GridSchedule(order, rows, cols) && Written(call, c0, c, Blocks(order))
    ensures call.IsGemm(c0, c)
  {
    hide Written;
    forall i, j | 0 <= i < call.a.rows && 0 <= j < call.b.cols
      ensures Blocks(order)(i, j)
    {
    }
    AllWritten(call, c0, c, Blocks(order));
  }
}
