/** Row-major matrices, the meaning of a GEMM call, and the order in which threads run. */
module Matrices {

  lemma MulMono(a: nat, b: nat, c: nat)
    requires a <= b
    ensures a * c <= b * c
  {}

  lemma RowsApart(r: nat, r': nat, cols: nat)
    requires r < r'
    ensures r * cols + cols <= r' * cols
  {
    MulMono(r + 1, r', cols);
    assert (r + 1) * cols == r * cols + cols;
  }

  /** The offset of (r, c) in a row-major array of `rows` rows of `cols` cells. */
  function Index(rows: nat, cols: nat, r: nat, c: nat): (i: nat)
    requires r < rows && c < cols
    ensures i == r * cols + c && i < rows * cols
  {
    MulMono(r + 1, rows, cols);
    assert (r + 1) * cols == r * cols + cols;
    r * cols + c
  }

  lemma IndexInjective(cols: nat, r: nat, c: nat, r': nat, c': nat)
    requires c < cols && c' < cols && r * cols + c == r' * cols + c'
    ensures r == r' && c == c'
  {
    if r < r' {
      RowsApart(r, r', cols);
    } else if r' < r {
      RowsApart(r', r, cols);
    }
  }

  /** Every offset is the offset of exactly one pair. */
  lemma IndexSurjective(rows: nat, cols: nat, i: nat) returns (r: nat, c: nat)
    requires i < rows * cols
    ensures r < rows && c < cols && Index(rows, cols, r, c) == i
  {
    r, c := i / cols, i % cols;
    assert i == r * cols + c;
    if r >= rows {
      MulMono(rows, r, cols);
    }
  }

  datatype Matrix = Matrix(rows: nat, cols: nat, cells: seq<real>) {
    ghost predicate Valid() { |cells| == rows * cols }

    function At(r: nat, c: nat): real
      requires Valid() && r < rows && c < cols
    {
      cells[Index(rows, cols, r, c)]
    }
  }

  /** The first n terms of row r of a times column c of b. */
  function Dot(a: Matrix, b: Matrix, r: nat, c: nat, n: nat): real
    requires a.Valid() && b.Valid() && r < a.rows && c < b.cols && n <= a.cols && n <= b.rows
  {
    if n == 0 then 0.0 else Dot(a, b, r, c, n - 1) + a.At(r, n - 1) * b.At(n - 1, c)
  }

  ghost function Mix(alpha: real, beta: real, product: real, c: real): real { alpha * product + beta * c }

  /** A call C = alpha * A * B + beta * C. */
  datatype Call = Call(alpha: real, a: Matrix, b: Matrix, beta: real) {
    ghost predicate Fits(c: seq<real>) {
      a.Valid() && b.Valid() && a.cols == b.rows && |c| == a.rows * b.cols
    }

    ghost function Blend(product: real, c: real): real { Mix(alpha, beta, product, c) }

    /** What element (i, j) of C should become. */
    ghost function Want(c: seq<real>, i: nat, j: nat): real
      requires Fits(c) && i < a.rows && j < b.cols
    {
      Blend(Dot(a, b, i, j, a.cols), c[Index(a.rows, b.cols, i, j)])
    }

    /** c' is the result of the call on c, element by element. */
    ghost predicate IsGemm(c: seq<real>, c': seq<real>)
      requires Fits(c)
    {
      && |c'| == |c|
      && forall i, j :: 0 <= i < a.rows && 0 <= j < b.cols ==>
           c'[Index(a.rows, b.cols, i, j)] == alpha * Dot(a, b, i, j, a.cols) + beta * c[Index(a.rows, b.cols, i, j)]
    }
  }

  /** So all kernels that meet the specification give the same array. */
  lemma GemmUnique(call: Call, c: seq<real>, d: seq<real>, e: seq<real>)
    requires call.Fits(c) && call.IsGemm(c, d) && call.IsGemm(c, e)
    ensures d == e
  {
    forall k | 0 <= k < |c|
      ensures d[k] == e[k]
    {
      var i, j := IndexSurjective(call.a.rows, call.b.cols, k);
    }
  }

  // ---- order of execution ----

  /** order lists each of 0, ..., n - 1 once: the threads of a phase run in this order. */
  ghost predicate Schedule(order: seq<nat>, n: nat) {
    && (forall t :: 0 <= t < n ==> t in order)
    && (forall k :: 0 <= k < |order| ==> order[k] < n)
    && (forall k, l :: 0 <= k < l < |order| ==> order[k] != order[l])
  }

  /** The same for the blocks of a grid. */
  ghost predicate GridSchedule(order: seq<(nat, nat)>, rows: nat, cols: nat) {
    && (forall r, c :: 0 <= r < rows && 0 <= c < cols ==> (r, c) in order)
    && (forall k :: 0 <= k < |order| ==> order[k].0 < rows && order[k].1 < cols)
    && (forall k, l :: 0 <= k < l < |order| ==> order[k] != order[l])
  }

  lemma TakeOne<T>(order: seq<T>, k: nat, t: T)
    requires k < |order|
    ensures t in order[..k + 1] <==> t in order[..k] || t == order[k]
  {
    assert order[..k + 1] == order[..k] + [order[k]];
  }

  lemma NotYet<T>(order: seq<T>, k: nat)
    requires k < |order| && forall i, j :: 0 <= i < j < |order| ==> order[i] != order[j]
    ensures order[k] !in order[..k]
  {}

  // ---- the reference kernel ----

  method NaiveElement(call: Call, x: nat, y: nat, old': real) returns (r: real)
    requires call.a.Valid() && call.b.Valid() && call.a.cols == call.b.rows && x < call.a.rows && y < call.b.cols
    ensures r == Mix(call.alpha, call.beta, Dot(call.a, call.b, x, y, call.a.cols), old')
  {
    var tmp := 0.0;
    for i := 0 to call.a.cols
      invariant tmp == Dot(call.a, call.b, x, y, i)
    {
      tmp := tmp + call.a.At(x, i) * call.b.At(i, y);
    }
    r := call.alpha * tmp + call.beta * old';
  }

  /** One thread of the naive kernel. */
  method NaiveThread(call: Call, c: array<real>, x: nat, y: nat)
    requires call.Fits(c[..])
    modifies c
    ensures call.Fits(c[..]) && Written(call, old(c[..]), c[..], Only(x, y))
  {
    hide Dot, Mix;
    if x < call.a.rows && y < call.b.cols {
      var at := Index(call.a.rows, call.b.cols, x, y);
      c[at] := NaiveElement(call, x, y, c[at]);
      forall i, j | 0 <= i < call.a.rows && 0 <= j < call.b.cols && Index(call.a.rows, call.b.cols, i, j) == at
        ensures i == x && j == y
      {
        IndexInjective(call.b.cols, i, j, x, y);
      }
    }
  }

  /** Some elements of C have their result and the others their old value. */
  ghost predicate Written(call: Call, c0: seq<real>, c: seq<real>, done: (nat, nat) -> bool)
    requires call.Fits(c0)
  {
    && |c| == |c0|
    && forall i, j :: 0 <= i < call.a.rows && 0 <= j < call.b.cols ==>
         var at := Index(call.a.rows, call.b.cols, i, j);
         c[at] == if done(i, j) then call.Want(c0, i, j) else c0[at]
  }

  /** Two rounds of writes that meet no element twice. */
  lemma WrittenThen(call: Call, c0: seq<real>, c1: seq<real>, c2: seq<real>,
                    d: (nat, nat) -> bool, e: (nat, nat) -> bool, f: (nat, nat) -> bool)
    requires call.Fits(c0) && Written(call, c0, c1, d) && Written(call, c1, c2, e)
    requires forall i, j :: 0 <= i < call.a.rows && 0 <= j < call.b.cols ==>
        !(d(i, j) && e(i, j)) && f(i, j) == (d(i, j) || e(i, j))
    ensures Written(call, c0, c2, f)
  {
    hide Dot, Call.Blend;
  }

  lemma WrittenSame(call: Call, c0: seq<real>, c: seq<real>, d: (nat, nat) -> bool, f: (nat, nat) -> bool)
    requires call.Fits(c0) && Written(call, c0, c, d)
    requires forall i, j :: 0 <= i < call.a.rows && 0 <= j < call.b.cols ==> f(i, j) == d(i, j)
    ensures Written(call, c0, c, f)
  {
    hide Dot, Call.Blend;
  }

  lemma NothingWritten(call: Call, c: seq<real>, d: (nat, nat) -> bool)
    requires call.Fits(c) && forall i, j :: 0 <= i < call.a.rows && 0 <= j < call.b.cols ==> !d(i, j)
    ensures Written(call, c, c, d)
  {}

  lemma AllWritten(call: Call, c0: seq<real>, c: seq<real>, d: (nat, nat) -> bool)
    requires call.Fits(c0) && Written(call, c0, c, d)
    requires forall i, j :: 0 <= i < call.a.rows && 0 <= j < call.b.cols ==> d(i, j)
    ensures call.IsGemm(c0, c)
  {
    hide Dot;
  }

  /** n neighbours in row r, from column q on. */
  function Strip(r: nat, q: nat, n: nat): (nat, nat) -> bool { (i, j) => i == r && q <= j < q + n }

  lemma InStrip(rows: nat, cols: nat, r: nat, q: nat, n: nat, i: nat, j: nat)
    requires r < rows && q + n <= cols && i < rows && j < cols
    ensures r * cols + q <= Index(rows, cols, i, j) < r * cols + q + n <==> Strip(r, q, n)(i, j)
  {
    var at := Index(rows, cols, i, j);
    if r * cols + q <= at < r * cols + q + n {
      IndexInjective(cols, i, j, r, at - r * cols);
    }
  }

  /** The offsets of a strip are those of its elements. */
  lemma StripWritten(call: Call, c: seq<real>, c': seq<real>, x: seq<real>, r: nat, q: nat, at: nat)
    requires call.Fits(c) && |c'| == |c| && r < call.a.rows && q + |x| <= call.b.cols
    requires forall e :: 0 <= e < |x| ==> x[e] == Dot(call.a, call.b, r, q + e, call.a.cols)
    requires at == r * call.b.cols + q
    requires forall k :: 0 <= k < |c| ==>
               c'[k] == if at <= k < at + |x| then Mix(call.alpha, call.beta, x[k - at], c[k]) else c[k]
    ensures Written(call, c, c', Strip(r, q, |x|))
  {
    hide Dot, Mix;
    forall i, j | 0 <= i < call.a.rows && 0 <= j < call.b.cols
      ensures var k := Index(call.a.rows, call.b.cols, i, j);
              c'[k] == if Strip(r, q, |x|)(i, j) then call.Want(c, i, j) else c[k]
    {
      InStrip(call.a.rows, call.b.cols, r, q, |x|, i, j);
      if Strip(r, q, |x|)(i, j) {
        assert x[j - q] == Dot(call.a, call.b, i, j, call.a.cols);
      }
    }
  }

  /** The pointer arithmetic of an epilogue: element (r, q) of a tile that starts at (row0, col0). */
  function Offset(cols: nat, row0: nat, col0: nat, r: nat, q: nat): nat { row0 * cols + col0 + (r * cols + q) }

  lemma StripAt(rows: nat, cols: nat, row0: nat, col0: nat, r: nat, q: nat, n: nat)
    requires row0 + r < rows && col0 + q + n <= cols && n > 0
    ensures Offset(cols, row0, col0, r, q) == (row0 + r) * cols + (col0 + q)
    ensures Offset(cols, row0, col0, r, q) + n <= rows * cols
  {
    assert (row0 + r) * cols == row0 * cols + r * cols;
    assert Index(rows, cols, row0 + r, col0 + q + n - 1) == (row0 + r) * cols + (col0 + q + n - 1);
  }

  lemma MixZero(alpha: real)
    ensures forall y, z :: Mix(alpha, 0.0, y, z) == alpha * y
  {}

  function Only(x: nat, y: nat): (nat, nat) -> bool { (i, j) => i == x && j == y }

  function Among(order: seq<(nat, nat)>): (nat, nat) -> bool { (i, j) => (i, j) in order }

  /** The naive kernel over any launch order of threads that covers C once; threads outside C do nothing. */
  method NaiveGemm(call: Call, c: array<real>, order: seq<(nat, nat)>, rows: nat, cols: nat)
    requires call.Fits(c[..]) && call.a.rows <= rows && call.b.cols <= cols && GridSchedule(order, rows, cols)
    modifies c
    ensures call.IsGemm(old(c[..]), c[..])
  {
    hide Written, Call.Want;
    ghost var c0 := c[..];
    NothingWritten(call, c0, Among([]));
    assert order[..0] == [];
    for k := 0 to |order|
      invariant |c[..]| == |c0| && Written(call, c0, c[..], Among(order[..k]))
    {
      var (x, y) := order[k];
      ghost var c1 := c[..];
      NaiveThread(call, c, x, y);
      NotYet(order, k);
      forall i, j
        ensures Among(order[..k + 1])(i, j) == (Among(order[..k])(i, j) || Only(x, y)(i, j))
      {
        TakeOne(order, k, (i, j));
      }
      WrittenThen(call, c0, c1, c[..], Among(order[..k]), Only(x, y), Among(order[..k + 1]));
    }
    assert order[..|order|] == order;
    AllWritten(call, c0, c[..], Among(order));
  }
}
