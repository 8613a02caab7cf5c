/** The tensor-product cross join of quadrature rules, modelled on
    chaospy/quadrature/combine.py: `combine` and `combine_quadrature`. */
module Combine {
  import opened Outcomes
  import opened Numeric

  /** One entry of combine's argument list: a 1-D array, or a 2-D array. */
  datatype Arg<T> = Vector(values: seq<T>) | Array2(rows: Matrix<T>)

  /** numpy.asarray holds a 2-D argument only when all its rows have one length. */
  predicate Shaped<T>(arg: Arg<T>)
  {
    arg.Array2? && |arg.rows| > 0 ==> Rectangular(arg.rows, |arg.rows[0]|)
  }

  /** A matrix that `reshape(len(arg), -1)` accepts: at least one row
      (numpy cannot infer the -1 when the known dimension is 0); the rows
      may be empty. */
  predicate Proper<T>(m: Matrix<T>)
  {
    |m| > 0 && Rectangular(m, |m[0]|)
  }

  predicate AllProper<T>(ms: seq<Matrix<T>>)
  {
    forall k :: 0 <= k < |ms| ==> |ms[k]| > 0 && Rectangular(ms[k], |ms[k][0]|)
  }

  /** Some argument has no columns: the loop's `reshape(-1, out.shape[1])`
      or `reshape(arg.shape[1], -1)` then has a known dimension of 0. */
  predicate Columnless<T>(ms: seq<Matrix<T>>)
  {
    exists k :: 0 <= k < |ms| && |ms[k]| > 0 && |ms[k][0]| == 0
  }

  /** Every matrix is a single column. */
  predicate Columnar<T>(ms: seq<Matrix<T>>)
  {
    forall k, i :: 0 <= k < |ms| && 0 <= i < |ms[k]| ==> |ms[k][i]| == 1
  }

  /** `numpy.asarray(arg).reshape(len(arg), -1)`: a 1-D argument becomes a
      column, each element a row of width 1; a 2-D argument is kept. */
  function Reshaped<T>(arg: Arg<T>): (m: Matrix<T>)
    requires Shaped(arg)
    ensures arg.Vector? ==> |m| == |arg.values| && Rectangular(m, 1)
    ensures arg.Vector? ==> forall i :: 0 <= i < |m| ==> m[i] == [arg.values[i]]
    ensures arg.Array2? ==> m == arg.rows
    ensures Proper(m) <==> |m| > 0
  {
    match arg
    case Vector(v) => seq(|v|, i requires 0 <= i < |v| => [v[i]])
    case Array2(rows) => rows
  }

  /** The row counts N[i] of the reshaped arguments, or the element
      counts of 1-D arrays. */
  function Lengths<T>(ms: seq<seq<T>>): (ns: seq<int>)
    ensures |ns| == |ms| && forall k :: 0 <= k < |ms| ==> ns[k] == |ms[k]|
  {
    seq(|ms|, k requires 0 <= k < |ms| => |ms[k]|)
  }

  /** The column counts M[i] of the reshaped arguments. */
  function Widths<T>(ms: seq<Matrix<T>>): (ws: seq<int>)
    requires forall k :: 0 <= k < |ms| ==> |ms[k]| > 0
    ensures |ws| == |ms| && forall k :: 0 <= k < |ms| ==> ws[k] == |ms[k][0]|
  {
    seq(|ms|, k requires 0 <= k < |ms| => |ms[k][0]|)
  }

  /** `numpy.tile(out, n).reshape(-1, out.shape[1])`: every row of `m`,
      repeated `n` times in a row. */
  function RepeatRows<T>(m: Matrix<T>, n: nat): (r: Matrix<T>)
    ensures |r| == |m| * n
    ensures forall k :: 0 <= k < |r| ==> r[k] in m
  {
    if |m| == 0 then []
    else
      var rest := RepeatRows(m[1..], n);
      assert |m| * n == n + (|m| - 1) * n;
      seq(n, _ => m[0]) + rest
  }

  /** `numpy.tile(arg.T, n).reshape(arg.shape[1], -1).T`: the rows of `m`,
      the whole block repeated `n` times. */
  function TileRows<T>(m: Matrix<T>, n: nat): (r: Matrix<T>)
    ensures |r| == n * |m|
    ensures forall k :: 0 <= k < |r| ==> r[k] in m
  {
    if n == 0 then []
    else
      var rest := TileRows(m, n - 1);
      assert n * |m| == (n - 1) * |m| + |m|;
      rest + m
  }

  /** `numpy.hstack` of two matrices with the same number of rows. */
  function HStack<T>(a: Matrix<T>, b: Matrix<T>): (r: Matrix<T>)
    requires |a| == |b|
  {
    seq(|a|, k requires 0 <= k < |a| => a[k] + b[k])
  }

  /** One iteration of combine's loop: the next value of `out`. */
  function Step<T>(out: Matrix<T>, arg: Matrix<T>): (r: Matrix<T>)
    ensures |r| == |out| * |arg|
  {
    HStack(RepeatRows(out, |arg|), TileRows(arg, |out|))
  }

  lemma {:induction false} RepeatRowsAt<T>(m: Matrix<T>, n: nat, i: int, j: int)
    requires 0 <= i < |m| && 0 <= j < n
    ensures 0 <= i * n + j < |RepeatRows(m, n)| && RepeatRows(m, n)[i * n + j] == m[i]
  {
    MulIndexBound(i, j, |m|, n);
    if i > 0 {
      RepeatRowsAt(m[1..], n, i - 1, j);
      assert i * n + j == n + ((i - 1) * n + j);
    }
  }

  lemma {:induction false} TileRowsAt<T>(m: Matrix<T>, n: nat, i: int, j: int)
    requires 0 <= i < n && 0 <= j < |m|
    ensures 0 <= i * |m| + j < |TileRows(m, n)| && TileRows(m, n)[i * |m| + j] == m[j]
  {
    MulIndexBound(i, j, n, |m|);
    if i < n - 1 {
      TileRowsAt(m, n - 1, i, j);
    } else {
      assert |TileRows(m, n - 1)| == i * |m|;
    }
  }

  /** Row `i * len(arg) + j` of one step is `out[i]` followed by `arg[j]`:
      the accumulated rows are the outer loop. */
  lemma StepAt<T>(out: Matrix<T>, arg: Matrix<T>, i: int, j: int)
    requires 0 <= i < |out| && 0 <= j < |arg|
    ensures 0 <= i * |arg| + j < |Step(out, arg)|
    ensures Step(out, arg)[i * |arg| + j] == out[i] + arg[j]
  {
    RepeatRowsAt(out, |arg|, i, j);
    TileRowsAt(arg, |out|, i, j);
  }

  /** The value of `out` once the loop has gone over all of `ms[1..]`. */
  function Joined<T>(ms: seq<Matrix<T>>): (r: Matrix<T>)
    requires |ms| > 0
    ensures |r| == Prod(Lengths(ms))
  {
    assert Lengths(ms[..|ms| - 1]) == Lengths(ms)[..|ms| - 1];
    if |ms| == 1 then ms[0]
    else Step(Joined(ms[..|ms| - 1]), ms[|ms| - 1])
  }

  /** The loop's value after `k` arguments: the first, then one Step per
      further argument. */
  lemma JoinedPrefix<T>(ms: seq<Matrix<T>>, k: int)
    requires 0 < k <= |ms|
    ensures k == 1 ==> Joined(ms[..k]) == ms[0]
    ensures k > 1 ==> Joined(ms[..k]) == Step(Joined(ms[..k - 1]), ms[k - 1])
  {
    assert ms[..k][..k - 1] == ms[..k - 1];
  }

  /** Every combined row has `sum(M)` columns. */
  lemma {:induction false} JoinedWidth<T>(ms: seq<Matrix<T>>)
    requires |ms| > 0 && AllProper(ms)
    ensures Rectangular(Joined(ms), Sum(Widths(ms)))
  {
    if |ms| > 1 {
      var front, last := ms[..|ms| - 1], ms[|ms| - 1];
      JoinedWidth(front);
      assert Widths(front) == Widths(ms)[..|ms| - 1];
      var left := Joined(front);
      var r := Joined(ms);
      forall k | 0 <= k < |r|
        ensures |r[k]| == Sum(Widths(ms))
      {
        var a := RepeatRows(left, |last|)[k];
        var b := TileRows(last, |left|)[k];
        assert r[k] == a + b;
        assert a in left;
        assert b in last;
      }
    }
  }

  /** The row index of the index tuple `ix` (one row index per argument),
      with the first argument as the most significant digit. */
  function Flat(ns: seq<int>, ix: seq<int>): int
    requires |ix| == |ns| > 0
  {
    if |ns| == 1 then ix[0]
    else Flat(ns[..|ns| - 1], ix[..|ix| - 1]) * ns[|ns| - 1] + ix[|ix| - 1]
  }

  predicate InRange(ns: seq<int>, ix: seq<int>)
  {
    |ix| == |ns| && forall k :: 0 <= k < |ns| ==> 0 <= ix[k] < ns[k]
  }

  /** The index tuple of row `k`: the inverse of Flat. */
  function Digits(ns: seq<int>, k: int): (ix: seq<int>)
    requires |ns| > 0 && AllPositive(ns) && 0 <= k < Prod(ns)
    ensures InRange(ns, ix) && Flat(ns, ix) == k
  {
    assert ns[..0] == [];
    assert |ns| == 1 ==> Prod(ns) == ns[0];
    if |ns| == 1 then [k]
    else
      var front, last := ns[..|ns| - 1], ns[|ns| - 1];
      DivBound(k, Prod(front), last);
      var ix := Digits(front, k / last) + [k % last];
      assert ix[..|ix| - 1] == Digits(front, k / last);
      ix
  }

  /** The combined row for the index tuple `ix`: row `ix[k]` of every
      `ms[k]`, joined left to right. */
  function Concat<T>(ms: seq<Matrix<T>>, ix: seq<int>): seq<T>
    requires |ms| > 0 && InRange(Lengths(ms), ix)
  {
    if |ms| == 1 then ms[0][ix[0]]
    else Concat(ms[..|ms| - 1], ix[..|ix| - 1]) + ms[|ms| - 1][ix[|ix| - 1]]
  }

  /** Flat, Concat and Joined peel off the last argument alike. */
  lemma FlatSnoc<T>(ms: seq<Matrix<T>>, ix: seq<int>)
    requires |ms| > 1 && InRange(Lengths(ms), ix)
    ensures var front, ix' := ms[..|ms| - 1], ix[..|ix| - 1];
      && InRange(Lengths(front), ix')
      && Flat(Lengths(ms), ix) == Flat(Lengths(front), ix') * |ms[|ms| - 1]| + ix[|ix| - 1]
      && Concat(ms, ix) == Concat(front, ix') + ms[|ms| - 1][ix[|ix| - 1]]
      && Joined(ms) == Step(Joined(front), ms[|ms| - 1])
  {
    assert Lengths(ms[..|ms| - 1]) == Lengths(ms)[..|ms| - 1];
  }

  /** The row at position Flat(N, ix) of the cross join joins row ix[k] of
      every argument, in argument order. */
  lemma {:induction false} JoinedAt<T>(ms: seq<Matrix<T>>, ix: seq<int>)
    requires |ms| > 0 && InRange(Lengths(ms), ix)
    ensures 0 <= Flat(Lengths(ms), ix) < |Joined(ms)|
    ensures Joined(ms)[Flat(Lengths(ms), ix)] == Concat(ms, ix)
  {
    if |ms| > 1 {
      var front, last := ms[..|ms| - 1], ms[|ms| - 1];
      var ix' := ix[..|ix| - 1];
      FlatSnoc(ms, ix);
      JoinedAt(front, ix');
      StepAt(Joined(front), last, Flat(Lengths(front), ix'), ix[|ix| - 1]);
    }
  }

  /** Every row `k` of the cross join is the join of the argument rows
      named by the digits of `k`. */
  lemma JoinedRow<T>(ms: seq<Matrix<T>>, k: int)
    requires |ms| > 0 && (forall i :: 0 <= i < |ms| ==> |ms[i]| > 0) && 0 <= k < |Joined(ms)|
    ensures AllPositive(Lengths(ms)) && InRange(Lengths(ms), Digits(Lengths(ms), k))
    ensures Joined(ms)[k] == Concat(ms, Digits(Lengths(ms), k))
  {
    JoinedAt(ms, Digits(Lengths(ms), k));
  }

  /** Joining rows of width 1 gives one entry per argument. */
  lemma {:induction false} ConcatColumns<T>(ms: seq<Matrix<T>>, ix: seq<int>)
    requires |ms| > 0 && InRange(Lengths(ms), ix)
    requires Columnar(ms)
    ensures |Concat(ms, ix)| == |ms|
    ensures forall e :: 0 <= e < |ms| ==> Concat(ms, ix)[e] == ms[e][ix[e]][0]
  {
    if |ms| > 1 {
      var front := ms[..|ms| - 1];
      assert Lengths(front) == Lengths(ms)[..|ms| - 1];
      ConcatColumns(front, ix[..|ix| - 1]);
    }
  }

  /** combine's size ceiling, 10**9. */
  const MaxSize := 1_000_000_000

  /** `prod(N) * sum(M)`, the size combine refuses above the ceiling. */
  function Size<T>(ms: seq<Matrix<T>>): int
    requires forall k :: 0 <= k < |ms| ==> |ms[k]| > 0
  {
    Prod(Lengths(ms)) * Sum(Widths(ms))
  }

  function Normalized<T>(args: seq<Arg<T>>): (ms: seq<Matrix<T>>)
    requires forall k :: 0 <= k < |args| ==> Shaped(args[k])
    ensures |ms| == |args| && forall k :: 0 <= k < |args| ==> ms[k] == Reshaped(args[k])
  {
    seq(|args|, k requires 0 <= k < |args| => Reshaped(args[k]))
  }

  /** What `combine(args)` returns or raises: the reshapes come first, then
      the size check, then the loop, whose reshapes fail on an argument
      without columns. */
  function CrossJoin<T>(args: seq<Arg<T>>): (r: Result<Matrix<T>>)
    requires forall k :: 0 <= k < |args| ==> Shaped(args[k])
    ensures r.Ok? ==> var ms := Normalized(args);
      && |ms| > 0 && AllProper(ms)
      && |r.value| == Prod(Lengths(ms)) && Rectangular(r.value, Sum(Widths(ms)))
    ensures r.Ok? && |args| > 1 ==> !Columnless(Normalized(args))
  {
    var ms := Normalized(args);
    if !AllProper(ms) then Err(ValueError)
    else if |ms| == 0 then Err(IndexError)
    else if Size(ms) > MaxSize then Err(MemoryError)
    else if |ms| > 1 && Columnless(ms) then Err(ValueError)
    else
      JoinedWidth(ms);
      Ok(Joined(ms))
  }

  /** The loop of `combine`: `out` starts as the first reshaped argument and
      is replaced, argument by argument, by the hstack of its repeated rows
      and the tiled argument. */
  method Combine<T>(args: seq<Arg<T>>) returns (r: Result<Matrix<T>>)
    requires forall k :: 0 <= k < |args| ==> Shaped(args[k])
    ensures r == CrossJoin(args)
  {
    var ms := Normalized(args);
    if !AllProper(ms) {
      return Err(ValueError);
    }
    if |ms| == 0 {
      return Err(IndexError);
    }
    if Size(ms) > MaxSize {
      return Err(MemoryError);
    }
    r := JoinAll(ms);
    if r.Ok? {
      CrossJoinOk(args);
    }
  }

  /** The loop itself: `out` starts as the first argument, and each further
      argument first has both reshapes checked (`out.shape[1]` is `width`),
      then replaces `out` by one Step. */
  method JoinAll<T>(ms: seq<Matrix<T>>) returns (r: Result<Matrix<T>>)
    requires |ms| > 0 && AllProper(ms)
    ensures r == if |ms| > 1 && Columnless(ms) then Err(ValueError) else Ok(Joined(ms))
  {
    var out, width := ms[0], |ms[0][0]|;
    JoinedPrefix(ms, 1);
    for k := 1 to |ms|
      invariant out == Joined(ms[..k])
      invariant k == 1 ==> width == |ms[0][0]|
      invariant k > 1 ==> width > 0 && Wide(ms, k)
    {
      if width == 0 || |ms[k][0]| == 0 {
        ColumnlessAt(ms, if width == 0 then 0 else k);
        return Err(ValueError);
      }
      out, width := Advance(ms, k, out, width);
    }
    assert ms[..|ms|] == ms;
    if |ms| > 1 {
      NotColumnless(ms);
    }
    return Ok(out);
  }

  /** One iteration once both reshapes are known to succeed: `out` takes
      one more Step and gains the argument's columns. */
  method Advance<T>(ms: seq<Matrix<T>>, k: int, out: Matrix<T>, width: int) returns (out': Matrix<T>, width': int)
    requires 0 < k < |ms| && AllProper(ms) && out == Joined(ms[..k])
    requires width > 0 && |ms[k][0]| > 0 && Wide(ms, k)
    ensures out' == Joined(ms[..k + 1]) && width' > 0 && Wide(ms, k + 1)
  {
    JoinedPrefix(ms, k + 1);
    out', width' := Step(out, ms[k]), width + |ms[k][0]|;
  }

  /** The first `k` arguments all have columns. */
  predicate Wide<T>(ms: seq<Matrix<T>>, k: int)
    requires 0 <= k <= |ms| && AllProper(ms)
  {
    forall j :: 0 <= j < k ==> |ms[j][0]| > 0
  }

  /** An argument without columns is a witness of Columnless. */
  lemma ColumnlessAt<T>(ms: seq<Matrix<T>>, k: int)
    requires 0 <= k < |ms| && |ms[k]| > 0 && |ms[k][0]| == 0
    ensures Columnless(ms)
  {
  }

  /** Arguments that all have columns are not Columnless. */
  lemma NotColumnless<T>(ms: seq<Matrix<T>>)
    requires forall j :: 0 <= j < |ms| && |ms[j]| > 0 ==> |ms[j][0]| > 0
    ensures !Columnless(ms)
  {
  }

  /** When no check fails, combine returns the folded steps. */
  lemma CrossJoinOk<T>(args: seq<Arg<T>>)
    requires forall k :: 0 <= k < |args| ==> Shaped(args[k])
    requires var ms := Normalized(args); |ms| > 0 && AllProper(ms) && Size(ms) <= MaxSize
    requires |args| > 1 ==> !Columnless(Normalized(args))
    ensures CrossJoin(args) == Ok(Joined(Normalized(args)))
  {
  }

  /** The docstring example: `combine([[1, 2], [[4, 4], [5, 6]]])`. */
  lemma CombineExample()
    ensures CrossJoin([Vector([1, 2]), Array2([[4, 4], [5, 6]])])
         == Ok([[1, 4, 4], [1, 5, 6], [2, 4, 4], [2, 5, 6]])
  {
    var args := [Vector([1, 2]), Array2([[4, 4], [5, 6]])];
    var a, b := [[1], [2]], [[4, 4], [5, 6]];
    ExampleArgs();
    assert Size([a, b]) == 12 by {
      ExampleSize(a, b);
    }
    CrossJoinOk(args);
    assert [a, b][..1] == [a];
    assert Joined([a, b]) == Step(a, b);
    ExampleStep(a, b);
  }

  lemma ExampleArgs()
    ensures Normalized([Vector([1, 2]), Array2([[4, 4], [5, 6]])]) == [[[1], [2]], [[4, 4], [5, 6]]]
  {
    var args := [Vector([1, 2]), Array2([[4, 4], [5, 6]])];
    assert Reshaped(args[0]) == [[1], [2]];
  }

  lemma ExampleSize(a: Matrix<int>, b: Matrix<int>)
    requires a == [[1], [2]] && b == [[4, 4], [5, 6]]
    ensures Size([a, b]) == 12
  {
    assert Lengths([a, b]) == [2, 2] && Widths([a, b]) == [1, 2];
    assert [2, 2] == [2] + [2] && [2] == [] + [2];
    assert [1, 2] == [1] + [2] && [1] == [] + [1];
    ProdSnoc([], 2);
    ProdSnoc([2], 2);
    SumSnoc([], 1);
    SumSnoc([1], 2);
  }

  lemma ExampleStep(a: Matrix<int>, b: Matrix<int>)
    requires a == [[1], [2]] && b == [[4, 4], [5, 6]]
    ensures Step(a, b) == [[1, 4, 4], [1, 5, 6], [2, 4, 4], [2, 5, 6]]
  {
    StepAt(a, b, 0, 0);
    StepAt(a, b, 0, 1);
    StepAt(a, b, 1, 0);
    StepAt(a, b, 1, 1);
    assert [1] + [4, 4] == [1, 4, 4] && [1] + [5, 6] == [1, 5, 6];
    assert [2] + [4, 4] == [2, 4, 4] && [2] + [5, 6] == [2, 5, 6];
  }

  /** A lone argument without columns comes back as it is, since the loop
      does not run; next to another argument it makes the loop's reshape
      raise ValueError. */
  lemma ColumnlessExample()
    ensures CrossJoin<int>([Array2([[], []])]) == Ok([[], []])
    ensures CrossJoin([Vector([1]), Array2([[]])]) == Err(ValueError)
  {
    SingleArgument<int>(Array2([[], []]));
    var args := [Vector([1]), Array2([[]])];
    var ms := Normalized(args);
    assert ms[0] == [[1]] && ms[1] == [[]];
    assert Lengths(ms) == [1, 1] && Widths(ms) == [1, 0];
    ExampleSize1(ms);
    ColumnlessAt(ms, 1);
  }

  lemma ExampleSize1(ms: seq<Matrix<int>>)
    requires |ms| == 2 && |ms[0]| > 0 && |ms[1]| > 0
    requires Lengths(ms) == [1, 1] && Widths(ms) == [1, 0]
    ensures Size(ms) == 1
  {
    assert [1, 1] == [1] + [1] && [1] == [] + [1];
    assert [1, 0] == [1] + [0] && [1] == [] + [1];
    ProdSnoc([], 1);
    ProdSnoc([1], 1);
    SumSnoc([], 1);
    SumSnoc([1], 0);
  }

  /** With one argument the loop does not run: the reshaped argument comes
      back unchanged. */
  lemma SingleArgument<T>(arg: Arg<T>)
    requires Shaped(arg) && Proper(Reshaped(arg))
    requires |Reshaped(arg)| * |Reshaped(arg)[0]| <= MaxSize
    ensures CrossJoin([arg]) == Ok(Reshaped(arg))
  {
    var ms := Normalized([arg]);
    assert ms == [Reshaped(arg)];
    assert Lengths(ms) == [|Reshaped(arg)|] && Widths(ms) == [|Reshaped(arg)[0]|];
    ProdSnoc([], |Reshaped(arg)|);
    SumSnoc([], |Reshaped(arg)[0]|);
    assert AllProper(ms);
    assert Size(ms) == |Reshaped(arg)| * |Reshaped(arg)[0]|;
    assert Joined(ms) == Reshaped(arg);
  }

  // ---------------------------------------------------------------------
  // combine_quadrature

  /** A quadrature rule: abscissas of shape (dim, N) and N weights. */
  datatype Rule = Rule(abscissas: Matrix<real>, weights: seq<real>)

  /** The `domain` argument: per-dimension lower and upper ends. */
  datatype Domain = Domain(lower: seq<real>, upper: seq<real>)

  /** The 1-D abscissa or weight arrays, one per dimension. */
  function Columns(vs: seq<seq<real>>): (args: seq<Arg<real>>)
    ensures |args| == |vs|
    ensures forall k :: 0 <= k < |vs| ==> args[k] == Vector(vs[k]) && Shaped(args[k])
  {
    seq(|vs|, k requires 0 <= k < |vs| => Vector(vs[k]))
  }

  /** Abscissas and weights come in pairs, one pair per dimension. */
  predicate Paired(xs: seq<seq<real>>, ws: seq<seq<real>>)
  {
    |xs| == |ws| && forall k :: 0 <= k < |xs| ==> |xs[k]| == |ws[k]|
  }

  predicate DomainFits(domain: Option<Domain>, dim: int)
  {
    domain.Some? ==> |domain.value.lower| == dim && |domain.value.upper| == dim
  }

  /** Where abscissa `a` of dimension `c` lands: `(hi - lo) * a + lo` with a
      domain, `a` itself without. */
  function Place(domain: Option<Domain>, c: int, a: real): real
    requires domain.Some? ==> 0 <= c < |domain.value.lower| && c < |domain.value.upper|
  {
    match domain
    case None => a
    case Some(dom) => (dom.upper[c] - dom.lower[c]) * a + dom.lower[c]
  }

  /** The weight factor of dimension `c`: `w * (hi - lo)` with a domain. */
  function Factor(domain: Option<Domain>, c: int, w: real): real
    requires domain.Some? ==> 0 <= c < |domain.value.lower| && c < |domain.value.upper|
  {
    match domain
    case None => w
    case Some(dom) => w * (dom.upper[c] - dom.lower[c])
  }

  /** Applies `Place` to every column of a combined abscissa matrix. */
  function PlaceAll(domain: Option<Domain>, m: Matrix<real>, dim: nat): (r: Matrix<real>)
    requires Rectangular(m, dim) && DomainFits(domain, dim)
    ensures |r| == |m| && Rectangular(r, dim)
    ensures forall k, c :: 0 <= k < |m| && 0 <= c < dim ==> r[k][c] == Place(domain, c, m[k][c])
  {
    seq(|m|, k requires 0 <= k < |m| =>
      seq(dim, c requires 0 <= c < dim => Place(domain, c, m[k][c])))
  }

  /** Applies `Factor` to every column of a combined weight matrix. */
  function FactorAll(domain: Option<Domain>, m: Matrix<real>, dim: nat): (r: Matrix<real>)
    requires Rectangular(m, dim) && DomainFits(domain, dim)
    ensures |r| == |m| && Rectangular(r, dim)
    ensures forall k, c :: 0 <= k < |m| && 0 <= c < dim ==> r[k][c] == Factor(domain, c, m[k][c])
  {
    seq(|m|, k requires 0 <= k < |m| =>
      seq(dim, c requires 0 <= c < dim => Factor(domain, c, m[k][c])))
  }

  /** Without a domain the abscissas and weights are left as they are. */
  lemma NoDomain(m: Matrix<real>, dim: nat)
    requires Rectangular(m, dim)
    ensures PlaceAll(None, m, dim) == m && FactorAll(None, m, dim) == m
  {
    var p, f := PlaceAll(None, m, dim), FactorAll(None, m, dim);
    forall k | 0 <= k < |m| ensures p[k] == m[k] && f[k] == m[k] {
      assert p[k] == m[k];
    }
  }

  /** `m.T` for a matrix with `width` columns. */
  function Transpose<T>(m: Matrix<T>, width: int): (r: Matrix<T>)
    requires width >= 0 && Rectangular(m, width)
    ensures |r| == width && Rectangular(r, |m|)
    ensures forall c, k :: 0 <= c < width && 0 <= k < |m| ==> r[c][k] == m[k][c]
  {
    seq(width, c requires 0 <= c < width => seq(|m|, k requires 0 <= k < |m| => m[k][c]))
  }

  /** `numpy.prod(m, -1)`: the product of every row. */
  function RowProducts(m: Matrix<real>): (r: seq<real>)
    ensures |r| == |m| && forall k :: 0 <= k < |m| ==> r[k] == RealProd(m[k])
  {
    seq(|m|, k requires 0 <= k < |m| => RealProd(m[k]))
  }

  lemma {:induction false} SumOfOnes(s: seq<int>)
    requires forall i :: 0 <= i < |s| ==> s[i] == 1
    ensures Sum(s) == |s|
  {
    if |s| > 0 {
      SumOfOnes(s[..|s| - 1]);
    }
  }

  lemma ColumnsShape(vs: seq<seq<real>>)
    ensures var ms := Normalized(Columns(vs));
      && Lengths(ms) == Lengths(vs)
      && Columnar(ms)
      && (AllProper(ms) <==> forall k :: 0 <= k < |vs| ==> |vs[k]| > 0)
      && (AllProper(ms) ==> Sum(Widths(ms)) == |vs|)
  {
    var ms := Normalized(Columns(vs));
    if AllProper(ms) {
      SumOfOnes(Widths(ms));
    }
  }

  /** What combine raises on 1-D arguments with `ns` elements each, if
      anything: an empty argument cannot be reshaped, an empty list has no
      first shape, and `prod(N) * len(N)` is the size it compares with 10**9. */
  function ColumnsError(ns: seq<int>): Option<Exception>
  {
    if exists k :: 0 <= k < |ns| && ns[k] == 0 then Some(ValueError)
    else if |ns| == 0 then Some(IndexError)
    else if Prod(ns) * |ns| > MaxSize then Some(MemoryError)
    else None
  }

  /** combine on 1-D arguments fails exactly as ColumnsError says, and
      otherwise returns the joined columns. */
  lemma CrossJoinColumns(vs: seq<seq<real>>)
    ensures var r := CrossJoin(Columns(vs));
      && (r.Err? <==> ColumnsError(Lengths(vs)).Some?)
      && (r.Err? ==> r.error == ColumnsError(Lengths(vs)).value)
      && (r.Ok? ==> r.value == Joined(Normalized(Columns(vs))))
  {
    ColumnsShape(vs);
    var ms := Normalized(Columns(vs));
    if !AllProper(ms) {
      var k :| 0 <= k < |vs| && |vs[k]| <= 0;
      assert Lengths(vs)[k] == 0;
    }
  }

  lemma PairedSizes(xs: seq<seq<real>>, ws: seq<seq<real>>)
    requires Paired(xs, ws)
    ensures Lengths(xs) == Lengths(ws)
  {
  }

  /** When combine accepts 1-D arguments it returns one row per index tuple
      and one column per argument. */
  lemma JoinedColumns(vs: seq<seq<real>>)
    requires ColumnsError(Lengths(vs)).None?
    ensures CrossJoin(Columns(vs)).Ok?
    ensures |CrossJoin(Columns(vs)).value| == Prod(Lengths(vs))
    ensures Rectangular(CrossJoin(Columns(vs)).value, |vs|)
  {
    CrossJoinColumns(vs);
    ColumnsShape(vs);
  }

  /** What `combine_quadrature(abscissas, weights, domain)` returns or
      raises; the assertions at its end hold whenever it returns. */
  function CombineQuadrature(xs: seq<seq<real>>, ws: seq<seq<real>>, domain: Option<Domain>): (r: Result<Rule>)
    requires Paired(xs, ws) && DomainFits(domain, |xs|)
    ensures r.Ok? ==> |r.value.abscissas| == |xs| && |r.value.weights| == Prod(Lengths(xs))
    ensures r.Ok? ==> Rectangular(r.value.abscissas, |r.value.weights|)
    ensures r.Err? <==> ColumnsError(Lengths(xs)).Some?
    ensures r.Err? ==> r.error == ColumnsError(Lengths(xs)).value
  {
    CrossJoinColumns(xs);
    CrossJoinColumns(ws);
    PairedSizes(xs, ws);
    var dim := |xs|;
    match CrossJoin(Columns(xs))
    case Err(e) => Err(e)
    case Ok(x) =>
      match CrossJoin(Columns(ws))
      case Err(e) => Err(e)
      case Ok(w) =>
        JoinedColumns(xs);
        JoinedColumns(ws);
        var x' := PlaceAll(domain, x, dim);
        var w' := FactorAll(domain, w, dim);
        Ok(Rule(Transpose(x', dim), RowProducts(w')))
  }

  /** When combine accepts the arrays, combine_quadrature places and
      factors the joined abscissa and weight rows. */
  lemma CombineQuadratureOk(xs: seq<seq<real>>, ws: seq<seq<real>>, domain: Option<Domain>)
    requires Paired(xs, ws) && DomainFits(domain, |xs|)
    requires ColumnsError(Lengths(xs)).None?
    ensures var mx, mw := Normalized(Columns(xs)), Normalized(Columns(ws));
      && |mx| > 0 && |mw| > 0 && Rectangular(Joined(mx), |xs|) && Rectangular(Joined(mw), |xs|)
      && CombineQuadrature(xs, ws, domain)
         == Ok(Rule(Transpose(PlaceAll(domain, Joined(mx), |xs|), |xs|),
                    RowProducts(FactorAll(domain, Joined(mw), |xs|))))
  {
    ColumnsShape(xs);
    ColumnsShape(ws);
    CrossJoinColumns(xs);
    CrossJoinColumns(ws);
    assert Lengths(xs) == Lengths(ws);
  }

  /** The per-dimension weight factors of the node with index tuple `ix`. */
  function Factors(domain: Option<Domain>, ws: seq<seq<real>>, ix: seq<int>): (fs: seq<real>)
    requires DomainFits(domain, |ws|) && InRange(Lengths(ws), ix)
    ensures |fs| == |ws| && forall e :: 0 <= e < |ws| ==> fs[e] == Factor(domain, e, ws[e][ix[e]])
  {
    seq(|ws|, e requires 0 <= e < |ws| => Factor(domain, e, ws[e][ix[e]]))
  }

  /** Row `k` of combine on 1-D arrays takes element `ix[e]` of array `e`,
      with `ix` the digits of `k`. */
  lemma JoinedColumnsRow(vs: seq<seq<real>>, k: int)
    requires ColumnsError(Lengths(vs)).None? && 0 <= k < Prod(Lengths(vs))
    ensures |Normalized(Columns(vs))| > 0 && |Joined(Normalized(Columns(vs)))| == Prod(Lengths(vs))
    ensures AllPositive(Lengths(vs)) && InRange(Lengths(vs), Digits(Lengths(vs), k))
    ensures var row, ix := Joined(Normalized(Columns(vs)))[k], Digits(Lengths(vs), k);
      && |row| == |vs| && forall e :: 0 <= e < |vs| ==> row[e] == vs[e][ix[e]]
  {
    ColumnsShape(vs);
    var ns := Lengths(vs);
    assert AllPositive(ns) by {
      forall e | 0 <= e < |ns| ensures ns[e] > 0 {
        assert ns[e] != 0;
      }
    }
    var ms := Normalized(Columns(vs));
    assert Lengths(ms) == ns;
    assert forall e :: 0 <= e < |ms| ==> |ms[e]| > 0;
    JoinedRow(ms, k);
    var ix := Digits(ns, k);
    ConcatColumns(ms, ix);
    forall e | 0 <= e < |vs|
      ensures Joined(ms)[k][e] == vs[e][ix[e]]
    {
      assert ms[e] == Reshaped(Vector(vs[e]));
      assert ms[e][ix[e]] == [vs[e][ix[e]]];
    }
  }

  /** The rule combine_quadrature returns when combine accepts the arrays. */
  function Combined(xs: seq<seq<real>>, ws: seq<seq<real>>, domain: Option<Domain>): (rule: Rule)
    requires Paired(xs, ws) && DomainFits(domain, |xs|) && ColumnsError(Lengths(xs)).None?
    ensures CombineQuadrature(xs, ws, domain) == Ok(rule)
    ensures |rule.abscissas| == |xs| && |rule.weights| == Prod(Lengths(xs))
    ensures Rectangular(rule.abscissas, |rule.weights|)
  {
    CombineQuadratureOk(xs, ws, domain);
    CombineQuadrature(xs, ws, domain).value
  }

  /** Coordinate `e` of node `k` is the placed abscissa `xs[e][ix[e]]`, with
      `ix` the per-dimension indices of `k`. */
  lemma CombinedAbscissa(xs: seq<seq<real>>, ws: seq<seq<real>>, domain: Option<Domain>, k: int, e: int)
    requires Paired(xs, ws) && DomainFits(domain, |xs|) && ColumnsError(Lengths(xs)).None?
    requires 0 <= k < Prod(Lengths(xs)) && 0 <= e < |xs|
    ensures AllPositive(Lengths(xs)) && InRange(Lengths(xs), Digits(Lengths(xs), k))
    ensures Combined(xs, ws, domain).abscissas[e][k] == Place(domain, e, xs[e][Digits(Lengths(xs), k)[e]])
  {
    CombineQuadratureOk(xs, ws, domain);
    JoinedColumnsRow(xs, k);
  }

  /** The weight of node `k` is the product of the per-dimension weight
      factors it picks. */
  lemma CombinedWeight(xs: seq<seq<real>>, ws: seq<seq<real>>, domain: Option<Domain>, k: int)
    requires Paired(xs, ws) && DomainFits(domain, |xs|) && ColumnsError(Lengths(xs)).None?
    requires 0 <= k < Prod(Lengths(xs))
    ensures Lengths(ws) == Lengths(xs) && AllPositive(Lengths(xs)) && InRange(Lengths(xs), Digits(Lengths(xs), k))
    ensures Combined(xs, ws, domain).weights[k] == RealProd(Factors(domain, ws, Digits(Lengths(xs), k)))
  {
    PairedSizes(xs, ws);
    CombineQuadratureOk(xs, ws, domain);
    FactorRow(domain, ws, k);
  }

  /** Row `k` of the combined weight factors holds the factors of the
      digits of `k`. */
  lemma FactorRow(domain: Option<Domain>, ws: seq<seq<real>>, k: int)
    requires DomainFits(domain, |ws|) && ColumnsError(Lengths(ws)).None?
    requires 0 <= k < Prod(Lengths(ws))
    ensures AllPositive(Lengths(ws)) && InRange(Lengths(ws), Digits(Lengths(ws), k))
    ensures |Normalized(Columns(ws))| > 0 && Rectangular(Joined(Normalized(Columns(ws))), |ws|)
    ensures k < |Joined(Normalized(Columns(ws)))|
    ensures FactorAll(domain, Joined(Normalized(Columns(ws))), |ws|)[k]
         == Factors(domain, ws, Digits(Lengths(ws), k))
  {
    JoinedColumnsRow(ws, k);
    JoinedColumns(ws);
    CrossJoinColumns(ws);
    var j := Joined(Normalized(Columns(ws)));
    var w' := FactorAll(domain, j, |ws|);
    var fs := Factors(domain, ws, Digits(Lengths(ws), k));
    forall e | 0 <= e < |ws| ensures w'[k][e] == fs[e] {
      assert w'[k][e] == Factor(domain, e, j[k][e]);
    }
  }
}
