/** The evaluation guards of chaospy/distributions/baseclass.py: the methods
    of `Dist` that reshape their input to one row per dimension, ask the
    distribution's hooks for bounds and values, and mask, clip or multiply
    what comes back (`fwd`, `cdf`, `inv`, `pdf`, `mom`), together with
    `__str__` and `__len__`. */
module Distributions {
  import opened Outcomes
  import opened Numeric
  import opened Text

  /** A numpy array: its shape and its elements in C (row-major) order. */
  datatype NdArray<T> = NdArray(shape: seq<nat>, data: seq<T>)

  predicate Valid<T>(a: NdArray<T>)
  {
    |a.data| == Prod(a.shape)
  }

  /** The hooks of the `evaluation` module, seen through one element: given
      the (len(dist), n) view `m` of the input, element (i, j) of what
      `evaluate_bound` (lower and upper), `evaluate_forward`,
      `evaluate_inverse` and `evaluate_density` return; `moment` is
      `evaluate_moment` of one column of exponents. */
  datatype Hooks = Hooks(
    bound: (Matrix<real>, int, int) -> (real, real),
    forward: (Matrix<real>, int, int) -> real,
    inverse: (Matrix<real>, int, int) -> real,
    density: (Matrix<real>, int, int) -> real,
    moment: seq<int> -> real)

  /** A distribution: its class name, the keyword parameters it was built
      with (a dict, in insertion order, values already turned to text), the
      optional `_repr` override, its hooks, its components when it is a
      joint distribution, and whether `get_dependencies` finds dependencies
      among them. */
  datatype Dist = Dist(
    name: string,
    prm: seq<(string, string)>,
    repr: Option<seq<(string, string)>>,
    hooks: Hooks,
    parts: seq<Dist>,
    dependent: bool)

  /** `len(dist)`: 1 for a plain distribution, the number of components
      for a joint one. */
  function Len(d: Dist): (n: nat)
    ensures n >= 1
    ensures |d.parts| == 0 ==> n == 1
  {
    if |d.parts| == 0 then 1 else |d.parts|
  }

  // ---------------------------------------------------------------------
  // reshape(len(self), -1)

  /** Position `p` of a flat buffer of `size` elements seen as `rows` rows:
      row `p / n`, column `p % n`, with `n = size / rows` columns. */
  lemma Cell(p: int, rows: int, size: int)
    requires rows > 0 && size % rows == 0 && 0 <= p < size
    ensures size / rows > 0 && size == rows * (size / rows)
    ensures 0 <= p / (size / rows) < rows && 0 <= p % (size / rows) < size / rows
    ensures p == (p / (size / rows)) * (size / rows) + p % (size / rows)
  {
    var n := size / rows;
    assert size == n * rows + size % rows;
    assert n > 0;
    DivBound(p, rows, n);
  }

  /** The (rows, -1) view of a flat buffer. */
  function View<T>(data: seq<T>, rows: nat): (m: Matrix<T>)
    requires rows > 0 && |data| % rows == 0
    ensures |m| == rows && Rectangular(m, |data| / rows)
  {
    var n := |data| / rows;
    assert |data| == rows * n by {
      assert |data| == n * rows + |data| % rows;
    }
    seq(rows, i requires 0 <= i < rows =>
      seq(n, j requires 0 <= j < n => MulIndexBound(i, j, rows, n); data[i * n + j]))
  }

  /** Element `p` of the buffer sits at row `p / n`, column `p % n` of the view. */
  lemma ViewAt<T>(data: seq<T>, rows: nat, p: int)
    requires rows > 0 && |data| % rows == 0 && 0 <= p < |data|
    ensures var n := |data| / rows;
      n > 0 && 0 <= p / n < rows && 0 <= p % n < n && View(data, rows)[p / n][p % n] == data[p]
  {
    Cell(p, rows, |data|);
  }

  // ---------------------------------------------------------------------
  // fwd

  /** One element of `fwd` on the view `m`: 1 above the upper bound, the
      forward hook clipped to [0, 1] from the lower bound up, 0 below. */
  function ForwardEntry(h: Hooks, m: Matrix<real>, i: int, j: int): (q: real)
    requires 0 <= i < |m| && 0 <= j < |m[i]|
    ensures 0.0 <= q <= 1.0
  {
    var (lower, upper) := h.bound(m, i, j);
    if m[i][j] > upper then 1.0
    else if m[i][j] >= lower then Clip(h.forward(m, i, j), 0.0, 1.0)
    else 0.0
  }

  /** The elements `fwd` computes, in buffer order. */
  function ForwardData(d: Dist, x: seq<real>): (q: seq<real>)
    requires |x| % Len(d) == 0
    ensures |q| == |x| && forall p :: 0 <= p < |x| ==> 0.0 <= q[p] <= 1.0
  {
    var size, rows := |x|, Len(d);
    var m, n := View(x, rows), size / rows;
    seq(size, p requires 0 <= p < size =>
      Cell(p, rows, size); ForwardEntry(d.hooks, m, p / n, p % n))
  }

  /** What `dist.fwd(x)` returns or raises. */
  function Forward(d: Dist, x: NdArray<real>): (r: Result<NdArray<real>>)
    requires Valid(x)
    ensures r.Err? <==> |x.data| % Len(d) != 0
    ensures r.Err? ==> r.error == ValueError
    ensures r.Ok? ==> r.value.shape == x.shape && |r.value.data| == |x.data| && Valid(r.value)
    ensures r.Ok? ==> forall p :: 0 <= p < |x.data| ==> 0.0 <= r.value.data[p] <= 1.0
  {
    if |x.data| % Len(d) != 0 then Err(ValueError)
    else Ok(NdArray(x.shape, ForwardData(d, x.data)))
  }

  /** Where an element lies above its upper bound `fwd` gives 1; below its
      lower bound, 0; in between, the forward hook clipped to [0, 1]. */
  lemma ForwardAt(d: Dist, x: NdArray<real>, p: int)
    requires Valid(x) && Forward(d, x).Ok? && 0 <= p < |x.data|
    ensures var m, n := View(x.data, Len(d)), |x.data| / Len(d);
      && 0 <= p / n < |m| && 0 <= p % n < |m[p / n]|
      && m[p / n][p % n] == x.data[p]
      && var (lower, upper) := d.hooks.bound(m, p / n, p % n);
         var q := Forward(d, x).value.data[p];
         && (x.data[p] > upper ==> q == 1.0)
         && (x.data[p] < lower && x.data[p] <= upper ==> q == 0.0)
         && (lower <= x.data[p] <= upper ==>
               q == Clip(d.hooks.forward(m, p / n, p % n), 0.0, 1.0))
  {
    ViewAt(x.data, Len(d), p);
  }

  /** The buffer after `fwd`'s first mask: 1 above the upper bound. */
  function AboveMask(d: Dist, x: seq<real>): (q: seq<real>)
    requires |x| % Len(d) == 0
    ensures |q| == |x|
  {
    var size, rows := |x|, Len(d);
    var m, n := View(x, rows), size / rows;
    seq(size, p requires 0 <= p < size =>
      Cell(p, rows, size); if x[p] > d.hooks.bound(m, p / n, p % n).1 then 1.0 else 0.0)
  }

  /** `fwd`: a zero buffer of the input's size, set to 1 where the input
      lies above its upper bound, then set to the clipped forward hook where
      it does not but lies at or above its lower bound. */
  method Fwd(d: Dist, x: NdArray<real>) returns (r: Result<NdArray<real>>)
    requires Valid(x)
    ensures r == Forward(d, x)
  {
    var size, rows := |x.data|, Len(d);
    if size % rows != 0 {
      return Err(ValueError);
    }
    var q := new real[size](_ => 0.0);
    MarkAbove(d, x.data, q);
    SetForward(d, x.data, q);
    return Ok(NdArray(x.shape, q[..]));
  }

  /** `q[x > upper] = 1` on a zero buffer. */
  method MarkAbove(d: Dist, x: seq<real>, q: array<real>)
    requires |x| % Len(d) == 0 && q.Length == |x|
    requires forall t :: 0 <= t < q.Length ==> q[t] == 0.0
    modifies q
    ensures q[..] == AboveMask(d, x)
  {
    var size, rows := |x|, Len(d);
    var m, n := View(x, rows), size / rows;
    ghost var above := AboveMask(d, x);
    for p := 0 to size
      invariant forall t :: 0 <= t < p ==> q[t] == above[t]
      invariant forall t :: p <= t < size ==> q[t] == 0.0
    {
      Cell(p, rows, size);
      var (lower, upper) := d.hooks.bound(m, p / n, p % n);
      assert above[p] == if x[p] > upper then 1.0 else 0.0;
      if x[p] > upper {
        q[p] := 1.0;
      }
    }
    assert q[..] == above;
  }

  /** `q[indices] = clip(forward, 0, 1)` where `x` is not above its upper
      bound and at or above its lower bound. */
  method SetForward(d: Dist, x: seq<real>, q: array<real>)
    requires |x| % Len(d) == 0 && q.Length == |x| && q[..] == AboveMask(d, x)
    modifies q
    ensures q[..] == ForwardData(d, x)
  {
    var size, rows := |x|, Len(d);
    var m, n := View(x, rows), size / rows;
    ghost var above, fwd := AboveMask(d, x), ForwardData(d, x);
    for p := 0 to size
      invariant forall t :: 0 <= t < p ==> q[t] == fwd[t]
      invariant forall t :: p <= t < size ==> q[t] == above[t]
    {
      ViewAt(x, rows, p);
      var (lower, upper) := d.hooks.bound(m, p / n, p % n);
      assert fwd[p] == ForwardEntry(d.hooks, m, p / n, p % n);
      if !(x[p] > upper) && x[p] >= lower {
        q[p] := Clip(d.hooks.forward(m, p / n, p % n), 0.0, 1.0);
      }
    }
    assert q[..] == fwd;
  }


  // ---------------------------------------------------------------------
  // numpy.prod(a, 0)

  /** The elements of `a` along its first axis at position `p` of the rest. */
  function Fiber(a: NdArray<real>, p: int): (f: seq<real>)
    requires Valid(a) && |a.shape| > 0 && 0 <= p < Prod(a.shape[1..])
    ensures |f| == a.shape[0]
  {
    var rest := Prod(a.shape[1..]);
    ProdCons(a.shape);
    seq(a.shape[0], i requires 0 <= i < a.shape[0] =>
      MulIndexBound(i, p, a.shape[0], rest); a.data[i * rest + p])
  }

  lemma FiberAt(a: NdArray<real>, p: int, i: int)
    requires Valid(a) && |a.shape| > 0 && 0 <= p < Prod(a.shape[1..]) && 0 <= i < a.shape[0]
    ensures 0 <= i * Prod(a.shape[1..]) + p < |a.data|
    ensures Fiber(a, p)[i] == a.data[i * Prod(a.shape[1..]) + p]
  {
    ProdCons(a.shape);
    MulIndexBound(i, p, a.shape[0], Prod(a.shape[1..]));
  }

  /** `numpy.prod(a, 0)`: the product along the first axis, which numpy
      refuses (an AxisError, a ValueError) on a 0-d array. */
  function ProdAxis0(a: NdArray<real>): (r: Result<NdArray<real>>)
    requires Valid(a)
    ensures r.Err? <==> |a.shape| == 0
    ensures r.Err? ==> r.error == ValueError
    ensures r.Ok? ==> r.value.shape == a.shape[1..] && Valid(r.value)
  {
    if |a.shape| == 0 then Err(ValueError)
    else
      var rest := Prod(a.shape[1..]);
      ProdNonNeg(a.shape[1..]);
      Ok(NdArray(a.shape[1..], seq(rest, p requires 0 <= p < rest => RealProd(Fiber(a, p)))))
  }

  /** Products of elements in [0, 1] stay in [0, 1]. */
  lemma ProdAxis0InUnit(a: NdArray<real>)
    requires Valid(a) && forall p :: 0 <= p < |a.data| ==> 0.0 <= a.data[p] <= 1.0
    requires ProdAxis0(a).Ok?
    ensures forall p :: 0 <= p < |ProdAxis0(a).value.data| ==> 0.0 <= ProdAxis0(a).value.data[p] <= 1.0
  {
    forall p | 0 <= p < |ProdAxis0(a).value.data|
      ensures 0.0 <= ProdAxis0(a).value.data[p] <= 1.0
    {
      var f := Fiber(a, p);
      forall i | 0 <= i < |f| ensures 0.0 <= f[i] <= 1.0 {
        FiberAt(a, p, i);
      }
      RealProdInUnit(f);
    }
  }

  /** A zero anywhere along the first axis makes that product zero. */
  lemma ProdAxis0Zero(a: NdArray<real>, i: int, p: int)
    requires Valid(a) && |a.shape| > 0 && 0 <= i < a.shape[0] && 0 <= p < Prod(a.shape[1..])
    ensures 0 <= i * Prod(a.shape[1..]) + p < |a.data|
    ensures a.data[i * Prod(a.shape[1..]) + p] == 0.0 ==> ProdAxis0(a).value.data[p] == 0.0
  {
    ProdCons(a.shape);
    MulIndexBound(i, p, a.shape[0], Prod(a.shape[1..]));
    if a.data[i * Prod(a.shape[1..]) + p] == 0.0 {
      FiberAt(a, p, i);
      RealProdZero(Fiber(a, p), i);
    }
  }

  // ---------------------------------------------------------------------
  // cdf

  /** `shape[1:]` of a Python tuple: empty stays empty. */
  function Tail(s: seq<nat>): (t: seq<nat>)
    ensures |s| > 0 ==> t == s[1..]
    ensures |s| == 0 ==> t == []
  {
    if |s| == 0 then [] else s[1..]
  }

  /** What `dist.cdf(x)` returns or raises: dependent joint distributions
      are refused, otherwise `fwd`, multiplied over the first axis when the
      distribution has more than one dimension. */
  function Cdf(d: Dist, x: NdArray<real>): (r: Result<NdArray<real>>)
    requires Valid(x)
    ensures Len(d) > 1 && d.dependent ==> r == Err(StochasticallyDependentError)
    ensures Len(d) == 1 ==> r == Forward(d, x)
    ensures r.Ok? ==> Valid(r.value) && r.value.shape == if Len(d) > 1 then Tail(x.shape) else x.shape
    ensures r.Ok? ==> forall p :: 0 <= p < |r.value.data| ==> 0.0 <= r.value.data[p] <= 1.0
  {
    if Len(d) > 1 && d.dependent then Err(StochasticallyDependentError)
    else
      match Forward(d, x)
      case Err(e) => Err(e)
      case Ok(q) =>
        if Len(d) > 1 then
          var r := ProdAxis0(q);
          if r.Ok? then ProdAxis0InUnit(q); r else r
        else Ok(q)
  }

  /** A joint input can be viewed as `len(dist)` rows only if it has at
      least one axis: a 0-d array holds a single element. */
  lemma JointHasAxis(d: Dist, x: NdArray<real>)
    requires Valid(x) && Len(d) > 1 && |x.data| % Len(d) == 0
    ensures |x.shape| > 0
  {
  }

  /** For an independent joint distribution only the reshape can fail: an
      input of `len(dist)` rows gives a cdf with one value per position of
      the axes after the first. */
  lemma CdfJointOk(d: Dist, x: NdArray<real>)
    requires Valid(x) && Len(d) > 1 && !d.dependent && |x.data| % Len(d) == 0
    ensures |x.shape| > 0 && Cdf(d, x).Ok? && |Cdf(d, x).value.data| == Prod(x.shape[1..])
  {
    JointHasAxis(d, x);
  }

  /** Element `p` of a joint cdf is the product, along the first axis, of
      the `fwd` values at positions `i * rest + p`. */
  lemma CdfJoint(d: Dist, x: NdArray<real>, p: int)
    requires Valid(x) && Len(d) > 1 && !d.dependent && |x.data| % Len(d) == 0
    requires |x.shape| > 0 && 0 <= p < Prod(x.shape[1..])
    ensures Forward(d, x).Ok? && Cdf(d, x).Ok? && p < |Cdf(d, x).value.data|
    ensures var q, rest := Forward(d, x).value, Prod(x.shape[1..]);
      && Cdf(d, x).value.data[p] == RealProd(Fiber(q, p))
      && forall i :: 0 <= i < x.shape[0] ==>
           0 <= i * rest + p < |q.data| && Fiber(q, p)[i] == q.data[i * rest + p]
  {
    CdfJointOk(d, x);
    var q := Forward(d, x).value;
    forall i | 0 <= i < x.shape[0]
      ensures 0 <= i * Prod(x.shape[1..]) + p < |q.data| && Fiber(q, p)[i] == q.data[i * Prod(x.shape[1..]) + p]
    {
      FiberAt(q, p, i);
    }
  }

  // ---------------------------------------------------------------------
  // inv

  /** `evaluate_inverse` over the whole (len, n) view of the probabilities. */
  function InverseView(h: Hooks, m: Matrix<real>, n: nat): (xm: Matrix<real>)
    requires Rectangular(m, n)
    ensures |xm| == |m| && Rectangular(xm, n)
  {
    seq(|m|, i requires 0 <= i < |m| => seq(n, j requires 0 <= j < n => h.inverse(m, i, j)))
  }

  /** One element of `inv`: the inverse hook clipped into the bounds that
      `evaluate_bound` gives at the inverse hook's output. */
  function InvEntry(h: Hooks, xm: Matrix<real>, i: int, j: int): (x: real)
    requires 0 <= i < |xm| && 0 <= j < |xm[i]|
    ensures var (lower, upper) := h.bound(xm, i, j);
      && (lower <= upper ==> lower <= x <= upper)
      && (lower <= xm[i][j] <= upper ==> x == xm[i][j])
      && (xm[i][j] > upper ==> x == upper)
      && (xm[i][j] < lower <= upper ==> x == lower)
  {
    var (lower, upper) := h.bound(xm, i, j);
    Clip(xm[i][j], lower, upper)
  }

  function InvData(d: Dist, q: seq<real>): (x: seq<real>)
    requires |q| % Len(d) == 0
    ensures |x| == |q|
  {
    var size, rows := |q|, Len(d);
    var n := size / rows;
    var xm := InverseView(d.hooks, View(q, rows), n);
    seq(size, p requires 0 <= p < size => Cell(p, rows, size); InvEntry(d.hooks, xm, p / n, p % n))
  }

  /** What `dist.inv(q)` returns or raises: every probability must lie in
      [0, 1] (a failed assertion otherwise), then the reshape must succeed. */
  function Inv(d: Dist, q: NdArray<real>): (r: Result<NdArray<real>>)
    requires Valid(q)
    ensures r.Err? && r.error == AssertionError <==> exists p :: 0 <= p < |q.data| && !(0.0 <= q.data[p] <= 1.0)
    ensures r.Err? ==> r.error == AssertionError || (r.error == ValueError && |q.data| % Len(d) != 0)
    ensures r.Ok? ==> r.value.shape == q.shape && Valid(r.value)
  {
    if exists p :: 0 <= p < |q.data| && !(0.0 <= q.data[p] <= 1.0) then Err(AssertionError)
    else if |q.data| % Len(d) != 0 then Err(ValueError)
    else Ok(NdArray(q.shape, InvData(d, q.data)))
  }

  /** Every element of `inv` is the inverse hook clipped to the bounds at
      that element: itself when it lies within them, the upper bound above
      them, the lower bound below them. */
  lemma InvAt(d: Dist, q: NdArray<real>, p: int)
    requires Valid(q) && Inv(d, q).Ok? && 0 <= p < |q.data|
    ensures var n := |q.data| / Len(d);
      var xm := InverseView(d.hooks, View(q.data, Len(d)), n);
      && 0 <= p / n < |xm| && 0 <= p % n < |xm[p / n]|
      && var (lower, upper) := d.hooks.bound(xm, p / n, p % n);
         var x := Inv(d, q).value.data[p];
         && (lower <= upper ==> lower <= x <= upper)
         && (lower <= xm[p / n][p % n] <= upper ==> x == xm[p / n][p % n])
         && (xm[p / n][p % n] > upper ==> x == upper)
         && (xm[p / n][p % n] < lower <= upper ==> x == lower)
  {
    Cell(p, Len(d), |q.data|);
  }

  // ---------------------------------------------------------------------
  // pdf

  /** One element of `pdf` before the product: the density hook where the
      input lies within its bounds, 0 elsewhere. */
  function DensityEntry(h: Hooks, m: Matrix<real>, i: int, j: int): real
    requires 0 <= i < |m| && 0 <= j < |m[i]|
  {
    var (lower, upper) := h.bound(m, i, j);
    if m[i][j] <= upper && m[i][j] >= lower then h.density(m, i, j) else 0.0
  }

  function DensityData(d: Dist, x: seq<real>): (f: seq<real>)
    requires |x| % Len(d) == 0
    ensures |f| == |x|
  {
    var size, rows := |x|, Len(d);
    var m, n := View(x, rows), size / rows;
    seq(size, p requires 0 <= p < size => Cell(p, rows, size); DensityEntry(d.hooks, m, p / n, p % n))
  }

  /** What `dist.pdf(x)` returns or raises. */
  function Density(d: Dist, x: NdArray<real>): (r: Result<NdArray<real>>)
    requires Valid(x)
    ensures |x.data| % Len(d) != 0 ==> r == Err(ValueError)
    ensures Len(d) == 1 ==> r.Ok? && r.value.shape == x.shape && Valid(r.value)
    ensures r.Ok? ==> Valid(r.value) && r.value.shape == if Len(d) > 1 then Tail(x.shape) else x.shape
  {
    if |x.data| % Len(d) != 0 then Err(ValueError)
    else
      var f := NdArray(x.shape, DensityData(d, x.data));
      if Len(d) > 1 then ProdAxis0(f) else Ok(f)
  }

  /** Element `p` before the product: the density hook where the input
      lies within its bounds, 0 elsewhere. */
  lemma DensityDataAt(d: Dist, x: seq<real>, p: int)
    requires |x| % Len(d) == 0 && 0 <= p < |x|
    ensures var m, n := View(x, Len(d)), |x| / Len(d);
      && 0 <= p / n < |m| && 0 <= p % n < |m[p / n]| && m[p / n][p % n] == x[p]
      && var (lower, upper) := d.hooks.bound(m, p / n, p % n);
         DensityData(d, x)[p] == if lower <= x[p] <= upper then d.hooks.density(m, p / n, p % n) else 0.0
  {
    ViewAt(x, Len(d), p);
  }

  /** For a plain distribution `pdf` always succeeds, and each element is
      the density hook within the bounds and 0 outside them. */
  lemma DensityPlain(d: Dist, x: NdArray<real>, p: int)
    requires Valid(x) && Len(d) == 1 && 0 <= p < |x.data|
    ensures Density(d, x).Ok? && |Density(d, x).value.data| == |x.data|
    ensures var m, n := View(x.data, 1), |x.data|;
      && 0 <= p / n < |m| && 0 <= p % n < |m[p / n]| && m[p / n][p % n] == x.data[p]
      && var (lower, upper) := d.hooks.bound(m, p / n, p % n);
         Density(d, x).value.data[p] == if lower <= x.data[p] <= upper then d.hooks.density(m, p / n, p % n) else 0.0
  {
    DensityDataAt(d, x.data, p);
  }

  /** For a joint distribution and an input of `len(dist)` rows, `pdf`
      succeeds, and element `p` is the product along the first axis of the
      masked densities at positions `i * rest + p`. */
  lemma DensityJoint(d: Dist, x: NdArray<real>, p: int)
    requires Valid(x) && Len(d) > 1 && |x.data| % Len(d) == 0
    requires |x.shape| > 0 && 0 <= p < Prod(x.shape[1..])
    ensures Density(d, x).Ok? && |Density(d, x).value.data| == Prod(x.shape[1..])
    ensures var f, rest := NdArray(x.shape, DensityData(d, x.data)), Prod(x.shape[1..]);
      && Density(d, x).value.data[p] == RealProd(Fiber(f, p))
      && forall i :: 0 <= i < x.shape[0] ==>
           0 <= i * rest + p < |x.data| && Fiber(f, p)[i] == DensityData(d, x.data)[i * rest + p]
  {
    var f := NdArray(x.shape, DensityData(d, x.data));
    forall i | 0 <= i < x.shape[0]
      ensures 0 <= i * Prod(x.shape[1..]) + p < |x.data| && Fiber(f, p)[i] == f.data[i * Prod(x.shape[1..]) + p]
    {
      FiberAt(f, p, i);
    }
  }

  /** Outside its bounds an element's density is 0: for a plain
      distribution that is the output, for a joint one the whole product
      along the first axis through that element. */
  lemma DensityOutside(d: Dist, x: NdArray<real>, p: int)
    requires Valid(x) && Density(d, x).Ok? && 0 <= p < |x.data|
    ensures var m, n := View(x.data, Len(d)), |x.data| / Len(d);
      && 0 <= p / n < |m| && 0 <= p % n < |m[p / n]| && m[p / n][p % n] == x.data[p]
      && var (lower, upper) := d.hooks.bound(m, p / n, p % n);
         !(lower <= x.data[p] <= upper) ==>
           if Len(d) == 1 then Density(d, x).value.data[p] == 0.0
           else
             var rest := Prod(x.shape[1..]);
             |x.shape| > 0 && rest > 0 && 0 <= p % rest < |Density(d, x).value.data|
             && Density(d, x).value.data[p % rest] == 0.0
  {
    ViewAt(x.data, Len(d), p);
    if Len(d) > 1 {
      var f := NdArray(x.shape, DensityData(d, x.data));
      var rest := Prod(x.shape[1..]);
      ProdCons(x.shape);
      assert rest > 0;
      DivBound(p, x.shape[0], rest);
      ProdAxis0Zero(f, p / rest, p % rest);
    }
  }

  /** `pdf`: a zero buffer of the input's size, set to the density hook
      where the input lies within its bounds, then multiplied over the
      first axis when the distribution has more than one dimension. */
  method Pdf(d: Dist, x: NdArray<real>) returns (r: Result<NdArray<real>>)
    requires Valid(x)
    ensures r == Density(d, x)
  {
    var size, rows := |x.data|, Len(d);
    if size % rows != 0 {
      return Err(ValueError);
    }
    var m, n := View(x.data, rows), size / rows;
    ghost var density := DensityData(d, x.data);
    var f := new real[size](_ => 0.0);
    for p := 0 to size
      invariant forall t :: 0 <= t < p ==> f[t] == density[t]
      invariant forall t :: p <= t < size ==> f[t] == 0.0
    {
      ViewAt(x.data, rows, p);
      var (lower, upper) := d.hooks.bound(m, p / n, p % n);
      assert density[p] == DensityEntry(d.hooks, m, p / n, p % n);
      if x.data[p] <= upper && x.data[p] >= lower {
        f[p] := d.hooks.density(m, p / n, p % n);
      }
    }
    assert f[..] == density;
    var out := NdArray(x.shape, f[..]);
    if rows > 1 {
      return ProdAxis0(out);
    }
    return Ok(out);
  }

  // ---------------------------------------------------------------------
  // mom

  /** Column `j` of a matrix of `n` columns. */
  function Column(m: Matrix<int>, n: int, j: int): (c: seq<int>)
    requires Rectangular(m, n) && 0 <= j < n
    ensures |c| == |m| && forall i :: 0 <= i < |m| ==> c[i] == m[i][j]
  {
    seq(|m|, i requires 0 <= i < |m| => m[i][j])
  }

  /** What `dist.mom(K)` returns or raises: `K` is viewed as `len(dist)`
      rows, one moment is taken per column, and the moments are given the
      shape of `K`, less its first axis for a joint distribution. */
  function Mom(d: Dist, k: NdArray<int>): (r: Result<NdArray<real>>)
    requires Valid(k)
    ensures var dim := Len(d);
      var shape := if dim > 1 then Tail(k.shape) else k.shape;
      && (r.Ok? <==> |k.data| % dim == 0 && Prod(shape) == |k.data| / dim)
      && (r.Err? ==> r.error == ValueError)
      && (r.Ok? ==> r.value.shape == shape && Valid(r.value))
    ensures r.Ok? ==> forall j :: 0 <= j < |r.value.data| ==>
      r.value.data[j] == d.hooks.moment(Column(View(k.data, Len(d)), |k.data| / Len(d), j))
  {
    var dim := Len(d);
    var shape := if dim > 1 then Tail(k.shape) else k.shape;
    var size := |k.data| / dim;
    if size * dim != |k.data| then Err(ValueError)
    else
      var kv := View(k.data, dim);
      var out := seq(size, j requires 0 <= j < size => d.hooks.moment(Column(kv, size, j)));
      if Prod(shape) != size then Err(ValueError)
      else Ok(NdArray(shape, out))
  }

  /** For a plain distribution `mom` keeps the shape of `K`. */
  lemma MomPlain(d: Dist, k: NdArray<int>)
    requires Valid(k) && Len(d) == 1
    ensures Mom(d, k).Ok? && Mom(d, k).value.shape == k.shape
  {
  }

  /** For a joint distribution and `K` with one row per dimension, `mom`
      gives `K.shape[1:]`. */
  lemma MomJoint(d: Dist, k: NdArray<int>)
    requires Valid(k) && Len(d) > 1 && |k.shape| > 0 && k.shape[0] == Len(d)
    ensures Mom(d, k).Ok? && Mom(d, k).value.shape == k.shape[1..]
  {
    ProdCons(k.shape);
    var rest := Prod(k.shape[1..]);
    assert |k.data| == rest * Len(d);
    DivMulAdd(rest, 0, Len(d));
  }

  // ---------------------------------------------------------------------
  // __str__

  /** The keyword arguments `__str__` prints: `_repr` when set, else `prm`. */
  function Kwargs(d: Dist): seq<(string, string)>
  {
    if d.repr.Some? then d.repr.value else d.prm
  }

  /** `_repr`, when set, is what `__str__` prints, whatever `prm` holds;
      when unset, `prm` prints as it would if it were `_repr`. */
  lemma StrPrefersRepr(d: Dist, prm: seq<(string, string)>)
    ensures d.repr.Some? ==> Str(d.(prm := prm)) == Str(d)
    ensures d.repr.None? ==> Str(d) == Str(d.(repr := Some(d.prm)))
  {
  }

  function Keys(kw: seq<(string, string)>): (ks: seq<string>)
    ensures |ks| == |kw| && forall i :: 0 <= i < |kw| ==> ks[i] == kw[i].0
  {
    seq(|kw|, i requires 0 <= i < |kw| => kw[i].0)
  }

  /** `kwargs[key]`: the value stored under `key`. */
  function Lookup(kw: seq<(string, string)>, key: string): (v: string)
    requires key in Keys(kw)
    ensures (key, v) in kw
  {
    if kw[0].0 == key then kw[0].1
    else
      assert Keys(kw) == [kw[0].0] + Keys(kw[1..]);
      Lookup(kw[1..], key)
  }

  /** With distinct keys there is one value per key. */
  lemma LookupUnique(kw: seq<(string, string)>, key: string, v: string)
    requires Distinct(Keys(kw)) && (key, v) in kw
    ensures key in Keys(kw) && Lookup(kw, key) == v
  {
    var i :| 0 <= i < |kw| && kw[i] == (key, v);
    var w := Lookup(kw, key);
    var j :| 0 <= j < |kw| && kw[j] == (key, w);
    DistinctAt(Keys(kw), i, j);
  }

  /** In a sequence without repeats, equal elements sit at one position. */
  lemma DistinctAt(s: seq<string>, i: int, j: int)
    requires Distinct(s) && 0 <= i < |s| && 0 <= j < |s| && s[i] == s[j]
    ensures i == j
  {
  }

  /** The `key=value` items, keys in sorted order. */
  function Items(kw: seq<(string, string)>): (items: seq<string>)
    ensures |items| == |kw|
  {
    var ks := Sort(Keys(kw));
    seq(|ks|, i requires 0 <= i < |ks| =>
      assert ks[i] in multiset(Keys(kw));
      ks[i] + "=" + Lookup(kw, ks[i]))
  }

  /** `str(dist)`. */
  function Str(d: Dist): (s: string)
    ensures |s| >= |d.name| + 2 && s[..|d.name|] == d.name && s[|d.name|] == '('
    ensures s[|s| - 1] == ')'
  {
    d.name + "(" + Join(", ", Items(Kwargs(d))) + ")"
  }

  /** The keys `__str__` prints come one per parameter, strictly ascending. */
  lemma StrKeys(d: Dist)
    requires Distinct(Keys(Kwargs(d)))
    ensures var kw, ks := Kwargs(d), Sort(Keys(Kwargs(d)));
      && StrictlySorted(ks) && |ks| == |kw|
      && forall key :: key in ks <==> key in Keys(kw)
  {
    var ks := Sort(Keys(Kwargs(d)));
    SortSorted(Keys(Kwargs(d)));
    forall key ensures key in ks <==> key in Keys(Kwargs(d)) {
      assert key in ks <==> key in multiset(ks);
    }
  }

  /** Item `i` of `str(dist)` is the `i`-th sorted key with its own value. */
  lemma StrItem(d: Dist, i: int)
    requires 0 <= i < |Kwargs(d)|
    ensures exists v ::
      (Sort(Keys(Kwargs(d)))[i], v) in Kwargs(d) && Items(Kwargs(d))[i] == Sort(Keys(Kwargs(d)))[i] + "=" + v
  {
    var kw, ks := Kwargs(d), Sort(Keys(Kwargs(d)));
    assert ks[i] in multiset(Keys(kw));
    var v := Lookup(kw, ks[i]);
    assert (ks[i], v) in kw && Items(kw)[i] == ks[i] + "=" + v;
  }

  /** `str(dist)` does not depend on the order the parameters were given
      in: two distributions of one class whose parameter dicts hold the
      same items print the same. */
  lemma StrOrderFree(d1: Dist, d2: Dist)
    requires d1.name == d2.name
    requires Distinct(Keys(Kwargs(d1))) && Distinct(Keys(Kwargs(d2)))
    requires multiset(Kwargs(d1)) == multiset(Kwargs(d2))
    ensures Str(d1) == Str(d2)
  {
    var kw1, kw2 := Kwargs(d1), Kwargs(d2);
    var ks1, ks2 := Sort(Keys(kw1)), Sort(Keys(kw2));
    SortSorted(Keys(kw1));
    SortSorted(Keys(kw2));
    SameKeys(kw1, kw2);
    SortMembers(Keys(kw1));
    SortMembers(Keys(kw2));
    SortedUnique(ks1, ks2);
    SameItems(kw1, kw2);
  }

  /** Dicts holding the same items have the same keys. */
  lemma SameKeys(kw1: seq<(string, string)>, kw2: seq<(string, string)>)
    requires multiset(kw1) == multiset(kw2)
    ensures |kw1| == |kw2| && forall key :: key in Keys(kw1) <==> key in Keys(kw2)
  {
    assert |kw1| == |multiset(kw1)| == |multiset(kw2)| == |kw2|;
    forall key ensures key in Keys(kw1) ==> key in Keys(kw2) {
      if key in Keys(kw1) {
        var i :| 0 <= i < |kw1| && Keys(kw1)[i] == key;
        assert kw1[i] in multiset(kw2);
        var j :| 0 <= j < |kw2| && kw2[j] == kw1[i];
        assert Keys(kw2)[j] == key;
      }
    }
    forall key ensures key in Keys(kw2) ==> key in Keys(kw1) {
      if key in Keys(kw2) {
        var j :| 0 <= j < |kw2| && Keys(kw2)[j] == key;
        assert kw2[j] in multiset(kw1);
        var i :| 0 <= i < |kw1| && kw1[i] == kw2[j];
        assert Keys(kw1)[i] == key;
      }
    }
  }

  /** Sorting neither adds nor drops a key. */
  lemma SortMembers(s: seq<string>)
    ensures forall key :: key in Sort(s) <==> key in s
  {
    forall key ensures key in Sort(s) <==> key in s {
      assert key in Sort(s) <==> key in multiset(Sort(s));
    }
  }

  /** With the same sorted keys, dicts holding the same items print the
      same items. */
  lemma SameItems(kw1: seq<(string, string)>, kw2: seq<(string, string)>)
    requires Distinct(Keys(kw2)) && multiset(kw1) == multiset(kw2)
    requires Sort(Keys(kw1)) == Sort(Keys(kw2))
    ensures Items(kw1) == Items(kw2)
  {
    var ks := Sort(Keys(kw1));
    forall i | 0 <= i < |ks|
      ensures Items(kw1)[i] == Items(kw2)[i]
    {
      assert ks[i] in multiset(Keys(kw1));
      var v := Lookup(kw1, ks[i]);
      assert (ks[i], v) in multiset(kw2);
      LookupUnique(kw2, ks[i], v);
    }
  }

  /** The doctest distribution `Uniform(lo=-3, up=3)` prints its parameters
      in key order whatever order they were given in. */
  lemma StrExample(h: Hooks)
    ensures Str(Dist("Uniform", [("up", "3"), ("lo", "-3")], None, h, [], false))
         == "Uniform(lo=-3, up=3)"
  {
    var kw := [("up", "3"), ("lo", "-3")];
    ExampleItems(kw);
    assert "lo=-3" + ", " + "up=3" == "lo=-3, up=3";
    assert "Uniform" + "(" + "lo=-3, up=3" + ")" == "Uniform(lo=-3, up=3)";
    assert Join(", ", ["lo=-3", "up=3"]) == "lo=-3, up=3" by {
      assert ["lo=-3", "up=3"][..1] == ["lo=-3"];
    }
  }

  lemma ExampleKeys(kw: seq<(string, string)>)
    requires kw == [("up", "3"), ("lo", "-3")]
    ensures Sort(Keys(kw)) == ["lo", "up"]
  {
    assert Keys(kw) == ["up", "lo"];
    SortExample();
  }

  lemma SortExample()
    ensures Sort(["up", "lo"]) == ["lo", "up"]
  {
    var s: seq<string> := ["up", "lo"];
    assert s[..1] == ["up"] && s[1] == "lo";
    assert ["up"][..0] == [];
    assert Sort(["up"]) == ["up"];
    assert !Less("up", "lo");
    assert Insert("lo", ["up"]) == ["lo", "up"];
  }

  lemma ExampleItems(kw: seq<(string, string)>)
    requires kw == [("up", "3"), ("lo", "-3")]
    ensures Items(kw) == ["lo=-3", "up=3"]
  {
    ExampleKeys(kw);
    assert Lookup(kw, "lo") == "-3" && Lookup(kw, "up") == "3";
    assert "lo" + "=" + "-3" == "lo=-3" && "up" + "=" + "3" == "up=3";
  }
}
