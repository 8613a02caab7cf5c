/** Leja quadrature nodes, modelled on chaospy/quadrature/leja.py: the
    greedy loop that grows a sorted list of nodes anchored at the bounds of
    the distribution, and the tensor product of the per-dimension rules of
    an independent joint distribution. */
module Leja {
  import opened Outcomes
  import opened Numeric
  import opened Combine
  import opened Distributions

  /** The `order` argument: a Python int; a Python list of int orders, one
      per dimension; a 1-D numpy array of orders, whose items are numpy
      integers; or a numpy integer, which `int(order)` accepts but
      `isinstance(order, int)` does not. */
  datatype Order = Scalar(n: int) | List(ns: seq<int>) | PerDim(ns: seq<int>) | NumpyInt(m: int)

  /** The keyword arguments `rule`, `accuracy` and `recurrence_algorithm`,
      which only `create_weights` reads. */
  datatype Config = Config(rule: string, accuracy: int, recurrenceAlgorithm: string)

  /** The keyword defaults of quad_leja. */
  const Defaults := Config("fejer", 100, "")

  /** What quad_leja calls but does not define: `dist.range()` (lower and
      upper bound of a univariate distribution), scipy's
      `fminbound(f, a, b, full_output=1)[:2]` (a minimising point and the
      value there), `numpy.sqrt`, and `create_weights`. */
  datatype Oracles = Oracles(
    range: Dist -> (real, real),
    fminbound: (real -> real, real, real) -> (real, real),
    sqrt: real -> real,
    createWeights: (seq<real>, Dist, Config) -> seq<real>)

  /** fminbound returns a point of the closed interval it is given;
      create_weights gives one weight per node. */
  ghost predicate ValidOracles(o: Oracles)
  {
    && (forall f, a, b :: a <= b ==> a <= o.fminbound(f, a, b).0 <= b)
    && (forall nodes, d, cfg :: |o.createWeights(nodes, d, cfg)| == |nodes|)
  }

  /** `dist.mom(1)` of a univariate distribution: the moment hook at
      `[1]`; MeanIsMom shows that `mom` computes exactly this. */
  function Mean(d: Dist): real
  {
    d.hooks.moment([1])
  }

  /** `dist.mom(1)` returns a single value, the mean. */
  lemma MeanIsMom(d: Dist)
    requires Len(d) == 1
    ensures Mom(d, NdArray([], [1])).Ok? && Mom(d, NdArray([], [1])).value.data == [Mean(d)]
  {
    var k := NdArray([], [1]);
    MomPlain(d, k);
    ViewAt(k.data, 1, 0);
    assert Column(View(k.data, 1), 1, 0) == [1];
  }

  /** `dist.pdf(x)` of a univariate distribution at a scalar `x`. */
  function PointDensity(d: Dist, x: real): real
    requires Len(d) == 1
  {
    Density(d, NdArray([], [x])).value.data[0]
  }

  function Abs(r: real): real { if r < 0.0 then -r else r }

  /** The objective of one round: minus the square root of the density
      times the distance product to the current interior nodes. */
  function Objective(o: Oracles, d: Dist, xs: seq<real>): real -> real
    requires Len(d) == 1 && |xs| >= 2
  {
    var interior := xs[1..|xs| - 1];
    x => -o.sqrt(PointDensity(d, x)) * RealProd(seq(|interior|, k requires 0 <= k < |interior| => Abs(interior[k] - x)))
  }

  /** The objective vanishes at every interior node, so the minimiser never
      prefers a node already in the list to a point of positive density
      away from all of them. */
  lemma ObjectiveAtNode(o: Oracles, d: Dist, xs: seq<real>, k: int)
    requires Len(d) == 1 && 1 <= k < |xs| - 1
    ensures Objective(o, d, xs)(xs[k]) == 0.0
  {
    var interior := xs[1..|xs| - 1];
    var dists := seq(|interior|, j requires 0 <= j < |interior| => Abs(interior[j] - xs[k]));
    assert dists[k - 1] == 0.0;
    RealProdZero(dists, k - 1);
  }

  /** One bounded minimisation per gap between neighbouring nodes. */
  function Candidates(o: Oracles, d: Dist, xs: seq<real>): (cs: seq<(real, real)>)
    requires Len(d) == 1 && |xs| >= 2
    ensures |cs| == |xs| - 1
  {
    seq(|xs| - 1, idx requires 0 <= idx < |xs| - 1 => o.fminbound(Objective(o, d, xs), xs[idx], xs[idx + 1]))
  }

  function Values(cs: seq<(real, real)>): (vals: seq<real>)
    ensures |vals| == |cs| && forall k :: 0 <= k < |cs| ==> vals[k] == cs[k].1
  {
    seq(|cs|, k requires 0 <= k < |cs| => cs[k].1)
  }

  /** `numpy.argmin`: the first position holding the smallest value. */
  function FirstArgMin(vals: seq<real>): (k: nat)
    requires |vals| > 0
    ensures k < |vals|
    ensures forall i :: 0 <= i < |vals| ==> vals[k] <= vals[i]
    ensures forall i :: 0 <= i < k ==> vals[i] > vals[k]
  {
    if |vals| == 1 then 0
    else
      var k := FirstArgMin(vals[..|vals| - 1]);
      if vals[|vals| - 1] < vals[k] then |vals| - 1 else k
  }

  /** Only one position is both minimal and before every other minimum. */
  lemma ArgMinUnique(vals: seq<real>, k: int)
    requires 0 <= k < |vals|
    requires forall i :: 0 <= i < |vals| ==> vals[k] <= vals[i]
    requires forall i :: 0 <= i < k ==> vals[i] > vals[k]
    ensures k == FirstArgMin(vals)
  {
  }

  /** One round of the loop: the candidate of the best gap, inserted at
      `index + 1`, between the two nodes that bound it. */
  function Round(o: Oracles, d: Dist, xs: seq<real>): (r: seq<real>)
    requires Len(d) == 1 && |xs| >= 2
    ensures |r| == |xs| + 1
  {
    Best(xs, Candidates(o, d, xs))
  }

  /** `abscissas.insert(index + 1, opts[index])` with `index` the argmin of
      the candidates' values. */
  function Best(xs: seq<real>, cs: seq<(real, real)>): (r: seq<real>)
    requires |xs| >= 2 && |cs| == |xs| - 1
    ensures |r| == |xs| + 1
  {
    var index := FirstArgMin(Values(cs));
    Insert(xs, index + 1, cs[index].0)
  }

  /** Python's `list.insert(i, v)` for a position inside the list. */
  function Insert(xs: seq<real>, i: int, v: real): (r: seq<real>)
    requires 0 <= i <= |xs|
    ensures |r| == |xs| + 1
  {
    xs[..i] + [v] + xs[i..]
  }

  /** Inserting keeps every item, in order, around the new one. */
  lemma InsertKeeps(xs: seq<real>, i: int, v: real)
    requires 0 <= i <= |xs|
    ensures var r := Insert(xs, i, v);
      && r[..i] == xs[..i] && r[i] == v && r[i + 1..] == xs[i..]
      && multiset(r) == multiset(xs) + multiset{v}
  {
    var r := Insert(xs, i, v);
    assert r[i + 1..] == xs[i..];
    assert xs == xs[..i] + xs[i..];
  }

  /** The list after `n` rounds. */
  function Grow(o: Oracles, d: Dist, xs: seq<real>, n: nat): (r: seq<real>)
    requires Len(d) == 1 && |xs| >= 2
    ensures |r| == |xs| + n
  {
    if n == 0 then xs
    else
      var g := Grow(o, d, xs, n - 1);
      Round(o, d, g)
  }

  /** `range(int(order))` runs no round for a negative order. */
  function Rounds(order: int): nat
  {
    if order < 0 then 0 else order
  }

  /** `[lower, dist.mom(1), upper]`, the list the rounds start from. */
  function Start(o: Oracles, d: Dist): (xs: seq<real>)
    requires Len(d) == 1
    ensures |xs| == 3 && xs[1] == Mean(d)
  {
    [o.range(d).0, Mean(d), o.range(d).1]
  }

  /** The nodes quad_leja computes for a univariate distribution: the
      grown list without its two anchors. */
  function LejaNodes(o: Oracles, d: Dist, order: int): (nodes: seq<real>)
    requires Len(d) == 1
    ensures |nodes| == Rounds(order) + 1
  {
    var xs := Grow(o, d, Start(o, d), Rounds(order));
    xs[1..|xs| - 1]
  }

  /** The loop of quad_leja's univariate branch: the Python list grows by
      one `insert` per round, and the anchors are stripped at the end. */
  method Abscissas(o: Oracles, d: Dist, order: int) returns (nodes: seq<real>)
    requires Len(d) == 1
    ensures nodes == LejaNodes(o, d, order)
  {
    var bounds := o.range(d);
    var abscissas := [bounds.0, Mean(d), bounds.1];
    ghost var start := Start(o, d);
    for round := 0 to Rounds(order)
      invariant abscissas == Grow(o, d, start, round)
    {
      GrowStep(o, d, start, round);
      abscissas := InsertBest(o, d, abscissas);
    }
    nodes := abscissas[1..|abscissas| - 1];
  }

  /** The body of the loop: one bounded minimisation per gap, the argmin
      of their values, and the insert. */
  method InsertBest(o: Oracles, d: Dist, abscissas: seq<real>) returns (next: seq<real>)
    requires Len(d) == 1 && |abscissas| >= 2
    ensures next == Round(o, d, abscissas)
  {
    var cs := Candidates(o, d, abscissas);
    var index := FirstArgMin(Values(cs));
    next := Insert(abscissas, index + 1, cs[index].0);
  }


  lemma GrowStep(o: Oracles, d: Dist, xs: seq<real>, n: nat)
    requires Len(d) == 1 && |xs| >= 2
    ensures Grow(o, d, xs, n + 1) == Best(Grow(o, d, xs, n), Candidates(o, d, Grow(o, d, xs, n)))
  {
  }


  // ---------------------------------------------------------------------
  // What the rounds keep

  /** Inserting a value between its two neighbours keeps a list sorted. */
  lemma InsertBetween(xs: seq<real>, i: int, v: real)
    requires Sorted(xs) && 0 < i < |xs| && xs[i - 1] <= v <= xs[i]
    ensures Sorted(xs[..i] + [v] + xs[i..])
  {
    var r := xs[..i] + [v] + xs[i..];
    forall a, b | 0 <= a < b < |r| ensures r[a] <= r[b] {
      assert r[a] == if a < i then xs[a] else if a == i then v else xs[a - 1];
      assert r[b] == if b < i then xs[b] else if b == i then v else xs[b - 1];
    }
  }

  /** `r` still starts and ends with the anchors of `xs`, and its
      interior holds every interior node of `xs`. */
  predicate Keeps(xs: seq<real>, r: seq<real>)
  {
    && |xs| >= 2 && |r| >= 2
    && r[0] == xs[0] && r[|r| - 1] == xs[|xs| - 1]
    && multiset(xs[1..|xs| - 1]) <= multiset(r[1..|r| - 1])
  }

  lemma KeepsReflexive(xs: seq<real>)
    requires |xs| >= 2
    ensures Keeps(xs, xs)
  {
  }

  lemma KeepsTransitive(a: seq<real>, b: seq<real>, c: seq<real>)
    requires Keeps(a, b) && Keeps(b, c)
    ensures Keeps(a, c)
  {
  }

  /** Inserting after the best gap keeps the anchors and every node. */
  lemma BestKeeps(xs: seq<real>, cs: seq<(real, real)>)
    requires |xs| >= 2 && |cs| == |xs| - 1
    ensures Keeps(xs, Best(xs, cs))
  {
    var index := FirstArgMin(Values(cs));
    var i, v := index + 1, cs[index].0;
    var r := Best(xs, cs);
    assert r == xs[..i] + [v] + xs[i..];
    assert r[0] == xs[0] && r[|r| - 1] == xs[|xs| - 1];
    assert r[1..|r| - 1] == xs[1..i] + [v] + xs[i..|xs| - 1];
    assert xs[1..|xs| - 1] == xs[1..i] + xs[i..|xs| - 1];
    assert multiset(r[1..|r| - 1]) == multiset(xs[1..i]) + multiset{v} + multiset(xs[i..|xs| - 1]);
  }

  /** A round inserts strictly inside the list. */
  lemma RoundKeeps(o: Oracles, d: Dist, xs: seq<real>)
    requires Len(d) == 1 && |xs| >= 2
    ensures Keeps(xs, Round(o, d, xs))
  {
    BestKeeps(xs, Candidates(o, d, xs));
  }

  /** Candidates that lie in their gaps keep a sorted list sorted. */
  lemma BestSorted(xs: seq<real>, cs: seq<(real, real)>)
    requires |xs| >= 2 && |cs| == |xs| - 1 && Sorted(xs)
    requires forall i :: 0 <= i < |cs| ==> xs[i] <= cs[i].0 <= xs[i + 1]
    ensures Sorted(Best(xs, cs))
  {
    var index := FirstArgMin(Values(cs));
    InsertBetween(xs, index + 1, cs[index].0);
  }

  /** With valid oracles every candidate lies in its gap. */
  lemma CandidatesBetween(o: Oracles, d: Dist, xs: seq<real>)
    requires ValidOracles(o) && Len(d) == 1 && |xs| >= 2 && Sorted(xs)
    ensures var cs := Candidates(o, d, xs);
      forall i :: 0 <= i < |cs| ==> xs[i] <= cs[i].0 <= xs[i + 1]
  {
    var cs := Candidates(o, d, xs);
    forall i | 0 <= i < |cs| ensures xs[i] <= cs[i].0 <= xs[i + 1] {
      assert xs[i] <= xs[i + 1];
      assert cs[i] == o.fminbound(Objective(o, d, xs), xs[i], xs[i + 1]);
    }
  }

  /** With valid oracles a round keeps the list sorted. */
  lemma RoundSorted(o: Oracles, d: Dist, xs: seq<real>)
    requires ValidOracles(o) && Len(d) == 1 && |xs| >= 2 && Sorted(xs)
    ensures Sorted(Round(o, d, xs))
  {
    CandidatesBetween(o, d, xs);
    BestSorted(xs, Candidates(o, d, xs));
  }

  /** With valid oracles and a sorted start the list stays sorted. */
  lemma {:induction false} GrowSorted(o: Oracles, d: Dist, xs: seq<real>, n: nat)
    requires ValidOracles(o) && Len(d) == 1 && |xs| >= 2 && Sorted(xs)
    ensures Sorted(Grow(o, d, xs, n))
  {
    if n > 0 {
      GrowSorted(o, d, xs, n - 1);
      GrowSortedStep(o, d, xs, n);
    }
  }

  lemma GrowSortedStep(o: Oracles, d: Dist, xs: seq<real>, n: nat)
    requires ValidOracles(o) && Len(d) == 1 && |xs| >= 2 && n > 0
    requires Sorted(Grow(o, d, xs, n - 1))
    ensures Sorted(Grow(o, d, xs, n))
  {
    RoundSorted(o, d, Grow(o, d, xs, n - 1));
  }

  /** Any number of rounds keeps the anchors at both ends and every
      interior node of the start. */
  lemma {:induction false} GrowKeeps(o: Oracles, d: Dist, xs: seq<real>, n: nat)
    requires Len(d) == 1 && |xs| >= 2
    ensures Keeps(xs, Grow(o, d, xs, n))
  {
    if n == 0 {
      KeepsReflexive(xs);
    } else {
      GrowKeeps(o, d, xs, n - 1);
      GrowKeepsStep(o, d, xs, n);
    }
  }

  lemma GrowKeepsStep(o: Oracles, d: Dist, xs: seq<real>, n: nat)
    requires Len(d) == 1 && |xs| >= 2 && n > 0
    ensures Keeps(xs, Grow(o, d, xs, n - 1)) ==> Keeps(xs, Grow(o, d, xs, n))
  {
    var g := Grow(o, d, xs, n - 1);
    if Keeps(xs, g) {
      RoundKeeps(o, d, g);
      KeepsTransitive(xs, g, Round(o, d, g));
    }
  }

  /** The mean is always one of the nodes; order 0 gives the mean alone. */
  lemma LejaHasMean(o: Oracles, d: Dist, order: int)
    requires Len(d) == 1
    ensures Mean(d) in LejaNodes(o, d, order)
    ensures order <= 0 ==> LejaNodes(o, d, order) == [Mean(d)]
  {
    var start := Start(o, d);
    GrowKeeps(o, d, start, Rounds(order));
    assert start[1..2] == [Mean(d)];
    assert Mean(d) in multiset(LejaNodes(o, d, order));
  }

  /** When the mean lies within the range, the nodes come out sorted and
      within the range. */
  lemma LejaSorted(o: Oracles, d: Dist, order: int)
    requires ValidOracles(o) && Len(d) == 1
    requires o.range(d).0 <= Mean(d) <= o.range(d).1
    ensures Sorted(LejaNodes(o, d, order))
    ensures forall i :: 0 <= i < |LejaNodes(o, d, order)| ==>
      o.range(d).0 <= LejaNodes(o, d, order)[i] <= o.range(d).1
  {
    var lower, upper := o.range(d).0, o.range(d).1;
    var start := Start(o, d);
    var xs := Grow(o, d, start, Rounds(order));
    GrowSorted(o, d, start, Rounds(order));
    GrowKeeps(o, d, start, Rounds(order));
    var nodes := LejaNodes(o, d, order);
    forall i | 0 <= i < |nodes| ensures lower <= nodes[i] <= upper {
      assert nodes[i] == xs[i + 1];
      assert xs[0] <= xs[i + 1] <= xs[|xs| - 1];
    }
  }

  // ---------------------------------------------------------------------
  // quad_leja

  /** chaospy/quadrature/leja.py lines 86-90: the first abscissa row of
      every dimension and its weights, combined, the abscissas transposed
      to one row per dimension, the weights multiplied across dimensions. */
  function Tensor(xs: seq<seq<real>>, ws: seq<seq<real>>): (r: Result<Rule>)
    ensures r.Err? <==> ColumnsError(Lengths(xs)).Some? || ColumnsError(Lengths(ws)).Some?
    ensures r.Ok? ==> && |r.value.abscissas| == |xs|
                      && Rectangular(r.value.abscissas, Prod(Lengths(xs)))
                      && |r.value.weights| == Prod(Lengths(ws))
  {
    ColumnsShape(xs);
    CrossJoinColumns(xs);
    CrossJoinColumns(ws);
    match CrossJoin(Columns(xs))
    case Err(e) => Err(e)
    case Ok(x) =>
      match CrossJoin(Columns(ws))
      case Err(e) => Err(e)
      case Ok(w) =>
        JoinedColumns(xs);
        JoinedColumns(ws);
        Ok(Rule(Transpose(x, |xs|), RowProducts(w)))
  }

  /** The tensor step is combine_quadrature without a domain. */
  lemma TensorIsCombineQuadrature(xs: seq<seq<real>>, ws: seq<seq<real>>)
    requires Paired(xs, ws)
    ensures Tensor(xs, ws) == CombineQuadrature(xs, ws, None)
  {
    ColumnsShape(xs);
    CrossJoinColumns(xs);
    CrossJoinColumns(ws);
    assert Lengths(xs) == Lengths(ws);
    if ColumnsError(Lengths(xs)).None? {
      CombineQuadratureOk(xs, ws, None);
      var x := Joined(Normalized(Columns(xs)));
      var w := Joined(Normalized(Columns(ws)));
      NoDomain(x, |xs|);
      NoDomain(w, |xs|);
    }
  }

  function FirstRows(rules: seq<Rule>): (xs: seq<seq<real>>)
    requires forall k :: 0 <= k < |rules| ==> |rules[k].abscissas| > 0
    ensures |xs| == |rules| && forall k :: 0 <= k < |rules| ==> xs[k] == rules[k].abscissas[0]
  {
    seq(|rules|, k requires 0 <= k < |rules| => rules[k].abscissas[0])
  }

  function AllWeights(rules: seq<Rule>): (ws: seq<seq<real>>)
    ensures |ws| == |rules| && forall k :: 0 <= k < |rules| ==> ws[k] == rules[k].weights
  {
    seq(|rules|, k requires 0 <= k < |rules| => rules[k].weights)
  }

  /** A rule of `dim` abscissa rows, each as long as the weights. */
  predicate HasShape(rule: Rule, dim: int)
  {
    |rule.abscissas| == dim && Rectangular(rule.abscissas, |rule.weights|)
  }

  /** What `quad_leja(order, dist, rule, accuracy, recurrence_algorithm)`
      returns or raises. */
  function QuadLejaSpec(o: Oracles, order: Order, cfg: Config, d: Dist): (r: Result<Rule>)
    requires ValidOracles(o)
    ensures Len(d) > 1 && d.dependent ==> r == Err(DependencyError)
    ensures r.Ok? ==> HasShape(r.value, Len(d))
    decreases d, 1
  {
    if Len(d) > 1 then
      if d.dependent then Err(DependencyError)
      else
        match AllOk(Parts(o, order, d))
        case Err(e) => Err(e)
        case Ok(rules) =>
          var xs, ws := FirstRows(rules), AllWeights(rules);
          TensorIsCombineQuadrature(xs, ws);
          Tensor(xs, ws)
    else
      match order
      case List(_) => Err(TypeError)
      case PerDim(ns) =>
        if |ns| != 1 then Err(TypeError) else Ok(Univariate(o, ns[0], cfg, d))
      case Scalar(n) => Ok(Univariate(o, n, cfg, d))
      case NumpyInt(n) => Ok(Univariate(o, n, cfg, d))
  }

  /** The per-dimension rules, in dimension order: an int order is passed
      to every component, a list or array of orders gives `order[i]` to
      component `i` (an IndexError when it is too short; an array's item
      is a numpy integer), and indexing a numpy integer raises IndexError.
      The recursive calls pass no keyword arguments, so every component
      uses the `Defaults`. */
  function Parts(o: Oracles, order: Order, d: Dist): (rs: seq<Result<Rule>>)
    requires ValidOracles(o) && Len(d) > 1
    ensures |rs| == |d.parts|
    ensures forall k :: 0 <= k < |rs| && rs[k].Ok? ==> HasShape(rs[k].value, Len(d.parts[k]))
    decreases d, 0
  {
    seq(|d.parts|, k requires 0 <= k < |d.parts| =>
      if order.Scalar? then QuadLejaSpec(o, order, Defaults, d.parts[k])
      else if order.List? && k < |order.ns| then QuadLejaSpec(o, Scalar(order.ns[k]), Defaults, d.parts[k])
      else if order.PerDim? && k < |order.ns| then QuadLejaSpec(o, NumpyInt(order.ns[k]), Defaults, d.parts[k])
      else Err(IndexError))
  }

  /** The univariate branch: the nodes as a single row and their weights. */
  function Univariate(o: Oracles, order: int, cfg: Config, d: Dist): (rule: Rule)
    requires ValidOracles(o) && Len(d) == 1
    ensures HasShape(rule, 1) && |rule.weights| == Rounds(order) + 1
  {
    var nodes := LejaNodes(o, d, order);
    Rule([nodes], o.createWeights(nodes, d, cfg))
  }

  /** For a joint distribution, an int order and a list repeating it once
      per dimension give the same rule. */
  lemma Broadcast(o: Oracles, n: int, cfg: Config, d: Dist)
    requires ValidOracles(o) && Len(d) > 1
    ensures QuadLejaSpec(o, Scalar(n), cfg, d) == QuadLejaSpec(o, List(seq(Len(d), _ => n)), cfg, d)
  {
    assert Parts(o, Scalar(n), d) == Parts(o, List(seq(Len(d), _ => n)), d);
  }

  /** A list order is refused by `int(order)` for a univariate
      distribution. For a joint distribution whose components are all
      univariate, an array of orders and the list of the same orders give
      the same rule; they differ only for a joint component, which indexes
      the numpy integer it receives. */
  lemma SequenceOrders(o: Oracles, ns: seq<int>, cfg: Config, d: Dist)
    requires ValidOracles(o)
    ensures Len(d) == 1 ==> QuadLejaSpec(o, List(ns), cfg, d) == Err(TypeError)
    ensures Len(d) > 1 && (forall k :: 0 <= k < |d.parts| ==> Len(d.parts[k]) == 1) ==>
      QuadLejaSpec(o, PerDim(ns), cfg, d) == QuadLejaSpec(o, List(ns), cfg, d)
  {
    if Len(d) > 1 && (forall k :: 0 <= k < |d.parts| ==> Len(d.parts[k]) == 1) {
      var arr, lst := Parts(o, PerDim(ns), d), Parts(o, List(ns), d);
      forall k | 0 <= k < |d.parts|
        ensures arr[k] == lst[k]
      {
        if k < |ns| {
          NumpyIntOrder(o, ns[k], Defaults, d.parts[k]);
        }
      }
      assert arr == lst;
    }
  }

  /** `rule`, `accuracy` and `recurrence_algorithm` reach `create_weights`
      only in the univariate branch: a joint distribution gives the same
      result whatever they are, since its components run with the
      `Defaults`. */
  lemma ConfigOnlyUnivariate(o: Oracles, order: Order, c1: Config, c2: Config, d: Dist)
    requires ValidOracles(o)
    ensures Len(d) > 1 ==> QuadLejaSpec(o, order, c1, d) == QuadLejaSpec(o, order, c2, d)
    ensures Len(d) == 1 && QuadLejaSpec(o, order, c1, d).Ok? ==>
      var rule := QuadLejaSpec(o, order, c1, d).value;
      rule.weights == o.createWeights(rule.abscissas[0], d, c1)
  {
  }

  /** A numpy integer order passes `int(order)` for a univariate
      distribution, but an independent joint distribution indexes it and
      raises IndexError. */
  lemma NumpyIntOrder(o: Oracles, n: int, cfg: Config, d: Dist)
    requires ValidOracles(o)
    ensures Len(d) == 1 ==> QuadLejaSpec(o, NumpyInt(n), cfg, d) == QuadLejaSpec(o, Scalar(n), cfg, d)
    ensures Len(d) > 1 && !d.dependent ==> QuadLejaSpec(o, NumpyInt(n), cfg, d) == Err(IndexError)
  {
    if Len(d) > 1 && !d.dependent {
      var rs := Parts(o, NumpyInt(n), d);
      assert rs[..0] == [];
      AllOkFirstError(rs, 0);
    }
  }

  /** The joint rule is combine_quadrature, without a domain, of the
      per-dimension rules: so it has `prod(n_i)` nodes, node `k` takes
      the per-dimension nodes named by the digits of `k`, and its weight is
      the product of theirs. */
  lemma JointRule(o: Oracles, order: Order, cfg: Config, d: Dist)
    requires ValidOracles(o) && Len(d) > 1 && !d.dependent
    ensures var parts := AllOk(Parts(o, order, d));
      parts.Err? ==> QuadLejaSpec(o, order, cfg, d) == Err(parts.error)
    ensures var parts := AllOk(Parts(o, order, d));
      parts.Ok? ==>
        && (forall k :: 0 <= k < |parts.value| ==> |parts.value[k].abscissas| > 0)
        && Paired(FirstRows(parts.value), AllWeights(parts.value))
        && QuadLejaSpec(o, order, cfg, d)
           == CombineQuadrature(FirstRows(parts.value), AllWeights(parts.value), None)
  {
    var parts := AllOk(Parts(o, order, d));
    if parts.Ok? {
      forall k | 0 <= k < |parts.value| ensures |parts.value[k].abscissas| > 0 {
        assert HasShape(parts.value[k], Len(d.parts[k]));
      }
      TensorIsCombineQuadrature(FirstRows(parts.value), AllWeights(parts.value));
    }
  }

  /** Once every component has given its rule, the joint rule is their
      tensor product. */
  lemma JointSpec(o: Oracles, order: Order, cfg: Config, d: Dist, rules: seq<Rule>)
    requires ValidOracles(o) && Len(d) > 1 && !d.dependent
    requires AllOk(Parts(o, order, d)) == Ok(rules)
    ensures forall k :: 0 <= k < |rules| ==> |rules[k].abscissas| > 0
    ensures QuadLejaSpec(o, order, cfg, d) == Tensor(FirstRows(rules), AllWeights(rules))
  {
    JointRule(o, order, cfg, d);
  }

  /** The first component that raises decides the exception. */
  lemma JointSpecError(o: Oracles, order: Order, cfg: Config, d: Dist)
    requires ValidOracles(o) && Len(d) > 1 && !d.dependent
    requires AllOk(Parts(o, order, d)).Err?
    ensures QuadLejaSpec(o, order, cfg, d) == Err(AllOk(Parts(o, order, d)).error)
  {
  }

  /** quad_leja: the univariate loop, or one rule per dimension combined. */
  method QuadLeja(o: Oracles, order: Order, cfg: Config, d: Dist) returns (r: Result<Rule>)
    requires ValidOracles(o)
    ensures r == QuadLejaSpec(o, order, cfg, d)
    decreases d, 3
  {
    if Len(d) > 1 {
      if d.dependent {
        return Err(DependencyError);
      }
      r := QuadLejaJoint(o, order, cfg, d);
      return;
    }
    var n: int;
    match order {
      case List(_) =>
        return Err(TypeError);
      case PerDim(ns) =>
        if |ns| != 1 {
          return Err(TypeError);
        }
        n := ns[0];
      case Scalar(m) =>
        n := m;
      case NumpyInt(m) =>
        n := m;
    }
    var nodes := Abscissas(o, d, n);
    return Ok(Rule([nodes], o.createWeights(nodes, d, cfg)));
  }

  /** The branch for an independent joint distribution: the rules of the
      components, then the tensor product. `cfg` is not passed on. */
  method QuadLejaJoint(o: Oracles, order: Order, cfg: Config, d: Dist) returns (r: Result<Rule>)
    requires ValidOracles(o) && Len(d) > 1 && !d.dependent
    ensures r == QuadLejaSpec(o, order, cfg, d)
    decreases d, 2
  {
    var parts := CollectParts(o, order, d);
    if parts.Err? {
      JointSpecError(o, order, cfg, d);
      return Err(parts.error);
    }
    JointSpec(o, order, cfg, d, parts.value);
    r := TensorProduct(FirstRows(parts.value), AllWeights(parts.value));
  }

  /** The comprehension over the components, in order, stopping at the
      first that raises. */
  method CollectParts(o: Oracles, order: Order, d: Dist) returns (parts: Result<seq<Rule>>)
    requires ValidOracles(o) && Len(d) > 1
    ensures parts == AllOk(Parts(o, order, d))
    decreases d, 1
  {
    ghost var spec := Parts(o, order, d);
    var rules: seq<Rule> := [];
    for k := 0 to |d.parts|
      invariant AllOk(spec[..k]) == Ok(rules)
    {
      var part := QuadLejaPart(o, order, d, k);
      if part.Err? {
        AllOkFirstError(spec, k);
        return Err(part.error);
      }
      AllOkStep(spec, k, rules);
      rules := rules + [part.value];
    }
    assert spec[..|d.parts|] == spec;
    return Ok(rules);
  }

  /** The rule of component `k`, with its own order. */
  method QuadLejaPart(o: Oracles, order: Order, d: Dist, k: nat) returns (part: Result<Rule>)
    requires ValidOracles(o) && Len(d) > 1 && k < |d.parts|
    ensures part == Parts(o, order, d)[k]
    decreases d, 0
  {
    if order.Scalar? {
      part := QuadLeja(o, order, Defaults, d.parts[k]);
    } else if order.List? && k < |order.ns| {
      part := QuadLeja(o, Scalar(order.ns[k]), Defaults, d.parts[k]);
    } else if order.PerDim? && k < |order.ns| {
      part := QuadLeja(o, NumpyInt(order.ns[k]), Defaults, d.parts[k]);
    } else {
      part := Err(IndexError);
    }
  }

  /** chaospy/quadrature/leja.py lines 86-92 as written: two calls of
      combine, the transpose and the row products. */
  method TensorProduct(xs: seq<seq<real>>, ws: seq<seq<real>>) returns (r: Result<Rule>)
    ensures r == Tensor(xs, ws)
  {
    var x := Combine.Combine(Columns(xs));
    if x.Err? {
      return Err(x.error);
    }
    var w := Combine.Combine(Columns(ws));
    if w.Err? {
      return Err(w.error);
    }
    ColumnsShape(xs);
    return Ok(Rule(Transpose(x.value, |xs|), RowProducts(w.value)));
  }
}
