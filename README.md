# chaospy quadrature and distribution core, in Dafny

This project models three parts of chaospy, the Python library for polynomial chaos expansions.

**Tensor-product combination of quadrature rules** (`chaospy/quadrature/combine.py`):

- `combine` reshapes every argument to a 2-D array with one row per element. It refuses a product set larger than 10**9 values. Otherwise it builds the cross join row by row: the rows of the earlier arguments vary slowest.
- `combine_quadrature` joins the per-dimension abscissas and weights with `combine`. It optionally scales them from (0, 1) to a domain. It then transposes the abscissas to one row per dimension and multiplies the weights across dimensions.

**Leja quadrature** (`chaospy/quadrature/leja.py`, `quad_leja`):

- For a univariate distribution, the nodes start as `[lower, mean, upper]`. Each round runs one bounded minimisation per gap between neighbouring nodes and inserts the best candidate into its gap. The two anchors are stripped at the end.
- For an independent joint distribution, the per-dimension rules are combined with the tensor product.
- A dependent joint distribution is refused.
- The keyword arguments `rule`, `accuracy` and `recurrence_algorithm` reach `create_weights` only in the univariate branch. The joint branch calls `quad_leja` on each component without them, so the components use the defaults.

**Evaluation guards of the distribution base class** (`chaospy/distributions/baseclass.py`):

- `fwd`, `cdf`, `inv`, `pdf` and `mom` reshape their input to one row per dimension. They ask the distribution's evaluation hooks for bounds and values, then mask, clip or multiply what comes back.
- `cdf` refuses dependent joint distributions with `StochasticallyDependentError`.
- `__str__` prints the keyword parameters in sorted key order.
- `__len__` is also modelled.

## Modules

- `Outcomes` (outcomes.dfy): the Python exceptions the code raises, `Result` and `Option`, and `AllOk`, which evaluates a list comprehension whose items may raise.
- `Numeric` (numeric.dfy): `numpy.prod` and `numpy.sum` of integer and real sequences, `numpy.clip`, and arithmetic facts about row-major indices.
- `Text` (text.dfy): Python's ordering of strings, `sorted` over a list of keys, and `str.join`.
- `Combine` (combine.dfy): `combine` is the function `CrossJoin`, with the method `Combine` for its loop. `combine_quadrature` is `CombineQuadrature`.
- `Distributions` (distributions.dfy):
  - a numpy array is its shape and its row-major data;
  - `fwd` and `pdf` are methods over a zero-filled `array` with masked loops, each proved equal to a specification function (`Forward`, `Density`);
  - `cdf`, `inv`, `mom` and `__str__` are functions.
- `Leja` (leja.dfy):
  - `QuadLejaSpec` says what `quad_leja` returns or raises.
  - The method `QuadLeja` follows the source's recursion and loops and is proved equal to `QuadLejaSpec`.
  - `Abscissas` is the greedy loop, proved equal to the function `LejaNodes`.

Calls into code outside the core are parameters:

- For `Dist`, the `evaluation` hooks (`evaluate_bound`, `evaluate_forward`, `evaluate_inverse`, `evaluate_density`, `evaluate_moment`) are fields of `Hooks`. Each gives one element of its output for the (len(dist), n) view of the input. Whether `get_dependencies` finds dependencies is a field of `Dist`.
- For `quad_leja`, `dist.range()`, scipy's `fminbound`, `numpy.sqrt` and `create_weights` are fields of `Oracles`. `ValidOracles` assumes only two things about them:
  - `fminbound` returns a point of the interval it is given;
  - `create_weights` returns one weight per node.

## Model

| member | source | states |
|---|---|---|
| Outcomes.AllOk | chaospy/quadrature/leja.py:81-84 | The list of component rules exists exactly when no component raises, and then holds each component's rule in order. |
| Outcomes.AllOkKeepsError | chaospy/quadrature/leja.py:81-84 | Once one item of the comprehension has raised, the whole comprehension raises that error. |
| Outcomes.AllOkFirstError | chaospy/quadrature/leja.py:81-84 | The first item that raises decides the exception of the whole list. |
| Outcomes.AllOkStep | chaospy/quadrature/leja.py:81-84 | Each further item that does not raise appends its value. |
| Combine.Reshaped | chaospy/quadrature/combine.py:29 | `reshape(len(arg), -1)` turns a 1-D argument into a column of one-element rows and keeps a 2-D argument as it is. |
| Combine.RepeatRows | chaospy/quadrature/combine.py:39 | `numpy.tile(out, len(arg)).reshape(-1, out.shape[1])` has `len(out)*len(arg)` rows, each a row of `out`. |
| Combine.RepeatRowsAt | chaospy/quadrature/combine.py:39 | Row `i*n+j` of the repeated `out` is `out[i]`: each row of `out` is repeated `n` times in a block. |
| Combine.TileRows | chaospy/quadrature/combine.py:40 | `numpy.tile(arg.T, len(out)).reshape(arg.shape[1], -1).T` has `len(out)*len(arg)` rows, each a row of `arg`. |
| Combine.TileRowsAt | chaospy/quadrature/combine.py:40 | Row `i*len(arg)+j` of the tiled argument is `arg[j]`: the whole of `arg` is repeated `len(out)` times. |
| Combine.Step | chaospy/quadrature/combine.py:38-41 | One pass of the loop gives `len(out)*len(arg)` rows. |
| Combine.StepAt | chaospy/quadrature/combine.py:37-41 | Row `i*len(arg)+j` of one loop step is `out[i]` followed by `arg[j]`, so the accumulated rows vary slowest. |
| Combine.Joined | chaospy/quadrature/combine.py:36-42 | The loop over all arguments gives `prod(N)` rows, one per index tuple. |
| Combine.JoinedWidth | chaospy/quadrature/combine.py:17-19 | Every combined row has `sum(M)` columns. |
| Combine.JoinedAt | chaospy/quadrature/combine.py:36-42 | The row at the mixed-radix position of the index tuple `ix` (radices `N`) joins row `ix[k]` of every argument, in argument order. |
| Combine.JoinedRow | chaospy/quadrature/combine.py:36-42 | Every row `k` of the result is the join of the argument rows named by the mixed-radix digits of `k`. |
| Combine.CrossJoin | chaospy/quadrature/combine.py:5-42 | Covers what `combine` returns or raises. A result has `prod(N)` rows of `sum(M)` columns. An argument without rows cannot be reshaped and gives ValueError. An empty list gives IndexError. More than 10**9 values give MemoryError. After the size check, an argument without columns next to another argument gives ValueError in the loop's reshape, so a result of two or more arguments never had one. |
| Combine.Combine | chaospy/quadrature/combine.py:29-42 | The reshape, the size check and the loop that hstacks the repeated `out` with the tiled argument return exactly `CrossJoin`. |
| Combine.JoinAll | chaospy/quadrature/combine.py:36-42 | The loop raises ValueError exactly when there are two or more arguments and one has no columns. Otherwise it returns the cross join of all arguments. |
| Combine.ColumnlessExample | chaospy/quadrature/combine.py:29-42 | `combine([[[], []]])` returns the (2, 0) array unchanged. `combine([[1], [[]]])` raises ValueError. |
| Combine.CombineExample | chaospy/quadrature/combine.py:22-27 | The docstring example: `combine([[1,2],[[4,4],[5,6]]])` is `[[1,4,4],[1,5,6],[2,4,4],[2,5,6]]`. |
| Combine.SingleArgument | chaospy/quadrature/combine.py:36-42 | With one argument the loop does not run, and the reshaped argument comes back unchanged. |
| Combine.CrossJoinColumns | chaospy/quadrature/combine.py:29-34 | On 1-D arguments, `combine` fails exactly when an array is empty, the list is empty or `prod(N)*len(N) > 10**9`. It raises the matching exception. |
| Combine.JoinedColumns | chaospy/quadrature/combine.py:29-42 | When `combine` accepts 1-D arrays, it returns `prod(N)` rows with one column per array. |
| Combine.JoinedColumnsRow | chaospy/quadrature/combine.py:36-42 | Row `k` of `combine` on 1-D arrays takes element `ix[e]` of array `e`, where `ix` are the digits of `k`. |
| Combine.NoDomain | chaospy/quadrature/combine.py:71-73 | Without a domain, the abscissas and weights are left as they are. |
| Combine.Transpose | chaospy/quadrature/combine.py:75 | `.T` gives one row per dimension, with element `[c][k]` equal to `[k][c]` of its input. |
| Combine.CombineQuadrature | chaospy/quadrature/combine.py:45-81 | Covers what `combine_quadrature` returns or raises. It fails exactly when `combine` does. Otherwise the result has `dim` abscissa rows, each as long as the `prod(N)` weights, so the assertions on lines 78-79 never fail. |
| Combine.CombineQuadratureOk | chaospy/quadrature/combine.py:67-76 | On success the result is the transposed, domain-placed joined abscissas and the row products of the domain-scaled joined weights. |
| Combine.Combined | chaospy/quadrature/combine.py:45-81 | When `combine` accepts the arrays, `combine_quadrature` returns a rule of shape (dim, prod(N)). |
| Combine.CombinedAbscissa | chaospy/quadrature/combine.py:71-75 | Coordinate `e` of node `k` is `(hi-lo)*xs[e][ix[e]]+lo` with a domain and `xs[e][ix[e]]` without, where `ix` are the digits of `k`. |
| Combine.CombinedWeight | chaospy/quadrature/combine.py:73-76 | The weight of node `k` is the product over dimensions of `ws[e][ix[e]]`, each scaled by `hi-lo` when a domain is given. |
| Combine.FactorRow | chaospy/quadrature/combine.py:73 | Row `k` of the scaled joined weights holds the scaled per-dimension weights named by the digits of `k`. |
| Distributions.Len | chaospy/distributions/baseclass.py:398-400 | `len(dist)` is at least 1, and exactly 1 for a distribution without components. |
| Distributions.Forward | chaospy/distributions/baseclass.py:106-134 | When the hooks return, `fwd` keeps the input's shape and gives values in [0, 1]. It raises ValueError exactly when the input cannot be viewed as `len(dist)` rows. |
| Distributions.ForwardAt | chaospy/distributions/baseclass.py:124-131 | Each element of `fwd` is 1 above its upper bound, 0 below its lower bound, and the forward hook clipped to [0, 1] in between. |
| Distributions.Fwd | chaospy/distributions/baseclass.py:120-134 | The zero buffer with its two masked assignments equals `Forward`. |
| Distributions.MarkAbove | chaospy/distributions/baseclass.py:124-127 | `q_data[x > upper] = 1` on a zero buffer sets exactly the elements above their upper bound. |
| Distributions.SetForward | chaospy/distributions/baseclass.py:128-131 | The second masked assignment turns the first mask into `fwd`'s values. |
| Distributions.ProdAxis0 | chaospy/distributions/baseclass.py:159 | `numpy.prod(q, 0)` drops the first axis. It raises on a 0-d array. |
| Distributions.ProdAxis0InUnit | chaospy/distributions/baseclass.py:157-159 | The product along the first axis of values in [0, 1] stays in [0, 1]. |
| Distributions.ProdAxis0Zero | chaospy/distributions/baseclass.py:228-233 | A zero anywhere along the first axis makes that product zero. |
| Distributions.CdfJointOk | chaospy/distributions/baseclass.py:154-160 | For an independent joint distribution whose input has `len(dist)` rows, `cdf` succeeds with one value per position of the axes after the first. |
| Distributions.CdfJoint | chaospy/distributions/baseclass.py:154-160 | Element `p` of a joint `cdf` is the product along the first axis of the `fwd` values at positions `i*rest + p`. |
| Distributions.Cdf | chaospy/distributions/baseclass.py:136-160 | A dependent joint distribution raises `StochasticallyDependentError`. For one dimension `cdf` is `fwd`. A result lies in [0, 1] and has the input's shape, less the first axis for a joint distribution. |
| Distributions.Inv | chaospy/distributions/baseclass.py:162-197 | When the hooks return, `inv` raises AssertionError exactly when some probability lies outside [0, 1]. Its only other error is a failed reshape, and a result keeps the input's shape. |
| Distributions.InvEntry | chaospy/distributions/baseclass.py:191-193 | `numpy.clip` of the inverse hook's output to the bounds evaluated there: the output itself within the bounds, the upper bound above them, the lower bound below them, and always between them when they are ordered. |
| Distributions.InvAt | chaospy/distributions/baseclass.py:191-193 | Each element of `inv` is the inverse hook's output clipped to the bounds evaluated there: the output itself within them, the upper bound above them, the lower bound below them, and always between them when they are ordered. |
| Distributions.Density | chaospy/distributions/baseclass.py:199-234 | A failed reshape raises ValueError. A plain distribution keeps the input's shape. A joint distribution loses the first axis. |
| Distributions.DensityDataAt | chaospy/distributions/baseclass.py:227-230 | Each element of the masked density buffer is the density hook when the input lies within its bounds, and 0 otherwise. |
| Distributions.DensityPlain | chaospy/distributions/baseclass.py:223-234 | For a univariate distribution `pdf` always succeeds with the input's size. Each element is the density hook within the bounds and 0 outside them. |
| Distributions.DensityJoint | chaospy/distributions/baseclass.py:228-233 | For a joint distribution and an input of `len(dist)` rows, `pdf` succeeds. Element `p` is the product along the first axis of the masked densities at positions `i*rest + p`. |
| Distributions.DensityOutside | chaospy/distributions/baseclass.py:227-233 | Outside its bounds an element's density is 0. For a joint distribution, so is the whole product along the first axis through that element. |
| Distributions.Pdf | chaospy/distributions/baseclass.py:223-234 | The zero buffer with its masked assignment, multiplied over the first axis for a joint distribution, equals `Density`. |
| Distributions.Mom | chaospy/distributions/baseclass.py:312-349 | When the moment hook returns, `mom` succeeds exactly when `K` can be viewed as `len(dist)` rows and the moments fit the target shape; otherwise it raises ValueError. Moment `j` is the moment hook of column `j`. |
| Distributions.MomPlain | chaospy/distributions/baseclass.py:336-349 | For a plain distribution, `mom` always succeeds and keeps `K`'s shape. |
| Distributions.MomJoint | chaospy/distributions/baseclass.py:336-349 | For a joint distribution and `K` with one row per dimension, `mom` succeeds with shape `K.shape[1:]`. |
| Distributions.Lookup | chaospy/distributions/baseclass.py:392 | `kwargs[key]` is a value stored under that key. |
| Distributions.LookupUnique | chaospy/distributions/baseclass.py:392 | With distinct keys, `kwargs[key]` is the one value stored under that key. |
| Distributions.Str | chaospy/distributions/baseclass.py:386-393 | `str(dist)` starts with the class name and `(` and ends with `)`. |
| Distributions.StrPrefersRepr | chaospy/distributions/baseclass.py:388-391 | The printed parameters are `_repr` when it is set, whatever `prm` holds, and `prm` otherwise. |
| Distributions.StrKeys | chaospy/distributions/baseclass.py:388-392 | The printed keys are those of `_repr` (or of `prm` when `_repr` is unset), one per parameter, strictly ascending. |
| Distributions.StrItem | chaospy/distributions/baseclass.py:392 | Item `i` is the `i`-th sorted key, `=`, and that key's own value. |
| Distributions.StrOrderFree | chaospy/distributions/baseclass.py:386-393 | Two distributions of one class whose parameter dicts hold the same items print the same, whatever order the items were given in. |
| Distributions.StrExample | chaospy/distributions/baseclass.py:386-393 | `Uniform` with parameters `up=3, lo=-3` prints `Uniform(lo=-3, up=3)`. |
| Text.Insert | chaospy/distributions/baseclass.py:392 | Inserting a key adds exactly that key to the multiset of keys. |
| Text.Sort | chaospy/distributions/baseclass.py:392 | `sorted` is a permutation of its input. |
| Text.InsertSorted | chaospy/distributions/baseclass.py:392 | Inserting a new key into a strictly ascending list keeps it strictly ascending. |
| Text.SortSorted | chaospy/distributions/baseclass.py:392 | `sorted` of distinct keys is strictly ascending in Python's string order. |
| Text.SortedUnique | chaospy/distributions/baseclass.py:392 | Two strictly ascending lists of the same keys are equal. |
| Text.LessTotal | chaospy/distributions/baseclass.py:392 | Python's string order is total on different strings. |
| Text.LessTransitive | chaospy/distributions/baseclass.py:392 | Python's string order is transitive. |
| Leja.MeanIsMom | chaospy/quadrature/leja.py:95 | `dist.mom(1)` of a univariate distribution returns the single value `Mean`. |
| Leja.Start | chaospy/quadrature/leja.py:94-95 | The rounds start from three nodes with the mean in the middle. |
| Leja.ObjectiveAtNode | chaospy/quadrature/leja.py:98-101 | The local objective is 0 at every interior node, since one factor of its distance product vanishes there. |
| Leja.Candidates | chaospy/quadrature/leja.py:103-107 | There is one bounded minimisation per gap between neighbouring nodes. |
| Leja.FirstArgMin | chaospy/quadrature/leja.py:108 | `numpy.argmin` gives a position of the smallest value, and no earlier position holds it. |
| Leja.ArgMinUnique | chaospy/quadrature/leja.py:108 | The first position of the minimum is unique. |
| Leja.Round | chaospy/quadrature/leja.py:98-109 | Each round adds exactly one node. |
| Leja.Grow | chaospy/quadrature/leja.py:96-109 | After `n` rounds the list has `n` more nodes. |
| Leja.GrowKeeps | chaospy/quadrature/leja.py:96-109 | After any number of rounds the list still starts and ends with the anchors, and its interior holds every earlier interior node. |
| Leja.BestKeeps | chaospy/quadrature/leja.py:108-109 | Inserting at `index + 1` keeps both anchors and every interior node. |
| Leja.RoundKeeps | chaospy/quadrature/leja.py:108-109 | A round inserts strictly inside the list. |
| Leja.Insert | chaospy/quadrature/leja.py:109 | `list.insert` makes the list one item longer. |
| Leja.InsertKeeps | chaospy/quadrature/leja.py:109 | The new value sits at the given position, the items before it stay in place, those after it move up by one, and the multiset of items gains exactly the new value. |
| Leja.InsertBetween | chaospy/quadrature/leja.py:109 | Inserting a value between its two neighbours keeps the list sorted. |
| Leja.CandidatesBetween | chaospy/quadrature/leja.py:103-107 | Every candidate lies within its gap. |
| Leja.BestSorted | chaospy/quadrature/leja.py:108-109 | Candidates within their gaps keep a sorted list sorted. |
| Leja.RoundSorted | chaospy/quadrature/leja.py:96-109 | A round keeps the list sorted. |
| Leja.GrowSorted | chaospy/quadrature/leja.py:96-109 | Any number of rounds keeps a sorted start sorted. |
| Leja.LejaNodes | chaospy/quadrature/leja.py:94-111 | The univariate branch gives `max(order, 0) + 1` nodes. |
| Leja.Abscissas | chaospy/quadrature/leja.py:94-111 | The Python loop over `range(int(order))`, with the anchors stripped at the end, computes `LejaNodes`. |
| Leja.LejaHasMean | chaospy/quadrature/leja.py:94-111 | The mean is always a node. A non-positive order gives the mean alone. |
| Leja.LejaSorted | chaospy/quadrature/leja.py:94-111 | When the mean lies within the range, the nodes are sorted and lie within the range. |
| Leja.Univariate | chaospy/quadrature/leja.py:111-116 | The univariate rule is one row of `max(order, 0) + 1` abscissas with as many weights. |
| Leja.Tensor | chaospy/quadrature/leja.py:86-92 | The tensor step fails exactly when `combine` fails on the abscissas or on the weights. Otherwise it gives one abscissa row per dimension, each with `prod(N)` nodes, and one weight per index tuple of the weight arrays. |
| Leja.TensorIsCombineQuadrature | chaospy/quadrature/leja.py:86-90 | The tensor step of `quad_leja` is `combine_quadrature` without a domain. |
| Leja.QuadLejaSpec | chaospy/quadrature/leja.py:77-116 | A dependent joint distribution raises DependencyError. Every rule returned has `len(dist)` abscissa rows, each as long as the weights. For a univariate distribution `int(order)` refuses a list and an array of other than one element with TypeError. |
| Leja.Parts | chaospy/quadrature/leja.py:81-84 | There is one result per component, and each component's rule has that component's shape. |
| Leja.Broadcast | chaospy/quadrature/leja.py:81-84 | For a joint distribution, an int order and a list repeating it once per dimension give the same rule. |
| Leja.SequenceOrders | chaospy/quadrature/leja.py:81-96 | A list order of a univariate distribution raises TypeError at `int(order)`. For a joint distribution of univariate components, an array order and the list of the same orders give the same rule. |
| Leja.ConfigOnlyUnivariate | chaospy/quadrature/leja.py:31-37 | A joint distribution gives the same result whatever `rule`, `accuracy` and `recurrence_algorithm` are, because lines 82 and 84 do not pass them on. A univariate distribution gets its weights from `create_weights` with exactly the configuration given. |
| Leja.NumpyIntOrder | chaospy/quadrature/leja.py:81-84 | A numpy integer order acts like the int for a univariate distribution. It fails `isinstance(order, int)`, so an independent joint distribution indexes it and raises IndexError. |
| Leja.JointRule | chaospy/quadrature/leja.py:81-92 | The first component that raises decides the exception. Otherwise the joint rule is `combine_quadrature` of the first abscissa rows and the weights of the components. |
| Leja.QuadLeja | chaospy/quadrature/leja.py:77-116 | The recursive method, with its loops, returns exactly `QuadLejaSpec`. |
| Leja.QuadLejaJoint | chaospy/quadrature/leja.py:77-92 | The component rules, then the tensor product, return exactly `QuadLejaSpec`. |
| Leja.CollectParts | chaospy/quadrature/leja.py:81-84 | The comprehension over the components, stopping at the first that raises, returns exactly the `AllOk` of `Parts`. |
| Leja.QuadLejaPart | chaospy/quadrature/leja.py:81-84 | Component `k` gets the int order or `order[k]` (a numpy integer for an array), with the default configuration. It raises IndexError when the list or array is too short or the order is a numpy integer. |
| Leja.TensorProduct | chaospy/quadrature/leja.py:86-92 | Two calls of `combine`, the transpose and the row products compute `Tensor`. |

## Left out

- The `evaluation` module is outside this model: bounds, forward, inverse, density and moment hooks, and dependency detection. The hooks are parameters seen element by element, so the model does not capture a hook that looks at other elements in shape-dependent ways beyond the (len, n) view it is given.
- scipy's `fminbound`, `numpy.sqrt`, `dist.range()` and `create_weights` (with `analytical_stieljes`, `discretized_stieltjes` and `generate_quadrature`) are parameters. The model does not compute Leja weights.
- `ValidOracles`: does not state that `fminbound`'s reported value is the objective at its point. No property proved here depends on that.
- Floating point: values are mathematical reals, so rounding and `nan` are not modelled. `numpy.asfarray` conversions are identities.
- `interpret_as_integer` (the `astype(int)` casts in `inv` and `range`) is not modelled.
- `Dist.sample`, `ttr`, `range`, `__getitem__`, the arithmetic operators and `__repr__` are outside the modelled core.
- `Distributions.Mom`: the moment cache dict passed to `evaluate_moment` is not modelled, so each moment is the hook of its column alone.
- `Distributions.Mom`: `numpy.asarray(K, dtype=int)` truncation of non-integer exponents is not modelled. `K` is already an integer array.
- `Distributions.Cdf`: the dependency check is a boolean field of `Dist`, since `get_dependencies` is outside the model.
- `Distributions.Str`: parameter values are already their `str()` text, and the parameter dict is an association list in insertion order. `sorted` is insertion sort, which gives the same result on distinct keys (`Text.SortedUnique`).
- `Distributions.Len`: the base class returns 1. Joint distributions override `__len__` to count their components, which is modelled as `|parts|`, with 1 when there are no components.
- `Leja.QuadLejaSpec`: orders are a Python int, a list of ints, a 1-D numpy array of integers or a numpy integer. Tuples, nested lists, arrays of two or more dimensions, bool-as-int and float orders are not modelled.
- The hooks and oracles never raise in the model: each is a total function. In the source, a distribution without `_mom` raises StochasticallyDependentError from the default `_mom` (chaospy/distributions/baseclass.py:351-353), which reaches `mom` and the `dist.mom(1)` of chaospy/quadrature/leja.py:95. `range()` catches that error from `evaluate_inverse` (chaospy/distributions/baseclass.py:87-91). `create_weights` can raise `LinAlgError` from `numpy.linalg.inv` (chaospy/quadrature/leja.py:137). Every exception these raise propagates unchanged, so a result of the model holds whenever the hooks return.
- `Combine.CombineQuadrature`: abscissas and weights are 1-D per dimension and come in matching pairs (`Paired`: as many weight arrays as abscissa arrays, each pair of equal length). The source does not check this. Unpaired lists whose length products agree pair each node with the weight of another index tuple. Other unpaired lists fail the shape assertions on lines 78-79 with AssertionError. Neither case is modelled. The `domain` is per-dimension lower and upper vectors of length `dim`, with `None` for the empty default; a domain of two scalars is modelled by repeating them once per dimension.
- `Combine.CrossJoin`: the size on chaospy/quadrature/combine.py:32 is computed by `numpy.prod` and `numpy.sum` in 64-bit integers and can wrap: 64 arrays of two elements give `2**64`, which wraps to a size of 0, so no MemoryError is raised and numpy fails later in the loop. The model uses unbounded integers and raises MemoryError there.
- `Combine.CrossJoin`: arguments are 1-D or 2-D arrays. Ragged nested lists (which numpy turns into object arrays) and arrays of three or more dimensions are not modelled.
