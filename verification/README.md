# Connected-nodes similarity on double vectors

A Dafny model of the core of a Tulip algorithm plugin. The plugin gives every
edge of a graph a similarity score. The score is computed from the feature
vectors (vectors of doubles) of the edge's two endpoints. It has two parts:

- **check** reads five named parameters from the host's data set:
  `source`, `distance function`, `similarity function`, `result` and
  `normalization factor`. It resolves the two function names into closed
  choices. For the `Exponential` similarity it also validates the
  normalization factor and squares it.
- **run** walks the edges once. For each edge it computes the Euclidian
  distance between the endpoints' vectors and stores a value. With
  `Reciprocal` it stores `1 / (d + 1)`. With `Exponential` it stores
  `exp(-d² / factor²)`. With `Normalized` it stores the raw distance and keeps
  the running maximum `d_max`. A second pass then rescales every stored
  distance to `1 - d / d_max`, or sets every edge to 1 when `d_max` is 0.

Modules:

- `SimilarityFunctions` (`similarity_functions.dfy`): the scalar helpers. It
  has the lock-step sum of squares, the distance loop, and the reciprocal and
  exponential transforms. It also has `MathLib`, which holds the C library's
  `sqrt` and `exp`. Their values are not modelled: they are passed in as
  parameters, and the predicate `Sound` states the only facts the proofs use.
  `sqrt` is the non-negative square root of a non-negative argument. `exp` is
  positive, strictly increasing, and `exp(0) = 1`.
- `SimilarityConfig` (`similarity_config.dfy`): the data set as a map from
  parameter name to a typed value, and the check as a total function to
  `Accepted(config)`, `Rejected(message)` or `Escaped(thrown)`.
- `SimilarityComputer` (`similarity_computer.dfy`): edges as a sequence of
  `Edge(id, source, target)` and the feature store as a map from node to
  `seq<real>`. It has the two passes as methods, and `Similarity`, a
  whole-graph reference definition of the value each edge ends up with.

Doubles are modelled as `real`.

## Model

| member | source | states |
|---|---|---|
| SimilarityFunctions.SumOfSquares | SimilarityFunctions.h:9-12 | The accumulated sum of squared coordinate differences is never negative |
| SimilarityFunctions.SumOfSquaresZeroIff | SimilarityFunctions.h:9-12 | The sum of squares over the first n coordinates is 0 exactly when both vectors agree on those coordinates (so it is 0 when a == b) |
| SimilarityFunctions.SumOfSquaresSymmetric | SimilarityFunctions.h:11-12 | Swapping the two vectors does not change the sum of squares |
| SimilarityFunctions.SumOfSquaresIgnoresTail | SimilarityFunctions.h:9-12 | Coordinates of the second vector past the first's length never contribute: a longer vector is silently truncated |
| SimilarityFunctions.Distance | SimilarityFunctions.h:9-14 | The Euclidian distance is non-negative, and its square is the sum of squares over the first vector's length |
| SimilarityFunctions.DistanceZeroIff | SimilarityFunctions.h:9-14 | The distance is 0 exactly when the first vector equals the same-length prefix of the second |
| SimilarityFunctions.DistanceExample | SimilarityFunctions.h:9-14 | The distance between [0, 0] and [3, 4] is 5 |
| SimilarityFunctions.EuclidianDistance | SimilarityFunctions.h:9-14 | The loop runs over the first vector's length, reads the second in lock-step (so the second must be at least as long), and returns the square root of the sum of squares; the result is non-negative and 0 exactly when the vectors agree |
| SimilarityFunctions.ReciprocalSimilarity | SimilarityFunctions.h:17-20 | The result times (d + 1) is 1; for d >= 0 it lies in (0, 1], and it is 1 at d = 0 |
| SimilarityFunctions.ReciprocalStrictlyDecreasing | SimilarityFunctions.h:17-20 | The reciprocal similarity is strictly decreasing on non-negative distances |
| SimilarityFunctions.ExponentialSimilarity | SimilarityFunctions.h:22-25 | The result is positive; with a positive factor the exponent is non-positive, so the result is at most 1; at d = 0 it is exactly 1 |
| SimilarityFunctions.ExponentialStrictlyDecreasing | SimilarityFunctions.h:22-25 | With a positive factor the exponential similarity is strictly decreasing on non-negative distances |
| SimilarityConfig.Check | DoubleVectorSimilarityComputer.cpp:93-133 | Acceptance holds exactly when the four required parameters are present with their types, the distance name is "Euclidian", the similarity name is one of the three known names, and an Exponential choice has a present, strictly positive factor. The first missing parameter is reported by name, including a missing factor for Exponential. An unknown distance or similarity name is reported as such. A non-positive factor escapes as an uncaught exception, never as success. Each name resolves to the choice of exactly that name, and an accepted Exponential choice stores the square of the factor, which is positive |
| SimilarityConfig.FactorReadOnlyForExponential | DoubleVectorSimilarityComputer.cpp:110-121 | The normalization factor is read only for the Exponential similarity: for any other similarity name, changing or removing it does not change the outcome |
| SimilarityConfig.NonPositiveFactorNeverAccepted | DoubleVectorSimilarityComputer.cpp:115-118 | An Exponential choice with a factor <= 0 is never accepted |
| SimilarityConfig.ZeroFactorEscapes | DoubleVectorSimilarityComputer.cpp:117-118 | A complete Exponential configuration with factor 0 ends in the escaping exception, not in a reported rejection |
| SimilarityConfig.CheckCorrected | DoubleVectorSimilarityComputer.cpp:115-130 | With the error thrown by value, the check never lets an exception escape. A non-positive factor is reported as "The \"normalization factor\" must be strictly positive." exactly when the as-written check escapes, and every other outcome is exactly that of the as-written check |
| SimilarityComputer.EdgeDistance | DoubleVectorSimilarityComputer.cpp:143-151 | An edge's distance, taken between its source's and its target's feature vectors, is non-negative |
| SimilarityComputer.EdgeDistanceZeroIff | DoubleVectorSimilarityComputer.cpp:143-151 | An edge's distance is 0 exactly when its endpoints' feature vectors agree |
| SimilarityComputer.MaxDistance | DoubleVectorSimilarityComputer.cpp:137-158 | The running maximum that starts at 0 is non-negative, bounds every edge's distance, is 0 for no edges, and is the distance of some edge otherwise |
| SimilarityComputer.FirstPass | DoubleVectorSimilarityComputer.cpp:137-163 | After the first pass every edge has a stored entry and nothing else does. Each entry is the edge's reciprocal or exponential similarity, or its raw distance for Normalized. For Normalized, d_max equals the maximum edge distance, or 0 when there are no edges |
| SimilarityComputer.Rescale | DoubleVectorSimilarityComputer.cpp:166-172 | The second pass replaces every stored value d with 1 - d / d_max and keeps the set of edges with an entry unchanged |
| SimilarityComputer.Run | DoubleVectorSimilarityComputer.cpp:135-179 | The run always reports success, and gives an entry to exactly the graph's edges. Each edge's value is its similarity: reciprocal or exponential of its own distance, or 1 - d/d_max for Normalized, or 1 when d_max is 0 |
| SimilarityComputer.NormalizedInUnitInterval | DoubleVectorSimilarityComputer.cpp:165-176 | Every normalized similarity lies in [0, 1] |
| SimilarityComputer.NormalizedAttainsZero | DoubleVectorSimilarityComputer.cpp:165-172 | When some edge has a positive distance, some edge's normalized similarity is 0 |
| SimilarityComputer.NormalizedDegenerate | DoubleVectorSimilarityComputer.cpp:173-175 | When every edge's distance is 0, every edge's normalized similarity is exactly 1 |
| SimilarityComputer.MaxDistanceOrderIndependent | DoubleVectorSimilarityComputer.cpp:137-163 | d_max depends only on which edges are visited, not on the order of the edge iterator |
| SimilarityComputer.SimilarityOrderIndependent | DoubleVectorSimilarityComputer.cpp:139-176 | Every edge's final value is the same for any order of the edge iterator |
| SimilarityComputer.LocalSimilarity | DoubleVectorSimilarityComputer.cpp:149-161 | Under Reciprocal and Exponential, an edge's value depends only on its own endpoints' feature vectors, not on other edges or nodes |
| SimilarityComputer.NormalizedExample | DoubleVectorSimilarityComputer.cpp:155-172 | Two edges at distances 2 and 4 get normalized similarities 0.5 and 0 |

## Left out

- Plugin registration, the parameter help text, the constructor's parameter declarations and the plugin information macros: host glue with no behaviour.
- Tulip's `DataSet`, `StringCollection`, property storage and edge iterators. They are modelled as a map from names to typed values, the current string, a node-to-vector map, an edge-to-real map and a sequence of distinct edges. A data-set entry of another type than the one a parameter is read with counts as not provided.
- IEEE-754 doubles, their rounding, infinities and NaN. Values are reals, and `sqrt` and `exp` are parameters constrained only by `Sound`.
- SimilarityFunctions.ReciprocalSimilarity: the pole at d = -1, where a double would give infinity, is excluded by a precondition. A distance never reaches it.
- SimilarityFunctions.ExponentialSimilarity: a zero squared factor, where a double would give an infinity or NaN, is excluded by a precondition. After a successful check the factor is strictly positive.
- SimilarityComputer.Run: requires the configuration a successful check produces (`Usable`), because the run is only called after check succeeds.
- SimilarityComputer.Run: requires every target vector to be at least as long as its source vector. The distance loop reads the target past its end otherwise, and the check does not verify vector lengths (it only carries a note to do so).
- The uninitialised distance when the distance kind is not Euclidian cannot arise: the kind is a closed choice with the single value `Euclidian`.
- The normalization factor member is not carried for the Reciprocal and Normalized choices, which never read it: the resolved choice holds the squared factor only for Exponential.
- SimilarityComputer.Run: the degenerate case of the normalized similarity is one bulk write of 1.0 to the whole result property. It is modelled as a write of 1.0 to exactly the visited edges, because edges outside the graph are not modelled.
- The data set given by the host is either absent ("No dataset provided.") or a map; other host failures are not modelled.

## Findings

| source | as written | input that shows it | evidently intended | confidence | as-written member | corrected member |
|---|---|---|---|---|---|---|
| DoubleVectorSimilarityComputer.cpp:117-118 | The non-positive factor error is thrown with `throw new`, so a pointer is thrown. The handler catches `std::runtime_error&` only, so the exception escapes `check` and the message is never reported | Exponential similarity with normalization factor 0 and every other parameter valid | Throw by value like the other errors, so that `check` returns false with the message | high; not executed | SimilarityConfig.ZeroFactorEscapes | SimilarityConfig.CheckCorrected |
