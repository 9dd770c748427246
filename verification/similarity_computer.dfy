/** The plugin's run: one pass over the edges that computes each edge's
    distance and stores its similarity, and, for the normalized similarity, a
    second pass that rescales every stored distance by the largest one. */
module SimilarityComputer {

  import opened SimilarityFunctions
  import opened SimilarityConfig

  type Node = nat

  /** A graph edge: its identity and its two endpoints. */
  datatype Edge = Edge(id: nat, source: Node, target: Node)

  /** The feature vector of every node. */
  type Features = map<Node, seq<real>>

  /** The edges visit each edge of the graph once. */
  predicate Distinct(edges: seq<Edge>)
  {
    forall i, j :: 0 <= i < j < |edges| ==> edges[i] != edges[j]
  }

  /** The distance of an edge can be computed: both endpoints have a feature
      vector, and the target's is at least as long as the source's. */
  predicate Measurable(features: Features, e: Edge)
  {
    && e.source in features
    && e.target in features
    && |features[e.source]| <= |features[e.target]|
  }

  predicate AllMeasurable(features: Features, edges: seq<Edge>)
  {
    forall e :: e in edges ==> Measurable(features, e)
  }

  /** The raw Euclidian distance between the endpoints' feature vectors. */
  function EdgeDistance(lib: MathLib, features: Features, e: Edge): (d: real)
    requires Sound(lib)
    requires Measurable(features, e)
    ensures 0.0 <= d
  {
    Distance(lib, features[e.source], features[e.target])
  }

  /** The running maximum of the edge distances, starting from 0: the value
      `d_max` holds after the first pass over `edges`. */
  function MaxDistance(lib: MathLib, features: Features, edges: seq<Edge>): (m: real)
    requires Sound(lib)
    requires AllMeasurable(features, edges)
    ensures 0.0 <= m
    ensures forall e :: e in edges ==> EdgeDistance(lib, features, e) <= m
    ensures |edges| == 0 ==> m == 0.0
    ensures |edges| > 0 ==> exists e :: e in edges && EdgeDistance(lib, features, e) == m
    decreases |edges|
  {
    if |edges| == 0 then 0.0
    else
      var last := edges[|edges| - 1];
      var m := MaxDistance(lib, features, edges[..|edges| - 1]);
      var d := EdgeDistance(lib, features, last);
      if d > m then d else m
  }

  /** The value the first pass stores for an edge. */
  function FirstPassValue(lib: MathLib, config: Config, features: Features, e: Edge): real
    requires Sound(lib)
    requires Usable(config)
    requires Measurable(features, e)
  {
    var d := EdgeDistance(lib, features, e);
    match config.similarity
    case Reciprocal => ReciprocalSimilarity(d)
    case Normalized => d
    case Exponential(f) => ExponentialSimilarity(lib, d, f)
  }

  /** The similarity an edge ends up with, stated over the whole graph: for
      the normalized similarity it is `1 - d / d_max`, or 1 when every
      distance is zero. */
  function Similarity(lib: MathLib, config: Config, features: Features, edges: seq<Edge>, e: Edge): real
    requires Sound(lib)
    requires Usable(config)
    requires AllMeasurable(features, edges)
    requires Measurable(features, e)
  {
    if config.similarity.Normalized? then
      var dMax := MaxDistance(lib, features, edges);
      if dMax > 0.0 then 1.0 - EdgeDistance(lib, features, e) / dMax else 1.0
    else
      FirstPassValue(lib, config, features, e)
  }

  /** The first pass: store each edge's first-pass value and keep the
      running maximum distance `d_max`, which only the normalized similarity
      updates. */
  method FirstPass(lib: MathLib, config: Config, features: Features, edges: seq<Edge>)
    returns (stored: map<Edge, real>, dMax: real)
    requires Sound(lib)
    requires Usable(config)
    requires AllMeasurable(features, edges)
    ensures forall e :: e in stored <==> e in edges
    ensures forall i :: 0 <= i < |edges| ==>
      stored[edges[i]] == FirstPassValue(lib, config, features, edges[i])
    ensures config.similarity.Normalized? ==> dMax == MaxDistance(lib, features, edges)
  {
    dMax := 0.0;
    stored := map[];
    var i := 0;
    while i < |edges|
      invariant 0 <= i <= |edges|
      invariant forall e :: e in stored <==> e in edges[..i]
      invariant forall j :: 0 <= j < i ==>
        stored[edges[j]] == FirstPassValue(lib, config, features, edges[j])
      invariant config.similarity.Normalized? ==> dMax == MaxDistance(lib, features, edges[..i])
    {
      var e := edges[i];
      assert e in edges;
      var d;
      match config.distance {
        case Euclidian =>
          d := EuclidianDistance(lib, features[e.source], features[e.target]);
      }
      match config.similarity {
        case Reciprocal =>
          stored := stored[e := ReciprocalSimilarity(d)];
        case Normalized =>
          if d > dMax {
            dMax := d;
          }
          stored := stored[e := d];
        case Exponential(f) =>
          stored := stored[e := ExponentialSimilarity(lib, d, f)];
      }
      assert edges[..i + 1] == edges[..i] + [e];
      assert edges[..i + 1][..i] == edges[..i];
      i := i + 1;
    }
    assert edges[..i] == edges;
  }

  /** The second pass of the normalized similarity: every stored distance `d`
      becomes `1 - d / d_max`. */
  method Rescale(edges: seq<Edge>, stored: map<Edge, real>, dMax: real)
    returns (result: map<Edge, real>)
    requires Distinct(edges)
    requires dMax > 0.0
    requires forall e :: e in stored <==> e in edges
    ensures forall e :: e in result <==> e in edges
    ensures forall i :: 0 <= i < |edges| ==> result[edges[i]] == 1.0 - stored[edges[i]] / dMax
  {
    result := stored;
    var k := 0;
    while k < |edges|
      invariant 0 <= k <= |edges|
      invariant forall e :: e in result <==> e in edges
      invariant forall j :: 0 <= j < k ==> result[edges[j]] == 1.0 - stored[edges[j]] / dMax
      invariant forall j :: k <= j < |edges| ==> result[edges[j]] == stored[edges[j]]
    {
      var e := edges[k];
      result := result[e := 1.0 - result[e] / dMax];
      k := k + 1;
    }
  }

  /** The run. It stores a value for every edge and always reports success. */
  method Run(lib: MathLib, config: Config, features: Features, edges: seq<Edge>)
    returns (result: map<Edge, real>, ok: bool)
    requires Sound(lib)
    requires Usable(config)
    requires Distinct(edges)
    requires AllMeasurable(features, edges)
    ensures ok
    ensures forall e :: e in result <==> e in edges
    ensures forall i :: 0 <= i < |edges| ==>
      result[edges[i]] == Similarity(lib, config, features, edges, edges[i])
  {
    var dMax;
    result, dMax := FirstPass(lib, config, features, edges);
    if config.similarity.Normalized? {
      if dMax > 0.0 {
        result := Rescale(edges, result, dMax);
      } else {
        result := map e | e in edges :: 1.0;
      }
    }
    ok := true;
  }

  lemma RatioInUnitInterval(d: real, m: real)
    requires 0.0 <= d <= m && 0.0 < m
    ensures 0.0 <= d / m <= 1.0
  {
  }

  lemma SelfRatio(m: real)
    requires 0.0 < m
    ensures 1.0 - m / m == 0.0
  {
  }

  /** Under the normalized similarity every edge ends in [0, 1]. */
  lemma NormalizedInUnitInterval(lib: MathLib, config: Config, features: Features, edges: seq<Edge>, e: Edge)
    requires Sound(lib)
    requires config.similarity == Normalized
    requires AllMeasurable(features, edges)
    requires e in edges
    ensures 0.0 <= Similarity(lib, config, features, edges, e) <= 1.0
  {
    var dMax := MaxDistance(lib, features, edges);
    if dMax > 0.0 {
      RatioInUnitInterval(EdgeDistance(lib, features, e), dMax);
    }
  }

  /** When some distance is positive, the farthest edge gets similarity 0. */
  lemma NormalizedAttainsZero(lib: MathLib, config: Config, features: Features, edges: seq<Edge>, e: Edge)
    requires Sound(lib)
    requires config.similarity == Normalized
    requires AllMeasurable(features, edges)
    requires e in edges && EdgeDistance(lib, features, e) > 0.0
    ensures exists x :: x in edges && Similarity(lib, config, features, edges, x) == 0.0
  {
    var dMax := MaxDistance(lib, features, edges);
    var x :| x in edges && EdgeDistance(lib, features, x) == dMax;
    SelfRatio(dMax);
    assert Similarity(lib, config, features, edges, x) == 0.0;
  }

  /** When every distance is zero, the normalized similarity of every edge is
      exactly 1. */
  lemma NormalizedDegenerate(lib: MathLib, config: Config, features: Features, edges: seq<Edge>)
    requires Sound(lib)
    requires config.similarity == Normalized
    requires AllMeasurable(features, edges)
    requires forall e :: e in edges ==> EdgeDistance(lib, features, e) == 0.0
    ensures forall e :: e in edges ==> Similarity(lib, config, features, edges, e) == 1.0
  {
    var dMax := MaxDistance(lib, features, edges);
    if |edges| > 0 {
      var x :| x in edges && EdgeDistance(lib, features, x) == dMax;
    }
    assert dMax == 0.0;
  }

  /** An edge's distance is zero exactly when its source's feature vector
      equals the matching prefix of its target's: the degenerate case is the
      graph whose every edge joins nodes with identical features. */
  lemma EdgeDistanceZeroIff(lib: MathLib, features: Features, e: Edge)
    requires Sound(lib)
    requires Measurable(features, e)
    ensures EdgeDistance(lib, features, e) == 0.0 <==>
      features[e.source] == features[e.target][..|features[e.source]|]
  {
    DistanceZeroIff(lib, features[e.source], features[e.target]);
  }

  /** `d_max` depends on which edges are visited, not on their order. */
  lemma MaxDistanceOrderIndependent(lib: MathLib, features: Features, edges: seq<Edge>, edges': seq<Edge>)
    requires Sound(lib)
    requires AllMeasurable(features, edges) && AllMeasurable(features, edges')
    requires forall e :: e in edges <==> e in edges'
    ensures MaxDistance(lib, features, edges) == MaxDistance(lib, features, edges')
  {
    var m, m' := MaxDistance(lib, features, edges), MaxDistance(lib, features, edges');
    if |edges| > 0 {
      var x :| x in edges && EdgeDistance(lib, features, x) == m;
      assert m <= m';
      assert edges' != [];
      var x' :| x' in edges' && EdgeDistance(lib, features, x') == m';
      assert m' <= m;
    }
  }

  /** The final similarity of every edge is the same whatever order the edges
      are visited in. */
  lemma SimilarityOrderIndependent(
    lib: MathLib, config: Config, features: Features, edges: seq<Edge>, edges': seq<Edge>, e: Edge)
    requires Sound(lib)
    requires Usable(config)
    requires AllMeasurable(features, edges) && AllMeasurable(features, edges')
    requires forall x :: x in edges <==> x in edges'
    requires Measurable(features, e)
    ensures Similarity(lib, config, features, edges, e) == Similarity(lib, config, features, edges', e)
  {
    MaxDistanceOrderIndependent(lib, features, edges, edges');
  }

  /** Under the reciprocal and exponential similarities an edge's value is
      determined by its own endpoints' feature vectors alone: the other edges
      and the other nodes' features play no part. */
  lemma LocalSimilarity(
    lib: MathLib, config: Config,
    features: Features, edges: seq<Edge>, features': Features, edges': seq<Edge>, e: Edge)
    requires Sound(lib)
    requires Usable(config)
    requires !config.similarity.Normalized?
    requires AllMeasurable(features, edges) && AllMeasurable(features', edges')
    requires Measurable(features, e)
    requires e.source in features' && e.target in features'
    requires features'[e.source] == features[e.source] && features'[e.target] == features[e.target]
    ensures Similarity(lib, config, features, edges, e) == Similarity(lib, config, features', edges', e)
  {
  }

  /** Two edges at distances 2 and 4: the normalized similarities are 1/2 and
      0. */
  lemma NormalizedExample(lib: MathLib)
    requires Sound(lib)
    ensures
      var features: Features := map[0 := [0.0], 1 := [2.0], 2 := [4.0]];
      var edges := [Edge(0, 0, 1), Edge(1, 0, 2)];
      var config := Config("data", "viewMetric", Euclidian, Normalized);
      && AllMeasurable(features, edges)
      && Similarity(lib, config, features, edges, edges[0]) == 0.5
      && Similarity(lib, config, features, edges, edges[1]) == 0.0
  {
    var features: Features := map[0 := [0.0], 1 := [2.0], 2 := [4.0]];
    var edges := [Edge(0, 0, 1), Edge(1, 0, 2)];
    assert SumOfSquares([0.0], [2.0], 1) == Square(2.0);
    assert SumOfSquares([0.0], [4.0], 1) == Square(4.0);
    SqrtOfSquare(lib, 2.0);
    SqrtOfSquare(lib, 4.0);
    assert EdgeDistance(lib, features, edges[0]) == 2.0;
    assert EdgeDistance(lib, features, edges[1]) == 4.0;
    assert edges[..1] == [edges[0]];
    assert [edges[0]][..0] == [];
    assert MaxDistance(lib, features, [edges[0]]) == 2.0;
    assert MaxDistance(lib, features, edges) == 4.0;
  }
}
