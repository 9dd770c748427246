/** The plugin's configuration check: it reads the named parameters of the
    host's data set, resolves the distance and similarity names into closed
    choices, and validates and squares the normalization factor. */
module SimilarityConfig {

  import SimilarityFunctions

  datatype Option<T> = None | Some(value: T)

  /** One entry of the host's data set. Each parameter is read with a
      declared type; an entry of another type is not provided. */
  datatype Param =
    | VectorProperty(vectorName: string)
    | ScalarProperty(scalarName: string)
    | StringCollection(current: string)
    | Double(number: real)

  type DataSet = map<string, Param>

  const Source := "source"
  const DistanceFunction := "distance function"
  const SimilarityFunction := "similarity function"
  const Result := "result"
  const NormalizationFactor := "normalization factor"

  /** The parameters every configuration must provide, in the order they are
      checked. */
  const Required := [Source, DistanceFunction, SimilarityFunction, Result]

  /** Whether `p` has the type the parameter named `key` is read with. */
  predicate HasDeclaredType(key: string, p: Param)
  {
    if key == Source then p.VectorProperty?
    else if key == Result then p.ScalarProperty?
    else if key == DistanceFunction || key == SimilarityFunction then p.StringCollection?
    else if key == NormalizationFactor then p.Double?
    else false
  }

  predicate Provided(data: DataSet, key: string)
  {
    key in data && HasDeclaredType(key, data[key])
  }

  datatype DistanceKind = Euclidian

  /** The resolved similarity; the exponential one carries the squared
      normalization factor. */
  datatype SimilarityKind = Reciprocal | Normalized | Exponential(squaredFactor: real)

  datatype Config = Config(
    source: string,
    result: string,
    distance: DistanceKind,
    similarity: SimilarityKind)

  /** What `check` does: succeed with the resolved configuration, return false
      with a message, or let an exception escape uncaught. */
  datatype CheckOutcome =
    | Accepted(config: Config)
    | Rejected(message: string)
    | Escaped(thrown: string)

  function Missing(key: string): string
  {
    "No \"" + key + "\" property provided."
  }

  const NoDataSet := "No dataset provided."
  const UnknownDistance := "Unknown distance function."
  const UnknownSimilarity := "Unknown similarity function."
  const NonPositiveFactor := "The \"normalization factor\" must be strictly positive."

  /** The order of the required parameters, and the fact that no two
      failure messages of the check coincide. */
  lemma MessagesDistinct()
    ensures |Required| == 4
    ensures Required[0] == Source && Required[1] == DistanceFunction
    ensures Required[2] == SimilarityFunction && Required[3] == Result
    ensures forall k :: Missing(k) != NoDataSet && Missing(k) != UnknownDistance && Missing(k) != UnknownSimilarity
    ensures UnknownDistance != UnknownSimilarity
  {
    forall k
      ensures Missing(k) != NoDataSet && Missing(k) != UnknownDistance && Missing(k) != UnknownSimilarity
    {
      assert Missing(k)[0] == 'N' && Missing(k)[3] == '"';
      assert NoDataSet[3] == 'd';
      assert UnknownDistance[0] == 'U' && UnknownSimilarity[0] == 'U';
    }
    assert UnknownDistance[8] != UnknownSimilarity[8];
  }

  /** A configuration the run can use: an exponential similarity divides by a
      strictly positive squared factor. */
  predicate Usable(config: Config)
  {
    config.similarity.Exponential? ==> 0.0 < config.similarity.squaredFactor
  }

  /** Whether every required parameter is present with its declared type. */
  predicate AllRequiredProvided(data: DataSet)
  {
    && Provided(data, Source)
    && Provided(data, DistanceFunction)
    && Provided(data, SimilarityFunction)
    && Provided(data, Result)
  }

  /** The names the similarity parameter may resolve from. */
  predicate KnownSimilarity(name: string)
  {
    name == "Reciprocal" || name == "Normalized" || name == "Exponential"
  }

  /** The configuration check. Parameters are read in the order of `Required`;
      the distance name is resolved before the similarity name; the factor is
      read only for the exponential similarity. A non-positive factor is
      thrown by pointer, which the handler for runtime errors does not catch. */
  function Check(ds: Option<DataSet>): (r: CheckOutcome)
    ensures r.Accepted? <==>
      && ds.Some?
      && AllRequiredProvided(ds.value)
      && ds.value[DistanceFunction].current == "Euclidian"
      && KnownSimilarity(ds.value[SimilarityFunction].current)
      && (ds.value[SimilarityFunction].current == "Exponential" ==>
            Provided(ds.value, NormalizationFactor) && 0.0 < ds.value[NormalizationFactor].number)
    ensures ds.None? ==> r == Rejected(NoDataSet)
    ensures ds.Some? ==> forall i :: 0 <= i < |Required| ==>
      (!Provided(ds.value, Required[i]) && (forall j :: 0 <= j < i ==> Provided(ds.value, Required[j])))
        ==> r == Rejected(Missing(Required[i]))
    ensures ds.Some? && AllRequiredProvided(ds.value) ==>
      (ds.value[DistanceFunction].current != "Euclidian" <==> r == Rejected(UnknownDistance))
    ensures ds.Some? && AllRequiredProvided(ds.value) && ds.value[DistanceFunction].current == "Euclidian" ==>
      (!KnownSimilarity(ds.value[SimilarityFunction].current) <==> r == Rejected(UnknownSimilarity))
    ensures
      && ds.Some?
      && AllRequiredProvided(ds.value)
      && ds.value[DistanceFunction].current == "Euclidian"
      && ds.value[SimilarityFunction].current == "Exponential"
      && !Provided(ds.value, NormalizationFactor)
      ==> r == Rejected(Missing(NormalizationFactor))
    ensures r.Escaped? <==>
      && ds.Some?
      && AllRequiredProvided(ds.value)
      && ds.value[DistanceFunction].current == "Euclidian"
      && ds.value[SimilarityFunction].current == "Exponential"
      && Provided(ds.value, NormalizationFactor)
      && ds.value[NormalizationFactor].number <= 0.0
    ensures r.Escaped? ==> r.thrown == NonPositiveFactor
    ensures r.Accepted? ==>
      && Usable(r.config)
      && r.config.source == ds.value[Source].vectorName
      && r.config.result == ds.value[Result].scalarName
      && r.config.distance == Euclidian
      && (r.config.similarity == Reciprocal <==> ds.value[SimilarityFunction].current == "Reciprocal")
      && (r.config.similarity == Normalized <==> ds.value[SimilarityFunction].current == "Normalized")
      && (r.config.similarity.Exponential? <==> ds.value[SimilarityFunction].current == "Exponential")
    ensures r.Accepted? && r.config.similarity.Exponential? ==>
      var f := ds.value[NormalizationFactor].number;
      r.config.similarity.squaredFactor == SimilarityFunctions.Square(f)
  {
    MessagesDistinct();
    if ds.None? then Rejected(NoDataSet)
    else
      var data := ds.value;
      if !Provided(data, Source) then Rejected(Missing(Source))
      else if !Provided(data, DistanceFunction) then Rejected(Missing(DistanceFunction))
      else if !Provided(data, SimilarityFunction) then Rejected(Missing(SimilarityFunction))
      else if !Provided(data, Result) then Rejected(Missing(Result))
      else
        var source := data[Source].vectorName;
        var result := data[Result].scalarName;
        var similarity := data[SimilarityFunction].current;
        if data[DistanceFunction].current != "Euclidian" then Rejected(UnknownDistance)
        else if similarity == "Reciprocal" then Accepted(Config(source, result, Euclidian, Reciprocal))
        else if similarity == "Normalized" then Accepted(Config(source, result, Euclidian, Normalized))
        else if similarity == "Exponential" then
          if !Provided(data, NormalizationFactor) then Rejected(Missing(NormalizationFactor))
          else
            var f := data[NormalizationFactor].number;
            if f <= 0.0 then Escaped(NonPositiveFactor)
            else
              SimilarityFunctions.SquarePositive(f);
              Accepted(Config(source, result, Euclidian, Exponential(SimilarityFunctions.Square(f))))
        else Rejected(UnknownSimilarity)
  }

  /** The normalization factor is read only for the exponential similarity:
      for any other similarity name, changing or removing it does not change
      the outcome. */
  lemma FactorReadOnlyForExponential(data: DataSet, data': DataSet)
    requires data' - {NormalizationFactor} == data - {NormalizationFactor}
    requires !(Provided(data, SimilarityFunction) && data[SimilarityFunction].current == "Exponential")
    ensures Check(Some(data')) == Check(Some(data))
  {
    forall k | k != NormalizationFactor
      ensures k in data <==> k in data'
      ensures k in data ==> k in data' && data[k] == data'[k]
    {
      assert k in data <==> k in data - {NormalizationFactor};
      assert k in data' <==> k in data' - {NormalizationFactor};
      if k in data {
        assert data[k] == (data - {NormalizationFactor})[k];
        assert data'[k] == (data' - {NormalizationFactor})[k];
      }
    }
  }

  /** A non-positive factor for the exponential similarity never yields an
      accepted configuration. */
  lemma NonPositiveFactorNeverAccepted(data: DataSet)
    requires Provided(data, SimilarityFunction) && data[SimilarityFunction].current == "Exponential"
    requires Provided(data, NormalizationFactor) && data[NormalizationFactor].number <= 0.0
    ensures !Check(Some(data)).Accepted?
  {
  }

  /** A data set that selects the exponential similarity with a zero
      normalization factor: the check lets the exception escape instead of
      reporting the message. */
  lemma ZeroFactorEscapes()
    ensures
      var data := map[
        Source := VectorProperty("data"),
        DistanceFunction := StringCollection("Euclidian"),
        SimilarityFunction := StringCollection("Exponential"),
        Result := ScalarProperty("viewMetric"),
        NormalizationFactor := Double(0.0)];
      Check(Some(data)) == Escaped(NonPositiveFactor)
  {
  }

  /** The check as its handler evidently intends it: the non-positive factor
      error is thrown by value like every other, so it is caught and reported
      as a rejection. Every other outcome is that of `Check`. */
  function CheckCorrected(ds: Option<DataSet>): (r: CheckOutcome)
    ensures !r.Escaped?
    ensures r.Accepted? <==> Check(ds).Accepted?
    ensures r.Accepted? ==> r == Check(ds) && Usable(r.config)
    ensures !Check(ds).Escaped? ==> r == Check(ds)
    ensures Check(ds).Escaped? ==> r == Rejected(Check(ds).thrown)
    ensures
      (&& ds.Some?
       && AllRequiredProvided(ds.value)
       && ds.value[DistanceFunction].current == "Euclidian"
       && ds.value[SimilarityFunction].current == "Exponential"
       && Provided(ds.value, NormalizationFactor)
       && ds.value[NormalizationFactor].number <= 0.0)
      <==> r == Rejected(NonPositiveFactor)
  {
    match Check(ds)
    case Escaped(thrown) => Rejected(thrown)
    case outcome => outcome
  }
}
