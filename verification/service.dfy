/** The `/predict` endpoint: feature construction followed by `calculate_credit_score`, with the fitted
    artifact passed in instead of read from module-level globals. */
module Service {
  import opened Wrappers
  import opened Schema
  import opened Features
  import opened Scoring

  /** What the service loads from its artifact file: the model's ordered feature names, the columns the
      scaler rewrites, the scaler itself as an opaque per-column map, and the linear coefficients. */
  datatype Artifact = Artifact(
    features: seq<string>,
    colsToScale: seq<string>,
    scaler: (string, real) -> real,
    coef: seq<real>,
    intercept: real)

  /** `calculate_credit_score` on a feature vector, with the logistic link as the parameter `link`.
      It fails exactly when the vector and the coefficients differ in length; otherwise the result is
      the score and rating of the link applied to the linear score. */
  method CalculateCreditScore(x: seq<real>, coef: seq<real>, intercept: real, link: real -> real,
                              baseScore: real, scaleLength: real)
    returns (r: Result<Prediction, Error>)
    ensures r.Success? <==> |x| == |coef|
    ensures r.Failure? ==> r.error == ShapeMismatch(|x|, |coef|)
    ensures r.Success? ==>
      && |x| == |coef|
      && r.value == ScoreAndRate(link(Dot(x, coef) + intercept), baseScore, scaleLength)
  {
    if |x| != |coef| {
      return Failure(ShapeMismatch(|x|, |coef|));
    }
    var z := DotProduct(x, coef);
    return Success(ScoreAndRate(link(z + intercept), baseScore, scaleLength));
  }

  /** `predict`: a request scored end to end with the default base score and scale length. It fails
      exactly when the artifact names a column the request frame lacks or its coefficient count differs
      from its feature count. Otherwise the result is the score and rating of the link applied to the
      linear score of the model input, so a probability in [0, 1] gives a score in [300, 900] whose
      rating is defined and agrees with the rating of the returned integer. */
  method Predict(req: CreditRequest, art: Artifact, link: real -> real) returns (r: Result<Prediction, Error>)
    ensures r.Success? <==>
      && AllInputColumns(art.colsToScale)
      && AllInputColumns(art.features)
      && |art.features| == |art.coef|
    ensures r.Failure? && !AllInputColumns(art.colsToScale) ==>
      r.error == KeyError(Missing(RawFeatures(req), art.colsToScale))
    ensures r.Failure? && AllInputColumns(art.colsToScale) && !AllInputColumns(art.features) ==>
      r.error == KeyError(Missing(RawFeatures(req), art.features))
    ensures r.Failure? && AllInputColumns(art.colsToScale) && AllInputColumns(art.features) ==>
      r.error == ShapeMismatch(|art.features|, |art.coef|)
    ensures r.Success? ==>
      && AllInputColumns(art.features)
      && |art.features| == |art.coef|
      && var x := ModelInput(req, art.colsToScale, art.scaler, art.features);
         r.value == ScoreAndRate(link(Dot(x, art.coef) + art.intercept), DefaultBase, DefaultScaleLength)
    ensures r.Success? && 0.0 <= r.value.defaultProbability <= 1.0 ==>
      && 300 <= r.value.creditScore <= 900
      && r.value.rating != Undefined
      && r.value.rating == GetRating(r.value.creditScore as real)
  {
    var x :- PrepareInput(req, art.colsToScale, art.scaler, art.features);
    r := CalculateCreditScore(x, art.coef, art.intercept, link, DefaultBase, DefaultScaleLength);
  }
}
