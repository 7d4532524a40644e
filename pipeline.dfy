/**
 * The prediction handler: assemble the twenty-slot vector, scale its
 * numerical columns, classify it, look the class up in the tier tables and
 * lay out the tier's popular models.
 */
module Pipeline {
  import opened Outcomes
  import opened Features
  import opened Scaling
  import opened Tables

  /** The pretrained classifier's predict, first row only. Its internals are not modelled: it may be any function. */
  type Classifier = seq<real> -> int

  /** What a successful prediction shows: the class, its label, colour and icon, and the five grid columns. */
  datatype Prediction = Prediction(prediction: int, tier: Tier, grid: seq<seq<PhoneModel>>)

  /** The five grid columns for `models`. */
  function Grid(models: seq<PhoneModel>): (g: seq<seq<PhoneModel>>)
    ensures |g| == GridWidth
  {
    seq(GridWidth, c requires 0 <= c < GridWidth => GridColumn(models, c))
  }

  /** The handler's outcome as a function of the inputs, the scaler and the classifier. */
  function Outcome(s: RawSpec, scale: Scaler, classify: Classifier): Result<Prediction>
  {
    match ScaleRow(FeatureVector(s), scale)
    case Failure(e) => Failure(e)
    case Success(row) =>
      var prediction := classify(row);
      match Describe(prediction)
      case Failure(e) => Failure(e)
      case Success(tier) => Success(Prediction(prediction, tier, Grid(ModelsFor(prediction))))
  }

  /**
   * The handler succeeds exactly when the scaler returns one value per
   * numerical column and the classifier returns a class in 0..3. It then
   * shows that class's label and its five models, one per grid column: the
   * empty default of the models lookup is never reached, because an unknown
   * class has already failed the label lookup. A wrong scaler width fails
   * with the shape error; a right width and an unknown class fail with a
   * KeyError on the class.
   */
  lemma OutcomeCharacterised(s: RawSpec, scale: Scaler, classify: Classifier)
    ensures Outcome(s, scale, classify).Success? <==>
              && |scale(Gather(FeatureVector(s), NumericalPositions))| == |NumericalFeatures|
              && 0 <= classify(ScaleRow(FeatureVector(s), scale).value) < 4
    ensures Outcome(s, scale, classify).Success? ==>
              var p := Outcome(s, scale, classify).value;
              && p.prediction == classify(ScaleRow(FeatureVector(s), scale).value)
              && p.tier.priceRange == TierNames[p.prediction]
              && forall c :: 0 <= c < GridWidth ==> p.grid[c] == [PopularModels[p.prediction][c]]
    ensures |scale(Gather(FeatureVector(s), NumericalPositions))| != |NumericalFeatures| ==>
              Outcome(s, scale, classify) == Failure(TransformFailure)
    ensures |scale(Gather(FeatureVector(s), NumericalPositions))| == |NumericalFeatures|
            && !(0 <= classify(ScaleRow(FeatureVector(s), scale).value) < 4) ==>
              Outcome(s, scale, classify) == Failure(KeyError(classify(ScaleRow(FeatureVector(s), scale).value)))
  {
    ScalerFedByName(FeatureVector(s), scale);
    if ScaleRow(FeatureVector(s), scale).Success? {
      var prediction := classify(ScaleRow(FeatureVector(s), scale).value);
      DescribeDefinedOnTiers(prediction);
      if 0 <= prediction < 4 {
        forall c | 0 <= c < GridWidth
          ensures Grid(ModelsFor(prediction))[c] == [PopularModels[prediction][c]]
        {
          TierGridOnePerColumn(prediction, c);
        }
      }
    }
  }

  /**
   * The handler: the features are assembled into a fresh twenty-slot array
   * and scaled in place, the class is predicted from the scaled row, and the
   * lookups and the grid loop follow.
   */
  method Predict(s: RawSpec, scale: Scaler, classify: Classifier) returns (r: Result<Prediction>)
    ensures r == Outcome(s, scale, classify)
  {
    var v := new real[|FeatureList|];
    Assemble(s, v);
    var scaled := ScaleInPlace(v, scale);
    if scaled.Failure? {
      return Failure(scaled.error);
    }
    var prediction := classify(v[..]);
    var tier := Describe(prediction);
    if tier.Failure? {
      return Failure(tier.error);
    }
    var models := ModelsFor(prediction);
    var grid := PlaceInGrid(models);
    assert grid == Grid(models);
    r := Success(Prediction(prediction, tier.value, grid));
  }
}
