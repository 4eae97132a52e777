/** The "Generate Quotation" handler: encode and align the record, ask the
    trained model for a base cost, apply the state multiplier, split the
    total, and build the cost-driver chart data. The trained model is given
    as its two capabilities: a prediction function over the aligned row and
    its per-column importances. */
module Quotation {
  import opened Common
  import opened Encoding
  import opened Alignment
  import opened Pricing
  import opened Drivers

  /** Everything the handler computes for display. */
  datatype Quote = Quote(
    features: seq<Column>,
    baseCost: real,
    multiplier: real,
    totalCost: real,
    materialCost: real,
    labourCost: real,
    drivers: seq<Entry>)

  /** The handler from the record to the quotation. It fails exactly when
      the state has no multiplier (checked first) or the importances do not
      match the trained columns in length. */
  method GenerateQuotation(
    p: ProjectInput,
    featureColumns: seq<string>,
    predict: seq<Column> -> real,
    importances: seq<real>)
    returns (q: Result<Quote>)
    ensures q.Ok? <==> p.state in States && |importances| == |featureColumns|
    ensures p.state !in States ==> q == Failure(UnknownState(p.state))
    ensures p.state in States && |importances| != |featureColumns| ==>
      q == Failure(LengthMismatch(|importances|, |featureColumns|))
    ensures q.Ok? ==> Names(q.value.features) == featureColumns
    ensures q.Ok? ==> forall i :: 0 <= i < |featureColumns| ==>
      q.value.features[i].value == ColumnValue(p, featureColumns[i])
    ensures q.Ok? ==> q.value.baseCost == predict(q.value.features)
    ensures q.Ok? ==> ApplyStateMultiplier(q.value.baseCost, p.state) == Ok(Adjusted(q.value.totalCost, q.value.multiplier))
    ensures q.Ok? ==> q.value.materialCost + q.value.labourCost == q.value.totalCost
    ensures q.Ok? ==> Breakdown(q.value.totalCost) == CostBreakdown(q.value.materialCost, q.value.labourCost)
    ensures q.Ok? ==> Ok(q.value.drivers) == CostDrivers(importances, featureColumns)
  {
    var features := EncodeAndAlign(p, featureColumns);
    var baseCost := predict(features);
    var adjusted := ApplyStateMultiplier(baseCost, p.state);
    if adjusted.Failure? {
      return Failure(adjusted.error);
    }
    var multiplier, total := adjusted.value.multiplier, adjusted.value.total;
    var split := Breakdown(total);
    var drivers := CostDrivers(importances, featureColumns);
    if drivers.Failure? {
      return Failure(drivers.error);
    }
    q := Ok(Quote(features, baseCost, multiplier, total,
                  split.materials, split.labour, drivers.value));
  }
}
