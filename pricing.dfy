/** The state price multiplier applied to the model's base prediction, and
    the fixed split of the total into materials and labour. Money is `real`:
    exact arithmetic in place of floating point. */
module Pricing {
  import opened Common

  /** The six states the form offers, in the table's order. */
  const States: seq<string> := ["Lagos", "Abuja", "Rivers", "Oyo", "Ogun", "Kwara"]

  /** The price multiplier of each state. */
  const StateMultipliers: map<string, real> :=
    map["Lagos" := 1.15, "Abuja" := 1.12, "Rivers" := 1.10, "Oyo" := 1.00, "Ogun" := 0.95, "Kwara" := 0.92]

  /** The share of the total that is materials, and the share that is labour. */
  const MaterialShare: real := 0.65
  const LabourShare: real := 0.35

  /** The total after the state multiplier, with the multiplier used. */
  datatype Adjusted = Adjusted(total: real, multiplier: real)

  /** `total_cost = base_cost * STATE_MULTIPLIERS[state]`. A state outside the
      table is a failure, never a factor of 1. Every multiplier is positive,
      so the total has the sign of the base cost and lies between 0.92 and
      1.15 times it. */
  function ApplyStateMultiplier(baseCost: real, state: string): (r: Result<Adjusted>)
    ensures r.Ok? <==> state in States
    ensures r.Failure? ==> r.error == UnknownState(state)
    ensures r.Ok? ==> r.value.total == baseCost * r.value.multiplier
    ensures r.Ok? ==> 0.92 <= r.value.multiplier <= 1.15
    ensures r.Ok? ==> (r.value.total >= 0.0 <==> baseCost >= 0.0)
  {
    if state in StateMultipliers then
      var m := StateMultipliers[state];
      Ok(Adjusted(baseCost * m, m))
    else
      Failure(UnknownState(state))
  }

  /** The multiplier of every state in the table, as the form's list gives
      them. */
  lemma MultiplierTable(baseCost: real)
    ensures ApplyStateMultiplier(baseCost, "Lagos") == Ok(Adjusted(baseCost * 1.15, 1.15))
    ensures ApplyStateMultiplier(baseCost, "Abuja") == Ok(Adjusted(baseCost * 1.12, 1.12))
    ensures ApplyStateMultiplier(baseCost, "Rivers") == Ok(Adjusted(baseCost * 1.10, 1.10))
    ensures ApplyStateMultiplier(baseCost, "Oyo") == Ok(Adjusted(baseCost, 1.00))
    ensures ApplyStateMultiplier(baseCost, "Ogun") == Ok(Adjusted(baseCost * 0.95, 0.95))
    ensures ApplyStateMultiplier(baseCost, "Kwara") == Ok(Adjusted(baseCost * 0.92, 0.92))
  {
  }

  /** For a fixed state, a larger base cost never gives a smaller total. */
  lemma MultiplierMonotone(state: string, base1: real, base2: real)
    requires state in States && base1 <= base2
    ensures ApplyStateMultiplier(base1, state).value.total <= ApplyStateMultiplier(base2, state).value.total
  {
  }

  /** The materials and labour parts of a total. */
  datatype CostBreakdown = CostBreakdown(materials: real, labour: real)

  /** `material_cost = total * 0.65`, `labour_cost = total * 0.35`: the two
      parts add up to the total exactly, stand in the ratio 65 : 35, and are
      both non-negative, labour at most materials, when the total is. */
  function Breakdown(total: real): (b: CostBreakdown)
    ensures b.materials + b.labour == total
    ensures 35.0 * b.materials == 65.0 * b.labour
    ensures total != 0.0 ==> b.materials / total == MaterialShare && b.labour / total == LabourShare
    ensures total >= 0.0 ==> 0.0 <= b.labour <= b.materials <= total
  {
    CostBreakdown(total * MaterialShare, total * LabourShare)
  }

  /** A Lagos project whose base prediction is 1,000,000: the total is
      1,150,000, of which 747,500 is materials and 402,500 labour. */
  lemma LagosExample()
    ensures ApplyStateMultiplier(1000000.0, "Lagos") == Ok(Adjusted(1150000.0, 1.15))
    ensures Breakdown(1150000.0) == CostBreakdown(747500.0, 402500.0)
  {
  }
}
