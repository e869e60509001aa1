/** The funnel stages as the two funnel views read them: each stage's
    `value`, the first stage's value as the scale of the bars, and the
    percentage one value is of another. The stages the service sends are
    `{stage, value, color}` objects. */
module FunnelStages {
  import opened JsValues
  import DashboardRoutes

  /** `stage.value` of each stage. */
  function ValueAt(stages: seq<Json>, i: nat): Json
    requires i < |stages|
  {
    OptField(stages[i], "value")
  }

  /** `funnel[0]?.value || 1`: the scale both funnel views draw their bars
      against. */
  function MaxValue(stages: seq<Json>): (m: Json)
    ensures Truthy(m)
    ensures |stages| > 0 && Truthy(ValueAt(stages, 0)) ==> m == ValueAt(stages, 0)
    ensures !(|stages| > 0 && Truthy(ValueAt(stages, 0))) ==> m == Num(1.0)
  {
    if |stages| > 0 && Truthy(ValueAt(stages, 0)) then ValueAt(stages, 0) else Num(1.0)
  }

  /** `(a / b) * 100` on two JSON values. */
  function Ratio(a: Json, b: Json): (p: Number)
    ensures AsNumber(b) == Finite(0.0) ==> !p.Finite?
    ensures a.Num? && b.Num? && b.n != 0.0 ==> p == Finite(a.n / b.n * 100.0)
  {
    Scale(DivN(AsNumber(a), AsNumber(b)), 100.0)
  }

  /** The JSON object the service writes for a stage. */
  function StageJson(s: DashboardRoutes.Stage): (j: Json)
    ensures OptField(j, "value") == Num(s.value as real)
  {
    var fields := [("stage", Str(s.stage)), ("value", Num(s.value as real)), ("color", Str(s.color))];
    assert fields[2].0 != "value" by { assert fields[2].0[0] != 'v'; }
    LookupLast(fields, "value", 1);
    Obj(fields)
  }

  /** The JSON array the service answers with for a list of stages. */
  function StagesJson(stages: seq<DashboardRoutes.Stage>): (items: seq<Json>)
    ensures |items| == |stages|
    ensures forall i :: 0 <= i < |stages| ==> ValueAt(items, i) == Num(stages[i].value as real)
  {
    seq(|stages|, i requires 0 <= i < |stages| => StageJson(stages[i]))
  }
}
