/** The funnel page (`FunnelPage.jsx`): one request for the stages, and per
    stage the bar width, the conversion from the stage before and the leads
    lost since it, plus a summary of each later stage against the first. */
module FunnelPage {
  import opened Wrappers
  import opened JsValues
  import opened ApiClient
  import opened FunnelStages
  import DashboardRoutes

  /** `widthPct`: the stage's share of the first stage, at least 12. */
  function StageWidth(stages: seq<Json>, i: nat): (w: Number)
    requires i < |stages|
    ensures w.Finite? ==> w.r >= 12.0
    ensures w.NaN? <==> Ratio(ValueAt(stages, i), MaxValue(stages)).NaN?
  {
    Max(Ratio(ValueAt(stages, i), MaxValue(stages)), 12.0)
  }

  /** The line under a stage's name. */
  datatype StageLabel = BaseTotal | Converted(pct: Number)

  /** "Base total" for the first stage; for every later one `convRate`, its
      share of the stage before, with no guard against an empty stage. */
  function Label(stages: seq<Json>, i: nat): (l: StageLabel)
    requires i < |stages|
    ensures l.BaseTotal? <==> i == 0
    ensures i > 0 ==> l == Converted(Ratio(ValueAt(stages, i), ValueAt(stages, i - 1)))
  {
    if i == 0 then BaseTotal else Converted(Ratio(ValueAt(stages, i), ValueAt(stages, i - 1)))
  }

  /** `lostAbsolute`: how many fewer than the stage before, 0 for the first. */
  function Lost(stages: seq<Json>, i: nat): (n: Number)
    requires i < |stages|
    ensures i == 0 ==> n == Finite(0.0)
    ensures i > 0 && ValueAt(stages, i - 1).Num? && ValueAt(stages, i).Num? ==>
              n == Finite(ValueAt(stages, i - 1).n - ValueAt(stages, i).n)
  {
    if i == 0 then Finite(0.0) else Minus(AsNumber(ValueAt(stages, i - 1)), AsNumber(ValueAt(stages, i)))
  }

  /** The "perdidos" line is shown for a later stage that lost leads. */
  predicate LostShown(stages: seq<Json>, i: nat)
    requires i < |stages|
  {
    i > 0 && Positive(Lost(stages, i))
  }

  /** For counts, the "perdidos" line appears exactly when a stage has fewer
      leads than the one before, and never on the first stage. */
  lemma LostShownIff(stages: seq<Json>, i: nat)
    requires i < |stages|
    requires forall j :: 0 <= j < |stages| ==> ValueAt(stages, j).Num?
    ensures LostShown(stages, i) <==> i > 0 && ValueAt(stages, i).n < ValueAt(stages, i - 1).n
    ensures LostShown(stages, i) ==> Lost(stages, i).r == ValueAt(stages, i - 1).n - ValueAt(stages, i).n
  {
  }

  /** The conversion summary: present only with at least four stages, and
      then stages 1, 2 and 3 each over stage 0. */
  function Summary(stages: seq<Json>): (s: Option<seq<Number>>)
    ensures s.Some? <==> |stages| >= 4
    ensures s.Some? ==> |s.value| == 3 && forall k :: 0 <= k < 3 ==> s.value[k] == Ratio(ValueAt(stages, k + 1), ValueAt(stages, 0))
  {
    if |stages| >= 4 then
      Some([Ratio(ValueAt(stages, 1), ValueAt(stages, 0)), Ratio(ValueAt(stages, 2), ValueAt(stages, 0)),
            Ratio(ValueAt(stages, 3), ValueAt(stages, 0))])
    else None
  }

  /** With the service's funnel, which always has four stages, the summary is
      always shown, the bars are scaled to the lead count (1 when it is 0),
      and with non-negative counts every bar has a finite width of at least
      12. */
  lemma ServiceFunnelView(row: Option<DashboardRoutes.FunnelRow>)
    requires row.Some? ==> DashboardRoutes.CountsNonNegative(row.value)
    ensures var shaped := DashboardRoutes.ShapeFunnel(row);
            var stages := StagesJson(shaped);
            && Summary(stages).Some?
            && MaxValue(stages) == Num(if shaped[0].value == 0 then 1.0 else shaped[0].value as real)
            && forall i :: 0 <= i < |stages| ==> StageWidth(stages, i).Finite? && StageWidth(stages, i).r >= 12.0
  {
    var shaped := DashboardRoutes.ShapeFunnel(row);
    var stages := StagesJson(shaped);
    forall i | 0 <= i < |stages|
      ensures StageWidth(stages, i).Finite?
    {
      assert ValueAt(stages, i).Num? && MaxValue(stages).Num? && MaxValue(stages).n != 0.0;
    }
  }

  /** With no leads at all the page divides zero by zero: every conversion
      label and every summary figure is NaN, while the bars stay at 12. */
  lemma EmptyFunnelNaN()
    ensures var stages := StagesJson(DashboardRoutes.ShapeFunnel(None));
            && (forall k :: 0 <= k < 3 ==> Summary(stages).value[k].NaN?)
            && (forall i :: 0 < i < |stages| ==> Label(stages, i).pct.NaN?)
            && (forall i :: 0 <= i < |stages| ==> StageWidth(stages, i) == Finite(12.0))
  {
    var stages := StagesJson(DashboardRoutes.ShapeFunnel(None));
    assert forall i :: 0 <= i < |stages| ==> ValueAt(stages, i) == Num(0.0);
  }

  class Funnel {
    var funnel: Json
    var loading: bool

    constructor()
      ensures funnel == Arr([]) && loading
    {
      funnel := Arr([]);
      loading := true;
    }

    /** The effect: the stages on success, `[]` kept on failure, and the
        spinner ends either way. */
    method Load(o: Outcome) returns (path: string)
      modifies this
      ensures path == FunnelPath(None)
      ensures o.Success? ==> funnel == o.value
      ensures !o.Success? ==> funnel == old(funnel)
      ensures !loading
    {
      path := FunnelPath(None);
      if o.Success? {
        funnel := o.value;
      }
      loading := false;
    }
  }
}
