/** The overview page (`OverviewPage.jsx`): the first load of five datasets,
    the separate reload of the trend series when the period changes, the
    reshaping of trend rows, the six KPI cards, and the numbers behind the
    funnel bars and the channel donut. */
module OverviewPage {
  import opened Wrappers
  import opened Text
  import opened JsValues
  import opened ApiClient
  import opened FunnelStages

  const Colors := ["#3b82f6", "#a855f7", "#22c55e", "#f59e0b", "#06b6d4", "#ef4444"]

  // ---- trend rows ------------------------------------------------------------------

  /** `p?.slice(5)`: strings and arrays drop their first five entries (all of
      them when shorter), `null` and `undefined` give `undefined`, and for any
      other value `slice` is not a function and the call throws (None). */
  function SliceFive(p: Json): (r: Option<Json>)
    ensures r.None? <==> p.Num? || p.Bool? || p.Obj?
    ensures p.Str? ==> r == Some(Str(if |p.s| <= 5 then "" else p.s[5..]))
    ensures p.Arr? ==> r == Some(Arr(if |p.items| <= 5 then [] else p.items[5..]))
    ensures p.Null? || p.Undefined? ==> r == Some(Undefined)
  {
    match p
    case Undefined => Some(Undefined)
    case Null => Some(Undefined)
    case Str(s) => Some(Str(if |s| <= 5 then "" else s[5..]))
    case Arr(items) => Some(Arr(if |items| <= 5 then [] else items[5..]))
    case _ => None
  }

  /** The properties an object spread `{ ...d }` copies: an object's own
      fields, the indexed entries of an array or string, none for the rest. */
  function Spread(d: Json): seq<(string, Json)>
  {
    match d
    case Obj(fs) => fs
    case Arr(items) => Indexed(items)
    case Str(s) => Indexed(seq(|s|, i requires 0 <= i < |s| => Str([s[i]])))
    case _ => []
  }

  function Indexed(items: seq<Json>): (fs: seq<(string, Json)>)
    ensures |fs| == |items|
  {
    seq(|items|, i requires 0 <= i < |items| => (IntToString(i), items[i]))
  }

  /** `({ ...d, period: d.period?.slice(5) })`; None where it throws. */
  function ReshapeRow(d: Json): (r: Option<Json>)
    ensures r.Some? ==> r.value.Obj?
  {
    if Field(d, "period").None? then None
    else
      var p := SliceFive(Field(d, "period").value);
      if p.None? then None else Some(Obj(Spread(d) + [("period", p.value)]))
  }

  /** Reshaping a row of an object keeps every other field, changes only
      `period`, and fails exactly when `period` is neither text, an array nor
      absent. */
  lemma ReshapeRowKeeps(fields: seq<(string, Json)>, k: string)
    ensures var d := Obj(fields);
            var p := Lookup(fields, "period");
            && (ReshapeRow(d).Some? <==> p.Str? || p.Arr? || p.Null? || p.Undefined?)
            && (ReshapeRow(d).Some? ==> Lookup(ReshapeRow(d).value.fields, "period") == SliceFive(p).value)
            && (ReshapeRow(d).Some? && k != "period" ==> Lookup(ReshapeRow(d).value.fields, k) == Lookup(fields, k))
  {
    var p := Lookup(fields, "period");
    if SliceFive(p).Some? {
      LookupSet(fields, "period", SliceFive(p).value, k);
    }
  }

  /** The service writes each period as `YYYY-MM-DD`; the chart keeps the
      part after the year and its dash. */
  lemma DropsYear(fields: seq<(string, Json)>, year: string, rest: string)
    requires |year| == 4 && Lookup(fields, "period") == Str(year + "-" + rest)
    ensures ReshapeRow(Obj(fields)).Some?
    ensures Lookup(ReshapeRow(Obj(fields)).value.fields, "period") == (if rest == "" then Str("") else Str(rest))
  {
    ReshapeRowKeeps(fields, "period");
    var s := year + "-" + rest;
    if |s| > 5 {
      assert s[5..] == rest;
    }
  }

  /** `rows.map(reshape)`; None when any row throws. */
  function ReshapeRows(rows: seq<Json>): (r: Option<seq<Json>>)
    ensures r.Some? ==> |r.value| == |rows| && forall i :: 0 <= i < |rows| ==> ReshapeRow(rows[i]) == Some(r.value[i])
    ensures r.None? ==> exists i :: 0 <= i < |rows| && ReshapeRow(rows[i]).None?
    decreases |rows|
  {
    if |rows| == 0 then Some([])
    else
      var head := ReshapeRow(rows[0]);
      var tail := ReshapeRows(rows[1..]);
      if head.None? then None
      else if tail.None? then
        var i :| 0 <= i < |rows[1..]| && ReshapeRow(rows[1..][i]).None?;
        assert ReshapeRow(rows[i + 1]).None?;
        None
      else Some([head.value] + tail.value)
  }

  /** `t.map(...)` on a response: only an array has `map`. */
  function Reshape(t: Json): (r: Option<Json>)
    ensures r.Some? <==> t.Arr? && ReshapeRows(t.items).Some?
    ensures r.Some? ==> r == Some(Arr(ReshapeRows(t.items).value))
  {
    if t.Arr? && ReshapeRows(t.items).Some? then Some(Arr(ReshapeRows(t.items).value)) else None
  }

  /** The trend series after a reload settles as `o`: the reshaped rows, or
      the series before when the request or the reshaping fails. */
  function TrendsAfter(current: Json, o: Outcome): (r: Json)
    ensures o.Success? && Reshape(o.value).Some? ==> r == Reshape(o.value).value
    ensures !(o.Success? && Reshape(o.value).Some?) ==> r == current
  {
    if o.Success? && Reshape(o.value).Some? then Reshape(o.value).value else current
  }

  // ---- KPI cards ---------------------------------------------------------------------

  datatype CardValue = Count(v: Json) | Rate(pct: Number) | NoRate
  datatype KpiCard = KpiCard(caption: string, value: CardValue)

  /** The five count cards: caption and the KPI field each shows. */
  const CountCards := [("Total Leads", "total_leads"), ("Contactados", "contactados"),
                       ("No Contactados", "no_contactados"), ("Contacto Efectivo", "contacto_efectivo"),
                       ("Matriculados", "matriculados")]
  const ConversionCaption := "Conversión"

  /** The conversion card: `'0%'` (NoRate) unless `total_leads` is truthy, else
      `matriculados / total_leads * 100`. */
  function Conversion(kpis: Json): (c: CardValue)
    ensures c.NoRate? <==> !Truthy(OptField(kpis, "total_leads"))
    ensures c.Rate? ==> c.pct == Scale(DivN(AsNumber(OptField(kpis, "matriculados")), AsNumber(OptField(kpis, "total_leads"))), 100.0)
  {
    if Truthy(OptField(kpis, "total_leads")) then
      Rate(Scale(DivN(AsNumber(OptField(kpis, "matriculados")), AsNumber(OptField(kpis, "total_leads"))), 100.0))
    else NoRate
  }

  /** `kpiCards`: six cards in a fixed order, the conversion card last. */
  function KpiCards(kpis: Json): (cards: seq<KpiCard>)
    ensures |cards| == 6
    ensures forall i :: 0 <= i < 5 ==> cards[i] == KpiCard(CountCards[i].0, Count(OptField(kpis, CountCards[i].1)))
    ensures cards[5] == KpiCard(ConversionCaption, Conversion(kpis))
  {
    seq(5, i requires 0 <= i < 5 => KpiCard(CountCards[i].0, Count(OptField(kpis, CountCards[i].1))))
      + [KpiCard(ConversionCaption, Conversion(kpis))]
  }

  /** For counts as the service sends them, the conversion card is a finite
      percentage between 0 and 100, and `'0%'` exactly when there are no
      leads. */
  lemma ConversionOfCounts(kpis: Json, total: int, enrolled: int)
    requires kpis.Obj? && Lookup(kpis.fields, "total_leads") == Num(total as real)
    requires Lookup(kpis.fields, "matriculados") == Num(enrolled as real)
    requires 0 <= enrolled <= total
    ensures Conversion(kpis).NoRate? <==> total == 0
    ensures total > 0 ==> Conversion(kpis) == Rate(Finite((enrolled as real) / (total as real) * 100.0))
    ensures total > 0 ==> 0.0 <= Conversion(kpis).pct.r <= 100.0
  {
    var t := AsNumber(OptField(kpis, "total_leads"));
    var e := AsNumber(OptField(kpis, "matriculados"));
    assert t == Finite(total as real) && e == Finite(enrolled as real);
    assert Truthy(OptField(kpis, "total_leads")) <==> total != 0;
    if total > 0 {
      var q := (enrolled as real) / (total as real);
      assert DivN(e, t) == Finite(q);
      assert Conversion(kpis) == Rate(Finite(q * 100.0));
      ShareBounds(enrolled as real, total as real);
      assert 0.0 <= q * 100.0 <= 100.0;
    } else {
      assert Conversion(kpis) == NoRate;
    }
  }

  // ---- the funnel -------------------------------------------------------------------

  /** The width of a stage's bar: its share of the first stage, at least 8. */
  function BarWidth(stages: seq<Json>, i: nat): (w: Number)
    requires i < |stages|
    ensures w.Finite? ==> w.r >= 8.0
    ensures w.NaN? <==> Ratio(ValueAt(stages, i), MaxValue(stages)).NaN?
  {
    Max(Ratio(ValueAt(stages, i), MaxValue(stages)), 8.0)
  }

  /** With counts that never exceed the first stage, every bar is between 8%
      and 100% wide, even when the first stage is 0 and reads as 1. */
  lemma BarWidthRange(stages: seq<Json>, i: nat)
    requires i < |stages|
    requires forall j :: 0 <= j < |stages| ==> ValueAt(stages, j).Num? && ValueAt(stages, j).n >= 0.0
    requires forall j :: 0 <= j < |stages| ==> ValueAt(stages, j).n <= ValueAt(stages, 0).n
    ensures BarWidth(stages, i).Finite? && 8.0 <= BarWidth(stages, i).r <= 100.0
  {
    var first := ValueAt(stages, 0);
    var here := ValueAt(stages, i);
    assert first.Num? && first.n >= 0.0;
    assert here.Num? && 0.0 <= here.n <= first.n;
    var m := MaxValue(stages);
    assert m.Num? && m.n > 0.0 && here.n <= m.n;
    PercentOfWhole(here.n, m.n);
  }

  /** A part of a positive whole is between 0% and 100% of it. */
  lemma PercentOfWhole(part: real, whole: real)
    requires 0.0 <= part <= whole && whole > 0.0
    ensures 0.0 <= part / whole * 100.0 <= 100.0
  {
    ShareBounds(part, whole);
  }

  /** The arrow between stage `i` and the next: `next / current * 100`, with
      no guard against an empty stage, which gives NaN or Infinity. */
  function Arrow(stages: seq<Json>, i: nat): (p: Number)
    requires i + 1 < |stages|
  {
    Ratio(ValueAt(stages, i + 1), ValueAt(stages, i))
  }

  lemma ArrowUnguarded(stages: seq<Json>, i: nat)
    requires i + 1 < |stages| && ValueAt(stages, i) == Num(0.0) && ValueAt(stages, i + 1).Num?
    ensures ValueAt(stages, i + 1).n == 0.0 ==> Arrow(stages, i).NaN?
    ensures ValueAt(stages, i + 1).n > 0.0 ==> Arrow(stages, i) == Infinity(false)
  {
  }

  // ---- the channel donut --------------------------------------------------------------

  /** `medios.slice(0, 6)`, each slice with `COLORS[i % COLORS.length]`; as at
      most six slices are shown, the index is the slice's own. */
  function Donut(medios: seq<Json>): (slices: seq<(Json, string)>)
    ensures |slices| == if |medios| < 6 then |medios| else 6
    ensures forall i :: 0 <= i < |slices| ==> slices[i].0 == medios[i] && slices[i].1 == Colors[i]
  {
    var n := if |medios| < 6 then |medios| else 6;
    seq(n, i requires 0 <= i < n => (medios[i], Colors[i]))
  }

  /** No two slices shown share a colour. */
  lemma DonutColorsDistinct(medios: seq<Json>)
    ensures forall i, j :: 0 <= i < j < |Donut(medios)| ==> Donut(medios)[i].1 != Donut(medios)[j].1
  {
    ColorsDistinct();
  }

  /** The six colours differ pairwise, already in their second character. */
  lemma ColorsDistinct()
    ensures forall i, j :: 0 <= i < j < |Colors| ==> Colors[i] != Colors[j]
  {
    var keys := seq(6, i requires 0 <= i < 6 => Colors[i][1]);
    assert keys == "3a2f0e";
    forall i, j | 0 <= i < j < 6
      ensures Colors[i] != Colors[j]
    {
      assert keys[i] != keys[j];
    }
  }

  // ---- the page's state ---------------------------------------------------------------

  class Overview {
    var kpis: Json
    var funnel: Json
    var trends: Json
    var medios: Json
    var programas: Json
    var period: string
    var loading: bool

    constructor()
      ensures kpis == Null && funnel == Arr([]) && trends == Arr([]) && medios == Arr([]) && programas == Arr([])
      ensures period == "week" && loading
    {
      kpis := Null;
      funnel := Arr([]);
      trends := Arr([]);
      medios := Arr([]);
      programas := Arr([]);
      period := "week";
      loading := true;
    }

    /** While loading, only the spinner is shown. */
    predicate Spinner()
      reads this
    {
      loading
    }

    /** The paths of the five requests the first effect sends together. */
    function InitialPaths(): (paths: seq<string>)
      reads this
      ensures |paths| == 5
    {
      [KpisPath(None), FunnelPath(None), TrendsPath(Some(period), None), ByMedioPath(None), ByProgramaPath(None, None)]
    }

    /** The first effect, with its five requests settling as `k`, `f`, `t`,
        `m` and `p`. If any fails, `Promise.all` rejects and nothing is set.
        If all succeed, KPIs and funnel are set first; a trend row that
        throws while reshaping then skips the rest. The spinner ends in
        every case. */
    method LoadAll(k: Outcome, f: Outcome, t: Outcome, m: Outcome, p: Outcome) returns (paths: seq<string>)
      modifies this
      ensures paths == old(InitialPaths())
      ensures !loading && period == old(period)
      ensures !(k.Success? && f.Success? && t.Success? && m.Success? && p.Success?) ==>
                kpis == old(kpis) && funnel == old(funnel) && trends == old(trends)
                && medios == old(medios) && programas == old(programas)
      ensures k.Success? && f.Success? && t.Success? && m.Success? && p.Success? ==>
                kpis == k.value && funnel == f.value
      ensures k.Success? && f.Success? && t.Success? && m.Success? && p.Success? && Reshape(t.value).Some? ==>
                trends == Reshape(t.value).value && medios == m.value && programas == p.value
      ensures k.Success? && f.Success? && t.Success? && m.Success? && p.Success? && Reshape(t.value).None? ==>
                trends == old(trends) && medios == old(medios) && programas == old(programas)
    {
      paths := InitialPaths();
      if k.Success? && f.Success? && t.Success? && m.Success? && p.Success? {
        kpis := k.value;
        funnel := f.value;
        var reshaped := Reshape(t.value);
        if reshaped.Some? {
          trends := reshaped.value;
          medios := m.value;
          programas := p.value;
        }
      }
      loading := false;
    }

    /** The trend effect: one request for the current period; on failure the
        series is kept. */
    method RefreshTrends(t: Outcome) returns (path: string)
      modifies this
      ensures path == TrendsPath(Some(period), None)
      ensures trends == TrendsAfter(old(trends), t)
      ensures kpis == old(kpis) && funnel == old(funnel) && medios == old(medios) && programas == old(programas)
      ensures period == old(period) && loading == old(loading)
    {
      path := TrendsPath(Some(period), None);
      trends := TrendsAfter(trends, t);
    }

    /** A period button: the effect runs again only when the period changes. */
    method SelectPeriod(choice: string, t: Outcome) returns (path: Option<string>)
      modifies this
      ensures period == choice
      ensures choice == old(period) ==> path == None && trends == old(trends)
      ensures choice != old(period) ==> path == Some(TrendsPath(Some(choice), None)) && trends == TrendsAfter(old(trends), t)
      ensures kpis == old(kpis) && funnel == old(funnel) && medios == old(medios) && programas == old(programas)
      ensures loading == old(loading)
    {
      if choice == period {
        path := None;
      } else {
        period := choice;
        var sent := RefreshTrends(t);
        path := Some(sent);
      }
    }
  }
}
