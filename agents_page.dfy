/** The agents page (`AgentsPage.jsx`): one request for the agent rows, the
    conversion figure shown in the tooltip, the top cards and the ranking
    table, its badge colour, the medals of the first three places, and the
    slices of the list the cards and the chart show. */
module AgentsPage {
  import opened Wrappers
  import opened Text
  import opened JsValues
  import opened ApiClient
  import opened FunnelStages
  import DashboardRoutes

  /** The first, second and third place medals. */
  const Medals := ["\U{1F947}", "\U{1F948}", "\U{1F949}"]

  /** The conversion an agent shows: `'0'` unless `leads_gestionados > 0`,
      else `ventas / leads_gestionados * 100`. */
  datatype Conversion = ZeroShown | Shown(pct: Number)

  function ConversionOf(a: Json): (c: Conversion)
    ensures c.ZeroShown? <==> !Positive(AsNumber(OptField(a, "leads_gestionados")))
    ensures c.Shown? ==> c.pct == Ratio(OptField(a, "ventas"), OptField(a, "leads_gestionados"))
  {
    if Positive(AsNumber(OptField(a, "leads_gestionados")))
    then Shown(Ratio(OptField(a, "ventas"), OptField(a, "leads_gestionados")))
    else ZeroShown
  }

  /** `parseFloat(conv) > 2`, where `conv` is the figure written with one
      decimal. */
  predicate Green(c: Conversion)
  {
    c.Shown? &&
    match c.pct
    case Finite(r) => r >= 0.0 && Tenths(r) > 2.0
    case Infinity(neg) => !neg
    case NaN => false
  }

  /** A non-negative figure gets the green badge exactly from 2.05 on, the
      least value whose one-decimal text is above 2. */
  lemma GreenFrom(r: real)
    requires r >= 0.0
    ensures Green(Shown(Finite(r))) <==> r >= 2.05
  {
    var f := (r * 10.0 + 0.5).Floor;
    assert Tenths(r) == (f as real) / 10.0;
    if r >= 2.05 {
      assert r * 10.0 + 0.5 >= 21.0;
      assert f >= 21;
    } else {
      assert r * 10.0 + 0.5 < 21.0;
      assert f <= 20;
    }
  }

  /** With counts of sales and handled leads, the figure is the sales share
      in percent, a number between 0 and 100 when sales do not exceed leads. */
  lemma ConversionOfCounts(a: Json, sales: int, leads: int)
    requires a.Obj? && Lookup(a.fields, "ventas") == Num(sales as real)
    requires Lookup(a.fields, "leads_gestionados") == Num(leads as real)
    requires 0 <= sales <= leads
    ensures ConversionOf(a).ZeroShown? <==> leads == 0
    ensures leads > 0 ==> ConversionOf(a) == Shown(Finite((sales as real) / (leads as real) * 100.0))
    ensures leads > 0 ==> 0.0 <= ConversionOf(a).pct.r <= 100.0
  {
    assert AsNumber(OptField(a, "leads_gestionados")) == Finite(leads as real);
    if leads > 0 {
      var q := (sales as real) / (leads as real);
      assert ConversionOf(a) == Shown(Finite(q * 100.0));
      ShareBounds(sales as real, leads as real);
      assert 0.0 <= q * 100.0 <= 100.0;
    } else {
      assert ConversionOf(a) == ZeroShown;
    }
  }

  /** The service's rows have no `leads_gestionados` column, so every agent
      it sends shows `'0'` with a yellow badge. */
  lemma ServiceRowsShowZero(fields: seq<(string, Json)>)
    requires forall i :: 0 <= i < |fields| ==> fields[i].0 in DashboardRoutes.AgentColumns
    ensures ConversionOf(Obj(fields)) == ZeroShown && !Green(ConversionOf(Obj(fields)))
  {
    ColumnsLackLeads();
    assert Lookup(fields, "leads_gestionados") == Undefined;
  }

  lemma ColumnsLackLeads()
    ensures "leads_gestionados" !in DashboardRoutes.AgentColumns
  {
    var k := "leads_gestionados";
    assert k[0] == 'l';
    assert k != "usuario" && k != "total_leads" && k != "contactados";
    assert k != "contacto_efectivo" && k != "no_contactados" && k != "matriculados";
  }

  // ---- places -----------------------------------------------------------------------

  /** The top cards: the first three rows, in the service's order. */
  function TopCards(rows: seq<Json>): seq<Json> { Take(rows, 3) }

  /** The chart: the first fifteen rows. */
  function ChartRows(rows: seq<Json>): seq<Json> { Take(rows, 15) }

  /** The rank cell of the table's row `i`. */
  datatype Rank = Medal(symbol: string) | Place(n: int)

  function RankAt(i: nat): (r: Rank)
    ensures i < 3 ==> r == Medal(Medals[i])
    ensures i >= 3 ==> r == Place(i + 1)
  {
    if i < 3 then Medal(Medals[i]) else Place(i + 1)
  }

  /** Every row of the table has its own rank, and the top cards show the
      same rows as the medal places. */
  lemma RanksDistinct(rows: seq<Json>)
    ensures forall i, j :: 0 <= i < j ==> RankAt(i) != RankAt(j)
    ensures forall i :: 0 <= i < |TopCards(rows)| ==> TopCards(rows)[i] == rows[i] && RankAt(i).Medal?
    ensures ChartRows(rows) <= rows && TopCards(rows) <= ChartRows(rows)
  {
    var marks := seq(3, i requires 0 <= i < 3 => Medals[i][0]);
    assert marks == "\U{1F947}\U{1F948}\U{1F949}";
    forall i, j | 0 <= i < j
      ensures RankAt(i) != RankAt(j)
    {
      if j < 3 {
        assert marks[i] != marks[j];
      }
    }
  }

  class Agents {
    var agents: Json
    var loading: bool

    constructor()
      ensures agents == Arr([]) && loading
    {
      agents := Arr([]);
      loading := true;
    }

    /** The effect: the rows on success, `[]` kept on failure, and the
        spinner ends either way. */
    method Load(o: Outcome) returns (path: string)
      modifies this
      ensures path == AgentsPath(None)
      ensures o.Success? ==> agents == o.value
      ensures !o.Success? ==> agents == old(agents)
      ensures !loading
    {
      path := AgentsPath(None);
      if o.Success? {
        agents := o.value;
      }
      loading := false;
    }
  }
}
