/** The dashboard endpoints of the backend: how each one builds its SQL WHERE
    clause with positional placeholders `$1`, `$2`, ... and the matching
    argument list, how the leads endpoint pages its results, and how the
    KPI and funnel rows are shaped into fixed-form responses. The database
    itself is not modelled: a query is its text and its arguments, and the
    rows the database answers with are inputs. */
module DashboardRoutes {
  import opened Wrappers
  import opened Text

  /** A query parameter that Python treats as present: not None and not "". */
  predicate Given(p: Option<string>) { p.Some? && p.value != "" }

  // ---- SQL text as fragments ----------------------------------------------------

  /** A piece of a WHERE clause: literal SQL text, or the positional placeholder `$k`. */
  datatype Frag = Sql(text: string) | Param(k: nat)

  /** The placeholder token `$k`. */
  function Ph(k: nat): string
  {
    "$" + NatToString(k)
  }

  function FragText(x: Frag): string
  {
    match x
    case Sql(t) => t
    case Param(k) => Ph(k)
  }

  /** The SQL text that a sequence of fragments spells. */
  function SqlText(q: seq<Frag>): string
  {
    if |q| == 0 then "" else FragText(q[0]) + SqlText(q[1..])
  }

  /** The placeholder numbers of a sequence of fragments, in order of appearance. */
  function Params(q: seq<Frag>): seq<nat>
  {
    if |q| == 0 then [] else (if q[0].Param? then [q[0].k] else []) + Params(q[1..])
  }

  lemma {:induction false} SqlTextAppend(a: seq<Frag>, b: seq<Frag>)
    ensures SqlText(a + b) == SqlText(a) + SqlText(b)
    decreases |a|
  {
    if |a| == 0 {
      assert a + b == b;
    } else {
      assert (a + b)[1..] == a[1..] + b;
      SqlTextAppend(a[1..], b);
      SeqAssoc(FragText(a[0]), SqlText(a[1..]), SqlText(b));
    }
  }

  lemma {:induction false} ParamsAppend(a: seq<Frag>, b: seq<Frag>)
    ensures Params(a + b) == Params(a) + Params(b)
    decreases |a|
  {
    if |a| == 0 {
      assert a + b == b;
    } else {
      assert (a + b)[1..] == a[1..] + b;
      ParamsAppend(a[1..], b);
      var h: seq<nat> := if a[0].Param? then [a[0].k] else [];
      assert Params(a + b) == h + Params(a[1..] + b);
      SeqAssoc(h, Params(a[1..]), Params(b));
    }
  }

  /** A literal followed by a placeholder. */
  function Cond(lit: string, k: nat): seq<Frag>
  {
    [Sql(lit), Param(k)]
  }

  lemma CondProps(lit: string, k: nat)
    ensures SqlText(Cond(lit, k)) == lit + Ph(k)
    ensures Params(Cond(lit, k)) == [k]
  {
    var q := Cond(lit, k);
    var p := [Param(k)];
    assert q[1..] == p;
    assert p[1..] == [];
    assert SqlText(p) == Ph(k) + SqlText([]);
    assert Ph(k) + "" == Ph(k);
    assert SqlText(q) == lit + SqlText(p);
    assert Params(p) == [k] + Params([]);
    assert Params(q) == [] + Params(p);
  }

  lemma LitProps(lit: string)
    ensures SqlText([Sql(lit)]) == lit && Params([Sql(lit)]) == []
  {
    assert [Sql(lit)][1..] == [];
    assert SqlText([Sql(lit)]) == lit + SqlText([]);
    assert lit + "" == lit;
    assert Params([Sql(lit)]) == [] + Params([]);
  }

  /** Placeholder numbers that are exactly 1..n, in non-decreasing order: every
      `$k` refers to the k-th argument, and every argument is referred to. */
  predicate Numbered(p: seq<nat>, n: nat)
  {
    && (forall j :: 0 <= j < |p| ==> 1 <= p[j] <= n)
    && (forall j, j' :: 0 <= j <= j' < |p| ==> p[j] <= p[j'])
    && (forall k :: 1 <= k <= n ==> k in p)
  }

  // ---- the WHERE builders -------------------------------------------------------

  const WhereAll := "WHERE 1=1"
  const BaseCond := " AND base = "

  /** One filter condition, as the leads endpoint appends them. */
  datatype Filter = BaseIs(base: string) | SearchLike(term: string) | MedioIs(medio: string) | ResultadoIs(resultado: string)

  const SearchOpen := " AND (LOWER(txtnombreapellid) LIKE "
  const SearchOrMail := " OR LOWER(emlmail) LIKE "
  const SearchOrPhone := " OR LOWER(teltelefono) LIKE "
  const MedioCond := " AND medio = "
  const ResultadoCond := " AND resultado_gestion = "

  /** The fragments a filter appends when its argument is `$k`. */
  function Render(f: Filter, k: nat): seq<Frag>
  {
    match f
    case BaseIs(_) => Cond(BaseCond, k)
    case SearchLike(_) => Cond(SearchOpen, k) + Cond(SearchOrMail, k) + Cond(SearchOrPhone, k) + [Sql(")")]
    case MedioIs(_) => Cond(MedioCond, k)
    case ResultadoIs(_) => Cond(ResultadoCond, k)
  }

  /** The positional argument a filter pushes. */
  function Arg(f: Filter): string
  {
    match f
    case BaseIs(v) => v
    case SearchLike(v) => v
    case MedioIs(v) => v
    case ResultadoIs(v) => v
  }

  /** How many times a filter's condition mentions its placeholder. */
  function Uses(f: Filter): nat
  {
    if f.SearchLike? then 3 else 1
  }

  function Repeat(k: nat, n: nat): (r: seq<nat>)
    ensures |r| == n && forall j :: 0 <= j < n ==> r[j] == k
  {
    if n == 0 then [] else [k] + Repeat(k, n - 1)
  }

  /** The placeholders of each condition: the search condition uses its one
      placeholder three times, the others once. */
  lemma RenderParams(f: Filter, k: nat)
    ensures Params(Render(f, k)) == Repeat(k, Uses(f))
  {
    match f
    case BaseIs(_) => CondProps(BaseCond, k);
    case MedioIs(_) => CondProps(MedioCond, k);
    case ResultadoIs(_) => CondProps(ResultadoCond, k);
    case SearchLike(_) =>
      var a := Cond(SearchOpen, k);
      var b := Cond(SearchOrMail, k);
      var c := Cond(SearchOrPhone, k);
      CondProps(SearchOpen, k);
      CondProps(SearchOrMail, k);
      CondProps(SearchOrPhone, k);
      LitProps(")");
      ParamsAppend(a, b);
      ParamsAppend(a + b, c);
      ParamsAppend(a + b + c, [Sql(")")]);
      assert Repeat(k, 3) == [k, k, k];
  }

  /** The text of the search condition, as the source's f-string writes it. */
  lemma SearchText(term: string, k: nat)
    ensures SqlText(Render(SearchLike(term), k)) ==
            SearchOpen + Ph(k) + SearchOrMail + Ph(k) + SearchOrPhone + Ph(k) + ")"
  {
    var p := Ph(k);
    var a := Cond(SearchOpen, k);
    var b := Cond(SearchOrMail, k);
    var c := Cond(SearchOrPhone, k);
    CondProps(SearchOpen, k);
    CondProps(SearchOrMail, k);
    CondProps(SearchOrPhone, k);
    LitProps(")");
    var x := SearchOpen + p + SearchOrMail + p;
    assert SqlText(a + b) == x by {
      SqlTextAppend(a, b);
      SeqAssoc(SearchOpen + p, SearchOrMail, p);
    }
    var y := x + SearchOrPhone + p;
    assert SqlText(a + b + c) == y by {
      SqlTextAppend(a + b, c);
      SeqAssoc(x, SearchOrPhone, p);
    }
    SqlTextAppend(a + b + c, [Sql(")")]);
  }

  /** The text of the other conditions: a literal and the placeholder. */
  lemma CondText(f: Filter, k: nat)
    requires !f.SearchLike?
    ensures f.BaseIs? ==> SqlText(Render(f, k)) == BaseCond + Ph(k)
    ensures f.MedioIs? ==> SqlText(Render(f, k)) == MedioCond + Ph(k)
    ensures f.ResultadoIs? ==> SqlText(Render(f, k)) == ResultadoCond + Ph(k)
  {
    match f
    case BaseIs(_) => CondProps(BaseCond, k);
    case MedioIs(_) => CondProps(MedioCond, k);
    case ResultadoIs(_) => CondProps(ResultadoCond, k);
  }

  /** The conditions appended for `fs`, numbered from `k`. */
  function RenderAll(fs: seq<Filter>, k: nat): seq<Frag>
  {
    if |fs| == 0 then [] else Render(fs[0], k) + RenderAll(fs[1..], k + 1)
  }

  function ArgsOf(fs: seq<Filter>): (args: seq<string>)
    ensures |args| == |fs| && forall i :: 0 <= i < |fs| ==> args[i] == Arg(fs[i])
  {
    if |fs| == 0 then [] else [Arg(fs[0])] + ArgsOf(fs[1..])
  }

  /** The placeholder numbers the conditions of `fs` use, numbered from `k`. */
  function Expected(fs: seq<Filter>, k: nat): seq<nat>
  {
    if |fs| == 0 then [] else Repeat(k, Uses(fs[0])) + Expected(fs[1..], k + 1)
  }

  lemma {:induction false} RenderAllParams(fs: seq<Filter>, k: nat)
    ensures Params(RenderAll(fs, k)) == Expected(fs, k)
    decreases |fs|
  {
    if |fs| > 0 {
      RenderParams(fs[0], k);
      RenderAllParams(fs[1..], k + 1);
      ParamsAppend(Render(fs[0], k), RenderAll(fs[1..], k + 1));
    }
  }

  lemma {:induction false} RenderAllSnoc(fs: seq<Filter>, f: Filter, k: nat)
    ensures RenderAll(fs + [f], k) == RenderAll(fs, k) + Render(f, k + |fs|)
    decreases |fs|
  {
    var g := fs + [f];
    if |fs| == 0 {
      assert g == [f] && g[1..] == [];
      assert RenderAll(fs, k) == [];
      assert RenderAll(g, k) == Render(f, k) + RenderAll([], k + 1);
    } else {
      var h := Render(fs[0], k);
      var rest := RenderAll(fs[1..], k + 1);
      var last := Render(f, k + |fs|);
      assert g[0] == fs[0] && g[1..] == fs[1..] + [f];
      assert RenderAll(g, k) == h + RenderAll(fs[1..] + [f], k + 1);
      RenderAllSnoc(fs[1..], f, k + 1);
      assert RenderAll(fs[1..] + [f], k + 1) == rest + last;
      SeqAssoc(h, rest, last);
    }
  }

  lemma ArgsOfSnoc(fs: seq<Filter>, f: Filter)
    ensures ArgsOf(fs + [f]) == ArgsOf(fs) + [Arg(f)]
  {
    assert forall i :: 0 <= i < |fs| ==> (fs + [f])[i] == fs[i];
  }

  lemma {:induction false} ExpectedNumbered(fs: seq<Filter>, k: nat)
    ensures forall j :: 0 <= j < |Expected(fs, k)| ==> k <= Expected(fs, k)[j] < k + |fs|
    ensures forall j, j' :: 0 <= j <= j' < |Expected(fs, k)| ==> Expected(fs, k)[j] <= Expected(fs, k)[j']
    ensures forall m :: k <= m < k + |fs| ==> m in Expected(fs, k)
    decreases |fs|
  {
    if |fs| > 0 {
      ExpectedNumbered(fs[1..], k + 1);
      var head := Repeat(k, Uses(fs[0]));
      var tail := Expected(fs[1..], k + 1);
      var e := Expected(fs, k);
      assert e == head + tail;
      assert e[0] == k;
      forall m | k < m < k + |fs|
        ensures m in e
      {
        assert m in tail;
        var j :| 0 <= j < |tail| && tail[j] == m;
        assert e[|head| + j] == m;
      }
    }
  }

  /** The fragments of a WHERE clause made of `WHERE 1=1` and the conditions of `fs`. */
  function WhereFrags(fs: seq<Filter>): seq<Frag>
  {
    [Sql(WhereAll)] + RenderAll(fs, 1)
  }

  /** The core invariant of the builders: the placeholders of the clause are
      `$1` .. `$n` for the `n` arguments, in order, each one used. */
  lemma WhereNumbered(fs: seq<Filter>)
    ensures Numbered(Params(WhereFrags(fs)), |ArgsOf(fs)|)
  {
    LitProps(WhereAll);
    ParamsAppend([Sql(WhereAll)], RenderAll(fs, 1));
    RenderAllParams(fs, 1);
    ExpectedNumbered(fs, 1);
  }

  /** One more filter: its condition is numbered after the ones before it and
      its argument goes after theirs. */
  lemma AppendFilter(fs: seq<Filter>, f: Filter)
    ensures SqlText(WhereFrags(fs + [f])) == SqlText(WhereFrags(fs)) + SqlText(Render(f, |fs| + 1))
    ensures ArgsOf(fs + [f]) == ArgsOf(fs) + [Arg(f)]
  {
    RenderAllSnoc(fs, f, 1);
    SeqAssoc([Sql(WhereAll)], RenderAll(fs, 1), Render(f, |fs| + 1));
    SqlTextAppend(WhereFrags(fs), Render(f, |fs| + 1));
    ArgsOfSnoc(fs, f);
  }

  /** The filter `_get_base_filter` applies. */
  function BaseFilters(base: Option<string>): seq<Filter>
  {
    if Given(base) then [BaseIs(base.value)] else []
  }

  lemma OneIsOne()
    ensures Ph(1) == "$1"
  {
    assert NatToString(1) == "1";
  }

  lemma BaseLiteral()
    ensures WhereAll + (BaseCond + "$1") == "WHERE 1=1 AND base = $1"
  {
  }

  lemma BaseWhereText(base: Option<string>)
    ensures Given(base) ==> SqlText(WhereFrags(BaseFilters(base))) == "WHERE 1=1 AND base = $1"
    ensures !Given(base) ==> SqlText(WhereFrags(BaseFilters(base))) == "WHERE 1=1"
  {
    LitProps(WhereAll);
    if Given(base) {
      var r := Cond(BaseCond, 1);
      assert RenderAll([BaseIs(base.value)], 1) == r + RenderAll([], 2);
      assert r + [] == r;
      SqlTextAppend([Sql(WhereAll)], r);
      CondProps(BaseCond, 1);
      OneIsOne();
      BaseLiteral();
    } else {
      assert WhereFrags([]) == [Sql(WhereAll)];
    }
  }

  /** `_get_base_filter`: the shared start of every WHERE clause on dim_contactos. */
  method BaseFilter(base: Option<string>) returns (where: string, args: seq<string>)
    ensures Given(base) ==> where == "WHERE 1=1 AND base = $1" && args == [base.value]
    ensures !Given(base) ==> where == "WHERE 1=1" && args == []
    ensures where == SqlText(WhereFrags(BaseFilters(base))) && args == ArgsOf(BaseFilters(base))
  {
    where := "WHERE 1=1";
    args := [];
    if Given(base) {
      where := where + " AND base = $1";
      args := args + [base.value];
    }
    BaseWhereText(base);
  }

  // ---- GET /api/dashboard/leads -----------------------------------------------

  /** The LIKE pattern for a search: lower-cased and wrapped in `%`. */
  function SearchTerm(search: string): string
  {
    "%" + Lower(search) + "%"
  }

  /** An accented capital is lowered as well, so the pattern for `MARÍA`
      matches the lower-cased `María` the query compares it with. */
  lemma SearchTermAccented()
    ensures SearchTerm("MARÍA") == "%maría%"
  {
    LowerAccented();
  }

  /** The filters the leads endpoint applies, in the order it appends them. */
  function LeadsFilters(base: Option<string>, search: Option<string>, medio: Option<string>,
                        resultado: Option<string>): seq<Filter>
  {
    BaseFilters(base) + SearchFilters(search) + MedioFilters(medio) + ResultadoFilters(resultado)
  }

  function SearchFilters(search: Option<string>): seq<Filter>
  {
    if Given(search) then [SearchLike(SearchTerm(search.value))] else []
  }

  function MedioFilters(medio: Option<string>): seq<Filter>
  {
    if Given(medio) then [MedioIs(medio.value)] else []
  }

  function ResultadoFilters(resultado: Option<string>): seq<Filter>
  {
    if Given(resultado) then [ResultadoIs(resultado.value)] else []
  }

  /** `where` and `args` are what the filters `fs` produce. */
  ghost predicate Built(where: string, args: seq<string>, fs: seq<Filter>)
  {
    where == SqlText(WhereFrags(fs)) && args == ArgsOf(fs)
  }

  lemma BuiltStep(where: string, args: seq<string>, fs: seq<Filter>, f: Filter, k: nat, cond: string)
    requires Built(where, args, fs) && k == |args| + 1 && cond == SqlText(Render(f, k))
    ensures Built(where + cond, args + [Arg(f)], fs + [f]) && k + 1 == |args + [Arg(f)]| + 1
  {
    AppendFilter(fs, f);
  }

  /** The search step of `get_leads`: the three-column LIKE on `$arg_idx`. */
  method AddSearch(where: string, args: seq<string>, argIdx: nat, ghost fs: seq<Filter>, search: Option<string>)
    returns (where': string, args': seq<string>, argIdx': nat)
    requires Built(where, args, fs) && argIdx == |args| + 1
    ensures Built(where', args', fs + SearchFilters(search)) && argIdx' == |args'| + 1
    ensures !Given(search) ==> where' == where && args' == args
  {
    where', args', argIdx' := where, args, argIdx;
    if Given(search) {
      var term := "%" + Lower(search.value) + "%";
      var cond := SearchOpen + Ph(argIdx) + SearchOrMail + Ph(argIdx) + SearchOrPhone + Ph(argIdx) + ")";
      SearchText(term, argIdx);
      BuiltStep(where, args, fs, SearchLike(term), argIdx, cond);
      where', args', argIdx' := where + cond, args + [term], argIdx + 1;
    } else {
      assert fs + SearchFilters(search) == fs;
    }
  }

  /** The `medio` and `resultado` steps of `get_leads`: when the filter is
      given, one condition `lit` + `$arg_idx`. */
  method AddEquality(where: string, args: seq<string>, argIdx: nat, ghost fs: seq<Filter>,
                     extra: seq<Filter>, lit: string)
    returns (where': string, args': seq<string>, argIdx': nat)
    requires Built(where, args, fs) && argIdx == |args| + 1
    requires extra == [] || (|extra| == 1 && ((extra[0].MedioIs? && lit == MedioCond) || (extra[0].ResultadoIs? && lit == ResultadoCond)))
    ensures Built(where', args', fs + extra) && argIdx' == |args'| + 1
    ensures extra == [] ==> where' == where && args' == args
  {
    where', args', argIdx' := where, args, argIdx;
    if extra != [] {
      var cond := lit + Ph(argIdx);
      CondText(extra[0], argIdx);
      BuiltStep(where, args, fs, extra[0], argIdx, cond);
      assert extra == [extra[0]];
      where', args', argIdx' := where + cond, args + [Arg(extra[0])], argIdx + 1;
    } else {
      assert fs + extra == fs;
    }
  }

  /** The WHERE clause and arguments of `get_leads`, built step by step with the
      running placeholder counter `arg_idx`. */
  method LeadsWhere(base: Option<string>, search: Option<string>, medio: Option<string>,
                    resultado: Option<string>)
    returns (where: string, args: seq<string>, argIdx: nat)
    ensures where == SqlText(WhereFrags(LeadsFilters(base, search, medio, resultado)))
    ensures args == ArgsOf(LeadsFilters(base, search, medio, resultado))
    ensures argIdx == |args| + 1
  {
    where, args := BaseFilter(base);
    argIdx := |args| + 1;
    ghost var fs := BaseFilters(base);
    where, args, argIdx := AddSearch(where, args, argIdx, fs, search);
    fs := fs + SearchFilters(search);
    where, args, argIdx := AddEquality(where, args, argIdx, fs, MedioFilters(medio), MedioCond);
    fs := fs + MedioFilters(medio);
    where, args, argIdx := AddEquality(where, args, argIdx, fs, ResultadoFilters(resultado), ResultadoCond);
    fs := fs + ResultadoFilters(resultado);
  }

  /** In the leads WHERE clause the placeholders are `$1` .. `$n` for the `n`
      arguments, in order, each one used; the search term is among the arguments,
      right after the base when there is one. */
  lemma LeadsNumbered(base: Option<string>, search: Option<string>, medio: Option<string>,
                      resultado: Option<string>)
    ensures var fs := LeadsFilters(base, search, medio, resultado);
            Numbered(Params(WhereFrags(fs)), |ArgsOf(fs)|)
    ensures var args := ArgsOf(LeadsFilters(base, search, medio, resultado));
            Given(search) ==> args[if Given(base) then 1 else 0] == SearchTerm(search.value)
    ensures |ArgsOf(LeadsFilters(base, search, medio, resultado))| ==
            (if Given(base) then 1 else 0) + (if Given(search) then 1 else 0)
            + (if Given(medio) then 1 else 0) + (if Given(resultado) then 1 else 0)
  {
    var fs := LeadsFilters(base, search, medio, resultado);
    WhereNumbered(fs);
    if Given(search) {
      var i := if Given(base) then 1 else 0;
      assert fs[i] == SearchLike(SearchTerm(search.value));
    }
  }

  /** FastAPI's validation of the leads query: `page >= 1`, `1 <= per_page <= 100`. */
  predicate ValidPaging(page: int, perPage: int) { page >= 1 && 1 <= perPage <= 100 }

  /** The index of the first row of a page. */
  function Offset(page: int, perPage: int): (offset: nat)
    requires ValidPaging(page, perPage)
    ensures page == 1 <==> offset == 0
  {
    (page - 1) * perPage
  }

  /** Consecutive pages are consecutive windows of `perPage` rows. */
  lemma OffsetNext(page: int, perPage: int)
    requires ValidPaging(page, perPage)
    ensures Offset(page + 1, perPage) == Offset(page, perPage) + perPage
  {
  }

  lemma {:induction false} OffsetsOrdered(p: int, q: int, perPage: int)
    requires ValidPaging(p, perPage) && p <= q
    ensures Offset(p, perPage) <= Offset(q, perPage)
    decreases q - p
  {
    if p < q {
      OffsetsOrdered(p + 1, q, perPage);
      OffsetNext(p, perPage);
    }
  }

  /** Every row index lies in the window of exactly one valid page. */
  lemma RowOnOnePage(i: nat, perPage: int)
    requires 1 <= perPage <= 100
    ensures var p := i / perPage + 1;
            ValidPaging(p, perPage) && Offset(p, perPage) <= i < Offset(p, perPage) + perPage
    ensures forall q :: ValidPaging(q, perPage) && Offset(q, perPage) <= i < Offset(q, perPage) + perPage
                        ==> q == i / perPage + 1
  {
    var d := i / perPage;
    var p := d + 1;
    assert i == d * perPage + i % perPage && 0 <= i % perPage < perPage;
    assert Offset(p, perPage) == d * perPage;
    forall q | ValidPaging(q, perPage) && Offset(q, perPage) <= i < Offset(q, perPage) + perPage
      ensures q == p
    {
      if q < p {
        OffsetsOrdered(q + 1, p, perPage);
        OffsetNext(q, perPage);
      } else if q > p {
        OffsetsOrdered(p + 1, q, perPage);
        OffsetNext(p, perPage);
      }
    }
  }

  /** What the leads endpoint sends to the database: the filtered WHERE and its
      arguments (shared by the count query and the page query) and the page window. */
  datatype LeadsPlan = LeadsPlan(where: string, args: seq<string>, limit: nat, offset: nat)

  /** The status FastAPI answers with when the query parameters fail validation. */
  const Unprocessable := 422

  method PlanLeads(page: int, perPage: int, search: Option<string>, medio: Option<string>,
                   resultado: Option<string>, base: Option<string>)
    returns (r: Result<LeadsPlan, int>)
    ensures r.Err? <==> !ValidPaging(page, perPage)
    ensures r.Err? ==> r.error == Unprocessable
    ensures r.Ok? ==> && r.value.limit == perPage
                      && r.value.offset == Offset(page, perPage)
                      && r.value.where == SqlText(WhereFrags(LeadsFilters(base, search, medio, resultado)))
                      && r.value.args == ArgsOf(LeadsFilters(base, search, medio, resultado))
  {
    if !ValidPaging(page, perPage) {
      return Err(Unprocessable);
    }
    var where, args, _ := LeadsWhere(base, search, medio, resultado);
    var offset := Offset(page, perPage);
    r := Ok(LeadsPlan(where, args, perPage, offset));
  }

  datatype LeadsResponse<R> = LeadsResponse(data: seq<R>, total: int, page: int, perPage: int)

  /** The response envelope: the rows of the page, the count (0 when the count
      query returned no row) and the paging parameters echoed back. */
  function LeadsEnvelope<R>(countRow: Option<int>, rows: seq<R>, page: int, perPage: int): (r: LeadsResponse<R>)
    ensures r.page == page && r.perPage == perPage && r.data == rows
    ensures countRow.None? ==> r.total == 0
    ensures countRow.Some? ==> r.total == countRow.value
  {
    LeadsResponse(rows, if countRow.Some? then countRow.value else 0, page, perPage)
  }

  // ---- endpoints that filter by base only ---------------------------------------

  /** The granularity `get_trends` truncates dates to. */
  datatype Trunc = Day | Week | Month

  function TruncFor(period: string): (u: Trunc)
    ensures u == Day <==> period == "day"
    ensures u == Week <==> period == "week"
    ensures u == Month <==> (period != "day" && period != "week")
  {
    if period == "day" then Day else if period == "week" then Week else Month
  }

  /** The SQL keyword of a truncation unit. */
  function TruncKeyword(u: Trunc): string
  {
    match u
    case Day => "DAY"
    case Week => "WEEK"
    case Month => "MONTH"
  }

  const DatedRows := " AND fecha_a_utilizar IS NOT NULL AND fecha_a_utilizar != ''"
  const MedioPresent := " AND medio IS NOT NULL"
  const ProgramaPresent := "programa_interes IS NOT NULL AND programa_interes != ''"

  /** A base-filtered clause followed by fixed SQL keeps the base numbering. */
  lemma SuffixNumbered(base: Option<string>, suffix: string)
    ensures SqlText(WhereFrags(BaseFilters(base)) + [Sql(suffix)]) == SqlText(WhereFrags(BaseFilters(base))) + suffix
    ensures Numbered(Params(WhereFrags(BaseFilters(base)) + [Sql(suffix)]), |ArgsOf(BaseFilters(base))|)
  {
    var w := WhereFrags(BaseFilters(base));
    LitProps(suffix);
    SqlTextAppend(w, [Sql(suffix)]);
    ParamsAppend(w, [Sql(suffix)]);
    assert Params(w) + [] == Params(w);
    WhereNumbered(BaseFilters(base));
  }

  /** `get_trends`: the truncation unit chosen from `period`, and the base filter
      restricted to rows that carry a date. */
  method TrendsQuery(period: string, base: Option<string>) returns (trunc: Trunc, where: string, args: seq<string>)
    ensures trunc == TruncFor(period) && TruncKeyword(trunc) in {"DAY", "WEEK", "MONTH"}
    ensures where == SqlText(WhereFrags(BaseFilters(base)) + [Sql(DatedRows)])
    ensures args == ArgsOf(BaseFilters(base))
    ensures Numbered(Params(WhereFrags(BaseFilters(base)) + [Sql(DatedRows)]), |args|)
  {
    if period == "day" {
      trunc := Day;
    } else if period == "week" {
      trunc := Week;
    } else {
      trunc := Month;
    }
    where, args := BaseFilter(base);
    SuffixNumbered(base, DatedRows);
    where := where + DatedRows;
  }

  /** `get_by_medio`: the base filter restricted to rows with a channel. */
  method ByMedioQuery(base: Option<string>) returns (where: string, args: seq<string>)
    ensures where == SqlText(WhereFrags(BaseFilters(base)) + [Sql(MedioPresent)])
    ensures args == ArgsOf(BaseFilters(base))
    ensures Numbered(Params(WhereFrags(BaseFilters(base)) + [Sql(MedioPresent)]), |args|)
  {
    where, args := BaseFilter(base);
    SuffixNumbered(base, MedioPresent);
    where := where + MedioPresent;
  }

  /** The fragments of the `get_by_programa` clause. */
  function ProgramaFrags(base: Option<string>): seq<Frag>
  {
    if Given(base) then WhereFrags(BaseFilters(base)) + [Sql(" AND " + ProgramaPresent)]
    else [Sql("WHERE " + ProgramaPresent)]
  }

  lemma EndsWith(x: string, p: string)
    ensures |p| <= |x + p| && (x + p)[|x + p| - |p|..] == p
  {
  }

  /** The text and numbering of the `get_by_programa` clause. */
  lemma ProgramaText(base: Option<string>)
    ensures Given(base) ==> SqlText(ProgramaFrags(base)) == "WHERE 1=1 AND base = $1" + " AND " + ProgramaPresent
    ensures !Given(base) ==> SqlText(ProgramaFrags(base)) == "WHERE " + ProgramaPresent
    ensures Numbered(Params(ProgramaFrags(base)), |ArgsOf(BaseFilters(base))|)
  {
    if Given(base) {
      SuffixNumbered(base, " AND " + ProgramaPresent);
      BaseWhereText(base);
      SeqAssoc("WHERE 1=1 AND base = $1", " AND ", ProgramaPresent);
    } else {
      LitProps("WHERE " + ProgramaPresent);
    }
  }

  /** `get_by_programa`: rows with a non-empty programme. With a base the clause
      keeps `base = $1`; without one the WHERE is replaced outright. Either way
      it ends with the programme condition. */
  method ByProgramaQuery(base: Option<string>, limit: int) returns (where: string, args: seq<string>, lim: int)
    ensures Given(base) ==> where == "WHERE 1=1 AND base = $1" + " AND " + ProgramaPresent && args == [base.value]
    ensures !Given(base) ==> where == "WHERE " + ProgramaPresent && args == []
    ensures where == SqlText(ProgramaFrags(base)) && Numbered(Params(ProgramaFrags(base)), |args|)
    ensures |ProgramaPresent| <= |where| && where[|where| - |ProgramaPresent|..] == ProgramaPresent
    ensures lim == limit
  {
    where, args := BaseFilter(base);
    ProgramaText(base);
    var head := if |args| > 0 then where + " AND " else "WHERE ";
    where := head + ProgramaPresent;
    EndsWith(head, ProgramaPresent);
    lim := limit;
  }

  const AgentsWhere := "WHERE f.usuario IS NOT NULL AND f.usuario != ''"
  const BasesJoin := "JOIN dim_bases b ON f.iddatabase = b.iddatabase"
  const DescripcionCond := " AND b.descripcion = "

  /** The fragments of the `get_agents` clause. */
  function AgentsFrags(base: Option<string>): seq<Frag>
  {
    [Sql(AgentsWhere)] + (if Given(base) then Cond(DescripcionCond, 1) else [])
  }

  /** The text and placeholders of the `get_agents` clause. */
  lemma AgentsText(base: Option<string>)
    ensures SqlText(AgentsFrags(base)) == if Given(base) then AgentsWhere + DescripcionCond + "$1" else AgentsWhere
    ensures Params(AgentsFrags(base)) == if Given(base) then [1] else []
  {
    LitProps(AgentsWhere);
    if Given(base) {
      var c := Cond(DescripcionCond, 1);
      assert AgentsFrags(base) == [Sql(AgentsWhere)] + c;
      CondProps(DescripcionCond, 1);
      OneIsOne();
      SqlTextAppend([Sql(AgentsWhere)], c);
      ParamsAppend([Sql(AgentsWhere)], c);
      SeqAssoc(AgentsWhere, DescripcionCond, "$1");
    } else {
      assert AgentsFrags(base) == [Sql(AgentsWhere)];
    }
  }

  /** `get_agents`: the join clause, WHERE and arguments, built step by step; the
      join to `dim_bases` is there exactly when the base condition is. */
  method AgentsQuery(base: Option<string>) returns (baseJoin: string, where: string, args: seq<string>)
    ensures baseJoin == (if Given(base) then BasesJoin else "")
    ensures Given(base) ==> where == AgentsWhere + DescripcionCond + "$1" && args == [base.value]
    ensures !Given(base) ==> where == AgentsWhere && args == []
    ensures where == SqlText(AgentsFrags(base)) && Numbered(Params(AgentsFrags(base)), |args|)
  {
    baseJoin := "";
    where := AgentsWhere;
    args := [];
    AgentsText(base);
    if Given(base) {
      baseJoin := BasesJoin;
      where := where + DescripcionCond + "$1";
      args := args + [base.value];
    }
  }

  // ---- fixed-shape responses ----------------------------------------------------

  /** Python's `x or 0` on a nullable integer column. */
  function OrZero(v: Option<int>): int
  {
    if v.Some? then v.value else 0
  }

  /** The row of the funnel query; a column is None when the database returned NULL. */
  datatype FunnelRow = FunnelRow(total: Option<int>, contactados: Option<int>, efectivo: Option<int>, matriculados: Option<int>)

  datatype Stage = Stage(stage: string, value: int, color: string)

  const StageNames: seq<string> := ["Leads", "Contactados", "Contacto Efectivo", "Matriculados"]
  const StageColors: seq<string> := ["#3b82f6", "#60a5fa", "#22c55e", "#a855f7"]

  predicate CountsNonNegative(row: FunnelRow)
  {
    && OrZero(row.total) >= 0 && OrZero(row.contactados) >= 0
    && OrZero(row.efectivo) >= 0 && OrZero(row.matriculados) >= 0
  }

  /** `get_funnel`: always four stages, in funnel order, with NULL (or a missing
      row) read as 0. */
  function ShapeFunnel(row: Option<FunnelRow>): (stages: seq<Stage>)
    ensures |stages| == 4
    ensures forall i :: 0 <= i < 4 ==> stages[i].stage == StageNames[i] && stages[i].color == StageColors[i]
    ensures row.None? ==> forall i :: 0 <= i < 4 ==> stages[i].value == 0
    ensures row.Some? ==> && stages[0].value == OrZero(row.value.total)
                          && stages[1].value == OrZero(row.value.contactados)
                          && stages[2].value == OrZero(row.value.efectivo)
                          && stages[3].value == OrZero(row.value.matriculados)
    ensures (row.Some? ==> CountsNonNegative(row.value)) ==> forall i :: 0 <= i < 4 ==> stages[i].value >= 0
  {
    var r := if row.Some? then row.value else FunnelRow(Some(0), Some(0), Some(0), Some(0));
    [ Stage("Leads", OrZero(r.total), "#3b82f6"),
      Stage("Contactados", OrZero(r.contactados), "#60a5fa"),
      Stage("Contacto Efectivo", OrZero(r.efectivo), "#22c55e"),
      Stage("Matriculados", OrZero(r.matriculados), "#a855f7") ]
  }

  /** The row of the KPI query. */
  datatype KpiRow = KpiRow(totalLeads: Option<int>, contactados: Option<int>, noContactados: Option<int>,
                           contactoEfectivo: Option<int>, matriculados: Option<int>, avgToques: Option<real>)

  datatype Kpis = Kpis(totalLeads: int, contactados: int, noContactados: int,
                       contactoEfectivo: int, matriculados: int, avgToques: real)

  /** `get_kpis`: every field present; all zero when there is no row; a NULL or
      zero average becomes 0. */
  function ShapeKpis(row: Option<KpiRow>): (k: Kpis)
    ensures row.None? ==> k == Kpis(0, 0, 0, 0, 0, 0.0)
    ensures row.Some? ==> && k.totalLeads == OrZero(row.value.totalLeads)
                          && k.contactados == OrZero(row.value.contactados)
                          && k.noContactados == OrZero(row.value.noContactados)
                          && k.contactoEfectivo == OrZero(row.value.contactoEfectivo)
                          && k.matriculados == OrZero(row.value.matriculados)
    ensures row.Some? && row.value.avgToques.Some? ==> k.avgToques == row.value.avgToques.value
    ensures row.Some? && row.value.avgToques.None? ==> k.avgToques == 0.0
  {
    if row.None? then Kpis(0, 0, 0, 0, 0, 0.0)
    else
      var r := row.value;
      Kpis(OrZero(r.totalLeads), OrZero(r.contactados), OrZero(r.noContactados),
           OrZero(r.contactoEfectivo), OrZero(r.matriculados),
           if r.avgToques.Some? && r.avgToques.value != 0.0 then r.avgToques.value else 0.0)
  }

  /** When the funnel and KPI queries see the same table, the funnel's stages
      carry the same counts as the KPI record. */
  lemma FunnelMatchesKpis(k: KpiRow)
    ensures var f := ShapeFunnel(Some(FunnelRow(k.totalLeads, k.contactados, k.contactoEfectivo, k.matriculados)));
            var s := ShapeKpis(Some(k));
            f[0].value == s.totalLeads && f[1].value == s.contactados
            && f[2].value == s.contactoEfectivo && f[3].value == s.matriculados
  {
  }

  /** The columns of one row of the agents query, by name. */
  const AgentColumns: set<string> := {"usuario", "total_leads", "contactados", "contacto_efectivo", "no_contactados", "matriculados"}
}
