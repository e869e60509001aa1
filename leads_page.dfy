/** The leads table (`LeadsPage.jsx`): the filters, the page number and its
    two buttons, the page count, and `load`, which asks for the current page
    and filters and keeps the last successful answer. */
module LeadsPage {
  import opened Wrappers
  import opened JsValues
  import opened ApiClient

  /** What the table shows: the rows, and the `total` and `per_page` of the
      last answer, read as numbers. */
  datatype LeadsData = LeadsData(rows: Json, total: Number, perPage: Number)

  const InitialData := LeadsData(Arr([]), Finite(0.0), Finite(25.0))

  /** `setData(res)`; reading the fields of a `null` answer is taken as reading
      `undefined`. */
  function DataOf(res: Json): (d: LeadsData)
    ensures res.Obj? ==> d.rows == Lookup(res.fields, "data")
    ensures res.Obj? ==> d.total == AsNumber(Lookup(res.fields, "total"))
    ensures res.Obj? ==> d.perPage == AsNumber(Lookup(res.fields, "per_page"))
  {
    LeadsData(OptField(res, "data"), AsNumber(OptField(res, "total")), AsNumber(OptField(res, "per_page")))
  }

  /** `Math.ceil(data.total / data.per_page) || 1`. */
  function TotalPages(d: LeadsData): (n: Number)
    ensures n.Finite? || n.Infinity?
    ensures n.Finite? ==> n.r == n.r.Floor as real && n.r != 0.0
  {
    OrElse(Ceil(DivN(d.total, d.perPage)), 1.0)
  }

  /** For a count and a page size the service sends, the number of pages is
      the least whole number of pages that holds every row, and at least 1. */
  lemma TotalPagesCount(total: int, perPage: int)
    requires total >= 0 && perPage >= 1
    ensures var n := TotalPages(LeadsData(Arr([]), Finite(total as real), Finite(perPage as real)));
            && n.Finite? && n.r >= 1.0 && n.r == n.r.Floor as real
            && n.r * (perPage as real) >= total as real
            && (total > 0 ==> (n.r - 1.0) * (perPage as real) < total as real)
  {
    var d := LeadsData(Arr([]), Finite(total as real), Finite(perPage as real));
    var p := perPage as real;
    var q := (total as real) / p;
    var c := CeilReal(q);
    assert DivN(d.total, d.perPage) == Finite(q);
    assert q * p == total as real;
    if total > 0 {
      assert q > 0.0;
      assert c >= 1;
      assert TotalPages(d) == Finite(c as real);
      MulLess(c as real - 1.0, q, p);
      assert (c as real - 1.0) * p < total as real;
      if c as real > q {
        MulLess(q, c as real, p);
      }
      assert (c as real) * p >= total as real;
      assert TotalPages(d).r == c as real;
    } else {
      assert q == 0.0 && c == 0;
      assert TotalPages(d) == Finite(1.0);
    }
  }

  /** Before the first answer: page 1 of 1. */
  lemma InitialSinglePage()
    ensures TotalPages(InitialData) == Finite(1.0)
  {
    assert CeilReal(0.0) == 0;
  }

  /** The object handed to `api.leads`. */
  function Params(page: int, search: string, medio: string, resultado: string): (ps: seq<(string, ParamValue)>)
    ensures DistinctKeys(ps)
  {
    [("page", PInt(page)), ("search", PStr(search)), ("medio", PStr(medio)), ("resultado", PStr(resultado))]
  }

  /** The request carries the page unless it is 0, and each filter exactly
      when it is not empty. */
  lemma RequestCarries(page: int, search: string, medio: string, resultado: string)
    ensures var q := Kept(Params(page, search, medio, resultado));
            && (("page", ParamText(PInt(page))) in q <==> page != 0)
            && (("search", search) in q <==> search != "")
            && (("medio", medio) in q <==> medio != "")
            && (("resultado", resultado) in q <==> resultado != "")
  {
    var ps := Params(page, search, medio, resultado);
    KeptIn(ps, ("page", ParamText(PInt(page))));
    KeptIn(ps, ("search", search));
    KeptIn(ps, ("medio", medio));
    KeptIn(ps, ("resultado", resultado));
    if ("page", ParamText(PInt(page))) in Kept(ps) {
      var j :| KeptFrom(ps, j, ("page", ParamText(PInt(page))));
      assert j == 0;
    }
    if ("search", search) in Kept(ps) {
      var j :| KeptFrom(ps, j, ("search", search));
      assert j == 1;
    }
    if ("medio", medio) in Kept(ps) {
      var j :| KeptFrom(ps, j, ("medio", medio));
      assert j == 2;
    }
    if ("resultado", resultado) in Kept(ps) {
      var j :| KeptFrom(ps, j, ("resultado", resultado));
      assert j == 3;
    }
    assert KeptFrom(ps, 0, ("page", ParamText(PInt(page)))) <==> page != 0;
    assert KeptFrom(ps, 1, ("search", search)) <==> search != "";
    assert KeptFrom(ps, 2, ("medio", medio)) <==> medio != "";
    assert KeptFrom(ps, 3, ("resultado", resultado)) <==> resultado != "";
  }

  /** The next-page button is enabled only below a finite page count, so
      clicking it never passes that count. */
  lemma ClicksStayInRange(page0: int, d: LeadsData)
    requires 1 <= page0
    ensures var n := TotalPages(d);
            (!AtLeast(page0 as real, n) && n.Finite? ==> (page0 + 1) as real <= n.r)
  {
    var n := TotalPages(d);
    if !AtLeast(page0 as real, n) && n.Finite? {
      assert page0 < n.r.Floor;
    }
  }

  /** The values `load` is built from (`[page, search, medio, resultado]`);
      a new `load`, and so a new run of the effect, follows each change. */
  datatype Deps = Deps(page: int, search: string, medio: string, resultado: string)

  /** The data after an answer settles as `o`: `setData(res)` on success,
      unchanged when the request fails. */
  function Answered(d: LeadsData, o: Outcome): (r: LeadsData)
    ensures o.Success? ==> r == DataOf(o.value)
    ensures !o.Success? ==> r == d
  {
    if o.Success? then DataOf(o.value) else d
  }

  /** Of two answers to requests in flight together, the one that arrives
      last decides what the table shows when it succeeds. */
  lemma LastAnswerShown(d: LeadsData, first: Outcome, second: Outcome)
    ensures second.Success? ==> Answered(Answered(d, first), second) == DataOf(second.value)
    ensures !second.Success? ==> Answered(Answered(d, first), second) == Answered(d, first)
  {
  }

  class Leads {
    var data: LeadsData
    var search: string
    var medio: string
    var resultado: string
    var page: int
    var loading: bool
    /** The values of the `load` the effect last ran, None before the mount. */
    var effectDeps: Option<Deps>

    constructor()
      ensures data == InitialData && search == "" && medio == "" && resultado == "" && page == 1 && loading
      ensures effectDeps == None
    {
      effectDeps := None;
      data := InitialData;
      search := "";
      medio := "";
      resultado := "";
      page := 1;
      loading := true;
    }

    function Current(): Deps
      reads this
    {
      Deps(page, search, medio, resultado)
    }

    predicate PrevDisabled()
      reads this
    {
      page <= 1
    }

    predicate NextDisabled()
      reads this
    {
      AtLeast(page as real, TotalPages(data))
    }

    /** The previous-page button: one page back unless disabled. */
    method ClickPrev()
      modifies this
      ensures old(PrevDisabled()) ==> page == old(page)
      ensures !old(PrevDisabled()) ==> page == old(page) - 1
      ensures data == old(data) && search == old(search) && medio == old(medio) && resultado == old(resultado)
      ensures loading == old(loading)
      ensures effectDeps == old(effectDeps)
    {
      if !PrevDisabled() {
        page := page - 1;
      }
    }

    /** The next-page button: one page on unless disabled. */
    method ClickNext()
      modifies this
      ensures old(NextDisabled()) ==> page == old(page)
      ensures !old(NextDisabled()) ==> page == old(page) + 1
      ensures data == old(data) && search == old(search) && medio == old(medio) && resultado == old(resultado)
      ensures loading == old(loading)
      ensures effectDeps == old(effectDeps)
    {
      if !NextDisabled() {
        page := page + 1;
      }
    }

    method SetSearch(v: string)
      modifies this
      ensures search == v
      ensures page == old(page) && medio == old(medio) && resultado == old(resultado) && data == old(data)
      ensures loading == old(loading)
      ensures effectDeps == old(effectDeps)
    {
      search := v;
    }

    /** The medio select: a new filter starts again at page 1. */
    method SetMedio(v: string)
      modifies this
      ensures medio == v && page == 1
      ensures search == old(search) && resultado == old(resultado) && data == old(data) && loading == old(loading)
      ensures effectDeps == old(effectDeps)
    {
      medio := v;
      page := 1;
    }

    /** The resultado select: likewise back to page 1. */
    method SetResultado(v: string)
      modifies this
      ensures resultado == v && page == 1
      ensures search == old(search) && medio == old(medio) && data == old(data) && loading == old(loading)
      ensures effectDeps == old(effectDeps)
    {
      resultado := v;
      page := 1;
    }

    /** The request part of `load`: the spinner on, and the path for the
        current page and filters. */
    method Ask() returns (path: string)
      modifies this
      ensures path == LeadsPath(Params(page, search, medio, resultado))
      ensures loading && data == old(data) && effectDeps == old(effectDeps)
      ensures page == old(page) && search == old(search) && medio == old(medio) && resultado == old(resultado)
    {
      loading := true;
      var q := LeadsQuery(Params(page, search, medio, resultado));
      path := LeadsRoute + "?" + Serialize(q);
    }

    /** The rest of `load` once its answer settles as `o`. */
    method Receive(o: Outcome)
      modifies this
      ensures data == Answered(old(data), o) && !loading && effectDeps == old(effectDeps)
      ensures page == old(page) && search == old(search) && medio == old(medio) && resultado == old(resultado)
    {
      if o.Success? {
        data := DataOf(o.value);
      }
      loading := false;
    }

    /** `load` with its request settling as `o`: the path it asks for, the
        answer kept on success and the data left alone on failure. */
    method Load(o: Outcome) returns (path: string)
      modifies this
      ensures path == LeadsPath(Params(page, search, medio, resultado))
      ensures data == Answered(old(data), o)
      ensures !loading && effectDeps == old(effectDeps)
      ensures page == old(page) && search == old(search) && medio == old(medio) && resultado == old(resultado)
    {
      path := Ask();
      Receive(o);
    }

    /** `useEffect(() => { load(); }, [load])` after a render: it runs `load`
        exactly when page, search or a filter differ from its last run (and
        on the mount), with the request settling as `o`. */
    method Effect(o: Outcome) returns (path: Option<string>)
      modifies this
      ensures path.Some? <==> old(effectDeps) != Some(old(Current()))
      ensures effectDeps == Some(Current())
      ensures path.Some? ==> path.value == LeadsPath(Params(page, search, medio, resultado))
                             && data == Answered(old(data), o) && !loading
      ensures path.None? ==> data == old(data) && loading == old(loading)
      ensures page == old(page) && search == old(search) && medio == old(medio) && resultado == old(resultado)
    {
      if effectDeps != Some(Current()) {
        effectDeps := Some(Current());
        var p := Load(o);
        path := Some(p);
      } else {
        path := None;
      }
    }

    /** `handleSearch`: page 1, and the `load` of the same render, which still
        asks for the page shown before the submit. */
    method HandleSearch(o: Outcome) returns (path: string)
      modifies this
      ensures page == 1
      ensures path == LeadsPath(Params(old(page), search, medio, resultado))
      ensures data == Answered(old(data), o)
      ensures !loading && effectDeps == old(effectDeps)
      ensures search == old(search) && medio == old(medio) && resultado == old(resultado)
    {
      var shown := page;
      page := 1;
      loading := true;
      var q := LeadsQuery(Params(shown, search, medio, resultado));
      path := LeadsRoute + "?" + Serialize(q);
      Receive(o);
    }

    /** A submitted search with the effect that follows it. The handler's own
        `load` asks for the page shown before; when that was not page 1 the
        new `load` makes the effect ask for page 1 as well, and both requests
        are in flight together. `stale` and `onePage` are how they settle, and
        `onePageLast` whether the page-1 answer arrives last: otherwise the
        table ends on page 1 with the other page's rows. */
    method SubmitSearch(stale: Outcome, onePage: Outcome, onePageLast: bool) returns (stalePath: string, onePagePath: Option<string>)
      modifies this
      ensures page == 1 && search == old(search) && medio == old(medio) && resultado == old(resultado)
      ensures stalePath == LeadsPath(Params(old(page), search, medio, resultado))
      ensures onePagePath.Some? <==> old(effectDeps) != Some(Deps(1, search, medio, resultado))
      ensures onePagePath.Some? ==> onePagePath.value == LeadsPath(Params(1, search, medio, resultado))
      ensures effectDeps == Some(Current())
      ensures onePagePath.None? ==> data == Answered(old(data), stale)
      ensures onePagePath.Some? && onePageLast ==> data == Answered(Answered(old(data), stale), onePage)
      ensures onePagePath.Some? && !onePageLast ==> data == Answered(Answered(old(data), onePage), stale)
      ensures !loading
    {
      var shown := page;
      page := 1;
      loading := true;
      var q := LeadsQuery(Params(shown, search, medio, resultado));
      stalePath := LeadsRoute + "?" + Serialize(q);
      if effectDeps != Some(Current()) {
        effectDeps := Some(Current());
        var p := Ask();
        onePagePath := Some(p);
        if onePageLast {
          Receive(stale);
          Receive(onePage);
        } else {
          Receive(onePage);
          Receive(stale);
        }
      } else {
        onePagePath := None;
        Receive(stale);
      }
    }
  }
}
