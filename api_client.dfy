/** The client's request layer (`api.js`): the headers of every request, the
    dispatch on the response status, and the path and query string of every
    endpoint. `fetch` is not modelled: the response, or its absence when
    `fetch` rejects, is an input, and a body that is not JSON is None. Form
    encoding of query values is not modelled (keys and values are written as
    they are). */
module ApiClient {
  import opened Wrappers
  import opened Text
  import opened JsValues
  import opened Browser

  /** The storage key the request layer reads the bearer token from. */
  const TokenKey := "crexe_token"
  const DefaultApiUrl := "http://localhost:8000"
  const DefaultError := "Error de servidor"

  /** `API_URL`: the configured URL when it is set and not empty. */
  function ApiUrl(configured: Option<string>): (url: string)
    ensures configured.Some? && configured.value != "" ==> url == configured.value
    ensures configured.None? || configured.value == "" ==> url == DefaultApiUrl
  {
    if configured.Some? && configured.value != "" then configured.value else DefaultApiUrl
  }

  // ---- headers ------------------------------------------------------------------

  /** `authHeaders()`: a bearer header exactly when the stored token is truthy. */
  function AuthHeaders(storage: map<string, string>): (h: map<string, string>)
    ensures "Authorization" in h <==> Holds(storage, TokenKey)
    ensures "Authorization" in h ==> h["Authorization"] == "Bearer " + storage[TokenKey]
    ensures h.Keys <= {"Authorization"}
  {
    if Holds(storage, TokenKey) then map["Authorization" := "Bearer " + storage[TokenKey]] else map[]
  }

  /** The headers of a request: the JSON content type, then the bearer header,
      then the caller's headers, each later one replacing an earlier one. */
  function RequestHeaders(storage: map<string, string>, caller: map<string, string>): (h: map<string, string>)
    ensures h.Keys == {"Content-Type"} + AuthHeaders(storage).Keys + caller.Keys
    ensures forall k :: k in caller ==> h[k] == caller[k]
    ensures forall k :: k in AuthHeaders(storage) && k !in caller ==> h[k] == AuthHeaders(storage)[k]
    ensures "Content-Type" !in caller ==> h["Content-Type"] == "application/json"
  {
    map["Content-Type" := "application/json"] + AuthHeaders(storage) + caller
  }

  /** Without a truthy token and without caller headers, only the content type is sent. */
  lemma PlainHeaders(storage: map<string, string>)
    requires !Holds(storage, TokenKey)
    ensures RequestHeaders(storage, map[]) == map["Content-Type" := "application/json"]
  {
  }

  // ---- the response ------------------------------------------------------------------

  /** What a request's promise settles to: the parsed body, an `Error` carrying
      a reason (its message), or a rejection with the browser's own error
      (`fetch` failed, the body of a successful response is not JSON, or a
      `TypeError`). */
  datatype Outcome = Success(value: Json) | Failure(reason: Json) | Rejected

  datatype Response = Response(status: int, body: Option<Json>)

  predicate OkStatus(status: int) { 200 <= status <= 299 }

  /** `err.detail || 'Error de servidor'`, where `err` is the parsed body or
      `{}` when the body is not JSON; None when `err` is `null` and reading
      `detail` throws. */
  function ErrorReason(body: Option<Json>): (reason: Option<Json>)
    ensures body.None? ==> reason == Some(Str(DefaultError))
    ensures body == Some(Null) ==> reason.None?
    ensures body.Some? && body.value.Obj? && Truthy(Lookup(body.value.fields, "detail")) ==>
              reason == Some(Lookup(body.value.fields, "detail"))
    ensures reason.Some? ==> Truthy(reason.value)
  {
    var err := if body.Some? then body.value else Obj([]);
    match Field(err, "detail")
    case None => None
    case Some(d) => Some(if Truthy(d) then d else Str(DefaultError))
  }

  /** The status dispatch of `request`. */
  function Dispatch(r: Response): (o: Outcome)
    ensures r.status == 401 ==> o == Failure(Str("Unauthorized"))
    ensures r.status != 401 && !OkStatus(r.status) ==>
              (ErrorReason(r.body).Some? ==> o == Failure(ErrorReason(r.body).value))
              && (ErrorReason(r.body).None? ==> o == Rejected)
    ensures OkStatus(r.status) ==> (r.body.Some? ==> o == Success(r.body.value)) && (r.body.None? ==> o == Rejected)
  {
    if r.status == 401 then Failure(Str("Unauthorized"))
    else if !OkStatus(r.status) then
      match ErrorReason(r.body)
      case Some(reason) => Failure(reason)
      case None => Rejected
    else
      match r.body
      case Some(v) => Success(v)
      case None => Rejected
  }

  /** A response the client accepts is exactly a successful status with a JSON
      body, and then the body comes back unchanged. */
  lemma DispatchSuccess(r: Response)
    ensures Dispatch(r).Success? <==> OkStatus(r.status) && r.body.Some?
    ensures Dispatch(r).Success? ==> Dispatch(r).value == r.body.value
  {
  }

  /** A failed status with a JSON object body that names a detail fails with
      that detail; anything else a server error sends fails with the default
      message, except a `null` body. */
  lemma DispatchServerError(r: Response)
    requires r.status != 401 && !OkStatus(r.status)
    ensures r.body.None? ==> Dispatch(r) == Failure(Str(DefaultError))
    ensures r.body.Some? && r.body.value.Obj? && !Truthy(Lookup(r.body.value.fields, "detail")) ==>
              Dispatch(r) == Failure(Str(DefaultError))
    ensures r.body.Some? && r.body.value.Str? ==> Dispatch(r) == Failure(Str(DefaultError))
  {
  }

  /** How a request settles: rejected when `fetch` fails, else by status. */
  function Settle(fetched: Option<Response>): (o: Outcome)
    ensures fetched.None? ==> o == Rejected
    ensures fetched.Some? ==> o == Dispatch(fetched.value)
  {
    if fetched.None? then Rejected else Dispatch(fetched.value)
  }

  /** The call `fetch` receives. */
  datatype FetchCall = FetchCall(url: string, httpMethod: string, body: Option<Json>, headers: map<string, string>)

  /** The options a caller passes to `request` (`JSON.stringify` of the body is
      not modelled: the body is the value stringified). */
  datatype RequestInit = RequestInit(httpMethod: string, body: Option<Json>, headers: map<string, string>)

  const Get := RequestInit("GET", None, map[])

  /** The call `request(path, init)` makes with the current storage. */
  function CallFor(configured: Option<string>, storage: map<string, string>, path: string, init: RequestInit): (c: FetchCall)
    ensures c.url == ApiUrl(configured) + path
    ensures c.httpMethod == init.httpMethod && c.body == init.body
    ensures c.headers == RequestHeaders(storage, init.headers)
  {
    FetchCall(ApiUrl(configured) + path, init.httpMethod, init.body, RequestHeaders(storage, init.headers))
  }

  /** The storage after a response: a 401 removes the token and nothing else. */
  function StorageAfter(storage: map<string, string>, fetched: Option<Response>): (s: map<string, string>)
    ensures fetched.Some? && fetched.value.status == 401 ==> s == storage - {TokenKey}
    ensures !(fetched.Some? && fetched.value.status == 401) ==> s == storage
  {
    if fetched.Some? && fetched.value.status == 401 then storage - {TokenKey} else storage
  }

  /** `request(path, options)`: sends with the headers of the storage at call
      time; a 401 clears the token and sends the browser to `/`. */
  method Request(w: Window, configured: Option<string>, path: string, init: RequestInit, fetched: Option<Response>)
    returns (sent: FetchCall, o: Outcome)
    modifies w
    ensures sent == CallFor(configured, old(w.storage), path, init)
    ensures o == Settle(fetched)
    ensures w.storage == StorageAfter(old(w.storage), fetched)
    ensures fetched.Some? && fetched.value.status == 401 ==> w.location == "/"
    ensures !(fetched.Some? && fetched.value.status == 401) ==> w.location == old(w.location)
  {
    sent := CallFor(configured, w.storage, path, init);
    if fetched.None? {
      o := Rejected;
      return;
    }
    var res := fetched.value;
    if res.status == 401 {
      w.RemoveItem(TokenKey);
      w.Navigate("/");
    }
    o := Dispatch(res);
  }

  // ---- paths -------------------------------------------------------------------------

  /** Whether an optional argument is truthy. */
  predicate Given(v: Option<string>) { v.Some? && v.value != "" }

  /** `${base ? `<sep>base=${base}` : ''}`. */
  function BaseSuffix(sep: string, base: Option<string>): (s: string)
    ensures Given(base) ==> s == sep + "base=" + base.value
    ensures !Given(base) ==> s == ""
  {
    if Given(base) then sep + "base=" + base.value else ""
  }

  const LoginPath := "/api/auth/login"
  const MePath := "/api/auth/me"
  const BasesPath := "/api/dashboard/bases"
  const ChatPath := "/api/ai/chat"
  const InsightsPath := "/api/ai/insights"
  const PredictionsPath := "/api/ai/predictions"

  const KpisRoute := "/api/dashboard/kpis"
  const FunnelRoute := "/api/dashboard/funnel"
  const ByMedioRoute := "/api/dashboard/by-medio"
  const AgentsRoute := "/api/dashboard/agents"
  const TrendsRoute := "/api/dashboard/trends"
  const ByProgramaRoute := "/api/dashboard/by-programa"
  const LeadsRoute := "/api/dashboard/leads"

  function KpisPath(base: Option<string>): string { KpisRoute + BaseSuffix("?", base) }
  function FunnelPath(base: Option<string>): string { FunnelRoute + BaseSuffix("?", base) }
  function ByMedioPath(base: Option<string>): string { ByMedioRoute + BaseSuffix("?", base) }
  function AgentsPath(base: Option<string>): string { AgentsRoute + BaseSuffix("?", base) }

  /** `key=value`. */
  function Param(key: string, value: string): string { key + "=" + value }

  /** `api.trends(period = 'week', base)`: a default parameter replaces only a
      missing argument, so an empty period is sent as it is. */
  function TrendsPath(period: Option<string>, base: Option<string>): string
  {
    TrendsRoute + "?" + Param("period", period.GetOr("week")) + BaseSuffix("&", base)
  }

  /** `api.byPrograma(base, limit = 15)`. */
  function ByProgramaPath(base: Option<string>, limit: Option<int>): string
  {
    ByProgramaRoute + "?" + Param("limit", IntToString(limit.GetOr(15))) + BaseSuffix("&", base)
  }

  /** The body of `api.login`. */
  function LoginInit(username: string, password: string): RequestInit
  {
    RequestInit("POST", Some(Obj([("username", Str(username)), ("password", Str(password))])), map[])
  }

  /** The body of `api.aiChat(message, history = [])`: the message and the
      history only. */
  function ChatInit(message: string, history: Option<seq<Json>>): (init: RequestInit)
    ensures init.httpMethod == "POST" && init.headers == map[]
    ensures init.body == Some(Obj([("message", Str(message)), ("history", Arr(history.GetOr([])))]))
  {
    RequestInit("POST", Some(Obj([("message", Str(message)), ("history", Arr(history.GetOr([])))])), map[])
  }

  // ---- reading a query string back -------------------------------------------------

  /** The part of a path after its first `?`, or "" when there is none. */
  function QueryString(path: string): string
  {
    match IndexOf(path, "?")
    case None => ""
    case Some(i) => path[i + 1..]
  }

  /** One `key=value` piece, split at its first `=`. */
  function PairOf(piece: string): (string, string)
  {
    match IndexOf(piece, "=")
    case None => (piece, "")
    case Some(i) => (piece[..i], piece[i + 1..])
  }

  function PairsOf(pieces: seq<string>): seq<(string, string)>
    decreases |pieces|
  {
    if |pieces| == 0 then []
    else (if pieces[0] == "" then [] else [PairOf(pieces[0])]) + PairsOf(pieces[1..])
  }

  /** The pairs a server reads from a query string (before percent-decoding):
      the non-empty pieces between `&`s. */
  function ParsePairs(q: string): seq<(string, string)>
  {
    PairsOf(Split(q, "&"))
  }

  lemma BaseJoined(b: string)
    ensures PairOf("base=" + b) == ("base", b)
  {
    assert "base=" + b == "base" + "=" + b;
    PairOfJoined("base", b);
  }

  lemma PairOfJoined(k: string, v: string)
    requires '=' !in k
    ensures PairOf(k + "=" + v) == (k, v)
  {
    IndexOfFirst(k, "=" + v, '=');
    SeqAssoc(k, "=", v);
    assert (k + "=" + v)[..|k|] == k;
    assert (k + "=" + v)[|k| + 1..] == v;
  }

  lemma ParseEmpty()
    ensures ParsePairs("") == []
  {
    SplitWhole("", '&');
    assert PairsOf([""]) == [] + PairsOf([]);
  }

  lemma ParseOne(p: string)
    requires p != "" && '&' !in p
    ensures ParsePairs(p) == [PairOf(p)]
  {
    SplitWhole(p, '&');
    assert Split(p, "&") == [p];
    assert PairsOf([p]) == [PairOf(p)] + PairsOf([]);
  }

  lemma ParseCons(p: string, rest: string)
    requires p != "" && '&' !in p
    ensures ParsePairs(p + "&" + rest) == [PairOf(p)] + ParsePairs(rest)
  {
    SplitAt(p, rest, '&');
    var parts := [p] + Split(rest, "&");
    assert parts[1..] == Split(rest, "&");
  }

  lemma QueryAfter(route: string, q: string)
    requires '?' !in route
    ensures QueryString(route + "?" + q) == q
  {
    SeqAssoc(route, "?", q);
    IndexOfFirst(route, "?" + q, '?');
    assert (route + "?" + q)[|route| + 1..] == q;
  }

  /** No route holds a `?` of its own. */
  lemma RoutesPlain()
    ensures '?' !in KpisRoute && '?' !in FunnelRoute && '?' !in ByMedioRoute && '?' !in AgentsRoute
    ensures '?' !in TrendsRoute && '?' !in ByProgramaRoute && '?' !in LeadsRoute
  {
  }

  lemma QueryAbsent(route: string)
    requires '?' !in route
    ensures QueryString(route) == ""
  {
    IndexOfAbsent(route, '?');
  }

  /** The base a server reads back from `?base=<base>`. */
  lemma BaseOnlyPairs(route: string, base: Option<string>)
    requires '?' !in route
    requires Given(base) ==> '&' !in base.value
    ensures ParsePairs(QueryString(route + BaseSuffix("?", base))) == if Given(base) then [("base", base.value)] else []
  {
    if Given(base) {
      var q := "base=" + base.value;
      assert route + BaseSuffix("?", base) == route + "?" + q;
      QueryAfter(route, q);
      ParseOne(q);
      BaseJoined(base.value);
    } else {
      assert route + BaseSuffix("?", base) == route;
      QueryAbsent(route);
      ParseEmpty();
    }
  }

  /** kpis, funnel, by-medio and agents carry `base` as their only parameter,
      exactly when it is given. */
  lemma BasePathsPairs(base: Option<string>)
    requires Given(base) ==> '&' !in base.value
    ensures var expected := if Given(base) then [("base", base.value)] else [];
            && ParsePairs(QueryString(KpisPath(base))) == expected
            && ParsePairs(QueryString(FunnelPath(base))) == expected
            && ParsePairs(QueryString(ByMedioPath(base))) == expected
            && ParsePairs(QueryString(AgentsPath(base))) == expected
  {
    RoutesPlain();
    BaseOnlyPairs(KpisRoute, base);
    BaseOnlyPairs(FunnelRoute, base);
    BaseOnlyPairs(ByMedioRoute, base);
    BaseOnlyPairs(AgentsRoute, base);
  }

  /** A mandatory parameter followed by an optional `&base=`. */
  lemma ParamThenBase(route: string, key: string, value: string, base: Option<string>)
    requires '?' !in route && '=' !in key && '&' !in key && '&' !in value
    requires Given(base) ==> '&' !in base.value
    ensures ParsePairs(QueryString(route + "?" + Param(key, value) + BaseSuffix("&", base)))
            == [(key, value)] + (if Given(base) then [("base", base.value)] else [])
  {
    var first := key + "=" + value;
    PairOfJoined(key, value);
    if Given(base) {
      ParamAndBase(route, first, base.value);
    } else {
      assert route + "?" + first + BaseSuffix("&", base) == route + "?" + first;
      QueryAfter(route, first);
      ParseOne(first);
    }
  }

  lemma ParamAndBase(route: string, first: string, b: string)
    requires '?' !in route && first != "" && '&' !in first && '&' !in b
    ensures ParsePairs(QueryString(route + "?" + first + ("&" + "base=" + b))) == [PairOf(first), ("base", b)]
  {
    var second := "base=" + b;
    var q := first + "&" + second;
    calc {
      route + "?" + first + ("&" + "base=" + b);
      { SeqAssoc("&", "base=", b); }
      route + "?" + first + ("&" + second);
      { SeqAssoc(route + "?", first, "&" + second); }
      route + "?" + (first + ("&" + second));
      { SeqAssoc(first, "&", second); }
      route + "?" + q;
    }
    QueryAfter(route, q);
    ParseCons(first, second);
    ParseOne(second);
    BaseJoined(b);
  }

  /** trends sends its period (by default `week`), then the base when given. */
  lemma TrendsPairs(period: Option<string>, base: Option<string>)
    requires '&' !in period.GetOr("week")
    requires Given(base) ==> '&' !in base.value
    ensures ParsePairs(QueryString(TrendsPath(period, base)))
            == [("period", period.GetOr("week"))] + (if Given(base) then [("base", base.value)] else [])
  {
    var p := period.GetOr("week");
    RoutesPlain();
    ParamThenBase(TrendsRoute, "period", p, base);
  }

  /** by-programa sends its limit (by default 15), then the base when given. */
  lemma ByProgramaPairs(base: Option<string>, limit: Option<int>)
    requires Given(base) ==> '&' !in base.value
    ensures ParsePairs(QueryString(ByProgramaPath(base, limit)))
            == [("limit", IntToString(limit.GetOr(15)))] + (if Given(base) then [("base", base.value)] else [])
  {
    var l := IntToString(limit.GetOr(15));
    assert '&' !in l;
    RoutesPlain();
    ParamThenBase(ByProgramaRoute, "limit", l, base);
  }

  // ---- api.leads -----------------------------------------------------------------------

  /** A value `api.leads` may be given: a string or an integer. */
  datatype ParamValue = PStr(s: string) | PInt(i: int)

  predicate ParamTruthy(v: ParamValue)
  {
    match v
    case PStr(s) => s != ""
    case PInt(i) => i != 0
  }

  /** `String(v)`. */
  function ParamText(v: ParamValue): string
  {
    match v
    case PStr(s) => s
    case PInt(i) => IntToString(i)
  }

  /** No key twice, as in the entries of an object. */
  predicate DistinctKeys<V>(ps: seq<(string, V)>)
  {
    forall i, j :: 0 <= i < j < |ps| ==> ps[i].0 != ps[j].0
  }

  /** The entries with a truthy value, as strings, in order. */
  function Kept(params: seq<(string, ParamValue)>): (q: seq<(string, string)>)
    ensures |q| <= |params|
    decreases |params|
  {
    if |params| == 0 then []
    else
      var last := params[|params| - 1];
      Kept(params[..|params| - 1]) + (if ParamTruthy(last.1) then [(last.0, ParamText(last.1))] else [])
  }

  /** The kept pairs of two runs of params are those of the first run
      followed by those of the second: the filter keeps the params' order. */
  lemma {:induction false} KeptAppend(a: seq<(string, ParamValue)>, b: seq<(string, ParamValue)>)
    ensures Kept(a + b) == Kept(a) + Kept(b)
    decreases |b|
  {
    if |b| == 0 {
      assert a + b == a;
    } else {
      var n := |b| - 1;
      var last := b[n];
      var extra := if ParamTruthy(last.1) then [(last.0, ParamText(last.1))] else [];
      assert (a + b)[..|a + b| - 1] == a + b[..n];
      assert (a + b)[|a + b| - 1] == last;
      KeptAppend(a, b[..n]);
      assert Kept(a + b) == (Kept(a) + Kept(b[..n])) + extra;
      assert Kept(b) == Kept(b[..n]) + extra;
      SeqAssoc(Kept(a), Kept(b[..n]), extra);
    }
  }

  /** One entry is kept, as its key and its text, exactly when its value is
      truthy. */
  lemma KeptSingle(p: (string, ParamValue))
    ensures Kept([p]) == if ParamTruthy(p.1) then [(p.0, ParamText(p.1))] else []
  {
    assert [p][..0] == [];
  }

  /** Whether entry `j` of the params is the source of pair `p`: same key, a
      truthy value, written as a string. */
  predicate KeptFrom(params: seq<(string, ParamValue)>, j: int, p: (string, string))
  {
    0 <= j < |params| && params[j].0 == p.0 && ParamTruthy(params[j].1) && p.1 == ParamText(params[j].1)
  }

  /** A pair is kept exactly when it comes from a truthy entry. */
  lemma KeptIn(params: seq<(string, ParamValue)>, p: (string, string))
    ensures p in Kept(params) <==> exists j :: KeptFrom(params, j, p)
  {
    if p in Kept(params) {
      var j := KeptSource(params, p);
    }
    if exists j :: KeptFrom(params, j, p) {
      var j :| KeptFrom(params, j, p);
      KeptFromIn(params, j, p);
    }
  }

  /** The entry a kept pair comes from. */
  lemma {:induction false} KeptSource(params: seq<(string, ParamValue)>, p: (string, string)) returns (j: int)
    requires p in Kept(params)
    ensures KeptFrom(params, j, p)
    decreases |params|
  {
    assert |params| > 0;
    var n := |params| - 1;
    var init := params[..n];
    var last := params[n];
    var extra := if ParamTruthy(last.1) then [(last.0, ParamText(last.1))] else [];
    assert Kept(params) == Kept(init) + extra;
    if p in Kept(init) {
      j := KeptSource(init, p);
      assert init[j] == params[j];
    } else {
      j := n;
    }
  }

  /** A truthy entry's pair is kept. */
  lemma {:induction false} KeptFromIn(params: seq<(string, ParamValue)>, j: int, p: (string, string))
    requires KeptFrom(params, j, p)
    ensures p in Kept(params)
    decreases |params|
  {
    var n := |params| - 1;
    var init := params[..n];
    var last := params[n];
    var extra := if ParamTruthy(last.1) then [(last.0, ParamText(last.1))] else [];
    assert Kept(params) == Kept(init) + extra;
    if j < n {
      assert init[j] == params[j];
      KeptFromIn(init, j, p);
    }
  }

  /** The `forEach` of `api.leads`: `q.set(k, v)` for every truthy value; the
      keys of an object are distinct, so each `set` appends. */
  method LeadsQuery(params: seq<(string, ParamValue)>) returns (q: seq<(string, string)>)
    requires DistinctKeys(params)
    ensures q == Kept(params)
  {
    q := [];
    var i := 0;
    while i < |params|
      invariant 0 <= i <= |params|
      invariant q == Kept(params[..i])
    {
      var (k, v) := params[i];
      assert params[..i + 1][..i] == params[..i];
      if ParamTruthy(v) {
        q := q + [(k, ParamText(v))];
      }
      i := i + 1;
    }
    assert params[..i] == params;
  }

  /** `key=value` for each pair. */
  function Pieces(q: seq<(string, string)>): (ps: seq<string>)
    ensures |ps| == |q|
    ensures forall i :: 0 <= i < |q| ==> ps[i] == q[i].0 + "=" + q[i].1
  {
    seq(|q|, i requires 0 <= i < |q| => q[i].0 + "=" + q[i].1)
  }

  /** `q.toString()`, without percent-encoding. */
  function Serialize(q: seq<(string, string)>): string
  {
    Join(Pieces(q), "&")
  }

  function LeadsPath(params: seq<(string, ParamValue)>): string
  {
    LeadsRoute + "?" + Serialize(Kept(params))
  }

  /** Pairs whose keys hold no `=` or `&` and whose values hold no `&`. */
  predicate Clean(q: seq<(string, string)>)
  {
    forall i :: 0 <= i < |q| ==> '=' !in q[i].0 && '&' !in q[i].0 && '&' !in q[i].1
  }

  /** Serializing clean pairs and reading them back gives the same pairs. */
  lemma {:induction false} SerializeParse(q: seq<(string, string)>)
    requires Clean(q)
    ensures ParsePairs(Serialize(q)) == q
    decreases |q|
  {
    if |q| == 0 {
      ParseEmpty();
    } else {
      var ps := Pieces(q);
      var p := ps[0];
      assert p == q[0].0 + "=" + q[0].1;
      assert '&' !in p;
      PairOfJoined(q[0].0, q[0].1);
      if |q| == 1 {
        ParseOne(p);
      } else {
        var rest := q[1..];
        assert ps[1..] == Pieces(rest);
        assert Serialize(q) == p + "&" + Serialize(rest);
        ParseCons(p, Serialize(rest));
        SerializeParse(rest);
        assert q == [q[0]] + rest;
      }
    }
  }

  /** The kept pairs inherit the character restrictions of the params. */
  lemma {:induction false} KeptClean(params: seq<(string, ParamValue)>)
    requires forall i :: 0 <= i < |params| ==> '=' !in params[i].0 && '&' !in params[i].0 && '&' !in ParamText(params[i].1)
    ensures Clean(Kept(params))
    decreases |params|
  {
    if |params| > 0 {
      KeptClean(params[..|params| - 1]);
    }
  }

  /** With keys free of `=` and `&` and values free of `&`, a server reads back
      exactly the kept entries, in order. */
  lemma LeadsPairs(params: seq<(string, ParamValue)>)
    requires forall i :: 0 <= i < |params| ==> '=' !in params[i].0 && '&' !in params[i].0 && '&' !in ParamText(params[i].1)
    ensures ParsePairs(QueryString(LeadsPath(params))) == Kept(params)
  {
    LeadsRoutePlain();
    KeptClean(params);
    RoutePairs(LeadsRoute, Kept(params));
  }

  lemma LeadsRoutePlain()
    ensures '?' !in LeadsRoute
  {
  }

  /** Clean pairs serialized after a route and a `?` read back as themselves. */
  lemma RoutePairs(route: string, q: seq<(string, string)>)
    requires '?' !in route && Clean(q)
    ensures ParsePairs(QueryString(route + "?" + Serialize(q))) == q
  {
    QueryAfter(route, Serialize(q));
    SerializeParse(q);
  }
}
