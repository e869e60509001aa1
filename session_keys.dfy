/** Which operation touches which storage key. The login form writes the
    session key `uniandes_token`, which only the route guard reads; the request
    layer reads and clears `crexe_token`, and logout clears it with
    `crexe_user`. Nothing ever writes `crexe_token`. The lemmas below state what
    follows from the code as written, and `Fixed*` is the session the code
    evidently intends: one key, written at login and read by both the guard
    and the request layer. */
module SessionKeys {
  import opened Wrappers
  import opened JsValues
  import opened Browser
  import opened ApiClient
  import opened AppRoutes
  import opened LoginPage
  import opened DashboardLayout

  /** The things that change the storage: a login submission, a logout, and
      any other request, each with how its request settles. */
  datatype Event = SubmitLogin(fetched: Option<Response>) | Logout | Call(fetched: Option<Response>)

  predicate Modelled(e: Event)
  {
    e.SubmitLogin? ==> Storable(Settle(e.fetched))
  }

  function Step(storage: map<string, string>, e: Event): map<string, string>
    requires Modelled(e)
  {
    match e
    case SubmitLogin(fetched) => AfterLogin(storage, fetched)
    case Logout => AfterLogout(storage)
    case Call(fetched) => StorageAfter(storage, fetched)
  }

  function Run(storage: map<string, string>, events: seq<Event>): map<string, string>
    requires forall i :: 0 <= i < |events| ==> Modelled(events[i])
    decreases |events|
  {
    if |events| == 0 then storage
    else Step(Run(storage, events[..|events| - 1]), events[|events| - 1])
  }

  /** The two tokens live under different keys. */
  lemma KeysDiffer()
    ensures TokenKey != SessionKey && UserKey != SessionKey
  {
    assert TokenKey[0] != SessionKey[0];
    assert UserKey[1] != SessionKey[1];
  }

  /** A successful login lets the guard through exactly when the token text is
      not empty. */
  lemma LoginAdmits(storage: map<string, string>, fetched: Option<Response>)
    requires Storable(Settle(fetched)) && LoginToken(Settle(fetched)).Some?
    ensures Admits(AfterLogin(storage, fetched)) <==> ToText(LoginToken(Settle(fetched)).value).value != ""
  {
  }

  /** A successful login leaves the request layer's headers as they were. */
  lemma LoginSendsNoToken(storage: map<string, string>, fetched: Option<Response>)
    requires Storable(Settle(fetched)) && LoginToken(Settle(fetched)).Some?
    ensures AuthHeaders(AfterLogin(storage, fetched)) == AuthHeaders(storage)
  {
    KeysDiffer();
  }

  /** Starting without `crexe_token`, no sequence of logins, logouts and
      requests ever sends an `Authorization` header. */
  lemma {:induction false} NeverAuthorized(storage: map<string, string>, events: seq<Event>)
    requires TokenKey !in storage
    requires forall i :: 0 <= i < |events| ==> Modelled(events[i])
    ensures TokenKey !in Run(storage, events)
    ensures AuthHeaders(Run(storage, events)) == map[]
    decreases |events|
  {
    if |events| > 0 {
      NeverAuthorized(storage, events[..|events| - 1]);
      KeysDiffer();
    }
  }

  /** Logout leaves the session key, so the guard admits afterwards exactly
      when it admitted before. */
  lemma LogoutKeepsSession(storage: map<string, string>)
    ensures Admits(AfterLogout(storage)) == Admits(storage)
  {
    KeysDiffer();
  }

  /** A 401 leaves the session key too. */
  lemma UnauthorizedKeepsSession(storage: map<string, string>, body: Option<Json>)
    ensures Admits(StorageAfter(storage, Some(Response(401, body)))) == Admits(storage)
  {
    KeysDiffer();
  }

  /** Only a login changes what the guard sees. */
  lemma {:induction false} SessionOnlyByLogin(storage: map<string, string>, events: seq<Event>)
    requires forall i :: 0 <= i < |events| ==> Modelled(events[i]) && !events[i].SubmitLogin?
    ensures Admits(Run(storage, events)) == Admits(storage)
    decreases |events|
  {
    if |events| > 0 {
      SessionOnlyByLogin(storage, events[..|events| - 1]);
      KeysDiffer();
    }
  }

  /** A login answered with a token. */
  const Granted := Some(Response(200, Some(Obj([("token", Str("t"))]))))

  /** From an empty storage: after logging in and then out, the dashboard is
      still shown, and none of the requests on the way carried a token. */
  lemma LoggedOutStillInside()
    ensures Storable(Settle(Granted))
    ensures AuthHeaders(AfterLogin(map[], Granted)) == map[]
    ensures Resolve(PagePath(Overview), AfterLogout(AfterLogin(map[], Granted))) == Show(Overview)
  {
    var res := Obj([("token", Str("t"))]);
    assert Settle(Granted) == Success(res);
    assert Lookup(res.fields, "token") == Str("t");
    var st := AfterLogin(map[], Granted);
    assert st == map[SessionKey := "t"];
    LogoutKeepsSession(st);
    PagePathResolves(Overview, AfterLogout(st));
  }

  // ---- the session with one key ------------------------------------------------------

  /** The guard reading the request layer's key. */
  predicate FixedAdmits(storage: map<string, string>)
  {
    Holds(storage, TokenKey)
  }

  /** Login storing the token under the key the request layer reads. */
  function FixedLogin(storage: map<string, string>, fetched: Option<Response>): (s: map<string, string>)
    requires Storable(Settle(fetched))
    ensures LoginToken(Settle(fetched)).None? ==> s == StorageAfter(storage, fetched)
  {
    match LoginToken(Settle(fetched))
    case Some(t) => storage[TokenKey := ToText(t).value]
    case None => StorageAfter(storage, fetched)
  }

  /** In every storage the guard admits exactly when requests carry a bearer
      token. */
  lemma FixedGuardMatchesHeader(storage: map<string, string>)
    ensures FixedAdmits(storage) <==> "Authorization" in AuthHeaders(storage)
  {
  }

  /** After a successful login with a non-empty token, the guard admits and
      every request carries that token. */
  lemma FixedLoginSendsToken(storage: map<string, string>, fetched: Option<Response>)
    requires Storable(Settle(fetched)) && LoginToken(Settle(fetched)).Some?
    requires ToText(LoginToken(Settle(fetched)).value).value != ""
    ensures FixedAdmits(FixedLogin(storage, fetched))
    ensures AuthHeaders(FixedLogin(storage, fetched))
            == map["Authorization" := "Bearer " + ToText(LoginToken(Settle(fetched)).value).value]
  {
  }

  /** Logout then ends the session: the guard redirects and no token is sent. */
  lemma FixedLogoutEndsSession(storage: map<string, string>)
    ensures !FixedAdmits(AfterLogout(storage))
    ensures AuthHeaders(AfterLogout(storage)) == map[]
  {
  }

  /** And so does a 401. */
  lemma FixedUnauthorizedEndsSession(storage: map<string, string>, body: Option<Json>)
    ensures !FixedAdmits(StorageAfter(storage, Some(Response(401, body))))
  {
  }
}
