/** The login form (`LoginPage.jsx`): its four state fields and `handleLogin`,
    which posts the credentials, stores the token under the session key and
    opens the dashboard, or shows the invalid-credentials message. */
module LoginPage {
  import opened Wrappers
  import opened JsValues
  import opened Browser
  import opened ApiClient
  import opened AppRoutes

  const InvalidCredentials := "Credenciales inválidas"

  /** The token `res.token` reads when the login promise resolves with `res`;
      None when it rejects, or when `res` is `null` and the read throws into
      the same `catch`. */
  function LoginToken(o: Outcome): (t: Option<Json>)
    ensures t.Some? <==> o.Success? && !o.value.Null? && !o.value.Undefined?
    ensures t.Some? && o.value.Obj? ==> t.value == Lookup(o.value.fields, "token")
  {
    match o
    case Success(res) => Field(res, "token")
    case _ => None
  }

  /** The token's text is one the model covers. */
  predicate Storable(o: Outcome)
  {
    LoginToken(o).Some? ==> ToText(LoginToken(o).value).Some?
  }

  /** The storage after a submission whose request settles as `fetched`: a 401
      first clears the request layer's token, then a success stores the token
      text under the session key. */
  function AfterLogin(storage: map<string, string>, fetched: Option<Response>): (s: map<string, string>)
    requires Storable(Settle(fetched))
    ensures LoginToken(Settle(fetched)).Some? ==>
              s == storage[SessionKey := ToText(LoginToken(Settle(fetched)).value).value]
    ensures LoginToken(Settle(fetched)).None? ==> s == StorageAfter(storage, fetched)
  {
    var o := Settle(fetched);
    match LoginToken(o)
    case Some(t) => storage[SessionKey := ToText(t).value]
    case None => StorageAfter(storage, fetched)
  }

  /** The location after a submission: the dashboard on success, `/` after a
      401, else where it was. */
  function LocationAfterLogin(location: string, fetched: Option<Response>): (l: string)
    ensures LoginToken(Settle(fetched)).Some? ==> l == "/dashboard"
    ensures LoginToken(Settle(fetched)).None? && fetched.Some? && fetched.value.status == 401 ==> l == "/"
    ensures LoginToken(Settle(fetched)).None? && !(fetched.Some? && fetched.value.status == 401) ==> l == location
  {
    if LoginToken(Settle(fetched)).Some? then "/dashboard"
    else if fetched.Some? && fetched.value.status == 401 then "/"
    else location
  }

  class LoginForm {
    var username: string
    var password: string
    var error: string
    var loading: bool

    constructor()
      ensures username == "" && password == "" && error == "" && !loading
    {
      username := "";
      password := "";
      error := "";
      loading := false;
    }

    /** The submit button is disabled while a login is in flight. */
    predicate SubmitDisabled()
      reads this
    {
      loading
    }

    /** The `onChange` of the user field. */
    method SetUsername(s: string)
      modifies this
      ensures username == s
      ensures password == old(password) && error == old(error) && loading == old(loading)
    {
      username := s;
    }

    /** The `onChange` of the password field. */
    method SetPassword(s: string)
      modifies this
      ensures password == s
      ensures username == old(username) && error == old(error) && loading == old(loading)
    {
      password := s;
    }

    /** The part of `handleLogin` before the request: loading on, error
      cleared, and the login call built from the two fields. */
    method BeginLogin() returns (init: RequestInit)
      modifies this
      ensures loading && error == ""
      ensures username == old(username) && password == old(password)
      ensures init == LoginInit(username, password)
    {
      loading := true;
      error := "";
      init := LoginInit(username, password);
    }

    /** The part of `handleLogin` after the request settles as `o`. */
    method FinishLogin(w: Window, o: Outcome)
      requires Storable(o)
      modifies this, w
      ensures !loading && username == old(username) && password == old(password)
      ensures LoginToken(o).Some? ==>
                w.storage == old(w.storage)[SessionKey := ToText(LoginToken(o).value).value]
                && w.location == "/dashboard" && error == old(error)
      ensures LoginToken(o).None? ==>
                w.storage == old(w.storage) && w.location == old(w.location) && error == InvalidCredentials
    {
      match LoginToken(o) {
        case Some(t) =>
          w.SetItem(SessionKey, ToText(t).value);
          w.Navigate("/dashboard");
        case None =>
          error := InvalidCredentials;
      }
      loading := false;
    }

    /** `handleLogin`: the whole submission, with the request settling as
        `fetched`. */
    method HandleLogin(w: Window, configured: Option<string>, fetched: Option<Response>) returns (sent: FetchCall)
      requires Storable(Settle(fetched))
      modifies this, w
      ensures sent == CallFor(configured, old(w.storage), LoginPath, LoginInit(old(username), old(password)))
      ensures w.storage == AfterLogin(old(w.storage), fetched)
      ensures w.location == LocationAfterLogin(old(w.location), fetched)
      ensures !loading && username == old(username) && password == old(password)
      ensures error == if LoginToken(Settle(fetched)).Some? then "" else InvalidCredentials
    {
      var init := BeginLogin();
      var o;
      sent, o := Request(w, configured, LoginPath, init, fetched);
      FinishLogin(w, o);
    }
  }
}
