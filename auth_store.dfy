/** The authentication store as the application holds it: one shared record
    whose fields the operations assign in place, and the browser storage the
    token is written to. Each network request becomes the outcome it produced,
    passed in, and the methods that talk to the backend return the request
    they send. */
module AuthStore {
  import opened Wrappers
  import opened AuthTypes
  import AuthState

  class AuthStore {
    var token: Option<string>
    var user: Option<AuthUser>
    var initialized: bool
    /** The browser's local storage. */
    var storage: map<string, string>

    /** The store's fields as a session value. */
    function View(): AuthState.Session
      reads this
    {
      AuthState.Session(token, user, initialized, storage)
    }

    /** The object invariant: storage and the in-memory token move together,
        and a user is only held with a token. The constructor establishes it,
        every method keeps it, and the client below relies on it. */
    ghost predicate Valid()
      reads this
    {
      AuthState.Consistent(View())
    }

    /** The record built at module load: the token is read back from storage. */
    constructor (stored: map<string, string>)
      ensures View() == AuthState.Initial(stored)
      ensures token == AuthState.Persisted(stored) && user == None && !initialized
      ensures storage == stored
      ensures Valid()
    {
      token := AuthState.Persisted(stored);
      user := None;
      initialized := false;
      storage := stored;
    }

    /** `setAuth`. */
    method SetAuth(payload: AuthResponse)
      modifies this
      ensures View() == AuthState.SetAuth(old(View()), payload)
      ensures token == Some(payload.token) && user == Some(payload.user)
      ensures storage == old(storage)[AuthState.TokenKey := payload.token]
      ensures initialized == old(initialized)
      ensures Valid()
    {
      token := Some(payload.token);
      user := Some(payload.user);
      storage := storage[AuthState.TokenKey := payload.token];
    }

    /** `clearAuth`. */
    method ClearAuth()
      modifies this
      ensures View() == AuthState.ClearAuth(old(View()))
      ensures token == None && user == None
      ensures storage == old(storage) - {AuthState.TokenKey}
      ensures initialized == old(initialized)
      ensures Valid()
    {
      token := None;
      user := None;
      storage := storage - {AuthState.TokenKey};
    }

    /** `init`: `me` is the outcome of `GET /api/auth/me`, consulted only
        when a request is sent; `sent` is that request, if any. */
    method Init(me: Outcome<AuthUser>) returns (sent: Option<AuthState.Request>)
      modifies this
      ensures sent == AuthState.InitRequest(old(View()))
      ensures View() == AuthState.Init(old(View()), me)
      ensures initialized
      ensures old(Valid()) ==> Valid()
    {
      if !AuthState.HasToken(token) {
        initialized := true;
        sent := None;
        return;
      }
      sent := Some(AuthState.Me(token.value));
      match me {
        case Ok(u) =>
          user := Some(u);
        case Err(_) =>
          ClearAuth();
      }
      initialized := true;
    }

    /** `login`: `reply` is the outcome of `POST /api/auth/login`. */
    method Login(email: string, password: string, reply: Outcome<AuthResponse>)
      returns (sent: AuthState.Request, result: Outcome<AuthUser>)
      modifies this
      ensures sent == AuthState.Login(email, password)
      ensures (View(), result) == AuthState.Authenticate(old(View()), reply)
      ensures reply.Err? ==> unchanged(this)
      ensures old(Valid()) ==> Valid()
    {
      sent := AuthState.Login(email, password);
      match reply {
        case Err(message) =>
          result := Err(message);
        case Ok(payload) =>
          SetAuth(payload);
          result := Ok(payload.user);
      }
    }

    /** `registerStudent`: `reply` is the outcome of `POST /api/auth/register`. */
    method RegisterStudent(fullName: string, email: string, password: string, reply: Outcome<AuthResponse>)
      returns (sent: AuthState.Request, result: Outcome<AuthUser>)
      modifies this
      ensures sent == AuthState.Register(fullName, email, password)
      ensures (View(), result) == AuthState.Authenticate(old(View()), reply)
      ensures reply.Err? ==> unchanged(this)
      ensures old(Valid()) ==> Valid()
    {
      sent := AuthState.Register(fullName, email, password);
      match reply {
        case Err(message) =>
          result := Err(message);
        case Ok(payload) =>
          SetAuth(payload);
          result := Ok(payload.user);
      }
    }
  }

  /** A client: restoring a rejected token, then logging in as an administrator. */
  method AdminLoginScenario()
  {
    var store := new AuthStore(map[AuthState.TokenKey := "stale"]);
    var sent := store.Init(Err("expired"));
    assert sent == Some(AuthState.Me("stale"));
    assert store.initialized && store.token == None && store.user == None;
    assert AuthState.TokenKey !in store.storage;

    var admin := AuthUser(1, "Admin", "a@b.com", Admin);
    var req, result := store.Login("a@b.com", "pw", Ok(AuthResponse("t1", admin)));
    assert result == Ok(admin);
    assert AuthState.IsAdmin(store.View()) && AuthState.IsLoggedIn(store.View());
    assert store.Valid();
    AuthState.LoggedInIsPersisted(store.View());
    assert AuthState.HasToken(AuthState.Persisted(store.storage));

    var again, failed := store.Login("a@b.com", "wrong", Err("rejected"));
    assert failed == Err("rejected");
    assert store.token == Some("t1") && store.user == Some(admin);
    assert store.Valid();
  }
}
