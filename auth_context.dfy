/** The session store (AuthProvider): the signed-in user and the session token, with
    an effect that mirrors the token into localStorage after every change. */
module AuthContext {
  import opened Js
  import opened Api

  datatype User = User(id: int, email: string)

  /** The body of a successful login or register response, `{ user, token }`;
      a field the server leaves out is None (undefined). */
  datatype AuthData = AuthData(user: Option<User>, token: Option<string>)

  /** What the sync effect leaves in localStorage for a token: the token itself
      when it is truthy, no entry when it is null or empty. */
  function Persisted(token: Option<string>): (stored: Option<string>)
    ensures Truthy(stored) <==> Truthy(token)
    ensures stored.Some? ==> stored == token
    ensures !Truthy(token) ==> stored == None
  {
    if Truthy(token) then token else None
  }

  class SessionStore {
    var user: Option<User>
    var token: Option<string>
    /** The browser's localStorage, shared with the task store. */
    const storage: LocalStorage

    /** Storage mirrors the in-memory token (the sync effect has run). */
    predicate Valid()
      reads this, storage
    {
      storage.token == Persisted(token)
    }

    /** Mounting the provider: no user, the token read back from storage, then
        the sync effect's first run (which drops an empty stored token). */
    constructor (storage: LocalStorage)
      modifies storage
      ensures this.storage == storage
      ensures user == None && token == old(storage.token)
      ensures Valid()
    {
      this.storage := storage;
      user := None;
      token := storage.token;
      new;
      SyncStorage();
    }

    /** The useEffect on [token]: write a truthy token, remove the key otherwise. */
    method SyncStorage()
      modifies storage
      ensures Valid()
    {
      if Truthy(token) {
        storage.token := token;
      } else {
        storage.token := None;
      }
    }

    /** setUser(u); setToken(t); followed by the effect, which React runs only
        when the token actually changed. */
    method SetSession(u: Option<User>, t: Option<string>)
      requires Valid()
      modifies this, storage
      ensures user == u && token == t && Valid()
    {
      var changed := t != token;
      user, token := u, t;
      if changed {
        SyncStorage();
      }
    }

    /** The common body of login and register: on success the session takes the
        response's user and token; on failure nothing changes and the failure is
        re-raised. */
    method SignIn(reply: Outcome<AuthData>) returns (settled: Settled)
      requires Valid()
      modifies this, storage
      ensures Valid()
      ensures reply.Ok? ==>
                user == reply.data.user && token == reply.data.token && settled == Fulfilled
      ensures reply.Err? ==>
                user == old(user) && token == old(token) && storage.token == old(storage.token) &&
                settled == Rejected(reply.failure)
    {
      match reply
      case Ok(data) =>
        SetSession(data.user, data.token);
        settled := Fulfilled;
      case Err(f) =>
        settled := Rejected(f);
    }

    /** login, against /auth/login */
    method Login(reply: Outcome<AuthData>) returns (settled: Settled)
      requires Valid()
      modifies this, storage
      ensures Valid()
      ensures reply.Ok? ==>
                user == reply.data.user && token == reply.data.token && settled == Fulfilled
      ensures reply.Err? ==>
                user == old(user) && token == old(token) && storage.token == old(storage.token) &&
                settled == Rejected(reply.failure)
    {
      settled := SignIn(reply);
    }

    /** register, against /auth/register: the same contract as login. */
    method Register(reply: Outcome<AuthData>) returns (settled: Settled)
      requires Valid()
      modifies this, storage
      ensures Valid()
      ensures reply.Ok? ==>
                user == reply.data.user && token == reply.data.token && settled == Fulfilled
      ensures reply.Err? ==>
                user == old(user) && token == old(token) && storage.token == old(storage.token) &&
                settled == Rejected(reply.failure)
    {
      settled := SignIn(reply);
    }

    /** logout: clears user and token locally (no request), so the effect removes
        the stored token. The final state does not depend on the initial one, so
        logging out twice is the same as once. */
    method Logout()
      requires Valid()
      modifies this, storage
      ensures user == None && token == None && storage.token == None && Valid()
    {
      SetSession(None, None);
    }
  }
}
