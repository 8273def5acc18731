/**
 * The session store (`src/stores/auth.ts`). It holds the current token and
 * user, derives `isAuthenticated` from the token alone, and keeps the token in
 * the `"token"` storage key across restarts.
 *
 * The store is the class `AuthStore`. Each of its operations is proved equal to
 * a transition function on the value `Session` (the two fields plus the storage
 * key); the properties of the operations are stated on those functions and in
 * the lemmas at the end of the module.
 */
module Auth {
  import opened Js
  import opened Api

  /** The user record the server sends. The store keeps it without looking inside. */
  datatype User = User(id: string, email: string, name: string)

  /** The body of a `/auth/login` or `/auth/register` response: either field may be missing. */
  datatype AuthPayload = AuthPayload(token: Option<string>, user: Option<User>)

  /** What the store holds: its two fields and the content of the storage key. */
  datatype Session = Session(user: Option<User>, token: Option<string>, stored: Option<string>)

  /** The state after an asynchronous operation and the outcome of its promise. */
  datatype Transition = Transition(next: Session, result: Settled<bool>)

  /** The token and user of a response, taken over as they are. */
  function Adopt(s: Session, payload: AuthPayload): Session
  {
    s.(token := payload.token, user := payload.user)
  }

  /** Writes the token to storage when it is truthy; leaves storage as it was otherwise. */
  function Persist(s: Session): Session
  {
    if Truthy(s.token) then s.(stored := s.token) else s
  }

  /**
   * `login`: a rejected request changes nothing and its error propagates; a
   * successful one adopts the response's token and user, stores a truthy token
   * and resolves with `true`.
   */
  function AfterLogin(s: Session, reply: Settled<Response<AuthPayload>>): (t: Transition)
    ensures reply.Rejected? ==> t == Transition(s, Rejected(reply.error))
    ensures reply.Fulfilled? ==> t.result == Fulfilled(true)
    ensures reply.Fulfilled? ==>
      t.next.token == reply.value.data.token && t.next.user == reply.value.data.user
    ensures reply.Fulfilled? && Truthy(reply.value.data.token) ==> t.next.stored == reply.value.data.token
    ensures reply.Fulfilled? && !Truthy(reply.value.data.token) ==> t.next.stored == s.stored
  {
    match reply
    case Rejected(error) => Transition(s, Rejected(error))
    case Fulfilled(response) => Transition(Persist(Adopt(s, response.data)), Fulfilled(true))
  }

  /**
   * `register`: like `login`, except that the promise resolves with `false`
   * when the response carried a truthy token and with `true` when it did not.
   */
  function AfterRegister(s: Session, reply: Settled<Response<AuthPayload>>): (t: Transition)
    ensures reply.Rejected? ==> t == Transition(s, Rejected(reply.error))
    ensures reply.Fulfilled? ==> t.result == Fulfilled(!Truthy(reply.value.data.token))
    ensures reply.Fulfilled? ==>
      t.next.token == reply.value.data.token && t.next.user == reply.value.data.user
    ensures reply.Fulfilled? && Truthy(reply.value.data.token) ==> t.next.stored == reply.value.data.token
    ensures reply.Fulfilled? && !Truthy(reply.value.data.token) ==> t.next.stored == s.stored
  {
    match reply
    case Rejected(error) => Transition(s, Rejected(error))
    case Fulfilled(response) =>
      var adopted := Adopt(s, response.data);
      Transition(Persist(adopted), Fulfilled(!Truthy(adopted.token)))
  }

  /** `logout`: from any state, no user, no token and no stored key. */
  function AfterLogout(s: Session): (r: Session)
    ensures r.user == None && r.token == None && r.stored == None
  {
    Session(None, None, None)
  }

  /**
   * The store as constructed: the user is unknown, the token is the stored one
   * when that is truthy and `null` otherwise; storage is only read.
   */
  function AtStartup(stored: Option<string>): (s: Session)
    ensures s.user == None && s.stored == stored
    ensures Truthy(stored) ==> s.token == stored
    ensures !Truthy(stored) ==> s.token == None
  {
    Session(None, if Truthy(stored) then stored else None, stored)
  }

  /** Whether construction sends the `/auth/user` request. */
  predicate HydrationRequested(stored: Option<string>)
  {
    Truthy(stored)
  }

  /**
   * The settling of the startup `/auth/user` request: on success the user is
   * the response body and nothing else changes; on failure the store logs out.
   */
  function AfterHydration(s: Session, reply: Settled<Response<User>>): (r: Session)
    ensures reply.Fulfilled? ==> r == s.(user := Some(reply.value.data))
    ensures reply.Rejected? ==> r == AfterLogout(s)
    ensures reply.Rejected? ==> !Truthy(r.token) && r.user == None && r.stored == None
  {
    match reply
    case Fulfilled(response) => s.(user := Some(response.data))
    case Rejected(_) => AfterLogout(s)
  }

  /** The store instance. */
  class AuthStore {
    var user: Option<User>
    var token: Option<string>
    const storage: TokenStorage
    /** Whether the `/auth/user` request sent at construction is still outstanding. */
    var userRequestPending: bool

    /** The store's state as a value. */
    function State(): Session
      reads this, storage
    {
      Session(user, token, storage.token)
    }

    /** `isAuthenticated`: the token is present and not empty; the user plays no part. */
    function IsAuthenticated(): (b: bool)
      reads this
      ensures b <==> token.Some? && token.value != ""
    {
      Truthy(token)
    }

    /** Construction: read the stored token and, when it is truthy, send `/auth/user`. */
    constructor (storage: TokenStorage)
      ensures this.storage == storage
      ensures State() == AtStartup(storage.token)
      ensures userRequestPending == HydrationRequested(storage.token)
    {
      this.storage := storage;
      user := None;
      token := None;
      userRequestPending := false;
      var storedToken := storage.token;
      if Truthy(storedToken) {
        token := storedToken;
        userRequestPending := true;
      }
    }

    /** `login`, with `reply` the outcome of `POST /auth/login`. */
    method Login(reply: Settled<Response<AuthPayload>>) returns (r: Settled<bool>)
      modifies this`user, this`token, storage`token
      ensures State() == AfterLogin(old(State()), reply).next
      ensures r == AfterLogin(old(State()), reply).result
    {
      match reply
      case Rejected(error) =>
        r := Rejected(error);
      case Fulfilled(response) =>
        token := response.data.token;
        user := response.data.user;
        if Truthy(token) {
          storage.token := token;
        }
        r := Fulfilled(true);
    }

    /** `register`, with `reply` the outcome of `POST /auth/register`. */
    method Register(reply: Settled<Response<AuthPayload>>) returns (r: Settled<bool>)
      modifies this`user, this`token, storage`token
      ensures State() == AfterRegister(old(State()), reply).next
      ensures r == AfterRegister(old(State()), reply).result
    {
      match reply
      case Rejected(error) =>
        r := Rejected(error);
      case Fulfilled(response) =>
        token := response.data.token;
        user := response.data.user;
        if Truthy(token) {
          storage.token := token;
          r := Fulfilled(false);
        } else {
          r := Fulfilled(true);
        }
    }

    /** `logout`: clear the user and the token and remove the storage key. */
    method Logout()
      modifies this`user, this`token, storage`token
      ensures State() == AfterLogout(old(State()))
    {
      user := None;
      token := None;
      storage.token := None;
    }

    /**
     * The settling of the startup `/auth/user` request, with `reply` its
     * outcome. It may settle after other operations have run.
     */
    method Hydrate(reply: Settled<Response<User>>)
      requires userRequestPending
      modifies this, storage`token
      ensures !userRequestPending
      ensures State() == AfterHydration(old(State()), reply)
    {
      userRequestPending := false;
      match reply
      case Fulfilled(response) =>
        user := Some(response.data);
      case Rejected(_) =>
        Logout();
    }
  }

  /** `isAuthenticated` as a property of a session value. */
  predicate Authenticated(s: Session)
  {
    Truthy(s.token)
  }

  /** The store's `isAuthenticated` is `Authenticated` of its state. */
  lemma StoreAuthenticatedIsSessionAuthenticated(store: AuthStore)
    ensures store.IsAuthenticated() == Authenticated(store.State())
  {
  }

  /** Logging out twice is the same as logging out once. */
  lemma LogoutIdempotent(s: Session)
    ensures AfterLogout(AfterLogout(s)) == AfterLogout(s)
    ensures !Authenticated(AfterLogout(s))
  {
  }

  /** Whether the session is authenticated never depends on the user. */
  lemma AuthenticationIgnoresUser(s: Session, u: Option<User>)
    ensures Authenticated(s.(user := u)) == Authenticated(s)
  {
  }

  /** A failed `login` or `register` leaves the session exactly as it was. */
  lemma FailedSignInChangesNothing(s: Session, e: HttpError)
    ensures AfterLogin(s, Rejected(e)).next == s
    ensures AfterRegister(s, Rejected(e)).next == s
    ensures AfterLogin(s, Rejected(e)).result == AfterRegister(s, Rejected(e)).result == Rejected(e)
  {
  }

  /** `login` and `register` reach the same state; only their results differ. */
  lemma RegisterMatchesLogin(s: Session, reply: Settled<Response<AuthPayload>>)
    ensures AfterRegister(s, reply).next == AfterLogin(s, reply).next
    ensures reply.Fulfilled? ==>
      (AfterRegister(s, reply).result == Fulfilled(false) <==> Truthy(reply.value.data.token))
  {
  }

  /**
   * A login that returns a truthy token survives a restart: a store built over
   * the same storage asks for the user, and once the server answers it is
   * authenticated with the same token and that user.
   */
  lemma LoginSurvivesRestart(s: Session, response: Response<AuthPayload>, me: Response<User>)
    requires Truthy(response.data.token)
    ensures var stored := AfterLogin(s, Fulfilled(response)).next.stored;
      HydrationRequested(stored) &&
      AtStartup(stored).token == response.data.token &&
      AfterHydration(AtStartup(stored), Fulfilled(me)) == Session(Some(me.data), response.data.token, stored) &&
      Authenticated(AfterHydration(AtStartup(stored), Fulfilled(me)))
  {
  }

  /**
   * A login whose response has a falsy token leaves the store unauthenticated,
   * yet storage keeps the previous token, so the next start is authenticated
   * with that previous token.
   */
  lemma StaleTokenSurvivesFalsyLogin(s: Session, response: Response<AuthPayload>)
    requires Truthy(s.stored) && !Truthy(response.data.token)
    ensures !Authenticated(AfterLogin(s, Fulfilled(response)).next)
    ensures AtStartup(AfterLogin(s, Fulfilled(response)).next.stored).token == s.stored
    ensures Authenticated(AtStartup(AfterLogin(s, Fulfilled(response)).next.stored))
  {
  }

  /** A stored token the server rejects at startup ends anonymous with storage cleared. */
  lemma RejectedStoredTokenSignsOut(stored: Option<string>, e: HttpError)
    ensures AfterHydration(AtStartup(stored), Rejected(e)) == Session(None, None, None)
  {
  }

  /**
   * Startup with nothing truthy in storage sends no request and is not
   * authenticated; with a truthy token it is authenticated before the user is known.
   */
  lemma StartupAuthentication(stored: Option<string>)
    ensures Authenticated(AtStartup(stored)) <==> HydrationRequested(stored)
    ensures AtStartup(stored).user == None
  {
  }

  /**
   * After a login whose response carries a truthy token, the next request the
   * client makes carries that token as its bearer credential, although the
   * client was created before the login.
   */
  method RequestAfterLogin(store: AuthStore, client: ApiClient,
                           reply: Settled<Response<AuthPayload>>, config: RequestConfig)
    returns (r: Settled<bool>, sent: RequestConfig)
    requires client.storage == store.storage
    modifies store`user, store`token, store.storage`token
    ensures r == AfterLogin(old(store.State()), reply).result
    ensures reply.Fulfilled? && Truthy(reply.value.data.token) ==>
      store.IsAuthenticated() &&
      AUTHORIZATION in sent.headers &&
      sent.headers[AUTHORIZATION] == BEARER_PREFIX + reply.value.data.token.value
  {
    r := store.Login(reply);
    sent := client.InterceptRequest(config);
  }
}
