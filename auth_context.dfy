/**
 * The session manager (AuthProvider): the signed-in user, the bearer token,
 * the boot-time `loading` flag, the copy of the token kept in localStorage
 * under the key 'token', and the `Authorization` default header of the shared
 * HTTP client. Network replies are inputs; React's effect scheduling is made
 * explicit: after a commit that changes `token`, the header effect and then
 * the verification effect run, in the order they are declared.
 */
module AuthContext {
  import opened Wrappers
  import opened Http

  const BarberRole := "BARBERO"
  const ClientRole := "CLIENTE"
  const LoginFallback := "Error al iniciar sesión"
  const RegisterFallback := "Error al registrarse"

  datatype User = User(id: int, name: string, email: string, role: string, location: Option<string>)

  /** The body `register` posts, as the registration page builds it. */
  datatype Profile = Profile(name: string, email: string, password: string, role: string, location: string)

  /** A success body of login or register: both fields are read without a check. */
  datatype Credentials = Credentials(user: User, token: string)

  /** What `login` and `register` return: `{ success: true }` or `{ success: false, error }`. */
  datatype AuthResult = Success | Failure(error: string)

  /** `if (token)`: a missing or empty token is falsy. */
  predicate HasToken(token: Option<string>) {
    token.Some? && token.value != ""
  }

  /** The header the token effect installs, `None` when it deletes it. */
  function BearerHeader(token: Option<string>): (h: Option<string>)
    ensures h.Some? <==> HasToken(token)
    ensures h.Some? ==> h.value == "Bearer " + token.value && |h.value| > |"Bearer "|
  {
    if HasToken(token) then Some("Bearer " + token.value) else None
  }

  /** `isAuthenticated: !!user`. */
  predicate IsAuthenticated(user: Option<User>)
    ensures IsAuthenticated(user) <==> user != None
  {
    user.Some?
  }

  /** `isBarber: user?.role === 'BARBERO'`. */
  predicate IsBarber(user: Option<User>)
    ensures IsBarber(user) ==> IsAuthenticated(user)
  {
    user.Some? && user.value.role == BarberRole
  }

  /** `isClient: user?.role === 'CLIENTE'`. */
  predicate IsClient(user: Option<User>)
    ensures IsClient(user) ==> IsAuthenticated(user) && !IsBarber(user)
  {
    user.Some? && user.value.role == ClientRole
  }

  /** The two role flags never hold together, each implies a user, and without one both are false. */
  lemma RoleFlagsConsistent(user: Option<User>)
    ensures !(IsBarber(user) && IsClient(user))
    ensures IsBarber(user) || IsClient(user) ==> IsAuthenticated(user)
    ensures !IsAuthenticated(user) ==> !IsBarber(user) && !IsClient(user)
    ensures user.Some? && user.value.role == BarberRole ==> IsBarber(user) && !IsClient(user)
    ensures user.Some? && user.value.role == ClientRole ==> IsClient(user) && !IsBarber(user)
  {
  }

  /** The session's five fields as a value. */
  datatype SessionState = SessionState(user: Option<User>, token: Option<string>, loading: bool,
                                       storage: Option<string>, header: Option<string>)

  /**
   * Both `[token]` effects, in declaration order: the header follows the
   * token, then a truthy token is checked against `/api/auth/me`, whose
   * reply `me` sets the user or, on failure, logs out; `loading` ends false.
   */
  function Settled(st: SessionState, me: Reply<Option<User>>): (r: SessionState)
    ensures r.header == BearerHeader(r.token) && !r.loading
    ensures !HasToken(st.token) ==> r.user == st.user && r.token == st.token && r.storage == st.storage
    ensures HasToken(st.token) && me.Ok? ==> r.user == me.value && r.token == st.token && r.storage == st.storage
    ensures HasToken(st.token) && me.Err? ==> r.user == None && r.token == None && r.storage == None
  {
    if HasToken(st.token) && me.Err? then SessionState(None, None, false, None, None)
    else SessionState(if HasToken(st.token) then me.value else st.user, st.token, false, st.storage,
                      BearerHeader(st.token))
  }

  /**
   * The settled state after a login or register whose outcome is `response`:
   * a failure changes nothing; a success commits user, token and storage, and
   * when the token's value changed the effects run again with reply `me`.
   */
  function AfterSignIn(st: SessionState, response: Reply<Credentials>, me: Reply<Option<User>>): (r: SessionState)
    ensures response.Err? ==> r == st
    ensures response.Ok? && Some(response.value.token) == st.token ==>
      r == st.(user := Some(response.value.user), storage := st.token)
    ensures response.Ok? && Some(response.value.token) != st.token && response.value.token != "" && me.Ok? ==>
      var token := response.value.token;
      r == SessionState(me.value, Some(token), false, Some(token), Some("Bearer " + token))
    ensures response.Ok? && Some(response.value.token) != st.token && response.value.token != "" && me.Err? ==>
      r == SessionState(None, None, false, None, None)
    ensures response.Ok? && Some(response.value.token) != st.token && response.value.token == "" ==>
      r == SessionState(Some(response.value.user), Some(""), false, Some(""), None)
  {
    match response
    case Err(_) => st
    case Ok(creds) =>
      var committed := st.(user := Some(creds.user), token := Some(creds.token), storage := Some(creds.token));
      if Some(creds.token) == st.token then committed else Settled(committed, me)
  }

  class Session {
    var user: Option<User>
    var token: Option<string>
    var loading: bool
    /** localStorage's 'token' entry. */
    var storage: Option<string>
    /** `axios.defaults.headers.common['Authorization']`. */
    var header: Option<string>

    /** What every operation keeps: a user only ever comes with a token, and storage mirrors the token. */
    predicate Valid()
      reads this
    {
      (user.Some? ==> token.Some?) && storage == token
    }

    function Current(): SessionState
      reads this
    {
      SessionState(user, token, loading, storage, header)
    }

    /** The header agrees with the token, as the token effect leaves it. */
    predicate HeaderInSync()
      reads this
    {
      header == BearerHeader(token)
    }

    /** The state `logout` leaves: no user, no token, nothing stored, no header. */
    predicate SignedOut()
      reads this
    {
      user == None && token == None && storage == None && header == None
    }

    /** First render: no user, `loading`, and the token read from storage. */
    constructor (stored: Option<string>)
      ensures user == None && loading && token == stored && storage == stored && header == None
      ensures Valid()
    {
      user, loading, token, storage, header := None, true, stored, stored, None;
    }

    /** The token effect: install `Bearer <token>` when the token is truthy, otherwise delete the header. */
    method SyncHeader()
      modifies this`header
      ensures HeaderInSync()
      ensures HasToken(token) ==> header == Some("Bearer " + token.value)
      ensures !HasToken(token) ==> header == None
    {
      if HasToken(token) {
        header := Some("Bearer " + token.value);
      } else {
        header := None;
      }
    }

    /**
     * The verification effect. With a truthy token it asks `/api/auth/me`
     * (`requested`): a reply sets the user, any failure logs out. In every
     * case `loading` ends false.
     */
    method VerifyToken(me: Reply<Option<User>>) returns (requested: bool)
      modifies this`user, this`token, this`loading, this`storage, this`header
      ensures requested == HasToken(old(token))
      ensures !loading
      ensures !requested ==>
        user == old(user) && token == old(token) && storage == old(storage) && header == old(header)
      ensures requested && me.Ok? ==>
        user == me.value && token == old(token) && storage == old(storage) && header == old(header)
      ensures requested && me.Err? ==> SignedOut()
      ensures old(Valid()) ==> Valid()
    {
      requested := HasToken(token);
      if requested {
        match me
        case Ok(u) => user := u;
        case Err(_) => Logout();
      }
      loading := false;
    }

    /**
     * Shared by `login` and `register`: on success commit the user, then the
     * token, then storage; on failure change nothing and report the server's
     * message or `fallback`.
     */
    method Authenticate(response: Reply<Credentials>, fallback: string) returns (result: AuthResult)
      modifies this`user, this`token, this`storage
      ensures response.Ok? ==> result == Success
      ensures response.Ok? ==>
        user == Some(response.value.user) && token == Some(response.value.token) && storage == token
      ensures response.Err? ==> result == Failure(ErrorText(response.message, fallback))
      ensures response.Err? ==> user == old(user) && token == old(token) && storage == old(storage)
      ensures response.Ok? || old(Valid()) ==> Valid()
    {
      match response
      case Ok(creds) =>
        user := Some(creds.user);
        token := Some(creds.token);
        storage := Some(creds.token);
        result := Success;
      case Err(message) =>
        result := Failure(ErrorText(message, fallback));
    }

    /** `login(email, password)`: POST /api/auth/login with `{ email, password }`; `response` is its outcome. */
    method Login(email: string, password: string, response: Reply<Credentials>) returns (result: AuthResult)
      modifies this`user, this`token, this`storage
      ensures response.Ok? ==> result == Success
      ensures response.Ok? ==>
        user == Some(response.value.user) && token == Some(response.value.token) && storage == token
      ensures response.Err? ==> result == Failure(ErrorText(response.message, LoginFallback))
      ensures response.Err? ==> user == old(user) && token == old(token) && storage == old(storage)
      ensures response.Ok? || old(Valid()) ==> Valid()
    {
      result := Authenticate(response, LoginFallback);
    }

    /** `register(profile)`: POST /api/auth/register with the profile; `response` is its outcome. */
    method Register(profile: Profile, response: Reply<Credentials>) returns (result: AuthResult)
      modifies this`user, this`token, this`storage
      ensures response.Ok? ==> result == Success
      ensures response.Ok? ==>
        user == Some(response.value.user) && token == Some(response.value.token) && storage == token
      ensures response.Err? ==> result == Failure(ErrorText(response.message, RegisterFallback))
      ensures response.Err? ==> user == old(user) && token == old(token) && storage == old(storage)
      ensures response.Ok? || old(Valid()) ==> Valid()
    {
      result := Authenticate(response, RegisterFallback);
    }

    /** `logout()`: from any state, clears the user, the token, storage and the header. */
    method Logout()
      modifies this`user, this`token, this`storage, this`header
      ensures SignedOut() && Valid() && HeaderInSync()
    {
      user := None;
      token := None;
      storage := None;
      header := None;
    }

    /** Both effects, as React runs them after a commit that changed `token`. */
    method TokenChanged(me: Reply<Option<User>>) returns (requested: bool)
      modifies this`user, this`token, this`loading, this`storage, this`header
      ensures requested == HasToken(old(token))
      ensures !loading && HeaderInSync()
      ensures !requested ==> user == old(user) && token == old(token) && storage == old(storage)
      ensures requested && me.Ok? ==> user == me.value && token == old(token) && storage == old(storage)
      ensures requested && me.Err? ==> SignedOut()
      ensures old(Valid()) ==> Valid()
      ensures Current() == Settled(old(Current()), me)
    {
      SyncHeader();
      requested := VerifyToken(me);
    }
  }

  /**
   * Mounting the provider: the token is read from storage, then the effects
   * run. A failed verification logs out, which changes the token, so the
   * effects run once more (with no token: no request).
   */
  method Start(stored: Option<string>, me: Reply<Option<User>>) returns (s: Session, requested: bool)
    ensures fresh(s) && !s.loading && s.Valid() && s.HeaderInSync()
    ensures requested == HasToken(stored)
    ensures !HasToken(stored) ==> s.user == None && s.token == stored && s.storage == stored
    ensures HasToken(stored) && me.Ok? ==>
      s.user == me.value && s.token == stored && s.storage == stored
      && s.header == Some("Bearer " + stored.value)
    ensures HasToken(stored) && me.Err? ==> s.SignedOut()
  {
    s := new Session(stored);
    requested := s.TokenChanged(me);
    if s.token != stored {
      var again := s.TokenChanged(me);
      assert !again;
    }
  }

  /**
   * Signing in through the login form: when the returned token differs from
   * the current one, the effects run again and `/api/auth/me` is asked anew,
   * so its reply `me` decides the final user, and a failure there logs out.
   */
  method LoginFlow(s: Session, email: string, password: string, response: Reply<Credentials>, me: Reply<Option<User>>)
    returns (result: AuthResult)
    modifies s
    ensures result == if response.Ok? then Success else Failure(ErrorText(response.message, LoginFallback))
    ensures s.Current() == AfterSignIn(old(s.Current()), response, me)
    ensures response.Ok? || old(s.Valid()) ==> s.Valid()
  {
    var before := s.token;
    result := s.Login(email, password, response);
    if s.token != before {
      var _ := s.TokenChanged(me);
    }
  }

  /** Creating an account: the same settling as `LoginFlow`, through `register`. */
  method RegisterFlow(s: Session, profile: Profile, response: Reply<Credentials>, me: Reply<Option<User>>)
    returns (result: AuthResult)
    modifies s
    ensures result == if response.Ok? then Success else Failure(ErrorText(response.message, RegisterFallback))
    ensures s.Current() == AfterSignIn(old(s.Current()), response, me)
    ensures response.Ok? || old(s.Valid()) ==> s.Valid()
  {
    var before := s.token;
    result := s.Register(profile, response);
    if s.token != before {
      var _ := s.TokenChanged(me);
    }
  }

  /** Logging out twice leaves the same state as logging out once. */
  method LogoutTwice(s: Session)
    modifies s
    ensures s.SignedOut() && s.loading == old(s.loading)
  {
    s.Logout();
    var once := (s.user, s.token, s.loading, s.storage, s.header);
    s.Logout();
    assert (s.user, s.token, s.loading, s.storage, s.header) == once;
  }
}
