/** The session store (`AuthProvider`): a user slot in React state and a 'token' slot in
    localStorage, written by the start-up effect, `login`, `register` and `logout`. The
    backend's replies are parameters; the requests sent are recorded, each with the
    bearer token the request interceptor reads from storage when the request goes out. */
module Auth {
  import opened Common
  import opened Models

  datatype Request =
    | RegisterRequest(email: string, username: string, password: string)
    | TokenRequest(username: string, password: string)
    | MeRequest(bearer: Option<string>)

  /** The two slots. */
  datatype Session = Session(user: Option<User>, token: Option<string>)

  /** JavaScript truthiness of the 'token' slot: present and not "". */
  predicate TokenPresent(t: Option<string>) {
    t.Some? && t.value != ""
  }

  /** The bearer token the request interceptor attaches: a falsy token is dropped. */
  function Bearer(t: Option<string>): (b: Option<string>)
    ensures b.Some? <==> TokenPresent(t)
    ensures b.Some? ==> b == t
  {
    if TokenPresent(t) then t else None
  }

  /** A user is never held without a token to go with it. */
  predicate Coherent(s: Session) {
    s.user.Some? ==> s.token.Some?
  }

  /** The start-up effect, given the reply to GET /me (asked only when a non-empty token
      is stored: `if (token)`). */
  function AfterInit(s: Session, me: Result<User>): (r: Session)
    ensures !TokenPresent(s.token) ==> r == s
    ensures TokenPresent(s.token) && me.Ok? ==> r == Session(Some(me.value), s.token)
    ensures TokenPresent(s.token) && me.Err? ==> r == Session(s.user, None)
  {
    if !TokenPresent(s.token) then s
    else if me.Ok? then Session(Some(me.value), s.token)
    else Session(s.user, None)
  }

  /** `login`: the token is stored as soon as POST /token answers; the user is set only
      if GET /me answers too. */
  function AfterLogin(s: Session, tokenReply: Result<string>, me: Result<User>): (r: Session)
    ensures tokenReply.Err? ==> r == s
    ensures tokenReply.Ok? ==> r.token == Some(tokenReply.value)
    ensures tokenReply.Ok? ==> r.user == if me.Ok? then Some(me.value) else s.user
  {
    if tokenReply.Err? then s
    else Session(if me.Ok? then Some(me.value) else s.user, Some(tokenReply.value))
  }

  /** What `login` throws: the first failed reply's error. */
  function LoginOutcome(tokenReply: Result<string>, me: Result<User>): (o: Outcome)
    ensures o.Done? <==> tokenReply.Ok? && me.Ok?
    ensures tokenReply.Err? ==> o == Threw(tokenReply.error)
    ensures tokenReply.Ok? && me.Err? ==> o == Threw(me.error)
  {
    if tokenReply.Err? then Threw(tokenReply.error)
    else if me.Err? then Threw(me.error)
    else Done
  }

  /** `register`: POST /register, then `login` with the same credentials if it succeeded. */
  function AfterRegister(s: Session, registerReply: Result<User>, tokenReply: Result<string>, me: Result<User>): (r: Session)
    ensures registerReply.Err? ==> r == s
    ensures registerReply.Ok? ==> r == AfterLogin(s, tokenReply, me)
  {
    if registerReply.Err? then s else AfterLogin(s, tokenReply, me)
  }

  function RegisterOutcome(registerReply: Result<User>, tokenReply: Result<string>, me: Result<User>): (o: Outcome)
    ensures registerReply.Err? ==> o == Threw(registerReply.error)
    ensures registerReply.Ok? ==> o == LoginOutcome(tokenReply, me)
  {
    if registerReply.Err? then Threw(registerReply.error) else LoginOutcome(tokenReply, me)
  }

  /** `logout`. */
  function AfterLogout(s: Session): (r: Session)
    ensures r.user.None? && r.token.None?
  {
    Session(None, None)
  }

  /** Every transition of the store keeps a user only together with a token. The start-up
      effect runs at mount, while the user slot is still empty. */
  lemma TransitionsKeepCoherence(s: Session, me: Result<User>, registerReply: Result<User>, tokenReply: Result<string>)
    requires Coherent(s)
    ensures s.user.None? ==> Coherent(AfterInit(s, me))
    ensures Coherent(AfterLogin(s, tokenReply, me))
    ensures Coherent(AfterRegister(s, registerReply, tokenReply, me))
    ensures Coherent(AfterLogout(s))
  {
  }

  /** A stored "" is no token: start-up sends no GET /me and leaves the session as it is. */
  lemma EmptyStoredTokenIsIgnored(me: Result<User>)
    ensures AfterInit(Session(None, Some("")), me) == Session(None, Some(""))
    ensures Bearer(Some("")).None?
  {
  }

  /** A login in which both requests succeed leaves the user GET /me returned, under the
      token POST /token returned, whatever the session held before. */
  lemma SuccessfulLoginReplacesSession(s: Session, token: string, u: User)
    ensures AfterLogin(s, Ok(token), Ok(u)) == Session(Some(u), Some(token))
  {
  }

  class AuthProvider {
    var user: Option<User>
    var loading: bool
    var storedToken: Option<string>    // localStorage 'token'
    ghost var sent: seq<Request>

    function State(): Session
      reads this
    {
      Session(user, storedToken)
    }

    /** Mounting the provider over whatever the 'token' slot holds. */
    constructor (stored: Option<string>)
      ensures user.None? && loading && storedToken == stored && sent == []
    {
      user, loading, storedToken := None, true, stored;
      sent := [];
    }

    /** The start-up effect. Loading ends whichever way it goes. */
    method Init(me: Result<User>)
      modifies this
      ensures State() == AfterInit(old(State()), me)
      ensures !loading
      ensures sent == old(sent) + if TokenPresent(old(storedToken)) then [MeRequest(Bearer(old(storedToken)))] else []
    {
      if TokenPresent(storedToken) {
        sent := sent + [MeRequest(Bearer(storedToken))];
        if me.Ok? {
          user := Some(me.value);
        } else {
          storedToken := None;
        }
        loading := false;
      } else {
        loading := false;
      }
    }

    /** `login`. The GET /me it sends carries the token it has just stored, unless that
        token is "", which the interceptor does not attach. */
    method Login(username: string, password: string, tokenReply: Result<string>, me: Result<User>)
      returns (r: Outcome)
      modifies this
      ensures State() == AfterLogin(old(State()), tokenReply, me)
      ensures r == LoginOutcome(tokenReply, me)
      ensures loading == old(loading)
      ensures sent == old(sent) + [TokenRequest(username, password)]
                      + if tokenReply.Ok? then [MeRequest(Bearer(Some(tokenReply.value)))] else []
    {
      sent := sent + [TokenRequest(username, password)];
      if tokenReply.Err? {
        return Threw(tokenReply.error);
      }
      storedToken := Some(tokenReply.value);
      sent := sent + [MeRequest(Bearer(storedToken))];
      if me.Err? {
        return Threw(me.error);
      }
      user := Some(me.value);
      r := Done;
    }

    /** `register`. */
    method Register(email: string, username: string, password: string,
                    registerReply: Result<User>, tokenReply: Result<string>, me: Result<User>)
      returns (r: Outcome)
      modifies this
      ensures State() == AfterRegister(old(State()), registerReply, tokenReply, me)
      ensures r == RegisterOutcome(registerReply, tokenReply, me)
      ensures loading == old(loading)
      ensures sent == old(sent) + [RegisterRequest(email, username, password)]
                      + if registerReply.Err? then []
                        else [TokenRequest(username, password)]
                             + if tokenReply.Ok? then [MeRequest(Bearer(Some(tokenReply.value)))] else []
    {
      sent := sent + [RegisterRequest(email, username, password)];
      if registerReply.Err? {
        return Threw(registerReply.error);
      }
      r := Login(username, password, tokenReply, me);
    }

    /** `logout`. */
    method Logout()
      modifies this
      ensures State() == AfterLogout(old(State()))
      ensures loading == old(loading) && sent == old(sent)
    {
      storedToken := None;
      user := None;
    }
  }
}
