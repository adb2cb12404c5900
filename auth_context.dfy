/** The session state machine (`AuthProvider`): the `token` and `isLoggedIn`
    state, the two per-tab `sessionStorage` keys, and the "auth_channel"
    broadcast channel, modelled as an outbox of posted messages. Inbound messages
    are handed to `HandleAuthMessage` by the caller (the channel's delivery is not
    modelled). Each transition is pure in `Session`; the class applies it in place. */
module AuthContext {
  import opened Common

  const AuthTokenKey: string := "authToken"
  const IsLoggedInKey: string := "isLoggedIn"

  /** `{type: "LOGIN", token}`, `{type: "LOGOUT"}`, or a message of another type. */
  datatype AuthMessage = LoginMessage(token: string) | LogoutMessage | OtherMessage

  /** Everything the provider changes: its two state variables, the tab's
      session storage and the messages it has posted so far. */
  datatype Session = Session(token: Option<string>, isLoggedIn: bool,
                             storage: map<string, string>, outbox: seq<AuthMessage>)

  /** `isLoggedIn == (token != null)`. */
  predicate Consistent(s: Session) {
    s.isLoggedIn == s.token.Some?
  }

  /** Session storage holds the token and the "true" flag exactly while a token is held. */
  predicate StorageMirrors(s: Session) {
    if s.token.Some? then
      && AuthTokenKey in s.storage && s.storage[AuthTokenKey] == s.token.value
      && IsLoggedInKey in s.storage && s.storage[IsLoggedInKey] == "true"
    else
      AuthTokenKey !in s.storage && IsLoggedInKey !in s.storage
  }

  /** Session storage as `login` leaves it: both keys written. */
  predicate StorageWellFormed(storage: map<string, string>) {
    (AuthTokenKey in storage <==> IsLoggedInKey in storage)
    && (IsLoggedInKey in storage ==> storage[IsLoggedInKey] == "true")
  }

  // ---------------------------------------------------------------------------
  // Transitions

  /** The two lazy `useState` initialisers, reading session storage. */
  function Initial(storage: map<string, string>): Session {
    Session(if AuthTokenKey in storage then Some(storage[AuthTokenKey]) else None,
            IsLoggedInKey in storage && storage[IsLoggedInKey] == "true",
            storage, [])
  }

  /** Adopting a token: the storage writes and state updates shared by `login`
      and the inbound LOGIN handler. */
  function Adopt(s: Session, token: string): Session {
    Session(Some(token), true,
            s.storage[AuthTokenKey := token][IsLoggedInKey := "true"], s.outbox)
  }

  /** `login(newToken)`: nothing when the token is already held; otherwise adopt
      it and post one LOGIN message. */
  function LoginStep(s: Session, token: string): Session {
    if s.token == Some(token) then s
    else var a := Adopt(s, token); a.(outbox := a.outbox + [LoginMessage(token)])
  }

  /** `logout()`: nothing while the token is falsy (`null` or `""`); otherwise
      drop both storage keys, clear the state and post one LOGOUT message. */
  function LogoutStep(s: Session): Session {
    if !Truthy(s.token) then s
    else Session(None, false, s.storage - {AuthTokenKey, IsLoggedInKey}, s.outbox + [LogoutMessage])
  }

  /** `handleAuthMessage`: LOGOUT calls `logout()`; LOGIN adopts a token that
      differs from the held one, without posting; other messages are ignored. */
  function MessageStep(s: Session, m: AuthMessage): Session {
    match m
    case LogoutMessage => LogoutStep(s)
    case LoginMessage(t) => if s.token != Some(t) then Adopt(s, t) else s
    case OtherMessage => s
  }

  // ---------------------------------------------------------------------------
  // Properties of the transitions

  /** Storage in the shape `login` writes yields a consistent, mirrored start. */
  lemma InitialConsistent(storage: map<string, string>)
    requires StorageWellFormed(storage)
    ensures Consistent(Initial(storage)) && StorageMirrors(Initial(storage))
    ensures Initial(storage).outbox == []
  {
  }

  /** A `login` with the held token changes nothing and posts nothing. */
  lemma LoginSameToken(s: Session, token: string)
    requires s.token == Some(token)
    ensures LoginStep(s, token) == s
  {
  }

  /** A `login` with another token writes both keys, sets the state and posts
      exactly one LOGIN message. */
  lemma LoginNewToken(s: Session, token: string)
    requires s.token != Some(token)
    ensures var r := LoginStep(s, token);
      && r.token == Some(token) && r.isLoggedIn
      && r.storage[AuthTokenKey] == token && r.storage[IsLoggedInKey] == "true"
      && (forall k :: k in s.storage && k != AuthTokenKey && k != IsLoggedInKey ==>
            k in r.storage && r.storage[k] == s.storage[k])
      && r.outbox == s.outbox + [LoginMessage(token)]
  {
  }

  /** Logging in twice with one token posts one message, not two. */
  lemma LoginTwiceBroadcastsOnce(s: Session, token: string)
    requires s.token != Some(token)
    ensures LoginStep(LoginStep(s, token), token) == LoginStep(s, token)
    ensures |LoginStep(LoginStep(s, token), token).outbox| == |s.outbox| + 1
  {
  }

  /** A `logout` while logged in drops both keys, clears the state and posts
      exactly one LOGOUT message; while logged out it does nothing. */
  lemma LogoutEffect(s: Session)
    ensures !Truthy(s.token) ==> LogoutStep(s) == s
    ensures Truthy(s.token) ==>
      var r := LogoutStep(s);
      && r.token == None && !r.isLoggedIn
      && AuthTokenKey !in r.storage && IsLoggedInKey !in r.storage
      && r.outbox == s.outbox + [LogoutMessage]
  {
  }

  /** An inbound LOGOUT behaves exactly as `logout()`, re-posting LOGOUT. */
  lemma InboundLogoutIsLogout(s: Session)
    requires Consistent(s) && s.isLoggedIn && s.token != Some("")
    ensures MessageStep(s, LogoutMessage) == LogoutStep(s)
    ensures MessageStep(s, LogoutMessage).token == None
    ensures MessageStep(s, LogoutMessage).outbox == s.outbox + [LogoutMessage]
  {
  }

  /** An inbound LOGIN never posts anything, and adopts exactly a different token. */
  lemma InboundLoginSilent(s: Session, token: string)
    ensures MessageStep(s, LoginMessage(token)).outbox == s.outbox
    ensures MessageStep(s, LoginMessage(token)).token == Some(token)
    ensures s.token == Some(token) ==> MessageStep(s, LoginMessage(token)) == s
  {
  }

  /** Every transition keeps `isLoggedIn == (token != null)` and the storage
      mirror, once they hold. */
  lemma TransitionsKeepInvariants(s: Session, token: string, m: AuthMessage)
    requires Consistent(s) && StorageMirrors(s)
    ensures Consistent(LoginStep(s, token)) && StorageMirrors(LoginStep(s, token))
    ensures Consistent(LogoutStep(s)) && StorageMirrors(LogoutStep(s))
    ensures Consistent(MessageStep(s, m)) && StorageMirrors(MessageStep(s, m))
  {
  }

  /** Echo across two tabs stops after one hop for LOGIN: the receiving tab
      adopts the token and posts nothing back. */
  lemma LoginEchoStops(a: Session, b: Session, token: string)
    requires a.token != Some(token)
    ensures var a1 := LoginStep(a, token);
      var b1 := MessageStep(b, a1.outbox[|a1.outbox| - 1]);
      && b1.token == Some(token) && b1.outbox == b.outbox
  {
  }

  /** Echo across two tabs stops after two hops for LOGOUT: the other tab logs
      out and may re-post LOGOUT, which the first tab, now logged out, ignores. */
  lemma LogoutEchoStops(a: Session, b: Session)
    requires Truthy(a.token) && (b.token.None? || Truthy(b.token))
    ensures var a1 := LogoutStep(a);
      var b1 := MessageStep(b, LogoutMessage);
      && b1.token == None
      && (b1.outbox == b.outbox || b1.outbox == b.outbox + [LogoutMessage])
      && MessageStep(a1, LogoutMessage) == a1
  {
  }

  /** The `logout` guard tests truthiness, not `null`: a tab holding the empty
      token stays logged in through `logout()`. */
  lemma EmptyTokenSurvivesLogout(s: Session)
    requires s.token != Some("")
    ensures LogoutStep(LoginStep(s, "")).isLoggedIn
    ensures LogoutStep(LoginStep(s, "")) == LoginStep(s, "")
  {
  }

  // ---------------------------------------------------------------------------
  // The provider

  class AuthProvider {
    var token: Option<string>
    var isLoggedIn: bool
    /** The tab's `sessionStorage`. */
    var storage: map<string, string>
    /** Messages posted on "auth_channel", oldest first. */
    var outbox: seq<AuthMessage>

    function Snapshot(): Session
      reads this
    {
      Session(token, isLoggedIn, storage, outbox)
    }

    constructor (sessionStorage: map<string, string>)
      ensures Snapshot() == Initial(sessionStorage)
    {
      token := if AuthTokenKey in sessionStorage then Some(sessionStorage[AuthTokenKey]) else None;
      isLoggedIn := IsLoggedInKey in sessionStorage && sessionStorage[IsLoggedInKey] == "true";
      storage := sessionStorage;
      outbox := [];
    }

    method Login(newToken: string)
      modifies this
      ensures Snapshot() == LoginStep(old(Snapshot()), newToken)
    {
      if token == Some(newToken) {
        return;
      }
      storage := storage[AuthTokenKey := newToken];
      storage := storage[IsLoggedInKey := "true"];
      token := Some(newToken);
      isLoggedIn := true;
      outbox := outbox + [LoginMessage(newToken)];
    }

    method Logout()
      modifies this
      ensures Snapshot() == LogoutStep(old(Snapshot()))
    {
      if !Truthy(token) {
        return;
      }
      storage := storage - {AuthTokenKey};
      storage := storage - {IsLoggedInKey};
      token := None;
      isLoggedIn := false;
      outbox := outbox + [LogoutMessage];
    }

    method HandleAuthMessage(m: AuthMessage)
      modifies this
      ensures Snapshot() == MessageStep(old(Snapshot()), m)
    {
      match m {
        case LogoutMessage =>
          Logout();
        case LoginMessage(t) =>
          if token != Some(t) {
            storage := storage[AuthTokenKey := t];
            storage := storage[IsLoggedInKey := "true"];
            token := Some(t);
            isLoggedIn := true;
          }
        case OtherMessage =>
      }
    }
  }
}
