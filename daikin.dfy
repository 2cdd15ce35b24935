/**
  The token cache of the thermostat client: the `Daikin` object of daikin/daikin.go
  and its `getToken`.

  The object keeps the last login response and the instant it expires. A call reuses
  the cached access token while the current instant is strictly before that expiry;
  otherwise it performs a login exchange, and only a successful one replaces the
  cache. Clock readings and login responses are parameters; time is an integer count
  of seconds.
 */
module Daikin {
  import opened Wrappers

  /** The fields of a login response that the client uses. */
  datatype Token = Token(accessToken: string, accessTokenExpiresIn: int)

  /** Why a login exchange failed. */
  datatype LoginError =
    | RequestNotBuilt                 // "http.NewRequest failed"
    | RequestFailed                   // "http request failed"
    | NonSuccessStatus(status: string) // "token request returned a non-success response: ..."
    | DecodeFailed                    // "json decode failed"

  /** What the login exchange would answer if it were performed. */
  type LoginOutcome = Result<Token, LoginError>

  /** The cache as a value: the cached token, if any, and its expiry instant. */
  datatype Session = Session(tokenCache: Option<Token>, tokenExpiresAt: int)

  /** The cached token may be handed out at `now`. */
  predicate Usable(s: Session, now: int) {
    s.tokenCache.Some? && now < s.tokenExpiresAt
  }

  /** What one call of getToken returns, the cache after it, and whether it logged in. */
  datatype Acquired = Acquired(token: Result<string, LoginError>, session: Session, loggedIn: bool)

  /** One call of getToken at instant `now`, as a function on the cache. */
  function Acquire(s: Session, now: int, login: LoginOutcome): (a: Acquired)
    // a login is attempted exactly when the cache holds no usable token
    ensures a.loggedIn <==> !Usable(s, now)
    // a token handed out without a login is the cached one, handed out before its expiry
    ensures !a.loggedIn ==> a.session == s && a.token == Success(s.tokenCache.value.accessToken)
    // a successful login caches its token with a window of now + ttl and hands it out
    ensures a.loggedIn && login.Success? ==>
      && a.token == Success(login.value.accessToken)
      && a.session == Session(Some(login.value), now + login.value.accessTokenExpiresIn)
    // the cache changes only by a successful login, which starts a window of now + ttl
    ensures a.session != s ==>
      login.Success? && a.session == Session(Some(login.value), now + login.value.accessTokenExpiresIn)
    // a failed login hands out its error and leaves the cache as it was
    ensures a.loggedIn && login.Failure? ==> a.token == Failure(login.error) && a.session == s
    // an error is handed out only when the login failed, and then it is that error
    ensures a.token.Failure? ==> login.Failure? && a.token.error == login.error && a.session == s
  {
    if Usable(s, now) then Acquired(Success(s.tokenCache.value.accessToken), s, false)
    else
      match login
      case Success(t) => Acquired(Success(t.accessToken), Session(Some(t), now + t.accessTokenExpiresIn), true)
      case Failure(e) => Acquired(Failure(e), s, true)
  }

  /** The client object. */
  class Daikin {
    const email: string
    const password: string
    var tokenCache: Option<Token>
    var tokenExpiresAt: int
    /**
      The number of login attempts this client has made: every call that finds no
      usable token attempts one, even when the request cannot be built.
     */
    ghost var logins: nat

    function State(): Session
      reads this
    {
      Session(tokenCache, tokenExpiresAt)
    }

    /** A new client holds the credentials and no token. */
    constructor New(email: string, password: string)
      ensures this.email == email && this.password == password
      ensures State() == Session(None, 0) && logins == 0
    {
      this.email := email;
      this.password := password;
      tokenCache := None;
      tokenExpiresAt := 0;
      logins := 0;
    }

    /**
      getToken at instant `now`; `login` is what the login exchange answers if this
      call performs one.
     */
    method GetToken(now: int, login: LoginOutcome) returns (r: Result<string, LoginError>)
      modifies this
      // a usable cached token is returned without a login and nothing changes
      ensures old(Usable(State(), now)) ==>
        r == Success(old(tokenCache).value.accessToken) && unchanged(this)
      // otherwise exactly one login exchange is performed
      ensures !old(Usable(State(), now)) ==> logins == old(logins) + 1
      ensures !old(Usable(State(), now)) && login.Success? ==>
        && r == Success(login.value.accessToken)
        && tokenCache == Some(login.value)
        && tokenExpiresAt == now + login.value.accessTokenExpiresIn
      ensures !old(Usable(State(), now)) && login.Failure? ==>
        && r == Failure(login.error)
        && tokenCache == old(tokenCache)
        && tokenExpiresAt == old(tokenExpiresAt)
      ensures Acquire(old(State()), now, login) == Acquired(r, State(), logins != old(logins))
    {
      if tokenCache.Some? && now < tokenExpiresAt {
        return Success(tokenCache.value.accessToken);
      }

      logins := logins + 1;
      match login
      case Failure(e) =>
        return Failure(e);
      case Success(token) =>
        tokenCache := Some(token);
        tokenExpiresAt := now + token.accessTokenExpiresIn;
        return Success(token.accessToken);
    }
  }

  /**
    A fresh client asked for a token twice, the second time before the first token
    expires (as SetTemp does, once for the device lookup and once for the update),
    logs in once and hands out the same token both times.
   */
  method TwoCallsOneLogin(email: string, password: string, t1: int, t2: int, token: Token, second: LoginOutcome)
    returns (r1: Result<string, LoginError>, r2: Result<string, LoginError>, ghost logins: nat)
    requires t2 < t1 + token.accessTokenExpiresIn
    ensures r1 == Success(token.accessToken) && r2 == r1
    ensures logins == 1
  {
    var d := new Daikin.New(email, password);
    r1 := d.GetToken(t1, Success(token));
    r2 := d.GetToken(t2, second);
    logins := d.logins;
  }

  // ---------------------------------------------------------------------------
  // Sequences of getToken calls
  // ---------------------------------------------------------------------------

  /** One getToken call: the instant it runs at and what its login would answer. */
  datatype Call = Call(now: int, login: LoginOutcome)

  /** The cache after the calls. Once a token is cached, the cache never empties again. */
  function Replay(s: Session, calls: seq<Call>): (out: Session)
    ensures s.tokenCache.Some? ==> out.tokenCache.Some?
    decreases |calls|
  {
    if calls == [] then s
    else Replay(Acquire(s, calls[0].now, calls[0].login).session, calls[1..])
  }

  /** The number of login exchanges the calls perform. */
  function LoginCount(s: Session, calls: seq<Call>): (n: nat)
    ensures n <= |calls|
    decreases |calls|
  {
    if calls == [] then 0
    else
      var a := Acquire(s, calls[0].now, calls[0].login);
      (if a.loggedIn then 1 else 0) + LoginCount(a.session, calls[1..])
  }

  /** What each of the calls returns; a call returns an error only when its own login failed. */
  function Handed(s: Session, calls: seq<Call>): (out: seq<Result<string, LoginError>>)
    ensures |out| == |calls|
    ensures forall i :: 0 <= i < |calls| && out[i].Failure? ==>
      calls[i].login.Failure? && out[i].error == calls[i].login.error
    decreases |calls|
  {
    if calls == [] then []
    else
      var a := Acquire(s, calls[0].now, calls[0].login);
      [a.token] + Handed(a.session, calls[1..])
  }

  /**
    While every call comes before the cached token's expiry, no call logs in, the cache
    does not change, and every call hands out the cached token.
   */
  lemma {:induction false} ReuseWithinWindow(s: Session, calls: seq<Call>)
    requires s.tokenCache.Some?
    requires forall i :: 0 <= i < |calls| ==> calls[i].now < s.tokenExpiresAt
    ensures Replay(s, calls) == s
    ensures LoginCount(s, calls) == 0
    ensures forall i :: 0 <= i < |calls| ==> Handed(s, calls)[i] == Success(s.tokenCache.value.accessToken)
    decreases |calls|
  {
    if calls != [] {
      ReuseWithinWindow(s, calls[1..]);
    }
  }

  /**
    A call that finds no usable token and logs in successfully starts a window: all
    later calls before `now + ttl` reuse its token, so the whole sequence performs exactly
    one login exchange and hands out that token throughout.
   */
  lemma {:induction false} OneLoginPerWindow(s: Session, first: Call, rest: seq<Call>)
    requires !Usable(s, first.now) && first.login.Success?
    requires forall i :: 0 <= i < |rest| ==>
      rest[i].now < first.now + first.login.value.accessTokenExpiresIn
    ensures LoginCount(s, [first] + rest) == 1
    ensures forall i :: 0 <= i < |rest| + 1 ==>
      Handed(s, [first] + rest)[i] == Success(first.login.value.accessToken)
  {
    var calls := [first] + rest;
    assert calls[1..] == rest;
    var s1 := Acquire(s, first.now, first.login).session;
    ReuseWithinWindow(s1, rest);
  }

  /**
    Failed logins never touch the cache: if every login the calls could perform fails,
    the cache ends as it started, and every token handed out is the cached one.
   */
  lemma {:induction false} FailedLoginsKeepSession(s: Session, calls: seq<Call>)
    requires forall i :: 0 <= i < |calls| ==> calls[i].login.Failure?
    ensures Replay(s, calls) == s
    ensures forall i :: 0 <= i < |calls| && Handed(s, calls)[i].Success? ==>
      s.tokenCache.Some? && Handed(s, calls)[i].value == s.tokenCache.value.accessToken
    decreases |calls|
  {
    if calls != [] {
      FailedLoginsKeepSession(s, calls[1..]);
      var h := Handed(s, calls);
      assert h[1..] == Handed(s, calls[1..]);
    }
  }

  /**
    The validity window: after any calls, the cache is either what it was or the token
    of one of the calls that logged in successfully, expiring at that call's instant
    plus the token's time-to-live.
   */
  lemma {:induction false} WindowFromIssuance(s: Session, calls: seq<Call>)
    ensures
      || Replay(s, calls) == s
      || exists j :: 0 <= j < |calls| && calls[j].login.Success? &&
           Acquire(Replay(s, calls[..j]), calls[j].now, calls[j].login).loggedIn &&
           Replay(s, calls) == Session(Some(calls[j].login.value), calls[j].now + calls[j].login.value.accessTokenExpiresIn)
    decreases |calls|
  {
    if calls != [] {
      var rest := calls[1..];
      var s1 := Acquire(s, calls[0].now, calls[0].login).session;
      assert Replay(s, calls) == Replay(s1, rest);
      WindowFromIssuance(s1, rest);
      if Replay(s1, rest) != s1 {
        var k :| 0 <= k < |rest| && rest[k].login.Success? &&
          Acquire(Replay(s1, rest[..k]), rest[k].now, rest[k].login).loggedIn &&
          Replay(s1, rest) == Session(Some(rest[k].login.value), rest[k].now + rest[k].login.value.accessTokenExpiresIn);
        assert calls[k + 1] == rest[k];
        assert calls[..k + 1][1..] == rest[..k];
        assert Replay(s, calls[..k + 1]) == Replay(s1, rest[..k]);
      } else if s1 != s {
        assert calls[..0] == [];
        assert Acquire(Replay(s, calls[..0]), calls[0].now, calls[0].login).loggedIn;
      }
    }
  }

  /**
    A client with no cached token (such as a new one, whatever its expiry field holds)
    caches only tokens from its own successful logins, with that login's window.
   */
  lemma FreshClientWindow(expiresAt: int, calls: seq<Call>)
    ensures var s := Replay(Session(None, expiresAt), calls);
      s.tokenCache.Some? ==>
        exists j :: 0 <= j < |calls| && calls[j].login == Success(s.tokenCache.value) &&
          Acquire(Replay(Session(None, expiresAt), calls[..j]), calls[j].now, calls[j].login).loggedIn &&
          s.tokenExpiresAt == calls[j].now + s.tokenCache.value.accessTokenExpiresIn
  {
    WindowFromIssuance(Session(None, expiresAt), calls);
  }
}
