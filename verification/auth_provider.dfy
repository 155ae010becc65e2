/**
 * The session holder of src/Context/AuthProvider.jsx: the `user`,
 * `accessToken` and `loading` slots, the one durable-storage key, the
 * primitive mutators `saveAccessToken` and `clearAuth`, the actions built on
 * them, the startup bootstrap `init` with its `mounted` flag, and
 * `authedFetch`.
 */
module AuthProvider {
  import opened Wrappers
  import opened Js
  import opened Net
  import opened AuthApi

  /** The durable-storage key of a remembered access token. */
  const AccessTokenKey := "accessToken"

  /** The session slots together with the durable storage (`localStorage`). */
  datatype State = State(user: Json, accessToken: Option<string>, loading: bool, storage: map<string, string>)

  /** `saveAccessToken(token, remember)`: the in-memory token, and the stored copy only when remembered. */
  function Saved(s: State, token: Option<string>, remember: bool): (t: State)
    ensures t.accessToken == token && t.user == s.user && t.loading == s.loading
    ensures remember ==> AccessTokenKey in t.storage && t.storage[AccessTokenKey] == TokenText(token)
    ensures !remember ==> AccessTokenKey !in t.storage
    ensures t.storage - {AccessTokenKey} == s.storage - {AccessTokenKey}
  {
    var storage := if remember then s.storage[AccessTokenKey := TokenText(token)] else s.storage - {AccessTokenKey};
    s.(accessToken := token, storage := storage)
  }

  /** `clearAuth()`: no user, no token, no stored token; `loading` and other keys untouched. */
  function Cleared(s: State): (t: State)
    ensures t.user == JNull && t.accessToken.None? && AccessTokenKey !in t.storage
    ensures t.loading == s.loading && t.storage - {AccessTokenKey} == s.storage - {AccessTokenKey}
  {
    s.(user := JNull, accessToken := None, storage := s.storage - {AccessTokenKey})
  }

  /** Clearing twice is clearing once; the result does not depend on the prior user or token. */
  lemma ClearIdempotent(s: State, s': State)
    requires s.loading == s'.loading && s.storage - {AccessTokenKey} == s'.storage - {AccessTokenKey}
    ensures Cleared(Cleared(s)) == Cleared(s)
    ensures Cleared(s) == Cleared(s')
  {
    assert Cleared(s).storage == s.storage - {AccessTokenKey};
    assert Cleared(Cleared(s)).storage == Cleared(s).storage;
    assert Cleared(s').storage == s'.storage - {AccessTokenKey};
  }

  /** Saving a token and then clearing leaves no trace of the token. */
  lemma SaveThenClear(s: State, token: Option<string>, remember: bool)
    ensures Cleared(Saved(s, token, remember)) == Cleared(s)
  {
    assert Cleared(Saved(s, token, remember)).storage == Saved(s, token, remember).storage - {AccessTokenKey};
    assert Cleared(s).storage == s.storage - {AccessTokenKey};
  }

  /** `data.accessToken` of a non-null payload, when it is a string. */
  function TokenField(data: Json): Option<string>
  {
    match Get(data, "accessToken")
    case JStr(t) => Some(t)
    case _ => None
  }

  /**
   * The state after `register`/`login` got `api` from the service: unchanged
   * if the call failed or the payload is `null` (reading its properties
   * throws before any update), otherwise the payload's token saved as
   * `remember` says and its user adopted.
   */
  function SignedIn(s: State, api: Result<Json>, remember: bool): State
  {
    if api.Err? || api.value == JNull then s
    else Saved(s, TokenField(api.value), remember).(user := Get(api.value, "user"))
  }

  /** What `register`/`login` resolve or reject with. */
  function SignInResult(api: Result<Json>): Result<Json>
  {
    if api.Ok? && api.value == JNull then Err(NullPropertyRead) else api
  }

  /**
   * Signing in adopts the returned user and token, with storage following
   * `remember`; a failed call changes nothing and its error reaches the caller.
   */
  lemma SignedInEffect(s: State, api: Result<Json>, remember: bool)
    ensures api.Err? ==> SignedIn(s, api, remember) == s && SignInResult(api) == api
    ensures api == Ok(JNull) ==> SignedIn(s, api, remember) == s && SignInResult(api) == Err(NullPropertyRead)
    ensures api.Ok? && api.value != JNull ==>
      var t := SignedIn(s, api, remember);
      && t.user == Get(api.value, "user") && t.accessToken == TokenField(api.value) && t.loading == s.loading
      && (remember ==> AccessTokenKey in t.storage && t.storage[AccessTokenKey] == TokenText(TokenField(api.value)))
      && (!remember ==> AccessTokenKey !in t.storage)
      && SignInResult(api) == api
  {
  }

  /** `localStorage.getItem("accessToken")` when truthy. */
  function StoredToken(storage: map<string, string>): (t: Option<string>)
    ensures t.Some? <==> AccessTokenKey in storage && storage[AccessTokenKey] != ""
    ensures t.Some? ==> t.value == storage[AccessTokenKey]
  {
    if AccessTokenKey in storage && storage[AccessTokenKey] != "" then Some(storage[AccessTokenKey]) else None
  }

  // ---------------------------------------------------------------------------
  // Bootstrap
  // ---------------------------------------------------------------------------

  /**
   * The `mounted` flag as seen when the bootstrap resumes after its `k`-th
   * network call. `teardown == Some(n)`: the view was torn down while the
   * `n`-th call was pending, so every later check sees `false`.
   */
  predicate Mounted(teardown: Option<nat>, k: nat)
  {
    teardown.None? || k < teardown.value
  }

  /** The bootstrap's effect: the final state and the requests it sent. */
  datatype Boot = Boot(state: State, sent: seq<Request>)

  /** The state of "not logged in": cleared and no longer loading. */
  function Anonymous(s: State): State
  {
    Cleared(s).(loading := false)
  }

  /**
   * Step 2 of `init`: refresh, adopt the token, then `/me`. `k` is the
   * number of the refresh call among the bootstrap's calls.
   */
  function Renew(respond: Responder, history: seq<Request>, s: State, teardown: Option<nat>, k: nat): Boot
  {
    var q := Describe(RefreshEp);
    var refreshed := Settle(respond(history + [q]));
    if !Mounted(teardown, k) then Boot(s, [q])
    else if refreshed.Err? || refreshed.value == JNull then Boot(Anonymous(s), [q])
    else
      var s2 := s.(accessToken := TokenField(refreshed.value));
      var q2 := Describe(MeEp(s2.accessToken));
      var me := Settle(respond(history + [q, q2]));
      if !Mounted(teardown, k + 1) then Boot(s2, [q, q2])
      else if me.Err? then Boot(Anonymous(s2), [q, q2])
      else Boot(s2.(user := me.value, loading := false), [q, q2])
  }

  /**
   * `init()` from state `s0`: try the stored token with `/me`; failing that,
   * forget it and renew. Any failure ends anonymous; no slot is written once
   * the view is torn down.
   */
  function Bootstrap(respond: Responder, history: seq<Request>, s0: State, teardown: Option<nat>): Boot
  {
    var s1 := s0.(loading := true);
    match StoredToken(s1.storage)
    case Some(t) =>
      var q := Describe(MeEp(Some(t)));
      var me := Settle(respond(history + [q]));
      if me.Ok? then
        Boot(if Mounted(teardown, 1) then s1.(user := me.value, accessToken := Some(t), loading := false) else s1, [q])
      else
        var b := Renew(respond, history + [q], s1.(storage := s1.storage - {AccessTokenKey}), teardown, 2);
        Boot(b.state, [q] + b.sent)
    case None => Renew(respond, history, s1, teardown, 1)
  }

  /** The refresh step sends the refresh first, then at most one `/me`. */
  lemma RenewShape(respond: Responder, history: seq<Request>, s: State, teardown: Option<nat>, k: nat)
    ensures var b := Renew(respond, history, s, teardown, k);
      && 1 <= |b.sent| <= 2 && b.sent[0] == Describe(RefreshEp) && Refreshes(b.sent) == 1
  {
    var b := Renew(respond, history, s, teardown, k);
    if |b.sent| == 2 {
      assert b.sent == [b.sent[0]] + [b.sent[1]];
      assert b.sent[1].verb == "GET";
    } else {
      assert b.sent == [b.sent[0]];
    }
  }

  /** `/me` with the stored token comes first; a refresh is only sent after it. */
  lemma BootstrapTriesStoredTokenFirst(respond: Responder, history: seq<Request>, s0: State, teardown: Option<nat>)
    ensures var b := Bootstrap(respond, history, s0, teardown);
      && 1 <= |b.sent| <= 3
      && Refreshes(b.sent) <= 1
      && (StoredToken(s0.storage).Some? ==> b.sent[0] == Describe(MeEp(StoredToken(s0.storage))))
      && (StoredToken(s0.storage).None? ==> b.sent[0] == Describe(RefreshEp))
  {
    var s1 := s0.(loading := true);
    match StoredToken(s1.storage)
    case Some(t) =>
      var q := Describe(MeEp(Some(t)));
      assert q.verb == "GET";
      if Settle(respond(history + [q])).Err? {
        var r := Renew(respond, history + [q], s1.(storage := s1.storage - {AccessTokenKey}), teardown, 2);
        RenewShape(respond, history + [q], s1.(storage := s1.storage - {AccessTokenKey}), teardown, 2);
        assert multiset([q] + r.sent) == multiset([q]) + multiset(r.sent);
      }
    case None =>
      RenewShape(respond, history, s1, teardown, 1);
  }

  /** A stored token that `/me` accepts is adopted with its user, and no refresh is sent. */
  lemma BootstrapStoredTokenAccepted(respond: Responder, history: seq<Request>, s0: State, teardown: Option<nat>, t: string)
    requires StoredToken(s0.storage) == Some(t)
    requires Settle(respond(history + [Describe(MeEp(Some(t)))])).Ok?
    ensures var b := Bootstrap(respond, history, s0, teardown);
      var me := Settle(respond(history + [Describe(MeEp(Some(t)))])).value;
      && b.sent == [Describe(MeEp(Some(t)))]
      && Refreshes(b.sent) == 0
      && (Mounted(teardown, 1) ==> b.state == s0.(user := me, accessToken := Some(t), loading := false))
  {
    assert Describe(MeEp(Some(t))) != Describe(RefreshEp);
  }

  /**
   * A stored token that `/me` rejects is removed from storage, whether or not
   * the view is still mounted, and exactly one refresh follows.
   */
  lemma BootstrapStoredTokenRejected(respond: Responder, history: seq<Request>, s0: State, teardown: Option<nat>, t: string)
    requires StoredToken(s0.storage) == Some(t)
    requires Settle(respond(history + [Describe(MeEp(Some(t)))])).Err?
    ensures var b := Bootstrap(respond, history, s0, teardown);
      && |b.sent| >= 2 && b.sent[0] == Describe(MeEp(Some(t))) && b.sent[1] == Describe(RefreshEp)
      && Refreshes(b.sent) == 1
      && AccessTokenKey !in b.state.storage
  {
    var s1 := s0.(loading := true);
    var q := Describe(MeEp(Some(t)));
    var s2 := s1.(storage := s1.storage - {AccessTokenKey});
    var r := Renew(respond, history + [q], s2, teardown, 2);
    assert Bootstrap(respond, history, s0, teardown) == Boot(r.state, [q] + r.sent);
    RenewShape(respond, history + [q], s2, teardown, 2);
    RenewStorage(respond, history + [q], s2, teardown, 2);
    assert q != Describe(RefreshEp);
    assert multiset([q] + r.sent) == multiset([q]) + multiset(r.sent);
  }

  /** The refresh step never writes storage, except to remove the stored token. */
  lemma RenewStorage(respond: Responder, history: seq<Request>, s: State, teardown: Option<nat>, k: nat)
    ensures var b := Renew(respond, history, s, teardown, k);
      b.state.storage == s.storage || b.state.storage == s.storage - {AccessTokenKey}
  {
  }

  /**
   * On the refresh path of a bootstrap that is never torn down: refresh and
   * `/me` both succeeding adopt the refreshed token and the `/me` user; any
   * failure ends with no user, no token and no stored token.
   */
  lemma BootstrapRenewal(respond: Responder, history: seq<Request>, s: State, k: nat)
    ensures var b := Renew(respond, history, s, None, k);
      var refreshed := Settle(respond(history + [Describe(RefreshEp)]));
      && !b.state.loading
      && (refreshed.Ok? && refreshed.value != JNull &&
          Settle(respond(history + [Describe(RefreshEp), Describe(MeEp(TokenField(refreshed.value)))])).Ok? ==>
            b.state.accessToken == TokenField(refreshed.value)
            && b.state.user == Settle(respond(history + [Describe(RefreshEp), Describe(MeEp(TokenField(refreshed.value)))])).value)
      && (refreshed.Err? || refreshed.value == JNull ||
          Settle(respond(history + [Describe(RefreshEp), Describe(MeEp(TokenField(refreshed.value)))])).Err? ==>
            b.state.user == JNull && b.state.accessToken.None? && AccessTokenKey !in b.state.storage)
  {
  }

  /** A bootstrap that is never torn down always ends with `loading` false. */
  lemma BootstrapSettles(respond: Responder, history: seq<Request>, s0: State)
    ensures !Bootstrap(respond, history, s0, None).state.loading
  {
    var s1 := s0.(loading := true);
    match StoredToken(s1.storage)
    case Some(t) =>
      var q := Describe(MeEp(Some(t)));
      BootstrapRenewal(respond, history + [q], s1.(storage := s1.storage - {AccessTokenKey}), 2);
    case None =>
      BootstrapRenewal(respond, history, s1, 1);
  }

  /**
   * The refresh step with its calls numbered from `k`, torn down while one
   * of them is pending: no user is written, `loading` and storage stay, and
   * the token changes only when the teardown hit the `/me` that follows a
   * refresh, to the refreshed token.
   */
  lemma RenewCancelled(respond: Responder, history: seq<Request>, s: State, k: nat, n: nat)
    requires n <= k - 1 + |Renew(respond, history, s, Some(n), k).sent|
    ensures var b := Renew(respond, history, s, Some(n), k);
      && b.state.user == s.user && b.state.loading == s.loading && b.state.storage == s.storage
      && (b.state.accessToken == s.accessToken
          || (|b.sent| == 2 && n == k + 1
              && Settle(respond(history + [b.sent[0]])).Ok?
              && b.state.accessToken == TokenField(Settle(respond(history + [b.sent[0]])).value)))
  {
  }

  /**
   * Tearing the view down while one of the bootstrap's calls is pending stops
   * every later slot write: `loading` stays true, the user is never written,
   * and if it happens during the first call the token is the one the
   * bootstrap started with.
   */
  lemma BootstrapCancelled(respond: Responder, history: seq<Request>, s0: State, n: nat)
    requires n <= |Bootstrap(respond, history, s0, Some(n)).sent|
    ensures var b := Bootstrap(respond, history, s0, Some(n));
      && b.state.loading
      && b.state.user == s0.user
      && (n <= 1 ==> b.state.accessToken == s0.accessToken)
  {
    var s1 := s0.(loading := true);
    match StoredToken(s1.storage)
    case Some(t) =>
      var q := Describe(MeEp(Some(t)));
      if Settle(respond(history + [q])).Err? {
        var s2 := s1.(storage := s1.storage - {AccessTokenKey});
        RenewCancelled(respond, history + [q], s2, 2, n);
      }
    case None =>
      RenewCancelled(respond, history, s1, 1, n);
  }

  /**
   * After a teardown, `clearAuth` never runs: storage changes only by the
   * removal of a stored token `/me` rejected, and the token slot changes
   * only to the token of a refresh whose follow-up `/me` was pending at the
   * teardown.
   */
  lemma BootstrapCancelledWrites(respond: Responder, history: seq<Request>, s0: State, n: nat)
    requires n <= |Bootstrap(respond, history, s0, Some(n)).sent|
    ensures var b := Bootstrap(respond, history, s0, Some(n));
      && (b.state.storage == s0.storage
          || (b.state.storage == s0.storage - {AccessTokenKey} && StoredToken(s0.storage).Some?
              && Settle(respond(history + [b.sent[0]])).Err?))
      && (b.state.accessToken == s0.accessToken
          || (n == |b.sent| >= 2 && b.sent[n - 2] == Describe(RefreshEp)
              && Settle(respond(history + b.sent[..n - 1])).Ok?
              && b.state.accessToken == TokenField(Settle(respond(history + b.sent[..n - 1])).value)))
  {
    var b := Bootstrap(respond, history, s0, Some(n));
    var s1 := s0.(loading := true);
    match StoredToken(s1.storage)
    case Some(t) =>
      var q := Describe(MeEp(Some(t)));
      if Settle(respond(history + [q])).Err? {
        var s2 := s1.(storage := s1.storage - {AccessTokenKey});
        var r := Renew(respond, history + [q], s2, Some(n), 2);
        assert b == Boot(r.state, [q] + r.sent);
        RenewCancelled(respond, history + [q], s2, 2, n);
        if b.state.accessToken != s0.accessToken {
          assert |b.sent| == 3 && b.sent[1] == r.sent[0] == Describe(RefreshEp);
          assert history + b.sent[..2] == (history + [q]) + [r.sent[0]];
        }
      }
    case None =>
      var r := Renew(respond, history, s1, Some(n), 1);
      RenewCancelled(respond, history, s1, 1, n);
      if b.state.accessToken != s0.accessToken {
        assert b.sent[..1] == [r.sent[0]];
      }
  }

  // ---------------------------------------------------------------------------
  // The session object
  // ---------------------------------------------------------------------------

  const NotAuthenticated: Failure := Failure("Not authenticated", None, None, None, false)

  /** `googleLogin()`: a placeholder that always rejects, with no error code. */
  function GoogleLogin(): (r: Result<Json>)
    ensures r.Err? && r.error.code.None? && r.error.status.None?
  {
    Err(Failure("Google login is not enabled yet (backend OAuth endpoint required)", None, None, None, false))
  }

  /** `resetPassword(email)`: a placeholder that always rejects, with no error code. */
  function ResetPassword(email: string): (r: Result<Json>)
    ensures r.Err? && r.error.code.None? && r.error.status.None?
  {
    Err(Failure("Reset password is not enabled yet (backend endpoint required)", None, None, None, false))
  }

  class Session {
    var user: Json
    var accessToken: Option<string>
    var loading: bool
    /** `localStorage`. */
    var storage: map<string, string>

    function Snapshot(): State
      reads this
    {
      State(user, accessToken, loading, storage)
    }

    /** A fresh provider: no user, no token, loading, over the given storage. */
    constructor (storage: map<string, string>)
      ensures Snapshot() == State(JNull, None, true, storage)
    {
      user := JNull;
      accessToken := None;
      loading := true;
      this.storage := storage;
    }

    method SaveAccessToken(token: Option<string>, remember: bool)
      modifies this
      ensures Snapshot() == Saved(old(Snapshot()), token, remember)
    {
      accessToken := token;
      if remember {
        storage := storage[AccessTokenKey := TokenText(token)];
      } else {
        storage := storage - {AccessTokenKey};
      }
    }

    method ClearAuth()
      modifies this
      ensures Snapshot() == Cleared(old(Snapshot()))
    {
      user := JNull;
      accessToken := None;
      storage := storage - {AccessTokenKey};
    }

    /** `setAuth({ user, accessToken }, remember)`. */
    method SetAuth(newUser: Json, token: Option<string>, remember: bool)
      modifies this
      ensures Snapshot() == Saved(old(Snapshot()).(user := newUser), token, remember)
    {
      user := newUser;
      SaveAccessToken(token, remember);
    }

    /** Adopts a sign-in payload: `saveAccessToken(data.accessToken, remember); setUser(data.user)`. */
    method AdoptSignIn(api: Result<Json>, remember: bool) returns (r: Result<Json>)
      modifies this
      ensures r == SignInResult(api)
      ensures Snapshot() == SignedIn(old(Snapshot()), api, remember)
    {
      if api.Err? {
        return api;
      }
      var data := api.value;
      if data == JNull {
        return Err(NullPropertyRead);
      }
      SaveAccessToken(TokenField(data), remember);
      user := Get(data, "user");
      r := api;
    }

    /** `register(name, email, password, remember)`. */
    method Register(net: Network, name: string, email: string, password: string, remember: bool)
      returns (r: Result<Json>)
      modifies this, net
      ensures net.sent == old(net.sent) + [Describe(RegisterEp(name, email, password))]
      ensures var api := Settle(net.respond(net.sent));
        r == SignInResult(api) && Snapshot() == SignedIn(old(Snapshot()), api, remember)
    {
      var api := CallApi(net, RegisterEp(name, email, password));
      r := AdoptSignIn(api, remember);
    }

    /** `login(email, password, remember)`. */
    method Login(net: Network, email: string, password: string, remember: bool)
      returns (r: Result<Json>)
      modifies this, net
      ensures net.sent == old(net.sent) + [Describe(LoginEp(email, password))]
      ensures var api := Settle(net.respond(net.sent));
        r == SignInResult(api) && Snapshot() == SignedIn(old(Snapshot()), api, remember)
    {
      var api := CallApi(net, LoginEp(email, password));
      r := AdoptSignIn(api, remember);
    }

    /** `logout()`: local state is cleared even when the call fails, and that failure is passed on. */
    method Logout(net: Network) returns (err: Option<Failure>)
      modifies this, net
      ensures net.sent == old(net.sent) + [Describe(LogoutEp)]
      ensures Snapshot() == Cleared(old(Snapshot()))
      ensures var api := Settle(net.respond(net.sent));
        err == if api.Err? then Some(api.error) else None
    {
      var api := CallApi(net, LogoutEp);
      ClearAuth();
      err := if api.Err? then Some(api.error) else None;
    }

    /** The startup `init()`; `teardown` says when the view is torn down, if ever. */
    method Init(net: Network, teardown: Option<nat>)
      modifies this, net
      ensures var b := Bootstrap(net.respond, old(net.sent), old(Snapshot()), teardown);
        Snapshot() == b.state && net.sent == old(net.sent) + b.sent
    {
      loading := true;
      var saved := StoredToken(storage);
      if saved.Some? {
        var me := CallApi(net, MeEp(saved));
        if me.Ok? {
          if !Mounted(teardown, 1) {
            return;
          }
          user := me.value;
          accessToken := saved;
          loading := false;
          return;
        }
        // the saved token is invalid or expired; this removal is not guarded by `mounted`
        storage := storage - {AccessTokenKey};
        ghost var mid := net.sent;
        Renewal(net, teardown, 2);
        assert net.sent == old(net.sent) + ([Describe(MeEp(saved))] + (net.sent[|mid|..]));
      } else {
        Renewal(net, teardown, 1);
      }
    }

    /**
     * The refresh branch of `init()`, whose refresh call is the bootstrap's
     * `k`-th network call.
     */
    method Renewal(net: Network, teardown: Option<nat>, k: nat)
      modifies this, net
      ensures var b := Renew(net.respond, old(net.sent), old(Snapshot()), teardown, k);
        Snapshot() == b.state && net.sent == old(net.sent) + b.sent
    {
      var refreshed := CallApi(net, RefreshEp);
      if !Mounted(teardown, k) {
        return;
      }
      if refreshed.Err? || refreshed.value == JNull {
        // a `null` payload makes `refreshed.accessToken` throw; the catch block clears
        ClearAuth();
        loading := false;
        return;
      }
      accessToken := TokenField(refreshed.value);
      var me := CallApi(net, MeEp(accessToken));
      assert net.sent == old(net.sent) + [Describe(RefreshEp), Describe(MeEp(accessToken))];
      if !Mounted(teardown, k + 1) {
        return;
      }
      if me.Err? {
        ClearAuth();
        loading := false;
        return;
      }
      user := me.value;
      loading := false;
    }

    /**
     * `authedFetch(url, options)`: refuses without a token and sends nothing;
     * otherwise `fetchWithAuth`, whose renewed token replaces the in-memory
     * one only (storage is left as it was).
     */
    method AuthedFetch(net: Network, url: string, opts: RequestOptions) returns (r: Result<Json>)
      modifies this, net
      ensures old(accessToken).None? || old(accessToken) == Some("") ==>
        r == Err(NotAuthenticated) && net.sent == old(net.sent) && Snapshot() == old(Snapshot())
      ensures old(accessToken).Some? && old(accessToken).value != "" ==>
        var x := Plan(net.respond, old(net.sent), url, opts, old(accessToken).value);
        && r == x.result && net.sent == old(net.sent) + x.sent
        && Snapshot() == old(Snapshot()).(accessToken := if x.renewed.Some? then x.renewed else old(accessToken))
    {
      if accessToken.None? || accessToken == Some("") {
        return Err(NotAuthenticated);
      }
      var renewed;
      r, renewed := FetchWithAuth(net, url, opts, accessToken.value);
      if renewed.Some? {
        accessToken := renewed;
      }
    }
  }
}
