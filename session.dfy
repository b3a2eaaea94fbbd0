/** The client session and token lifecycle of `AuthProvider`: login, logout,
    silent-refresh scheduling, refresh-or-logout and the startup restore, as a
    sequential state machine over a key/value token store.

    Each asynchronous flow is split at its first `await`: the method that
    starts it runs the synchronous part and records the network call it issues
    in `sent`; the call's result arrives later as a separate event method
    (`OnRefreshSucceeded`, `OnRefreshFailed`, `OnProfileLoaded`,
    `OnProfileFailed`, `OnProfileReplay`, `OnLogoutSettled`). Timer expiry is
    the event `OnRefreshTimerFired`, and the wall clock is the `now` parameter
    (milliseconds). The internal flows run in the closures of the render that
    wired them, whose `refreshToken` is kept in `closureRefresh`. */
module Session {
  import opened Common
  import opened Timers
  import Interceptors

  /** The claims of a decoded token payload that the client reads. */
  datatype Claims = Claims(exp: Option<int>)

  /** Network calls the provider issues. */
  datatype Call =
    | RefreshCall(refreshToken: string)     // POST /auth/refresh-token
    | LogoutCall(refreshToken: string)      // POST /auth/logout (best effort)
    | ProfileCall(authorization: string)    // GET /auth/profile

  const AccessKey: string := "accessToken"
  const RefreshKey: string := "refreshToken"

  /** The renewal margin before expiry, in milliseconds. */
  const SafetyMarginMs: int := 30 * 1000

  /** Base64url to Base64: every '-' becomes '+' and every '_' becomes '/'. */
  function Base64UrlToBase64(s: string): (r: string)
    ensures |r| == |s|
    ensures forall i :: 0 <= i < |s| ==>
      r[i] == (if s[i] == '-' then '+' else if s[i] == '_' then '/' else s[i])
  {
    if s == [] then []
    else [if s[0] == '-' then '+' else if s[0] == '_' then '/' else s[0]] + Base64UrlToBase64(s[1..])
  }

  /** After the substitution no Base64url-only character is left, and every
      other character is where it was. */
  lemma {:induction false} Base64Alphabet(s: string)
    ensures '-' !in Base64UrlToBase64(s) && '_' !in Base64UrlToBase64(s)
    ensures forall i :: 0 <= i < |s| && s[i] != '-' && s[i] != '_' ==> Base64UrlToBase64(s)[i] == s[i]
    decreases |s|
  {
    if s != [] {
      Base64Alphabet(s[1..]);
      var r := Base64UrlToBase64(s);
      assert r == [r[0]] + Base64UrlToBase64(s[1..]);
      forall i | 0 < i < |s| && s[i] != '-' && s[i] != '_' ensures r[i] == s[i] {
        assert s[i] == s[1..][i - 1];
      }
    }
  }

  /** `token.split(".")[1]`: the payload segment, or None (`undefined`) when
      the token has no '.'. */
  function PayloadSegment(token: string): (r: Option<string>)
    ensures r.Some? <==> '.' in token
    ensures r.Some? ==> '.' !in r.value
    ensures r.Some? ==> r.value == Split(token, '.')[1]
  {
    var parts := Split(token, '.');
    if |parts| >= 2 then Some(parts[1])
    else
      assert Join(parts, ".") == parts[0];
      None
  }

  /** `parseJwt`: a falsy token gives null; otherwise the payload segment is
      converted to Base64 and handed to `decode`, which stands for `atob`,
      the percent-decoding and `JSON.parse` (None when any of them throws).
      A token without a payload segment also gives null, as the TypeError
      of `undefined.replace` is caught. */
  function ParseJwt(token: Option<string>, decode: string -> Option<Claims>): (r: Option<Claims>)
    ensures !Truthy(token) ==> r.None?
    ensures Truthy(token) && '.' !in token.value ==> r.None?
    ensures Truthy(token) && '.' in token.value ==> r == decode(Base64UrlToBase64(PayloadSegment(token.value).value))
  {
    if !Truthy(token) then None
    else match PayloadSegment(token.value)
      case None => None
      case Some(seg) => decode(Base64UrlToBase64(seg))
  }

  /** `Math.max(exp * 1000 - 30 * 1000 - now, 0)`. */
  function RefreshDelay(exp: int, now: int): (d: nat)
    ensures d == 0 <==> exp * 1000 - SafetyMarginMs <= now
    ensures d > 0 ==> now + d + SafetyMarginMs == exp * 1000
  {
    var refreshAt := exp * 1000 - SafetyMarginMs;
    if refreshAt - now > 0 then refreshAt - now else 0
  }

  /** What `scheduleSilentRefresh` does after cancelling the previous timer. */
  datatype Plan = NoSchedule | RefreshNow | ArmTimer(delay: nat)

  function PlanFor(jwt: Option<string>, decode: string -> Option<Claims>, now: int): (p: Plan)
    ensures p.ArmTimer? ==> p.delay > 0
    ensures p != NoSchedule <==>
      ParseJwt(jwt, decode).Some? && ParseJwt(jwt, decode).value.exp.Some?
      && ParseJwt(jwt, decode).value.exp.value != 0
  {
    match ParseJwt(jwt, decode)
    case None => NoSchedule
    case Some(claims) =>
      match claims.exp
      case None => NoSchedule
      case Some(exp) =>
        if exp == 0 then NoSchedule   // `!payload?.exp`: a zero expiry is falsy
        else
          var delay := RefreshDelay(exp, now);
          if delay <= 0 then RefreshNow else ArmTimer(delay)
  }

  /** A null token, or one whose payload has no `exp`, schedules nothing;
      an `exp` at least 30 s ahead of `now` arms one timer that fires 30 s
      before expiry, and anything closer refreshes at once. */
  lemma PlanCases(jwt: Option<string>, decode: string -> Option<Claims>, now: int)
    ensures !Truthy(jwt) ==> PlanFor(jwt, decode, now) == NoSchedule
    ensures var c := ParseJwt(jwt, decode);
      c.Some? && c.value.exp.Some? && c.value.exp.value != 0 ==>
        var e := c.value.exp.value;
        if e * 1000 - SafetyMarginMs > now
        then PlanFor(jwt, decode, now) == ArmTimer(e * 1000 - SafetyMarginMs - now)
        else PlanFor(jwt, decode, now) == RefreshNow
  {
  }

  class AuthProvider {
    /** `localStorage`. */
    var store: map<string, string>
    var accessToken: Option<string>
    var refreshToken: Option<string>
    var user: Option<User>
    var loading: bool
    /** `refreshTimerRef.current`. */
    var refreshTimer: Option<nat>
    /** The host's timers armed by this provider. */
    var timers: TimerQueue
    /** Every network call issued so far, in order. */
    var sent: seq<Call>
    /** The `refreshToken` state seen by the closures that drive the internal
        flows: the refresh timer, the refresh callback handed to the
        interceptors and the refresh chain's own logout. They belong to the
        render that wired them (the first render for the startup effect, the
        calling render for `login`) and keep that render's value for as long
        as the chain they start goes on. */
    var closureRefresh: Option<string>
    /** Logout requests sent and not yet settled: the teardown of each one
        waits for its answer. */
    var pendingLogouts: nat
    /** Profile requests the response interceptor holds after their first
        401: each is sent again once the refresh it started has settled. */
    var pendingReplays: nat
    const api: Interceptors.SecureClient
    const decode: string -> Option<Claims>
    /** The first render's `refreshToken` state. */
    const initialRefresh: Option<string>

    /** The timer handle the ref holds, as a set. */
    function RefHandles(): set<nat>
      reads this
    {
      if refreshTimer.Some? then {refreshTimer.value} else {}
    }

    /** The object invariant: every pending refresh timer is the one the ref
        holds, so at most one is ever armed; and the tokens in state agree,
        up to falsiness, with the tokens in the store. */
    ghost predicate Valid()
      reads this, api
    {
      && timers.Valid()
      && timers.pending.Keys <= RefHandles()
      && (refreshTimer.Some? ==> refreshTimer.value < timers.next)
      && Norm(accessToken) == Norm(Get(store, AccessKey))
      && Norm(refreshToken) == Norm(Get(store, RefreshKey))
      && api.Valid()
    }

    /** The refresh token that `logout`, called from the current render,
        reads: `refreshToken || localStorage.getItem("refreshToken")`. */
    function CurrentRefresh(): Option<string>
      reads this
    {
      OrElse(refreshToken, Get(store, RefreshKey))
    }

    /** The same expression in the closures of the internal flows, where
        `refreshToken` is the state of the render that wired them. */
    function ChainRefresh(): Option<string>
      reads this
    {
      OrElse(closureRefresh, Get(store, RefreshKey))
    }

    ghost predicate LoggedOut()
      reads this
    {
      && accessToken.None? && refreshToken.None? && user.None? && !loading
      && AccessKey !in store && RefreshKey !in store
      && refreshTimer.None? && timers.pending == map[]
    }

    /** The provider's initial state: the tokens read from the store, no user,
        loading, no timer. */
    constructor (store: map<string, string>, decode: string -> Option<Claims>, api: Interceptors.SecureClient)
      requires api.Valid()
      ensures Valid()
      ensures this.store == store && this.decode == decode && this.api == api
      ensures accessToken == Norm(Get(store, AccessKey)) && refreshToken == Norm(Get(store, RefreshKey))
      ensures initialRefresh == refreshToken && closureRefresh == refreshToken
      ensures user.None? && loading && refreshTimer.None? && timers.pending == map[] && sent == []
      ensures pendingLogouts == 0 && pendingReplays == 0
    {
      this.store := store;
      this.decode := decode;
      this.api := api;
      accessToken := Norm(Get(store, AccessKey));
      refreshToken := Norm(Get(store, RefreshKey));
      initialRefresh := Norm(Get(store, RefreshKey));
      closureRefresh := Norm(Get(store, RefreshKey));
      user := None;
      loading := true;
      refreshTimer := None;
      timers := Empty();
      sent := [];
      pendingLogouts, pendingReplays := 0, 0;
    }

    /** `clearRefreshTimer`: cancels the armed timer and empties the ref;
        afterwards no refresh timer is pending. */
    method ClearRefreshTimer()
      requires Valid()
      modifies this`refreshTimer, this`timers
      ensures Valid()
      ensures refreshTimer.None? && timers.pending == map[] && timers.next == old(timers.next)
    {
      if refreshTimer.Some? {
        timers := Cancel(timers, refreshTimer);
        refreshTimer := None;
      }
    }

    /** The local teardown `logout` performs once its request, if any, has
        settled: no timer, no token in the store or in state, no user, not
        loading. */
    method Teardown()
      requires Valid()
      modifies this`refreshTimer, this`timers, this`store, this`accessToken, this`refreshToken,
               this`user, this`loading
      ensures Valid() && LoggedOut()
      ensures store == old(store) - {AccessKey, RefreshKey}
    {
      ClearRefreshTimer();
      store := store - {AccessKey, RefreshKey};
      accessToken, refreshToken, user := None, None, None;
      loading := false;
    }

    /** `logout` up to its await, for the refresh token `rt` its closure reads:
        a truthy `rt` is sent in the best-effort logout request and the
        teardown waits for its answer (`OnLogoutSettled`); with none the
        teardown happens at once. */
    method BeginLogout(rt: Option<string>)
      requires Valid()
      modifies this`refreshTimer, this`timers, this`store, this`accessToken, this`refreshToken,
               this`user, this`loading, this`sent, this`pendingLogouts
      ensures Valid()
      ensures Truthy(rt) ==>
        sent == old(sent) + [LogoutCall(rt.value)] && pendingLogouts == old(pendingLogouts) + 1
        && store == old(store) && accessToken == old(accessToken) && refreshToken == old(refreshToken)
        && user == old(user) && loading == old(loading)
        && refreshTimer == old(refreshTimer) && timers == old(timers)
      ensures !Truthy(rt) ==>
        LoggedOut() && sent == old(sent) && pendingLogouts == old(pendingLogouts)
        && store == old(store) - {AccessKey, RefreshKey}
    {
      if Truthy(rt) {
        sent := sent + [LogoutCall(rt.value)];
        pendingLogouts := pendingLogouts + 1;
      } else {
        Teardown();
      }
    }

    /** `logout`, as the header and the profile page call it: the current
        render's refresh token decides whether a request is sent first. */
    method Logout()
      requires Valid()
      modifies this`refreshTimer, this`timers, this`store, this`accessToken, this`refreshToken,
               this`user, this`loading, this`sent, this`pendingLogouts
      ensures Valid()
      ensures Truthy(old(CurrentRefresh())) ==>
        sent == old(sent) + [LogoutCall(old(CurrentRefresh()).value)]
        && pendingLogouts == old(pendingLogouts) + 1
        && store == old(store) && accessToken == old(accessToken) && refreshToken == old(refreshToken)
        && user == old(user) && loading == old(loading)
        && refreshTimer == old(refreshTimer) && timers == old(timers)
      ensures !Truthy(old(CurrentRefresh())) ==>
        LoggedOut() && sent == old(sent) && pendingLogouts == old(pendingLogouts)
        && store == old(store) - {AccessKey, RefreshKey}
    {
      BeginLogout(CurrentRefresh());
    }

    /** A logout request settled, answered or failed alike: the teardown. */
    method OnLogoutSettled()
      requires Valid() && pendingLogouts > 0
      modifies this`refreshTimer, this`timers, this`store, this`accessToken, this`refreshToken,
               this`user, this`loading, this`pendingLogouts
      ensures Valid() && LoggedOut()
      ensures store == old(store) - {AccessKey, RefreshKey}
      ensures pendingLogouts == old(pendingLogouts) - 1
    {
      Teardown();
      pendingLogouts := pendingLogouts - 1;
    }

    /** The synchronous part of `tryRefreshToken` in the internal flows: with
        no refresh token in the closure's state or in the store it logs out
        (issuing no call); otherwise it sends the refresh request, whose
        result arrives as `OnRefreshSucceeded` or `OnRefreshFailed`. */
    method TryRefreshToken()
      requires Valid()
      modifies this`refreshTimer, this`timers, this`store, this`accessToken, this`refreshToken,
               this`user, this`loading, this`sent, this`pendingLogouts
      ensures Valid() && pendingLogouts == old(pendingLogouts)
      ensures Truthy(old(ChainRefresh())) ==>
        sent == old(sent) + [RefreshCall(old(ChainRefresh()).value)]
        && store == old(store) && accessToken == old(accessToken) && refreshToken == old(refreshToken)
        && user == old(user) && loading == old(loading)
        && refreshTimer == old(refreshTimer) && timers == old(timers)
      ensures !Truthy(old(ChainRefresh())) ==>
        LoggedOut() && sent == old(sent) && store == old(store) - {AccessKey, RefreshKey}
    {
      var rt := ChainRefresh();
      if !Truthy(rt) {
        BeginLogout(rt);
        return;
      }
      sent := sent + [RefreshCall(rt.value)];
    }

    /** `scheduleSilentRefresh`: always cancels the previous timer first; then
        nothing, an immediate refresh, or exactly one timer armed for the
        computed delay. */
    method ScheduleSilentRefresh(jwt: Option<string>, now: int)
      requires Valid()
      modifies this`refreshTimer, this`timers, this`store, this`accessToken, this`refreshToken,
               this`user, this`loading, this`sent, this`pendingLogouts
      ensures Valid() && pendingLogouts == old(pendingLogouts)
      ensures old(refreshTimer).Some? ==> old(refreshTimer).value !in timers.pending
      ensures PlanFor(jwt, decode, now) == NoSchedule ==>
        refreshTimer.None? && timers.pending == map[] && sent == old(sent)
        && store == old(store) && accessToken == old(accessToken) && refreshToken == old(refreshToken)
        && user == old(user) && loading == old(loading)
      ensures PlanFor(jwt, decode, now).ArmTimer? ==>
        refreshTimer.Some? && timers.pending == map[refreshTimer.value := HostDelay(PlanFor(jwt, decode, now).delay)]
        && sent == old(sent)
        && store == old(store) && accessToken == old(accessToken) && refreshToken == old(refreshToken)
        && user == old(user) && loading == old(loading)
      ensures PlanFor(jwt, decode, now) == RefreshNow ==>
        refreshTimer.None? && timers.pending == map[]
        && (Truthy(old(ChainRefresh())) ==>
              sent == old(sent) + [RefreshCall(old(ChainRefresh()).value)]
              && store == old(store) && accessToken == old(accessToken) && refreshToken == old(refreshToken)
              && user == old(user) && loading == old(loading))
        && (!Truthy(old(ChainRefresh())) ==>
              LoggedOut() && sent == old(sent) && store == old(store) - {AccessKey, RefreshKey})
    {
      ghost var oldNext := timers.next;
      ClearRefreshTimer();
      var plan := PlanFor(jwt, decode, now);
      match plan
      case NoSchedule =>
      case RefreshNow =>
        TryRefreshToken();
      case ArmTimer(delay) =>
        var q, h := Arm(timers, delay).0, Arm(timers, delay).1;
        assert h >= oldNext;
        timers, refreshTimer := q, Some(h);
    }

    /** `fetchProfile` up to its await: the request is built with
        `Bearer ${tokenToUse || accessToken}`, and the request interceptor,
        once wired, overwrites that with the stored access token when the
        store holds a truthy one. */
    method FetchProfile(tokenToUse: Option<string>)
      requires Valid()
      modifies this`sent
      ensures Valid()
      ensures var given := "Bearer " + Show(OrElse(tokenToUse, accessToken));
        var stored := Get(store, AccessKey);
        sent == old(sent) + [ProfileCall(if api.pairs > 0 && Truthy(stored) then "Bearer " + stored.value else given)]
      // the two cases the provider's own flows produce
      ensures tokenToUse.Some? && accessToken == tokenToUse && Get(store, AccessKey) == tokenToUse ==>
        sent == old(sent) + [ProfileCall("Bearer " + tokenToUse.value)]
      ensures Truthy(tokenToUse) && AccessKey !in store ==>
        sent == old(sent) + [ProfileCall("Bearer " + tokenToUse.value)]
    {
      var config := new Interceptors.RequestConfig(Some("Bearer " + Show(OrElse(tokenToUse, accessToken))));
      if api.pairs > 0 {
        Interceptors.AttachToken(config, Get(store, AccessKey));
      }
      sent := sent + [ProfileCall(config.authorization.value)];
    }

    /** Persists a token pair under `accessToken` / `refreshToken` and sets it
        in state; nothing else in the store changes. */
    method Persist(access: string, refresh: string)
      requires Valid()
      modifies this`store, this`accessToken, this`refreshToken
      ensures Valid()
      ensures store == old(store)[AccessKey := access][RefreshKey := refresh]
      ensures store - {AccessKey, RefreshKey} == old(store) - {AccessKey, RefreshKey}
      ensures accessToken == Some(access) && refreshToken == Some(refresh)
      ensures Get(store, AccessKey) == Some(access) && Get(store, RefreshKey) == Some(refresh)
    {
      store := store[AccessKey := access][RefreshKey := refresh];
      accessToken, refreshToken := Some(access), Some(refresh);
    }

    /** `scheduleSilentRefresh(jwt)` followed by `fetchProfile(jwt)`, as every
        flow that installs a token runs them, once `jwt` is both in state and
        in the store. An immediate refresh with no refresh token to send logs
        out before the profile request leaves. */
    method Resume(jwt: Option<string>, now: int)
      requires Valid() && jwt.Some? && accessToken == jwt && Get(store, AccessKey) == jwt
      modifies this`refreshTimer, this`timers, this`store, this`accessToken, this`refreshToken,
               this`user, this`loading, this`sent, this`pendingLogouts
      ensures Valid() && pendingLogouts == old(pendingLogouts)
      ensures var plan := PlanFor(jwt, decode, now); var rt := old(ChainRefresh());
        if plan == RefreshNow && !Truthy(rt) then
          LoggedOut() && store == old(store) - {AccessKey, RefreshKey}
          && sent == old(sent) + [ProfileCall("Bearer " + jwt.value)]
        else
          store == old(store) && accessToken == old(accessToken) && refreshToken == old(refreshToken)
          && user == old(user) && loading == old(loading)
          && sent == old(sent) + (if plan == RefreshNow then [RefreshCall(rt.value)] else [])
             + [ProfileCall("Bearer " + jwt.value)]
      ensures PlanFor(jwt, decode, now).ArmTimer? ==>
        refreshTimer.Some? && timers.pending == map[refreshTimer.value := HostDelay(PlanFor(jwt, decode, now).delay)]
      ensures !PlanFor(jwt, decode, now).ArmTimer? ==> refreshTimer.None? && timers.pending == map[]
    {
      ScheduleSilentRefresh(jwt, now);
      assert PlanFor(jwt, decode, now) == RefreshNow ==> Truthy(jwt);
      FetchProfile(jwt);
    }

    /** The startup effect: wires the interceptors with the first render's
        callbacks, then restores the session only when both stored tokens are
        present (scheduling the refresh and fetching the profile); otherwise
        it just stops loading. */
    method Start(now: int)
      requires Valid()
      modifies this`refreshTimer, this`timers, this`store, this`accessToken, this`refreshToken,
               this`user, this`loading, this`sent, this`pendingLogouts, this`closureRefresh, api
      ensures Valid()
      ensures api.pairs == old(api.pairs) + 1 && api.injected
      ensures closureRefresh == initialRefresh
      ensures pendingLogouts == old(pendingLogouts) && pendingReplays == old(pendingReplays)
      ensures var a := Get(old(store), AccessKey); var r := Get(old(store), RefreshKey);
        if Truthy(a) && Truthy(r) then
          var plan := PlanFor(a, decode, now);
          accessToken == a && refreshToken == r && store == old(store)
          && user == old(user) && loading == old(loading)
          && sent == old(sent) + (if plan == RefreshNow then [RefreshCall(OrElse(initialRefresh, r).value)] else [])
             + [ProfileCall("Bearer " + a.value)]
          && (plan.ArmTimer? ==> refreshTimer.Some? && timers.pending == map[refreshTimer.value := HostDelay(plan.delay)])
          && (!plan.ArmTimer? ==> refreshTimer.None? && timers.pending == map[])
        else
          !loading && sent == old(sent) && store == old(store)
          && accessToken == old(accessToken) && refreshToken == old(refreshToken) && user == old(user)
          && refreshTimer == old(refreshTimer) && timers == old(timers)
    {
      api.Setup();
      closureRefresh := initialRefresh;
      var storedAccess := Get(store, AccessKey);
      var storedRefresh := Get(store, RefreshKey);
      if Truthy(storedAccess) && Truthy(storedRefresh) {
        accessToken, refreshToken := storedAccess, storedRefresh;
        assert Valid() && ChainRefresh() == OrElse(initialRefresh, storedRefresh);
        Resume(storedAccess, now);
      } else {
        loading := false;
      }
    }

    /** `login(jwtAccess, jwtRefresh)`: rejects, changing nothing, unless both
        tokens are truthy; otherwise persists them under `accessToken` /
        `refreshToken`, sets them in state, re-wires the interceptors with the
        calling render's callbacks, schedules a refresh from the new access
        token, and fetches the profile with it while loading. */
    method Login(jwtAccess: Option<string>, jwtRefresh: Option<string>, now: int) returns (ok: bool)
      requires Valid()
      modifies this`refreshTimer, this`timers, this`store, this`accessToken, this`refreshToken,
               this`user, this`loading, this`sent, this`pendingLogouts, this`closureRefresh, api
      ensures Valid()
      ensures ok <==> Truthy(jwtAccess) && Truthy(jwtRefresh)
      ensures !ok ==> unchanged(this) && unchanged(api)
      ensures ok ==>
        store == old(store)[AccessKey := jwtAccess.value][RefreshKey := jwtRefresh.value]
        && accessToken == jwtAccess && refreshToken == jwtRefresh && loading
        && user == old(user) && pendingLogouts == old(pendingLogouts)
        && closureRefresh == old(refreshToken)
        && api.pairs == old(api.pairs) + 1
        && sent == old(sent)
           + (if PlanFor(jwtAccess, decode, now) == RefreshNow
              then [RefreshCall(if Truthy(old(refreshToken)) then old(refreshToken).value else jwtRefresh.value)]
              else [])
           + [ProfileCall("Bearer " + jwtAccess.value)]
        && (PlanFor(jwtAccess, decode, now).ArmTimer? ==>
              refreshTimer.Some? && timers.pending == map[refreshTimer.value := HostDelay(PlanFor(jwtAccess, decode, now).delay)])
        && (!PlanFor(jwtAccess, decode, now).ArmTimer? ==> refreshTimer.None? && timers.pending == map[])
    {
      if !Truthy(jwtAccess) || !Truthy(jwtRefresh) {
        return false;
      }
      closureRefresh := refreshToken;
      Persist(jwtAccess.value, jwtRefresh.value);
      api.Setup();
      Resume(jwtAccess, now);
      loading := true;
      ok := true;
    }

    /** The refresh call answered with a new pair: store it, set it in state,
        re-wire the interceptors, re-schedule from the new access token and
        fetch the profile with it. The chain keeps its closure, so a refresh
        it starts still reads the closure's refresh token first. */
    method OnRefreshSucceeded(newAccess: string, newRefresh: string, now: int)
      requires Valid()
      modifies this`refreshTimer, this`timers, this`store, this`accessToken, this`refreshToken,
               this`user, this`loading, this`sent, this`pendingLogouts, api
      ensures Valid()
      ensures api.pairs == old(api.pairs) + 1
      ensures pendingLogouts == old(pendingLogouts)
      ensures var plan := PlanFor(Some(newAccess), decode, now);
        var rt := OrElse(old(closureRefresh), Some(newRefresh));
        if plan == RefreshNow && !Truthy(rt) then
          LoggedOut() && store == old(store) - {AccessKey, RefreshKey}
          && sent == old(sent) + [ProfileCall("Bearer " + newAccess)]
        else
          store == old(store)[AccessKey := newAccess][RefreshKey := newRefresh]
          && accessToken == Some(newAccess) && refreshToken == Some(newRefresh)
          && user == old(user) && loading == old(loading)
          && sent == old(sent) + (if plan == RefreshNow then [RefreshCall(rt.value)] else [])
             + [ProfileCall("Bearer " + newAccess)]
      ensures PlanFor(Some(newAccess), decode, now).ArmTimer? ==>
        refreshTimer.Some? && timers.pending == map[refreshTimer.value := HostDelay(PlanFor(Some(newAccess), decode, now).delay)]
      ensures !PlanFor(Some(newAccess), decode, now).ArmTimer? ==> refreshTimer.None? && timers.pending == map[]
    {
      Persist(newAccess, newRefresh);
      api.Setup();
      Resume(Some(newAccess), now);
    }

    /** The refresh call failed: the chain's `logout`, which sends the logout
        request when its closure knows a refresh token and otherwise tears
        down at once. */
    method OnRefreshFailed()
      requires Valid()
      modifies this`refreshTimer, this`timers, this`store, this`accessToken, this`refreshToken,
               this`user, this`loading, this`sent, this`pendingLogouts
      ensures Valid()
      ensures Truthy(old(ChainRefresh())) ==>
        sent == old(sent) + [LogoutCall(old(ChainRefresh()).value)]
        && pendingLogouts == old(pendingLogouts) + 1
        && store == old(store) && accessToken == old(accessToken) && refreshToken == old(refreshToken)
        && user == old(user) && loading == old(loading)
        && refreshTimer == old(refreshTimer) && timers == old(timers)
      ensures !Truthy(old(ChainRefresh())) ==>
        LoggedOut() && sent == old(sent) && pendingLogouts == old(pendingLogouts)
        && store == old(store) - {AccessKey, RefreshKey}
    {
      BeginLogout(ChainRefresh());
    }

    /** The profile request answered: the user is set and loading ends. The
        answer is applied whenever it arrives, even after a logout. */
    method OnProfileLoaded(u: User)
      requires Valid()
      modifies this`user, this`loading
      ensures Valid() && user == Some(u) && !loading
    {
      user := Some(u);
      loading := false;
    }

    /** A profile request failed with `status` (None when no response came);
        `replayed` tells whether it was already a replay. A first 401 on a
        wired client is caught by the response interceptor: it awaits the
        refresh callback and holds the request for `OnProfileReplay`. Any
        other failure reaches `fetchProfile`'s own catch, which runs
        `tryRefreshToken`. Both paths start the same refresh. */
    method OnProfileFailed(status: Option<int>, replayed: bool)
      requires Valid()
      modifies this`refreshTimer, this`timers, this`store, this`accessToken, this`refreshToken,
               this`user, this`loading, this`sent, this`pendingLogouts, this`pendingReplays
      ensures Valid() && pendingLogouts == old(pendingLogouts)
      ensures Truthy(old(ChainRefresh())) ==>
        sent == old(sent) + [RefreshCall(old(ChainRefresh()).value)]
        && store == old(store) && accessToken == old(accessToken) && refreshToken == old(refreshToken)
        && user == old(user) && loading == old(loading)
        && refreshTimer == old(refreshTimer) && timers == old(timers)
      ensures !Truthy(old(ChainRefresh())) ==>
        LoggedOut() && sent == old(sent) && store == old(store) - {AccessKey, RefreshKey}
      ensures pendingReplays ==
        old(pendingReplays) + (if api.pairs > 0 && status == Some(401) && !replayed then 1 else 0)
    {
      if api.pairs > 0 && status == Some(401) && !replayed {
        // the response interceptor: the request is marked and waits for the refresh
        TryRefreshToken();
        pendingReplays := pendingReplays + 1;
      } else {
        // `fetchProfile`'s catch
        TryRefreshToken();
      }
    }

    /** The refresh the interceptor awaited has settled: the held profile
        request goes out again with `Bearer ${getter()}`, the access token the
        store holds now (the text "null" when it holds none). Its failure
        arrives as `OnProfileFailed(status, true)`. */
    method OnProfileReplay()
      requires Valid() && pendingReplays > 0
      modifies this`sent, this`pendingReplays
      ensures Valid()
      ensures sent == old(sent) + [ProfileCall("Bearer " + Show(Get(store, AccessKey)))]
      ensures pendingReplays == old(pendingReplays) - 1
    {
      sent := sent + [ProfileCall("Bearer " + Show(Get(store, AccessKey)))];
      pendingReplays := pendingReplays - 1;
    }

    /** The armed refresh timer expires: it leaves the queue (the ref keeps the
        spent handle) and the closure's `tryRefreshToken` runs. */
    method OnRefreshTimerFired(h: nat)
      requires Valid() && h in timers.pending
      modifies this`refreshTimer, this`timers, this`store, this`accessToken, this`refreshToken,
               this`user, this`loading, this`sent, this`pendingLogouts
      ensures Valid()
      ensures pendingLogouts == old(pendingLogouts)
      ensures Truthy(old(ChainRefresh())) ==>
        sent == old(sent) + [RefreshCall(old(ChainRefresh()).value)] && timers.pending == map[]
        && store == old(store) && accessToken == old(accessToken) && refreshToken == old(refreshToken)
        && user == old(user) && loading == old(loading) && refreshTimer == old(refreshTimer)
      ensures !Truthy(old(ChainRefresh())) ==>
        LoggedOut() && sent == old(sent) && store == old(store) - {AccessKey, RefreshKey}
    {
      timers := Fire(timers, h);
      TryRefreshToken();
    }

    /** The startup effect's cleanup on unmount. */
    method Unmount()
      requires Valid()
      modifies this`refreshTimer, this`timers
      ensures Valid() && refreshTimer.None? && timers.pending == map[]
    {
      ClearRefreshTimer();
    }
  }

  /** No coalescing: two authorization failures each invoke the refresh flow,
      and each invocation issues its own refresh call. */
  method TwoFailuresTwoRefreshCalls(now: int) returns (refreshCalls: seq<Call>)
    ensures refreshCalls == [RefreshCall("r1"), RefreshCall("r1")]
  {
    var api := new Interceptors.SecureClient();
    var p := new AuthProvider(map[], (payload: string) => None, api);
    var ok := p.Login(Some("a1"), Some("r1"), now);
    var before := |p.sent|;
    p.TryRefreshToken();
    p.TryRefreshToken();
    refreshCalls := p.sent[before..];
  }

  /** A refresh answer that arrives after a logout is still applied: the
      session the user ended is re-populated with the new pair. */
  method RefreshAnswerAfterLogout(now: int) returns (stored: Option<string>, inState: Option<string>)
    ensures stored == Some("a2") && inState == Some("a2")
  {
    var api := new Interceptors.SecureClient();
    var p := new AuthProvider(map[], (payload: string) => None, api);
    var ok := p.Login(Some("a1"), Some("r1"), now);
    p.TryRefreshToken();
    p.Logout();
    p.OnLogoutSettled();
    p.OnRefreshSucceeded("a2", "r2", now);
    stored, inState := Get(p.store, AccessKey), p.accessToken;
  }

  /** A refresh answer that arrives while the logout request is in flight is
      applied and then wiped: the teardown runs only once that request has
      settled. */
  method RefreshAnswerDuringLogout(now: int) returns (stored: Option<string>, inState: Option<string>)
    ensures stored.None? && inState.None?
  {
    var api := new Interceptors.SecureClient();
    var p := new AuthProvider(map[], (payload: string) => None, api);
    var ok := p.Login(Some("a1"), Some("r1"), now);
    p.TryRefreshToken();
    p.Logout();
    p.OnRefreshSucceeded("a2", "r2", now);
    p.OnLogoutSettled();
    stored, inState := Get(p.store, AccessKey), p.accessToken;
  }

  /** A decoder that reads every payload as expiring at 3600 s after the epoch. */
  function HourAfterEpoch(payload: string): Option<Claims> {
    Some(Claims(Some(3600)))
  }

  /** Any token with a payload segment decoded that way arms a timer at time 0. */
  lemma HourAfterEpochArms(token: string)
    requires '.' in token
    ensures PlanFor(Some(token), HourAfterEpoch, 0) == ArmTimer(3600 * 1000 - SafetyMarginMs)
  {
    assert ParseJwt(Some(token), HourAfterEpoch) == Some(Claims(Some(3600)));
  }

  /** A provider started on a store holding `a1` and `r1`, whose access token
      arms the refresh timer. */
  method RestoreWithTimer(a1: string, r1: string) returns (p: AuthProvider)
    requires '.' in a1 && r1 != ""
    ensures fresh(p) && fresh(p.api) && p.Valid() && p.decode == HourAfterEpoch
    ensures p.sent == [ProfileCall("Bearer " + a1)] && p.closureRefresh == Some(r1)
    ensures p.refreshTimer.Some? && p.refreshTimer.value in p.timers.pending
  {
    HourAfterEpochArms(a1);
    var api := new Interceptors.SecureClient();
    p := new AuthProvider(map[AccessKey := a1, RefreshKey := r1], HourAfterEpoch, api);
    assert Get(p.store, AccessKey) == Some(a1) && Get(p.store, RefreshKey) == Some(r1);
    p.Start(0);
  }

  /** A restored session keeps refreshing with the first stored refresh
      token: the timer and the refresh chain run the first render's
      `tryRefreshToken`, whose `refreshToken` is the startup value, and it
      wins over the newer token in the store. */
  method RestoredSessionResendsFirstToken(a1: string, r1: string, a2: string, r2: string)
    returns (calls: seq<Call>, storedRefresh: Option<string>)
    requires '.' in a1 && '.' in a2 && r1 != ""
    ensures calls == [ProfileCall("Bearer " + a1), RefreshCall(r1), ProfileCall("Bearer " + a2), RefreshCall(r1)]
    ensures storedRefresh == Some(r2)
  {
    HourAfterEpochArms(a2);
    var p := RestoreWithTimer(a1, r1);
    p.OnRefreshTimerFired(p.refreshTimer.value);
    assert p.sent == [ProfileCall("Bearer " + a1), RefreshCall(r1)];
    p.OnRefreshSucceeded(a2, r2, 0);
    assert p.sent == [ProfileCall("Bearer " + a1), RefreshCall(r1), ProfileCall("Bearer " + a2)];
    p.OnRefreshTimerFired(p.refreshTimer.value);
    calls, storedRefresh := p.sent, Get(p.store, RefreshKey);
  }

  /** A decoder that reads every payload as expiring 30 days after the epoch. */
  function MonthAfterEpoch(payload: string): Option<Claims> {
    Some(Claims(Some(30 * 24 * 3600)))
  }

  /** At time 0 such a token asks for a timer 30 s before its expiry, which is
      past the longest delay `setTimeout` honours, so the host waits 0 ms. */
  lemma MonthAfterEpochArms(token: string)
    requires '.' in token
    ensures PlanFor(Some(token), MonthAfterEpoch, 0) == ArmTimer(30 * 24 * 3600 * 1000 - SafetyMarginMs)
    ensures HostDelay(PlanFor(Some(token), MonthAfterEpoch, 0).delay) == 0
  {
    assert ParseJwt(Some(token), MonthAfterEpoch) == Some(Claims(Some(30 * 24 * 3600)));
  }

  /** An access token valid for about 24.8 days or more is refreshed at once
      rather than 30 s before it expires: the restored session's timer fires
      after 0 ms, and so does the one armed for the next such token the
      refresh brings, so the refreshes follow each other without pause. */
  method LongLivedTokenRefreshedAtOnce(a1: string, r1: string, a2: string, r2: string)
    returns (first: nat, second: nat)
    requires '.' in a1 && '.' in a2 && r1 != ""
    ensures first == 0 && second == 0
  {
    MonthAfterEpochArms(a1);
    MonthAfterEpochArms(a2);
    var api := new Interceptors.SecureClient();
    var p := new AuthProvider(map[AccessKey := a1, RefreshKey := r1], MonthAfterEpoch, api);
    assert Get(p.store, AccessKey) == Some(a1) && Get(p.store, RefreshKey) == Some(r1);
    p.Start(0);
    first := p.timers.pending[p.refreshTimer.value];
    p.OnRefreshTimerFired(p.refreshTimer.value);
    p.OnRefreshSucceeded(a2, r2, 0);
    second := p.timers.pending[p.refreshTimer.value];
  }

  /** A decoder for which no payload decodes. */
  function Undecodable(payload: string): Option<Claims> {
    None
  }

  /** A provider started on a store holding `a1` and `r1`, whose access token
      schedules nothing. */
  method RestoreWithoutTimer(a1: string, r1: string) returns (p: AuthProvider)
    requires a1 != "" && r1 != ""
    ensures fresh(p) && fresh(p.api) && p.Valid() && p.decode == Undecodable && p.api.pairs > 0
    ensures p.pendingReplays == 0
    ensures p.sent == [ProfileCall("Bearer " + a1)] && p.closureRefresh == Some(r1)
  {
    assert PlanFor(Some(a1), Undecodable, 0) == NoSchedule by { assert ParseJwt(Some(a1), Undecodable).None?; }
    var api := new Interceptors.SecureClient();
    p := new AuthProvider(map[AccessKey := a1, RefreshKey := r1], Undecodable, api);
    assert Get(p.store, AccessKey) == Some(a1) && Get(p.store, RefreshKey) == Some(r1);
    p.Start(0);
  }

  /** A profile request rejected with 401 is refreshed by the interceptor,
      the refresh fetches the profile with the new token, and the held
      request is then replayed with it: four calls for one failure. */
  method UnauthorizedProfileReplayed(a1: string, r1: string, a2: string, r2: string) returns (calls: seq<Call>)
    requires a1 != "" && r1 != ""
    ensures calls == [ProfileCall("Bearer " + a1), RefreshCall(r1), ProfileCall("Bearer " + a2), ProfileCall("Bearer " + a2)]
  {
    assert PlanFor(Some(a2), Undecodable, 0) == NoSchedule by { assert ParseJwt(Some(a2), Undecodable).None?; }
    var p := RestoreWithoutTimer(a1, r1);
    p.OnProfileFailed(Some(401), false);
    assert p.sent == [ProfileCall("Bearer " + a1), RefreshCall(r1)] && p.pendingReplays == 1;
    p.OnRefreshSucceeded(a2, r2, 0);
    assert p.sent == [ProfileCall("Bearer " + a1), RefreshCall(r1), ProfileCall("Bearer " + a2)];
    assert Get(p.store, AccessKey) == Some(a2);
    p.OnProfileReplay();
    calls := p.sent;
  }

  /** `login(token)` with a single argument, as the older login form in
      src/auth/Login.js calls it (the router does not mount that form),
      always rejects and leaves the session anonymous. */
  method LoginWithOneArgument(token: string, now: int) returns (ok: bool, access: Option<string>)
    ensures !ok && access.None?
  {
    var api := new Interceptors.SecureClient();
    var p := new AuthProvider(map[], (payload: string) => None, api);
    ok := p.Login(Some(token), None, now);
    access := p.accessToken;
  }

  /** The value the provider publishes through the auth context: the user,
      both tokens and the loading flag (next to `login`, `logout` and
      `tryRefreshToken`, which are not values). */
  datatype ContextValue = ContextValue(
    user: Option<User>, accessToken: Option<string>, refreshToken: Option<string>, loading: bool)

  /** The context value of a provider's current state. */
  function Published(p: AuthProvider): (v: ContextValue)
    reads p
    ensures v.user == p.user && v.loading == p.loading
    ensures v.accessToken == p.accessToken && v.refreshToken == p.refreshToken
  {
    ContextValue(p.user, p.accessToken, p.refreshToken, p.loading)
  }

  /** Destructuring a string property of the context value by name: a name
      the value does not provide reads as undefined. */
  function Property(v: ContextValue, name: string): (r: Option<string>)
    ensures name == AccessKey ==> r == v.accessToken
    ensures name == RefreshKey ==> r == v.refreshToken
    ensures name != AccessKey && name != RefreshKey ==> r.None?
  {
    if name == AccessKey then v.accessToken
    else if name == RefreshKey then v.refreshToken
    else None
  }

  /** At most one refresh timer is ever pending. */
  lemma AtMostOneRefreshTimer(p: AuthProvider)
    requires p.Valid()
    ensures |p.timers.pending.Keys| <= 1
  {
    var ks := p.timers.pending.Keys;
    if p.refreshTimer.Some? {
      assert ks <= {p.refreshTimer.value};
      if ks != {} {
        var k :| k in ks;
        assert ks == {k};
      }
    } else {
      assert ks == {};
    }
  }
}
