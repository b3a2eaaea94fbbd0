/** The authenticated HTTP client (`axiosSecure`) and the interceptor pair that
    `setupAxiosInterceptors` registers on it: the request side attaches the
    bearer token read at send time, the response side turns a first 401 into
    one refresh followed by one replay.

    The server, the token getter and the refresh callback are oracles: the
    reply to the k-th send is `server(k)`, the getter's value at the k-th send
    is `token(k)`, and whether the injected refresh callback resolves is
    `refreshSucceeds`. */
module Interceptors {
  import opened Common

  /** The request configuration object that axios hands to the interceptors;
      the response interceptor writes `_retry` and the Authorization header
      on it in place, and the replay sends this same object again. */
  class RequestConfig {
    var retry: bool
    var authorization: Option<string>

    constructor (authorization: Option<string>)
      ensures !retry && this.authorization == authorization
    {
      retry := false;
      this.authorization := authorization;
    }
  }

  /** What the server answers to one send: a response with a 2xx status, or an
      error carrying the response status (None when no response arrived). */
  datatype Reply = Success(code: int) | Failure(status: Option<int>)

  /** How a request issued through `axiosSecure` settles. */
  datatype Outcome =
    | Resolved(reply: Reply)          // the success response, unchanged
    | Rejected(reply: Reply)          // the error of the last send, unchanged
    | RejectedByRefresh               // the refresh callback's own rejection

  /** What the response interceptor's error handler decides. */
  datatype Reaction = PassThrough | Replay | GiveUp

  /** The module-level state of the client: how many interceptor pairs are
      registered on `axiosSecure`, and whether the three callbacks
      (refresh, token getter, logout) have been injected. */
  class SecureClient {
    var pairs: nat
    var injected: bool

    ghost predicate Valid()
      reads this
    {
      pairs > 0 ==> injected
    }

    constructor ()
      ensures Valid() && pairs == 0 && !injected
    {
      pairs := 0;
      injected := false;
    }

    /** `setupAxiosInterceptors`: replaces the injected callbacks and registers
        one more request/response pair; no earlier pair is ever ejected. */
    method Setup()
      requires Valid()
      modifies this`pairs, this`injected
      ensures Valid() && injected
      ensures pairs == old(pairs) + 1
    {
      injected := true;
      pairs := pairs + 1;
    }
  }

  /** The request interceptor: reads the token at send time and sets
      `Authorization: Bearer <token>` only when the token is truthy. */
  method AttachToken(config: RequestConfig, token: Option<string>)
    modifies config
    ensures Truthy(token) ==> config.authorization == Some("Bearer " + token.value)
    ensures !Truthy(token) ==> config.authorization == old(config.authorization)
    ensures config.retry == old(config.retry)
  {
    if Truthy(token) {
      config.authorization := Some("Bearer " + token.value);
    }
  }

  /** The response interceptor's error handler. Anything but a 401, and a 401
      on a request already marked `_retry`, is passed on unchanged. A first
      401 marks the request, awaits the refresh callback, and then either
      overwrites the header with `Bearer <getter()>` (even when the getter
      yields null) for a replay, or invokes the logout callback and gives up
      with the refresh error. */
  method OnResponseError(config: RequestConfig, status: Option<int>,
                         refreshSucceeds: bool, tokenAfterRefresh: Option<string>)
    returns (reaction: Reaction, refreshed: bool, loggedOut: bool)
    modifies config
    ensures status != Some(401) || old(config.retry) ==>
      reaction == PassThrough && !refreshed && !loggedOut
      && config.retry == old(config.retry) && config.authorization == old(config.authorization)
    ensures status == Some(401) && !old(config.retry) ==>
      config.retry && refreshed
      && (refreshSucceeds ==>
            reaction == Replay && !loggedOut
            && config.authorization == Some("Bearer " + Show(tokenAfterRefresh)))
      && (!refreshSucceeds ==>
            reaction == GiveUp && loggedOut
            && config.authorization == old(config.authorization))
  {
    if status != Some(401) || config.retry {
      return PassThrough, false, false;
    }
    config.retry := true;
    refreshed := true;
    if refreshSucceeds {
      config.authorization := Some("Bearer " + Show(tokenAfterRefresh));
      reaction, loggedOut := Replay, false;
    } else {
      reaction, loggedOut := GiveUp, true;
    }
  }

  /** One request through `axiosSecure`, replays included. With no interceptor
      registered the request goes out bare and its error is not recovered.
      Registering the pair more than once changes nothing here: every
      request-side copy writes the same header, and once one response-side
      copy has marked the request, every other copy passes it on. */
  method Send(client: SecureClient, config: RequestConfig,
              server: nat -> Reply, token: nat -> Option<string>, refreshSucceeds: bool)
    returns (outcome: Outcome, headers: seq<Option<string>>, refreshes: nat, logouts: nat)
    requires client.Valid()
    modifies config
    ensures 1 <= |headers| <= 2 && refreshes <= 1 && logouts <= refreshes
    ensures headers[0] == if client.pairs > 0 && Truthy(token(0))
                          then Some("Bearer " + token(0).value) else old(config.authorization)
    ensures refreshes == 1 <==> client.pairs > 0 && !old(config.retry) && server(0) == Failure(Some(401))
    ensures |headers| == 2 <==> refreshes == 1 && refreshSucceeds
    ensures |headers| == 2 ==> headers[1] == Some("Bearer " + Show(token(1)))
    ensures logouts == 1 <==> refreshes == 1 && !refreshSucceeds
    ensures config.retry == (old(config.retry) || refreshes == 1)
    ensures server(0).Success? ==> outcome == Resolved(server(0))
    ensures server(0).Failure? && refreshes == 0 ==> outcome == Rejected(server(0))
    ensures logouts == 1 ==> outcome == RejectedByRefresh
    ensures |headers| == 2 ==>
      outcome == (if server(1).Success? then Resolved(server(1)) else Rejected(server(1)))
  {
    var n := 0;
    headers, refreshes, logouts := [], 0, 0;
    while true
      invariant n == |headers| == refreshes <= 1 && logouts == 0
      invariant n == 1 ==> config.retry && !old(config.retry) && client.pairs > 0 && refreshSucceeds
      invariant n == 1 ==> server(0) == Failure(Some(401))
      invariant n == 1 ==> headers[0] == if Truthy(token(0))
                                         then Some("Bearer " + token(0).value) else old(config.authorization)
      invariant n == 1 ==> config.authorization == Some("Bearer " + Show(token(1)))
      invariant n == 0 ==> config.retry == old(config.retry) && config.authorization == old(config.authorization)
      decreases if config.retry then 0 else 1
    {
      if client.pairs > 0 {
        AttachToken(config, token(n));
      }
      headers := headers + [config.authorization];
      var reply := server(n);
      if reply.Success? {
        return Resolved(reply), headers, refreshes, logouts;
      }
      if client.pairs == 0 {
        return Rejected(reply), headers, refreshes, logouts;
      }
      var reaction, refreshed, loggedOut := OnResponseError(config, reply.status, refreshSucceeds, token(n + 1));
      if refreshed { refreshes := refreshes + 1; }
      if loggedOut { logouts := logouts + 1; }
      match reaction
      case PassThrough =>
        return Rejected(reply), headers, refreshes, logouts;
      case GiveUp =>
        return RejectedByRefresh, headers, refreshes, logouts;
      case Replay =>
        n := n + 1;
    }
  }
}
