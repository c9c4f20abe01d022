/** The response interceptor of the HTTP client (src/services/reactAPI.ts):
    a process-wide `isRefreshing` flag and a FIFO `failedQueue` that make an
    expired session (status 401, section 15.5.2 of RFC 9110) trigger one
    `POST /refresh-token` at a time, while every other 401 that arrives in
    the meantime waits for its outcome.

    Asynchrony is modelled as discrete events on one object: an error
    reaching the interceptor (`HandleError`) and the refresh call settling
    (`CompleteRefresh`). Redirects and refresh calls are recorded in
    `effects`; replays are returned as `Settlement`s. */
module Session {
  import opened Wrappers
  import opened Text

  /** The request config: `url` and the `_retry` mark. `id` names the caller
      whose promise the request belongs to. A missing `url` behaves as "". */
  datatype Request = Request(id: nat, url: string, retry: bool)

  /** An axios error: its config, `error.response?.status` (None when no
      response arrived) and whether `response.data?.logout` is truthy. */
  datatype HttpError = HttpError(config: Request, status: Option<int>, logout: bool)

  /** How `handleError` treats a failed response. */
  datatype Disposition = PassThrough | Enqueue | StartRefresh | ForcedLogout

  /** What a caller's promise settles with. */
  datatype Failure =
    | Http(error: HttpError)   // the error itself, rethrown
    | TokenRefreshFailed       // `new Error('Token refresh failed')`
    | RefreshError(reason: string)  // whatever the refresh call threw
  datatype Settlement = Replay(request: Request) | Reject(failure: Failure)

  /** What `handleError` hands back at once: a settled promise, or one that
      waits for the refresh in flight. */
  datatype Reaction = Settled(settlement: Settlement) | Waiting

  /** Observable side effects, in order. */
  datatype Effect = PostRefreshToken | RedirectToLogin

  /** How the refresh call ended: `data.success` truthy, falsy, or a throw. */
  datatype RefreshOutcome = Succeeded(token: Option<string>) | Declined | Threw(reason: string)

  const LoginPath := "/login"
  const SignupPath := "/signup"
  const RefreshPath := "/refresh-token"

  predicate AnyAuthPathAt(url: string, j: nat)
  {
    OccursAt(url, LoginPath, j) || OccursAt(url, SignupPath, j) || OccursAt(url, RefreshPath, j)
  }

  /** `url.includes('/login') || url.includes('/signup') ||
      url.includes('/refresh-token')`: one of the three paths occurs
      somewhere in the URL, not only as its path. */
  function IsAuthEndpoint(url: string): (auth: bool)
    ensures auth <==> exists j :: 0 <= j <= |url| && AnyAuthPathAt(url, j)
  {
    var auth := Includes(url, LoginPath) || Includes(url, SignupPath) || Includes(url, RefreshPath);
    if auth then
      var j :| 0 <= j <= |url| && (OccursAt(url, LoginPath, j) || OccursAt(url, SignupPath, j) || OccursAt(url, RefreshPath, j));
      assert AnyAuthPathAt(url, j);
      auth
    else auth
  }

  /** A 401 that may be recovered by refreshing the session: a 401 on a
      request not yet retried whose URL holds none of the three paths. */
  function Eligible(e: HttpError): (ok: bool)
    ensures ok <==> (e.status == Some(401) && !e.config.retry &&
      forall j :: 0 <= j <= |e.config.url| ==> !AnyAuthPathAt(e.config.url, j))
  {
    e.status == Some(401) && !e.config.retry && !IsAuthEndpoint(e.config.url)
  }

  predicate IsForcedLogout(e: HttpError)
  {
    e.status == Some(403) && e.logout
  }

  /** The decision logic of `handleError`. */
  function Classify(e: HttpError, refreshing: bool): (d: Disposition)
    ensures d == Enqueue <==> Eligible(e) && refreshing
    ensures d == StartRefresh <==> Eligible(e) && !refreshing
    ensures d == ForcedLogout <==> IsForcedLogout(e)
    ensures d == PassThrough <==> !Eligible(e) && !IsForcedLogout(e)
  {
    if Eligible(e) then (if refreshing then Enqueue else StartRefresh)
    else if IsForcedLogout(e) then ForcedLogout
    else PassThrough
  }

  /** The tail of `handleError` after the refresh block: redirect on a forced
      logout, then reject with the error unchanged. */
  function TailEffects(e: HttpError): (r: seq<Effect>)
    ensures r == [RedirectToLogin] <==> IsForcedLogout(e)
    ensures r == [] <==> !IsForcedLogout(e)
  {
    if IsForcedLogout(e) then [RedirectToLogin] else []
  }

  /** The failure `processQueue` is given, or None when it resolves. */
  function QueueFailure(o: RefreshOutcome): (f: Option<Failure>)
    ensures f.None? <==> o.Succeeded?
    ensures o.Declined? ==> f == Some(TokenRefreshFailed)
    ensures o.Threw? ==> f == Some(RefreshError(o.reason))
  {
    match o
    case Succeeded(_) => None
    case Declined => Some(TokenRefreshFailed)
    case Threw(reason) => Some(RefreshError(reason))
  }

  /** How one queued entry settles: resolving replays its request as it was
      queued (its `_retry` is never set), rejecting passes the failure on. */
  function SettleEntry(r: Request, f: Option<Failure>): (s: Settlement)
    ensures s.Replay? <==> f.None?
    ensures s.Replay? ==> s.request == r
    ensures s.Reject? ==> s.failure == f.value
  {
    if f.Some? then Reject(f.value) else Replay(r)
  }

  /** The `forEach` of `processQueue`: every entry settled once, in order,
      all the same way. */
  method SettleQueue(queue: seq<Request>, f: Option<Failure>) returns (settled: seq<Settlement>)
    ensures |settled| == |queue|
    ensures forall i :: 0 <= i < |queue| ==> settled[i] == SettleEntry(queue[i], f)
    ensures f.None? ==> forall i :: 0 <= i < |queue| ==> settled[i] == Replay(queue[i])
    ensures f.Some? ==> forall i :: 0 <= i < |queue| ==> settled[i] == Reject(f.value)
  {
    settled := [];
    var i := 0;
    while i < |queue|
      invariant 0 <= i <= |queue|
      invariant |settled| == i
      invariant forall k :: 0 <= k < i ==> settled[k] == SettleEntry(queue[k], f)
    {
      settled := settled + [SettleEntry(queue[i], f)];
      i := i + 1;
    }
  }

  /** The interceptor's module-level state, with the suspended handler of the
      request that started the refresh in flight (`trigger`). */
  class SessionClient {
    var isRefreshing: bool
    var failedQueue: seq<Request>
    var trigger: Option<HttpError>
    var effects: seq<Effect>

    /** At most one refresh is in flight, and the queue holds entries only
        while it is; everything waiting is an eligible 401. */
    ghost predicate Valid()
      reads this
    {
      && (isRefreshing <==> trigger.Some?)
      && (!isRefreshing ==> failedQueue == [])
      && (trigger.Some? ==> trigger.value.config.retry && trigger.value.status == Some(401)
                            && !IsAuthEndpoint(trigger.value.config.url))
      && (forall i :: 0 <= i < |failedQueue| ==>
            !failedQueue[i].retry && !IsAuthEndpoint(failedQueue[i].url))
    }

    constructor ()
      ensures Valid()
      ensures !isRefreshing && failedQueue == [] && trigger == None && effects == []
    {
      isRefreshing := false;
      failedQueue := [];
      trigger := None;
      effects := [];
    }

    /** An error response reaches `handleError`. */
    method HandleError(e: HttpError) returns (r: Reaction)
      requires Valid()
      modifies this
      ensures Valid()
      ensures Eligible(e) && old(isRefreshing) ==>
        && r == Waiting && isRefreshing && trigger == old(trigger)
        && failedQueue == old(failedQueue) + [e.config]
        && effects == old(effects)
      ensures Eligible(e) && !old(isRefreshing) ==>
        && r == Waiting && isRefreshing
        && trigger == Some(e.(config := e.config.(retry := true)))
        && failedQueue == old(failedQueue) == []
        && effects == old(effects) + [PostRefreshToken]
      ensures !Eligible(e) ==>
        && r == Settled(Reject(Http(e)))
        && isRefreshing == old(isRefreshing) && trigger == old(trigger)
        && failedQueue == old(failedQueue)
        && effects == old(effects) + TailEffects(e)
    {
      match Classify(e, isRefreshing)
      case Enqueue =>
        failedQueue := failedQueue + [e.config];
        r := Waiting;
      case StartRefresh =>
        var marked := e.(config := e.config.(retry := true));
        trigger := Some(marked);
        isRefreshing := true;
        effects := effects + [PostRefreshToken];
        r := Waiting;
      case ForcedLogout =>
        effects := effects + TailEffects(e);
        r := Settled(Reject(Http(e)));
      case PassThrough =>
        effects := effects + TailEffects(e);
        r := Settled(Reject(Http(e)));
    }

    /** The refresh call settles: the queue is drained through
        `processQueue`, the flag cleared, and the triggering request either
        replayed, rejected with its own 401 (the `success:false` branch has no
        `return` and falls through to the final rejection), or rejected with
        what the refresh threw. */
    method CompleteRefresh(o: RefreshOutcome) returns (forTrigger: Settlement, forQueue: seq<Settlement>)
      requires Valid() && isRefreshing
      modifies this
      ensures Valid()
      ensures !isRefreshing && failedQueue == [] && trigger == None
      ensures |forQueue| == |old(failedQueue)|
      ensures forall i :: 0 <= i < |forQueue| ==> forQueue[i] == SettleEntry(old(failedQueue)[i], QueueFailure(o))
      ensures o.Succeeded? ==> forTrigger == Replay(old(trigger).value.config) && effects == old(effects)
      ensures o.Declined? ==>
        forTrigger == Reject(Http(old(trigger).value)) && effects == old(effects) + [RedirectToLogin]
      ensures o.Threw? ==>
        forTrigger == Reject(RefreshError(o.reason)) && effects == old(effects) + [RedirectToLogin]
    {
      var pending := trigger.value;
      forQueue := ProcessQueue(QueueFailure(o));
      isRefreshing := false;
      trigger := None;
      match o
      case Succeeded(_) =>
        forTrigger := Replay(pending.config);
      case Declined =>
        effects := effects + [RedirectToLogin];
        // No `return`: control reaches the tail of `handleError`.
        effects := effects + TailEffects(pending);
        forTrigger := Reject(Http(pending));
      case Threw(reason) =>
        effects := effects + [RedirectToLogin];
        forTrigger := Reject(RefreshError(reason));
    }

    /** `processQueue`: settle every entry, then empty the queue. */
    method ProcessQueue(f: Option<Failure>) returns (settled: seq<Settlement>)
      modifies this
      ensures failedQueue == []
      ensures isRefreshing == old(isRefreshing) && trigger == old(trigger) && effects == old(effects)
      ensures |settled| == |old(failedQueue)|
      ensures forall i :: 0 <= i < |settled| ==> settled[i] == SettleEntry(old(failedQueue)[i], f)
    {
      settled := SettleQueue(failedQueue, f);
      failedQueue := [];
    }
  }

  /** A 401 from an authentication endpoint is rejected as it is, whatever the
      state: it is never queued and never starts a refresh. */
  lemma AuthEndpointPassesThrough(e: HttpError, refreshing: bool)
    requires IsAuthEndpoint(e.config.url)
    ensures Classify(e, refreshing) != Enqueue && Classify(e, refreshing) != StartRefresh
    ensures e.status == Some(401) ==> Classify(e, refreshing) == PassThrough
  {
  }

  /** A request already retried once is rejected as it is on a second 401. */
  lemma RetriedPassesThrough(e: HttpError, refreshing: bool)
    requires e.config.retry && e.status == Some(401)
    ensures Classify(e, refreshing) == PassThrough
  {
  }

  /** A 403 leads to the login page exactly when the server asked for a logout;
      every outcome other than an eligible 401 is rejected unchanged. */
  lemma ForbiddenRedirectsOnlyOnLogout(e: HttpError, refreshing: bool)
    requires e.status == Some(403)
    ensures Classify(e, refreshing) == ForcedLogout <==> e.logout
    ensures TailEffects(e) == (if e.logout then [RedirectToLogin] else [])
  {
  }

  /** The refresh call's own failure comes back through the interceptor while
      the refresh is in flight; it is passed through, never queued behind
      itself, so the refresh cannot wait on its own outcome. */
  lemma RefreshCallNeverQueued(id: nat, status: Option<int>, logout: bool)
    ensures IsAuthEndpoint(RefreshPath)
    ensures Classify(HttpError(Request(id, RefreshPath, false), status, logout), true) != Enqueue
  {
    IncludesSelf(RefreshPath);
  }

  /** A queued request is replayed with `_retry` still unset, so a second 401
      on the replay starts another refresh instead of being rejected. */
  lemma ReplayedQueuedRequestMayRefreshAgain(e: HttpError)
    requires Eligible(e)
    ensures SettleEntry(e.config, QueueFailure(Succeeded(None))) == Replay(e.config)
    ensures Classify(HttpError(e.config, Some(401), false), false) == StartRefresh
  {
  }

  /** N requests that all meet a 401 while no refresh is in flight: exactly one
      `POST /refresh-token`, the other N-1 queued in arrival order; then every
      request settles according to the refresh outcome. */
  method SimultaneousExpiry(errs: seq<HttpError>, o: RefreshOutcome)
      returns (effects: seq<Effect>, queued: seq<Request>, outcomes: seq<Settlement>)
    requires |errs| > 0
    requires forall i :: 0 <= i < |errs| ==> Eligible(errs[i])
    ensures |queued| == |errs| - 1
    ensures forall i :: 0 < i < |errs| ==> queued[i - 1] == errs[i].config
    ensures |outcomes| == |errs|
    ensures o.Succeeded? ==> effects == [PostRefreshToken]
    ensures !o.Succeeded? ==> effects == [PostRefreshToken, RedirectToLogin]
    ensures o.Succeeded? ==> outcomes[0] == Replay(errs[0].config.(retry := true))
    ensures o.Declined? ==> outcomes[0] == Reject(Http(errs[0].(config := errs[0].config.(retry := true))))
    ensures o.Threw? ==> outcomes[0] == Reject(RefreshError(o.reason))
    ensures forall i :: 0 < i < |errs| ==> outcomes[i] == SettleEntry(errs[i].config, QueueFailure(o))
  {
    var client := new SessionClient();
    var first := client.HandleError(errs[0]);
    var i := 1;
    while i < |errs|
      invariant 1 <= i <= |errs|
      invariant client.Valid() && client.isRefreshing
      invariant client.trigger == Some(errs[0].(config := errs[0].config.(retry := true)))
      invariant client.effects == [PostRefreshToken]
      invariant |client.failedQueue| == i - 1
      invariant forall k :: 0 < k < i ==> client.failedQueue[k - 1] == errs[k].config
    {
      var r := client.HandleError(errs[i]);
      i := i + 1;
    }
    queued := client.failedQueue;
    var forTrigger, forQueue := client.CompleteRefresh(o);
    effects := client.effects;
    outcomes := [forTrigger] + forQueue;
  }
}
