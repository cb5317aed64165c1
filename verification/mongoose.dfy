/** The process-wide database connection cache: two slots, the established
    connection and the promise of the connect attempt that produced (or is
    producing) it. Each `await` is one sequential step; the outcome of a
    fresh connect attempt and of closing a connection are supplied as
    parameters, since they come from the database driver. */
module Mongoose {
  import opened Wrappers

  /** An established connection, identified opaquely. */
  datatype Handle = Handle(id: nat)

  /** How a connect promise settles: resolved with a connection, or rejected
      with the message of its cause. */
  datatype Outcome = Ok(handle: Handle) | Err(cause: string)

  /** The cached state: `conn` and `promise`, each possibly null. */
  datatype Cache = Cache(conn: Option<Handle>, promise: Option<Outcome>)

  /** The state a fresh process starts from. */
  const Empty: Cache := Cache(None, None)

  const MissingUrlMessage: string := "Missing MONGODB_URL environment variable"
  const FailurePrefix: string := "Failed to connect to MongoDB: "

  /** The cache after a call, and what the call returned or threw. */
  datatype Step<R> = Step(cache: Cache, result: Result<R, string>)

  /** The connection string is truthy: set and non-empty. */
  predicate HasUrl(url: Option<string>) {
    url.Some? && url.value != ""
  }

  /** What awaiting a connect promise returns or throws. */
  function Settle(outcome: Outcome): Result<Handle, string> {
    match outcome
    case Ok(h) => Success(h)
    case Err(cause) => Failure(FailurePrefix + cause)
  }

  /** The states the cache can reach by sequential calls: empty, connected
      with the promise that produced the connection, or holding a rejected
      promise with no connection. */
  predicate Coherent(c: Cache) {
    match c.conn
    case Some(h) => c.promise == Some(Ok(h))
    case None => c.promise.None? || c.promise.value.Err?
  }

  /** `connectToDatabase`: return the cached connection; else fail when the
      URL is missing; else reuse the cached promise, or start `attempt` when
      there is none, and await it. A rejected promise stays cached. */
  function Connect(c: Cache, url: Option<string>, attempt: Outcome): (s: Step<Handle>)
    ensures s.result.Success? ==> s.cache.conn == Some(s.result.value)
    ensures s.result.Failure? ==> s.cache.conn.None?
    ensures s.cache.promise.None? ==> s.cache == c
    ensures Coherent(c) ==> Coherent(s.cache)
  {
    if c.conn.Some? then Step(c, Success(c.conn.value))
    else if !HasUrl(url) then Step(c, Failure(MissingUrlMessage))
    else
      var promise := if c.promise.Some? then c.promise.value else attempt;
      var next := Cache(c.conn, Some(promise));
      match promise
      case Ok(h) => Step(next.(conn := Some(h)), Success(h))
      case Err(cause) => Step(next, Failure(FailurePrefix + cause))
  }

  /** `disconnectFromDatabase`: nothing to do without a connection; else
      close it (`closeError` is the error closing throws, if any) and clear
      both slots. A close that throws leaves the cache as it was. */
  function Disconnect(c: Cache, closeError: Option<string>): (s: Step<()>)
    ensures s.result.Success? ==> s.cache.conn.None?
    ensures s.result.Failure? ==> s.cache == c
    ensures Coherent(c) ==> Coherent(s.cache)
  {
    if c.conn.None? then Step(c, Success(()))
    else if closeError.Some? then Step(c, Failure(closeError.value))
    else Step(Empty, Success(()))
  }

  /** A cached connection is returned and nothing changes, even when the URL
      is missing. */
  lemma ConnectReturnsCached(c: Cache, url: Option<string>, attempt: Outcome)
    requires c.conn.Some?
    ensures Connect(c, url, attempt) == Step(c, Success(c.conn.value))
  {
  }

  /** Without a connection or a URL, the call throws the configuration error
      and the state is unchanged. */
  lemma ConnectMissingUrl(c: Cache, url: Option<string>, attempt: Outcome)
    requires c.conn.None? && !HasUrl(url)
    ensures Connect(c, url, attempt) == Step(c, Failure(MissingUrlMessage))
  {
  }

  /** A cached promise is reused: the new attempt is never consulted, and
      without a connection the call settles to the cached promise, which stays
      in its slot. */
  lemma ConnectReusesPromise(c: Cache, url: Option<string>, attempt1: Outcome, attempt2: Outcome)
    requires c.promise.Some?
    ensures Connect(c, url, attempt1) == Connect(c, url, attempt2)
    ensures c.conn.None? && HasUrl(url) ==>
              Connect(c, url, attempt1).result == Settle(c.promise.value) && Connect(c, url, attempt1).cache.promise == c.promise
  {
  }

  /** With neither slot set and a URL, the call starts the attempt, caches
      it and returns or throws what it settles to. */
  lemma ConnectStartsAttempt(c: Cache, url: Option<string>, attempt: Outcome)
    requires c.conn.None? && c.promise.None? && HasUrl(url)
    ensures Connect(c, url, attempt).result == Settle(attempt)
    ensures Connect(c, url, attempt).cache.promise == Some(attempt)
  {
  }

  /** A failed connect, with a URL, leaves the rejected promise cached and
      throws its cause behind the failure prefix. */
  lemma ConnectFailureCaches(c: Cache, url: Option<string>, attempt: Outcome)
    requires HasUrl(url) && Connect(c, url, attempt).result.Failure?
    ensures var s := Connect(c, url, attempt);
            && s.cache.conn.None?
            && s.cache.promise.Some? && s.cache.promise.value.Err?
            && s.result.error == FailurePrefix + s.cache.promise.value.cause
  {
  }

  /** The cache after a run of connect calls, and every call's result. */
  datatype Calls = Calls(cache: Cache, results: seq<Result<Handle, string>>)

  /** A sequence of connect calls with the same URL, one supplied attempt per
      call. */
  function ConnectMany(c: Cache, url: Option<string>, attempts: seq<Outcome>): (r: Calls)
    ensures |r.results| == |attempts|
    ensures Coherent(c) ==> Coherent(r.cache)
    decreases attempts
  {
    if |attempts| == 0 then Calls(c, [])
    else
      var s := Connect(c, url, attempts[0]);
      var rest := ConnectMany(s.cache, url, attempts[1..]);
      Calls(rest.cache, [s.result] + rest.results)
  }

  /** Once connected, every later connect call, with no disconnect in between,
      returns the same connection and the cache stays as it is. */
  lemma {:induction false} ConnectedIsFinal(c: Cache, url: Option<string>, attempts: seq<Outcome>)
    requires c.conn.Some?
    ensures ConnectMany(c, url, attempts).cache == c
    ensures forall i :: 0 <= i < |attempts| ==> ConnectMany(c, url, attempts).results[i] == Success(c.conn.value)
  {
    if |attempts| > 0 {
      ConnectedIsFinal(c, url, attempts[1..]);
    }
  }

  /** After a successful call, every later connect call, with no disconnect
      in between, returns the same handle. */
  lemma LaterCallsReturnSameHandle(c: Cache, url: Option<string>, attempt: Outcome, later: seq<Outcome>)
    requires Connect(c, url, attempt).result.Success?
    ensures forall i :: 0 <= i < |later| ==>
              ConnectMany(Connect(c, url, attempt).cache, url, later).results[i] == Connect(c, url, attempt).result
  {
    ConnectedIsFinal(Connect(c, url, attempt).cache, url, later);
  }

  /** A cached rejection is rethrown by every later call with the same URL,
      whatever attempts are offered, and the cache stays as it is. */
  lemma {:induction false} FailureIsSticky(cause: string, url: Option<string>, attempts: seq<Outcome>)
    requires HasUrl(url)
    ensures ConnectMany(Cache(None, Some(Err(cause))), url, attempts).cache == Cache(None, Some(Err(cause)))
    ensures forall i :: 0 <= i < |attempts| ==>
              ConnectMany(Cache(None, Some(Err(cause))), url, attempts).results[i] == Failure(FailurePrefix + cause)
  {
    if |attempts| > 0 {
      FailureIsSticky(cause, url, attempts[1..]);
    }
  }

  /** From a fresh process with a URL, in a run of connect calls with no
      disconnect, every call returns or throws what the first call's attempt
      settles to. */
  lemma OnlyFirstAttemptConsulted(url: Option<string>, attempts: seq<Outcome>)
    requires HasUrl(url) && |attempts| > 0
    ensures forall i :: 0 <= i < |attempts| ==> ConnectMany(Empty, url, attempts).results[i] == Settle(attempts[0])
  {
    var s := Connect(Empty, url, attempts[0]);
    match attempts[0]
    case Ok(h) => ConnectedIsFinal(s.cache, url, attempts[1..]);
    case Err(cause) => FailureIsSticky(cause, url, attempts[1..]);
  }

  /** Without a connection, disconnecting does nothing, even when a promise
      is cached. */
  lemma DisconnectWithoutConnection(c: Cache, closeError: Option<string>)
    requires c.conn.None?
    ensures Disconnect(c, closeError) == Step(c, Success(()))
  {
  }

  /** Closing a connection clears both slots. */
  lemma DisconnectResets(c: Cache)
    requires c.conn.Some?
    ensures Disconnect(c, None) == Step(Empty, Success(()))
  {
  }

  /** After a disconnect that closes a live connection successfully, the next
      connect with a URL settles to its own attempt. */
  lemma ReconnectAfterDisconnect(c: Cache, url: Option<string>, attempt: Outcome)
    requires c.conn.Some? && HasUrl(url)
    ensures Connect(Disconnect(c, None).cache, url, attempt).result == Settle(attempt)
  {
  }

  /** One call of an arbitrary client sequence. */
  datatype Call = ConnectCall(attempt: Outcome) | DisconnectCall(closeError: Option<string>)

  /** The cache after one call. */
  function Apply(c: Cache, url: Option<string>, call: Call): Cache {
    match call
    case ConnectCall(attempt) => Connect(c, url, attempt).cache
    case DisconnectCall(closeError) => Disconnect(c, closeError).cache
  }

  /** The cache after a sequence of calls, all reading the same URL. */
  function Run(c: Cache, url: Option<string>, calls: seq<Call>): Cache
    decreases calls
  {
    if |calls| == 0 then c
    else
      Run(Apply(c, url, calls[0]), url, calls[1..])
  }

  /** Any sequence of calls from a coherent state keeps it coherent. */
  lemma {:induction false} RunStaysCoherent(url: Option<string>, calls: seq<Call>, c: Cache)
    requires Coherent(c)
    ensures Coherent(Run(c, url, calls))
    decreases calls
  {
    if |calls| > 0 {
      RunStaysCoherent(url, calls[1..], Apply(c, url, calls[0]));
    }
  }

  /** A cached rejection outlives every later call: connects rethrow it and
      disconnect returns early without a connection, so no sequence of calls
      clears it. */
  lemma {:induction false} RejectionIsPermanent(cause: string, url: Option<string>, calls: seq<Call>)
    ensures Run(Cache(None, Some(Err(cause))), url, calls) == Cache(None, Some(Err(cause)))
    decreases calls
  {
    if |calls| > 0 {
      RejectionIsPermanent(cause, url, calls[1..]);
    }
  }

  /** Every state reached from a fresh process is coherent: a connection is
      always paired with the promise that produced it, and a cached promise
      without a connection is always a rejected one. */
  lemma ReachableIsCoherent(url: Option<string>, calls: seq<Call>)
    ensures Coherent(Run(Empty, url, calls))
  {
    RunStaysCoherent(url, calls, Empty);
  }

  // ---------------------------------------------------------------------------
  // A connect that does not cache a rejected promise
  // ---------------------------------------------------------------------------

  /** The states a retrying cache can reach: empty, or connected with the
      promise that produced the connection; never a cached rejection. */
  predicate NoRejection(c: Cache) {
    match c.conn
    case Some(h) => c.promise == Some(Ok(h))
    case None => c.promise.None?
  }

  /** A connect that drops a rejected promise so that the next call retries
      from scratch. Otherwise as `Connect`. */
  function ConnectRetrying(c: Cache, url: Option<string>, attempt: Outcome): (s: Step<Handle>)
    ensures s.result.Success? ==> s.cache.conn == Some(s.result.value)
    ensures s.result.Failure? ==> s.cache.conn.None? && (s.cache.promise.None? || s.cache == c)
    ensures NoRejection(c) ==> NoRejection(s.cache)
  {
    if c.conn.Some? then Step(c, Success(c.conn.value))
    else if !HasUrl(url) then Step(c, Failure(MissingUrlMessage))
    else
      var promise := if c.promise.Some? then c.promise.value else attempt;
      match promise
      case Ok(h) => Step(Cache(Some(h), Some(promise)), Success(h))
      case Err(cause) => Step(c.(promise := None), Failure(FailurePrefix + cause))
  }

  /** As written, a rejection is rethrown even when the next attempt would
      succeed. */
  lemma StickyFailureExample()
    ensures var failed := Connect(Empty, Some("mongodb://db"), Err("timeout")).cache;
            Connect(failed, Some("mongodb://db"), Ok(Handle(1))).result == Failure(FailurePrefix + "timeout")
  {
  }

  /** Without the rejected promise cached, the call after a failure consults
      its own attempt. */
  lemma RetryAfterFailure(c: Cache, url: Option<string>, failing: Outcome, retry: Outcome)
    requires NoRejection(c) && HasUrl(url)
    requires ConnectRetrying(c, url, failing).result.Failure?
    ensures ConnectRetrying(ConnectRetrying(c, url, failing).cache, url, retry).result == Settle(retry)
  {
  }
}
