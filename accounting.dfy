/**
 * The rate accounting of `APIManager` as functions of its configuration, its window
 * state and the clock reading.
 *
 * Every step of `request` is a function here: the window arithmetic
 * (`gen_remaining_time`, `gen_remaining_requests`), the deferral, one client call
 * (`_make_request`) and the whole cache-or-call decision with its retry. The class in
 * module ApiManager runs the same steps on mutable fields and is proved equal to these
 * functions; the properties of the manager are proved here, once.
 */
module Accounting {
  import opened Collaborators

  /** The exceptions `request` and `__init__` can raise. */
  datatype Error =
    | IntervalNotPositive                     // __init__: interval <= 0
    | ThresholdNotPositive                    // __init__: threshold <= 0
    | IntervalBufferNegative                  // __init__: interval_buffer < 0
    | StartTimeAhead(start: real, now: real)  // gen_remaining_time: start time after the clock
    | NegativeSleep(seconds: real)            // time.sleep refuses a negative length
    | HashFailed                              // gen_request_hash raised
    | ClientFailed(fault: Fault)              // the client raised something other than a rate-limit error

  datatype Result<+T> = Ok(value: T) | Err(error: Error)

  /** The settings fixed at construction. `interval` is the configured interval plus
      the interval buffer. */
  datatype Config = Config(interval: int, threshold: int, cacheOnFailure: bool)

  predicate ValidConfig(cfg: Config) {
    cfg.interval > 0 && cfg.threshold > 0
  }

  /** `_count` and `_start_time`; an absent start means no window has been opened. */
  datatype Window = Window(count: int, start: Option<real>)

  /** The budget invariant: no more requests counted than the threshold allows. */
  predicate WithinBudget(cfg: Config, w: Window) {
    0 <= w.count <= cfg.threshold
  }

  /** What `request` hands back: the client's response (None after a rate-limit
      rejection) or a value read from the cache. */
  datatype Returned = FromApi(response: Option<Response>) | FromCache(value: Value)

  /** The argument checks of `__init__` and the settings it stores. */
  function Configure(interval: int, threshold: int, intervalBuffer: int, cacheOnFailure: bool): (r: Result<Config>)
    ensures r.Ok? <==> interval > 0 && threshold > 0 && intervalBuffer >= 0
    ensures interval <= 0 ==> r == Err(IntervalNotPositive)
    ensures interval > 0 && threshold <= 0 ==> r == Err(ThresholdNotPositive)
    ensures interval > 0 && threshold > 0 && intervalBuffer < 0 ==> r == Err(IntervalBufferNegative)
    ensures r.Ok? ==> ValidConfig(r.value) && r.value.interval >= interval
    ensures r.Ok? ==> r.value.interval - interval == intervalBuffer
    ensures r.Ok? ==> r.value.threshold == threshold && r.value.cacheOnFailure == cacheOnFailure
  {
    if interval <= 0 then Err(IntervalNotPositive)
    else if threshold <= 0 then Err(ThresholdNotPositive)
    else if intervalBuffer < 0 then Err(IntervalBufferNegative)
    else Ok(Config(interval + intervalBuffer, threshold, cacheOnFailure))
  }

  /** `gen_initial_state` as the base class defines it: no requests made, no window open. */
  function InitialState(): Window {
    Window(0, None)
  }

  /** `gen_remaining_time`: the seconds left in the current window. */
  function RemainingTime(cfg: Config, w: Window, now: real): (r: Result<real>)
    ensures w.start.None? ==> r == Ok(cfg.interval as real)
    ensures w.start.Some? ==> (r.Err? <==> w.start.value > now)
    ensures r.Err? ==> r.error == StartTimeAhead(w.start.value, now)
    ensures r.Ok? ==> r.value <= cfg.interval as real
    ensures r.Ok? && w.start.Some? ==> w.start.value + cfg.interval as real == now + r.value
  {
    match w.start
    case None => Ok(cfg.interval as real)
    case Some(start) =>
      if start > now then Err(StartTimeAhead(start, now))
      else Ok(cfg.interval as real - (now - start))
  }

  /** `gen_remaining_requests`: the window after its reset check, and the requests left.
      The reset fires only when more than a whole interval remains, which `RemainingTime`
      never reports, so the window always comes back unchanged. */
  function RemainingRequests(cfg: Config, w: Window, now: real): (r: Result<(Window, int)>)
    ensures r.Err? <==> RemainingTime(cfg, w, now).Err?
    ensures r.Err? ==> r.error == RemainingTime(cfg, w, now).error
    ensures r.Ok? ==> r.value.0 == w && r.value.1 == cfg.threshold - w.count
  {
    match RemainingTime(cfg, w, now)
    case Err(e) => Err(e)
    case Ok(left) =>
      var current := if left > cfg.interval as real then Window(0, Some(now)) else w;
      Ok((current, cfg.threshold - current.count))
  }

  /** `_defer_until_next_interval`: sleep for the remaining time, then `reset_state`.
      Gives the new window and the clock reading after the sleep. */
  function Deferral(cfg: Config, w: Window, now: real): (r: Result<(Window, real)>)
    ensures r.Ok? <==> RemainingTime(cfg, w, now).Ok? && RemainingTime(cfg, w, now).value >= 0.0
    ensures RemainingTime(cfg, w, now).Err? ==> r == Err(RemainingTime(cfg, w, now).error)
    ensures r.Err? && RemainingTime(cfg, w, now).Ok? ==> r.error == NegativeSleep(RemainingTime(cfg, w, now).value)
    ensures r.Ok? ==> r.value.1 >= now && r.value.0 == Window(0, Some(r.value.1))
    ensures r.Ok? && w.start.None? ==> r.value.1 == now + cfg.interval as real
    ensures r.Ok? && w.start.Some? ==> r.value.1 == w.start.value + cfg.interval as real
  {
    match RemainingTime(cfg, w, now)
    case Err(e) => Err(e)
    case Ok(left) =>
      if left < 0.0 then Err(NegativeSleep(left))
      else Ok((Window(0, Some(now + left)), now + left))
  }

  /** The outcome of one `_make_request`: what it returns or raises, the window after
      its `finally`, and the arguments handed to `process_response_for_cache` whose
      results were inserted into the cache. */
  datatype Attempted = Attempted(reply: Result<Option<Response>>, window: Window, toCache: seq<Option<Response>>)

  function Attempt(cfg: Config, w: Window, outcome: Outcome): (a: Attempted)
    ensures a.window.count == w.count + 1 && a.window.start == w.start
    ensures a.reply.Err? <==> outcome.Failure?
    ensures a.reply.Err? ==> a.reply.error == ClientFailed(outcome.fault)
    ensures outcome.RateLimited? <==> a.reply == Ok(None)
    ensures a.reply.Ok? && a.reply.value.Some? ==> outcome == Success(a.reply.value.value) && a.toCache == [a.reply.value]
    ensures |a.toCache| == (if outcome.Success? || (outcome.Failure? && cfg.cacheOnFailure) then 1 else 0)
    ensures outcome.Failure? ==> forall i :: 0 <= i < |a.toCache| ==> a.toCache[i] == None
  {
    match outcome
    case Success(response) => Attempted(Ok(Some(response)), Window(w.count + 1, w.start), [Some(response)])
    // The flag set at api_manager.py:196 is a local of `_make_request`: only None reaches the caller.
    case RateLimited => Attempted(Ok(None), Window(w.count + 1, w.start), [])
    case Failure(fault) =>
      Attempted(Err(ClientFailed(fault)), Window(w.count + 1, w.start), if cfg.cacheOnFailure then [None] else [])
  }

  /** What `request` returns once a client call was made. */
  function Answer(reply: Result<Option<Response>>): Result<Returned> {
    match reply
    case Ok(response) => Ok(FromApi(response))
    case Err(e) => Err(e)
  }

  /** The record of one `request`: what it returned or raised, the window and clock
      afterwards, whether it called the client, what it inserted into the cache (as
      arguments of `process_response_for_cache`), and whether it deferred. */
  datatype Served = Served(answer: Result<Returned>, window: Window, now: real,
                           called: bool, toCache: seq<Option<Response>>, deferred: bool)

  /** `request` once its hash is known: cache check, budget check, client call, or
      deferral followed by a retry with the same hash. The retry finds a fresh window
      with the whole budget left, so it never defers again. */
  function Dispatch(cfg: Config, w: Window, now: real, hash: Hash, entries: map<Hash, Value>, outcome: Outcome): (s: Served)
    requires ValidConfig(cfg) && WithinBudget(cfg, w)
    ensures WithinBudget(cfg, s.window)
    ensures hash in entries ==> s == Served(Ok(FromCache(entries[hash])), w, now, false, [], false)
    ensures s.called <==> hash !in entries && RemainingTime(cfg, w, now).Ok? && (w.count < cfg.threshold || Deferral(cfg, w, now).Ok?)
    ensures s.deferred <==> hash !in entries && w.count == cfg.threshold && Deferral(cfg, w, now).Ok?
    ensures s.deferred ==> s.called && s.now == Deferral(cfg, w, now).value.1
    ensures !s.deferred ==> s.now == now
    ensures s.window.count == (if s.deferred then 0 else w.count) + (if s.called then 1 else 0)
    ensures s.window.start == if s.deferred then Some(s.now) else w.start
    ensures s.called ==> s.answer == Answer(Attempt(cfg, w, outcome).reply)
    ensures s.toCache == if s.called then Attempt(cfg, w, outcome).toCache else []
    ensures hash !in entries && !s.called ==> s.window == w
    ensures hash !in entries && !s.called ==>
      s.answer == Err(if RemainingTime(cfg, w, now).Err? then RemainingTime(cfg, w, now).error else Deferral(cfg, w, now).error)
    decreases if w.count < cfg.threshold then 0 else 1
  {
    if hash in entries then Served(Ok(FromCache(entries[hash])), w, now, false, [], false)
    else
      match RemainingRequests(cfg, w, now)
      case Err(e) => Served(Err(e), w, now, false, [], false)
      case Ok((current, remaining)) =>
        if remaining > 0 then
          var a := Attempt(cfg, current, outcome);
          Served(Answer(a.reply), a.window, now, true, a.toCache, false)
        else
          match Deferral(cfg, current, now)
          case Err(e) => Served(Err(e), current, now, false, [], false)
          case Ok((next, woke)) =>
            var retry := Dispatch(cfg, next, woke, hash, entries, outcome);
            retry.(deferred := true)
  }

  /** `request`: derive the hash unless one is given (a failure to derive it is raised),
      then dispatch. */
  function Serve(cfg: Config, w: Window, now: real, args: Args, requestHash: Option<Hash>,
                 hashOf: Args -> Option<Hash>, entries: map<Hash, Value>, outcome: Outcome): (s: Served)
    requires ValidConfig(cfg) && WithinBudget(cfg, w)
    ensures WithinBudget(cfg, s.window)
    ensures requestHash.None? && hashOf(args).None? ==> s == Served(Err(HashFailed), w, now, false, [], false)
    ensures requestHash.Some? ==> s == Dispatch(cfg, w, now, requestHash.value, entries, outcome)
    ensures requestHash.None? && hashOf(args).Some? ==> s == Dispatch(cfg, w, now, hashOf(args).value, entries, outcome)
  {
    var hash := if requestHash.Some? then requestHash else hashOf(args);
    match hash
    case None => Served(Err(HashFailed), w, now, false, [], false)
    case Some(h) => Dispatch(cfg, w, now, h, entries, outcome)
  }

  /** One request in a sequence made to the same manager: the clock reading when it
      starts, its hash, what the cache holds at that moment, and how the API would answer. */
  datatype Call = Call(at: real, hash: Hash, entries: map<Hash, Value>, outcome: Outcome)

  /** The records of `calls` served one after another, starting from window `w`. */
  function Replay(cfg: Config, w: Window, calls: seq<Call>): (trace: seq<Served>)
    requires ValidConfig(cfg) && WithinBudget(cfg, w)
    ensures |trace| == |calls|
    decreases |calls|
  {
    if calls == [] then []
    else
      var s := Dispatch(cfg, w, calls[0].at, calls[0].hash, calls[0].entries, calls[0].outcome);
      [s] + Replay(cfg, s.window, calls[1..])
  }

  /** The window after a trace that started from `w`. */
  function Final(w: Window, trace: seq<Served>): Window {
    if trace == [] then w else trace[|trace| - 1].window
  }

  /** The number of client calls in a trace. */
  function Calls(trace: seq<Served>): nat {
    if trace == [] then 0 else (if trace[0].called then 1 else 0) + Calls(trace[1..])
  }

  /** The number of deferrals, each of which resets the window, in a trace. */
  function Resets(trace: seq<Served>): nat {
    if trace == [] then 0 else (if trace[0].deferred then 1 else 0) + Resets(trace[1..])
  }

  /** One request's effect on the count: one more per client call, and a reset only
      from a full budget. */
  lemma StepAccounting(cfg: Config, w: Window, c: Call)
    requires ValidConfig(cfg) && WithinBudget(cfg, w)
    ensures var s := Dispatch(cfg, w, c.at, c.hash, c.entries, c.outcome);
      && WithinBudget(cfg, s.window)
      && w.count + (if s.called then 1 else 0) == (if s.deferred then cfg.threshold else 0) + s.window.count
  {
  }

  /** Over any sequence of requests, the count goes up by one per client call and is reset
      only from a full budget; so every window, the first included, sees at most
      `threshold` client calls. */
  lemma {:induction false} CallsPerWindow(cfg: Config, w: Window, calls: seq<Call>)
    requires ValidConfig(cfg) && WithinBudget(cfg, w)
    ensures w.count + Calls(Replay(cfg, w, calls)) == cfg.threshold * Resets(Replay(cfg, w, calls)) + Final(w, Replay(cfg, w, calls)).count
    ensures WithinBudget(cfg, Final(w, Replay(cfg, w, calls)))
    decreases |calls|
  {
    if calls != [] {
      var trace := Replay(cfg, w, calls);
      var s := Dispatch(cfg, w, calls[0].at, calls[0].hash, calls[0].entries, calls[0].outcome);
      var rest := Replay(cfg, s.window, calls[1..]);
      StepAccounting(cfg, w, calls[0]);
      CallsPerWindow(cfg, s.window, calls[1..]);
      assert trace == [s] + rest;
      assert trace[1..] == rest;
      assert Final(w, trace) == Final(s.window, rest);
      var d := if s.deferred then 1 else 0;
      assert Resets(trace) == d + Resets(rest);
      assert cfg.threshold * (d + Resets(rest)) == cfg.threshold * d + cfg.threshold * Resets(rest);
    }
  }
}
