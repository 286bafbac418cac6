/**
 * `APIManager`: a rate-accounting, cache-or-call front for an API client.
 *
 * The class keeps the source's mutable state (`count`, `startTime`) in fields that its
 * methods update in place, and holds the client, the cache and the clock it was given.
 * Each method is proved to do what the matching function of module Accounting computes,
 * where the manager's properties are proved.
 */
module ApiManager {
  import opened Collaborators
  import opened Accounting

  class APIManager {
    /** The configured interval plus the interval buffer. */
    const interval: int
    const threshold: int
    const cacheOnFailure: bool
    const client: Client
    const cache: Cache
    const clock: Clock
    var count: int
    var startTime: Option<real>

    function Settings(): Config {
      Config(interval, threshold, cacheOnFailure)
    }

    function State(): Window
      reads this
    {
      Window(count, startTime)
    }

    ghost predicate Valid()
      reads this
    {
      ValidConfig(Settings()) && WithinBudget(Settings(), State())
    }

    /** Stores checked settings and an initial window. The base class's window is
        `InitialState()`; a subclass overriding `gen_initial_state` seeds another one. */
    constructor (cfg: Config, initial: Window, client: Client, cache: Cache, clock: Clock)
      requires ValidConfig(cfg) && WithinBudget(cfg, initial)
      ensures Valid() && Settings() == cfg && State() == initial
      ensures this.client == client && this.cache == cache && this.clock == clock
    {
      interval, threshold, cacheOnFailure := cfg.interval, cfg.threshold, cfg.cacheOnFailure;
      this.client, this.cache, this.clock := client, cache, clock;
      count, startTime := initial.count, initial.start;
    }

    /** `__init__`: check the arguments, store the interval with its buffer added, and
        start from the base class's initial state. */
    static method Create(interval: int, threshold: int, client: Client, cache: Cache, clock: Clock,
                         intervalBuffer: int := 3, cacheOnFailure: bool := true)
      returns (r: Result<APIManager>)
      ensures r.Ok? <==> interval > 0 && threshold > 0 && intervalBuffer >= 0
      ensures r.Err? ==> r == Err(Configure(interval, threshold, intervalBuffer, cacheOnFailure).error)
      ensures r.Ok? ==> fresh(r.value) && r.value.Valid()
      ensures r.Ok? ==> r.value.Settings() == Config(interval + intervalBuffer, threshold, cacheOnFailure)
      ensures r.Ok? ==> r.value.State() == Window(0, None)
      ensures r.Ok? ==> r.value.client == client && r.value.cache == cache && r.value.clock == clock
    {
      var cfg := Configure(interval, threshold, intervalBuffer, cacheOnFailure);
      if cfg.Err? {
        return Err(cfg.error);
      }
      var manager := new APIManager(cfg.value, InitialState(), client, cache, clock);
      r := Ok(manager);
    }

    /** `reset_state`: a new window starting now, with nothing counted yet. */
    method ResetState()
      modifies this
      ensures State() == Window(0, Some(clock.now))
    {
      count := 0;
      startTime := Some(clock.now);
    }

    /** `gen_remaining_requests`: the requests left in the current window. Its reset
        branch needs more than a whole interval to remain, which `RemainingTime`
        never reports, so the method leaves the state alone. */
    method GenRemainingRequests() returns (r: Result<int>)
      requires Valid()
      ensures r.Ok? <==> RemainingTime(Settings(), State(), clock.now).Ok?
      ensures r.Ok? ==> r.value == threshold - count && r.value >= 0
      ensures r.Err? ==> r.error == StartTimeAhead(startTime.value, clock.now)
      ensures var rr := RemainingRequests(Settings(), State(), clock.now);
        rr.Ok? ==> r == Ok(rr.value.1)
    {
      var left := RemainingTime(Settings(), State(), clock.now);
      if left.Err? {
        return Err(left.error);
      }
      if left.value > interval as real {
        // The reset at api_manager.py:145 is unreachable.
        assert false;
      }
      r := Ok(threshold - count);
    }

    /** `_defer_until_next_interval`: sleep for the rest of the window, then reset. */
    method DeferUntilNextInterval() returns (r: Result<()>)
      requires Valid()
      modifies this, clock
      ensures Valid()
      ensures var d := Deferral(Settings(), old(State()), old(clock.now));
        && (r.Ok? <==> d.Ok?)
        && (d.Ok? ==> State() == d.value.0 && clock.now == d.value.1)
        && (d.Err? ==> r == Err(d.error) && State() == old(State()) && clock.now == old(clock.now))
    {
      var left := RemainingTime(Settings(), State(), clock.now);
      if left.Err? {
        return Err(left.error);
      }
      var slept := clock.Sleep(left.value);
      if !slept {
        return Err(NegativeSleep(left.value));
      }
      ResetState();
      r := Ok(());
    }

    /** `_make_request`: one client call, its cache insert, and the count increment
        that its `finally` makes on every outcome. */
    method MakeRequest(args: Args) returns (r: Result<Option<Response>>)
      modifies this, client, cache
      ensures var a := Attempt(Settings(), old(State()), client.reply(args, |old(client.sent)|));
        && r == a.reply
        && State() == a.window
        && client.sent == old(client.sent) + [args]
        && cache.inserted == old(cache.inserted) + client.Prepared(a.toCache)
        && (a.toCache == [] ==> cache.entries == old(cache.entries))
    {
      var outcome := client.Send(args);
      match outcome {
        case Success(response) =>
          cache.Insert(client.forCache(Some(response)));
          r := Ok(Some(response));
        case RateLimited =>
          // Setting the flag at api_manager.py:196 rebinds a local name; the caller's stays false.
          r := Ok(None);
        case Failure(fault) =>
          if cacheOnFailure {
            cache.Insert(client.forCache(None));
          }
          r := Err(ClientFailed(fault));
      }
      count := count + 1;
    }

    /** `request`: return the cached value on a hit; otherwise call the client while the
        budget lasts, or sleep out the window, reset and retry with the same hash. */
    method Request(args: Args, requestHash: Option<Hash>) returns (r: Result<Returned>)
      requires Valid()
      modifies this, client, cache, clock
      ensures Valid()
      ensures var s := Serve(Settings(), old(State()), old(clock.now), args, requestHash, client.hashOf,
                             old(cache.entries), client.reply(args, |old(client.sent)|));
        && r == s.answer
        && State() == s.window
        && clock.now == s.now
        && client.sent == old(client.sent) + (if s.called then [args] else [])
        && cache.inserted == old(cache.inserted) + client.Prepared(s.toCache)
        && (s.toCache == [] ==> cache.entries == old(cache.entries))
      decreases if count < threshold then 0 else 1
    {
      var hash := requestHash;
      if hash.None? {
        hash := client.hashOf(args);
        if hash.None? {
          return Err(HashFailed);
        }
      }
      if cache.Check(hash.value) {
        return Ok(FromCache(cache.Get(hash.value)));
      }
      var remaining := GenRemainingRequests();
      if remaining.Err? {
        return Err(remaining.error);
      }
      var rateLimitReached := false;
      var response: Result<Option<Response>> := Ok(None);
      if remaining.value > 0 {
        response := MakeRequest(args);
      }
      if remaining.value == 0 || rateLimitReached {
        var deferred := DeferUntilNextInterval();
        if deferred.Err? {
          return Err(deferred.error);
        }
        r := Request(args, hash);
      } else {
        r := Answer(response);
      }
    }
  }
}
