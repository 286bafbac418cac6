/**
 * The window reset that never happens.
 *
 * `gen_remaining_requests` resets the window when the remaining time is greater than
 * the interval (api_manager.py:144), which cannot happen: the remaining time is the
 * interval minus the time elapsed, and a negative elapsed time raised already. What the
 * docstrings describe is a reset once the whole interval has elapsed, that is once the
 * remaining time is negative. Without it a full window whose interval is over is never
 * renewed, and the deferral then asks `time.sleep` for a negative length, which raises.
 */
module Findings {
  import opened Collaborators
  import opened Accounting

  /** As written: a full budget in a window whose interval is over makes `request` raise
      instead of resetting the window and calling the client. */
  lemma StaleFullWindowRaises(cfg: Config, start: real, now: real, hash: Hash,
                              entries: map<Hash, Value>, outcome: Outcome)
    requires ValidConfig(cfg) && hash !in entries
    requires now > start + cfg.interval as real
    ensures var s := Dispatch(cfg, Window(cfg.threshold, Some(start)), now, hash, entries, outcome);
      && s.answer == Err(NegativeSleep(start + cfg.interval as real - now))
      && !s.called && s.window == Window(cfg.threshold, Some(start))
  {
  }

  /** The same failure from the manager's first requests: an interval of 60 seconds
      plus the default 3-second buffer and a threshold of 1. The first request spends
      the budget; the second sleeps the whole 63 seconds, opens a window at 73 and
      spends its budget; a third request at 1000 asks to sleep -864 seconds. */
  lemma StaleWindowExample(a: Hash, b: Hash, c: Hash, first: Response, second: Response, third: Outcome)
    ensures var cfg := Configure(60, 1, 3, true);
      && cfg == Ok(Config(63, 1, true))
      && var s1 := Dispatch(cfg.value, InitialState(), 0.0, a, map[], Success(first));
      && var s2 := Dispatch(cfg.value, s1.window, 10.0, b, map[], Success(second));
      && var s3 := Dispatch(cfg.value, s2.window, 1000.0, c, map[], third);
      && s1.answer == Ok(FromApi(Some(first)))
      && s2.deferred && s2.now == 73.0 && s2.answer == Ok(FromApi(Some(second)))
      && s2.window == Window(1, Some(73.0))
      && s3.answer == Err(NegativeSleep(-864.0))
  {
  }

  /** Corrected: renew the window once its whole interval has elapsed. */
  function RemainingRequestsIntended(cfg: Config, w: Window, now: real): (r: Result<(Window, int)>)
    requires ValidConfig(cfg) && WithinBudget(cfg, w)
    ensures r.Err? <==> RemainingTime(cfg, w, now).Err?
    ensures r.Ok? ==> WithinBudget(cfg, r.value.0) && r.value.1 == cfg.threshold - r.value.0.count
    ensures r.Ok? && w.start.Some? && now - w.start.value > cfg.interval as real ==>
      r.value == (Window(0, Some(now)), cfg.threshold)
    ensures r.Ok? && (w.start.None? || now - w.start.value <= cfg.interval as real) ==>
      r.value == (w, cfg.threshold - w.count)
    ensures r.Ok? && r.value.1 == 0 ==> Deferral(cfg, r.value.0, now).Ok?
  {
    match RemainingTime(cfg, w, now)
    case Err(e) => Err(e)
    case Ok(left) =>
      var current := if left < 0.0 then Window(0, Some(now)) else w;
      Ok((current, cfg.threshold - current.count))
  }
}
