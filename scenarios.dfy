/**
 * How the first window behaves. `_start_time` is set only by `reset_state`, which runs
 * only after a deferral, so until the first deferral no window is open: requests are
 * counted against the budget, and the deferral that follows sleeps a whole interval
 * however long ago the first of them was made.
 */
module Scenarios {
  import opened Collaborators
  import opened Accounting

  /** Until some request defers, the start time stays absent. */
  lemma {:induction false} NoWindowBeforeDeferral(cfg: Config, w: Window, calls: seq<Call>)
    requires ValidConfig(cfg) && WithinBudget(cfg, w) && w.start.None?
    requires Resets(Replay(cfg, w, calls)) == 0
    ensures Final(w, Replay(cfg, w, calls)).start.None?
    decreases |calls|
  {
    if calls != [] {
      var s := Dispatch(cfg, w, calls[0].at, calls[0].hash, calls[0].entries, calls[0].outcome);
      var trace := Replay(cfg, w, calls);
      assert trace == [s] + Replay(cfg, s.window, calls[1..]);
      assert trace[1..] == Replay(cfg, s.window, calls[1..]);
      NoWindowBeforeDeferral(cfg, s.window, calls[1..]);
    }
  }

  /** Interval 60, no buffer, threshold 2: requests for A at 0, B at 0.5 and C at 1
      (none cached) call the client for A and B; C sleeps the whole 60 seconds rather
      than the 59 left of a window opened by A, then calls the client in a new window
      opened at 61. */
  lemma ThreeRequests(a: Hash, b: Hash, c: Hash, ra: Response, rb: Response, rc: Response)
    ensures var cfg := Configure(60, 2, 0, true);
      && cfg.Ok?
      && var s1 := Dispatch(cfg.value, InitialState(), 0.0, a, map[], Success(ra));
      && var s2 := Dispatch(cfg.value, s1.window, 0.5, b, map[], Success(rb));
      && var s3 := Dispatch(cfg.value, s2.window, 1.0, c, map[], Success(rc));
      && s1.answer == Ok(FromApi(Some(ra))) && !s1.deferred
      && s2.answer == Ok(FromApi(Some(rb))) && !s2.deferred
      && s2.window == Window(2, None)
      && s3.deferred && s3.now == 61.0
      && s3.answer == Ok(FromApi(Some(rc)))
      && s3.window == Window(1, Some(61.0))
  {
  }
}
