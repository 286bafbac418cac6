# APIManager: rate accounting and cache-or-call, in Dafny

`APIManager` sits in front of an API client. It counts the requests made in the
current rate-limit window (`_count`, `_start_time`), with a window length that is the
configured interval plus a buffer and a budget of `threshold` requests. Before each
request it checks a cache keyed by a request hash. On a miss it calls the client
while the budget lasts. When the budget is spent it sleeps out the window, resets the
count and retries. Every client call is counted, whatever its outcome. A
non-rate-limit failure may still leave a value in the cache.

The model has five modules:

- `Collaborators` (collaborators.dfy) holds the things the manager is given.
  - The client is three functions: `gen_request_hash`, `process_response_for_cache`, and the API's reply to its n-th request. It also keeps a log of the requests it sent.
  - The cache is a lookup table for `check`/`get` and a log of the values passed to `insert`.
  - The clock is one timestamp. `Sleep` moves it forward and refuses a negative length, as `time.sleep` does.
- `Accounting` (accounting.dfy) has every step of the manager as a function of the settings, the window `(count, start)` and the clock reading. It proves the manager's properties: budget, per-call counting, cache hits, a single deferral, error paths, and the count across any sequence of requests.
- `ApiManager` (api_manager.dfy) is the class `APIManager`. Its fields are updated in place, and each method is proved to produce exactly what the matching `Accounting` function computes. `request` keeps the source's recursion; the proof that it terminates shows the retry happens at most once.
- `Scenarios` (scenarios.dfy) covers how the first window behaves.
- `Findings` (findings.dfy) covers the reset that never happens and its consequence, plus a corrected reset rule.

### Where the code and its own docstrings differ (the model follows the code)

- **The window is never renewed by `gen_remaining_requests`.** The docstrings at api_manager.py:110-112 and 134-136 promise a reset once more than a whole interval has passed. The guard instead tests `remaining time > interval`, which never holds, so that reset is dead code. `Accounting.RemainingRequests` and `ApiManager.APIManager.GenRemainingRequests` prove this. The consequence is under "## Findings".
- **A rate-limit rejection is not retried.** The docstrings at api_manager.py:175-178 and 215-216 say the flag is passed back to the caller and that `request` then sleeps and retries. But `_make_request` sets `rate_limit_reached = True` on a local parameter, and the caller's flag stays false. `request` therefore returns `None` after a `RateLimitReachedError`. It does not sleep and retry (`Accounting.Attempt`, `Accounting.Dispatch`).
- **The first window never opens early.** `_start_time` is set only by `reset_state`, which runs only after a deferral. So the first deferral sleeps the whole interval, however long ago the first request was made; "sleep for remainder of interval" (api_manager.py:215-216) is then the whole interval. For example, with interval 60 and threshold 2, requests at 0, 0.5 and 1 make the third one sleep the full 60 seconds, although only 1 second has passed since the first request (`Scenarios.ThreeRequests`).
- **`cache.insert` takes one argument.** Nothing in the code ties it to the request hash. The model records what was inserted and leaves open how an insert changes later lookups.

## Model

| member | source | states |
|---|---|---|
| `Accounting.Configure` | lc_api_manager/api_manager.py:55-60 | Construction succeeds exactly when interval > 0, threshold > 0 and buffer >= 0. The checks run in that order, and each failure has its own error. On success the stored interval is the interval plus the buffer, both settings are positive, and threshold and cache-on-failure are kept |
| `ApiManager.APIManager.Create` | lc_api_manager/api_manager.py:48-64 | `__init__` returns a fresh, valid manager exactly when the arguments pass the checks, and raises the check's error otherwise. The manager's settings are interval + buffer, threshold and cache-on-failure; its state is count 0 with no start time (the default `gen_initial_state`, line 88); it holds the given client, cache and clock |
| `ApiManager.APIManager.constructor` | lc_api_manager/api_manager.py:59-88 | Any seeded initial window within the budget (a subclass's `gen_initial_state`) is stored as given, together with the settings, and the manager is valid |
| `ApiManager.APIManager.ResetState` | lc_api_manager/api_manager.py:102-103 | The count becomes 0 and the start time becomes the current clock reading |
| `Accounting.RemainingTime` | lc_api_manager/api_manager.py:118-127 | With no start time the result is exactly the stored interval. It raises exactly when the start time is after now. Otherwise start + interval == now + result, so the result never exceeds the interval |
| `Accounting.RemainingRequests` | lc_api_manager/api_manager.py:142-146 | It fails exactly when `gen_remaining_time` does, with the same error. Otherwise it returns threshold - count and the window unchanged: the reset branch never fires |
| `ApiManager.APIManager.GenRemainingRequests` | lc_api_manager/api_manager.py:129-146 | The method changes nothing. It returns threshold - count (never negative) when the clock check passes, and the start-time error otherwise. The reset branch is proved unreachable |
| `Collaborators.Clock.Sleep` | lc_api_manager/api_manager.py:167 | A non-negative length moves the clock forward by exactly that length. A negative length is refused and the clock is unchanged |
| `Accounting.Deferral` | lc_api_manager/api_manager.py:165-169 | The deferral succeeds exactly when the remaining time can be read and is not negative. When the start time is ahead of now it raises `gen_remaining_time`'s start-time error; when the remaining time is negative it reports the negative sleep. On success the clock moves forward and the window becomes (0, wake time). The wake time is the window's end (start + interval), or now + interval when no window is open |
| `ApiManager.APIManager.DeferUntilNextInterval` | lc_api_manager/api_manager.py:148-169 | The new window and clock are exactly what `Deferral` gives. On failure, nothing changes and the error is returned. The budget invariant is kept |
| `Accounting.Attempt` | lc_api_manager/api_manager.py:184-206 | The count goes up by exactly one on every outcome, and the start time is kept. A success returns the response and caches its processed form. A rate limit returns None and caches nothing. Another failure is raised, and the processed None is cached exactly when cache-on-failure holds |
| `ApiManager.APIManager.MakeRequest` | lc_api_manager/api_manager.py:171-206 | The method sends exactly one client request. Its result, its new window and the cache inserts are those of `Attempt` on the API's reply. When nothing is inserted (a rate limit, or a failure without cache-on-failure) the cache's table is unchanged |
| `Accounting.Dispatch` | lc_api_manager/api_manager.py:229-249 | On a cache hit it returns the cached value and changes nothing. The client is called exactly when there is a miss, the clock check passes, and either budget remains or the deferral succeeds. It defers exactly when the budget is full and the sleep is possible, and the retry then calls the client in the new window; there is never a second deferral. The count is the old count (0 after a deferral) plus one per client call. The budget invariant is kept. A miss without a call leaves the window unchanged and raises the start-time error when the clock check fails, the negative-sleep error otherwise |
| `Accounting.Serve` | lc_api_manager/api_manager.py:222-249 | A failure to derive the hash is raised before anything else happens. A given hash goes straight to `Dispatch`, and so does a derived one. The budget invariant holds afterwards |
| `ApiManager.APIManager.Request` | lc_api_manager/api_manager.py:208-249 | The method returns or raises exactly what `Serve` computes from the old state. Its new count, start time and clock, the requests sent, and the cache inserts are those of `Serve`. A request that inserts nothing (a cache hit, a rate limit, an error before or without a cached failure) leaves the cache's table unchanged. The recursion terminates and the manager stays valid |
| `Accounting.CallsPerWindow` | lc_api_manager/api_manager.py:235-246 | Over any sequence of requests, initial count + client calls == threshold × deferrals + final count, and the final count stays within the budget. So each window, the first included, sees at most `threshold` client calls |
| `Scenarios.NoWindowBeforeDeferral` | lc_api_manager/api_manager.py:90-103 | The start time stays absent until some request defers |
| `Scenarios.ThreeRequests` | lc_api_manager/api_manager.py:208-249 | With interval 60, buffer 0 and threshold 2, requests at 0, 0.5 and 1 call the client twice. The third request then sleeps until 61 and succeeds in a window opened at 61 with count 1 |
| `Findings.StaleFullWindowRaises` | lc_api_manager/api_manager.py:142-146 | With a full budget and a window that ended before now, a cache miss raises the negative-sleep error. It does not call the client and leaves the window unchanged |
| `Findings.StaleWindowExample` | lc_api_manager/api_manager.py:165-167 | With interval 60 + buffer 3 and threshold 1, requests at 0, 10 and 1000 go as follows: the second sleeps until 73, and the third raises on `time.sleep(-864)` |
| `Findings.RemainingRequestsIntended` | lc_api_manager/api_manager.py:142-146 | The corrected rule renews the window once a whole interval has elapsed and reports the full threshold. Otherwise it leaves the window alone. It stays within the budget, and whenever it reports no requests left, the deferral can sleep |

## Left out

- The API client and the cache are not part of this model; only what the manager observes of them is. The client's hash function, `process_response_for_cache` and its replies are arbitrary functions. The cache's `check`/`get` read an arbitrary table.
- Collaborators.Cache.Insert: it promises nothing about later `check`/`get` results, because the code does not show that inserts are keyed by the request hash. So "a second request for the same hash hits the cache" is not modelled.
- Exceptions raised inside `process_response_for_cache` or `cache.insert` are not modelled; both are treated as total.
- The wall clock is a `Clock` object whose reading is a real number (UTC timestamp floats become reals). Within one `request` the clock moves only by the sleep. Time spent in the client call or between statements is not modelled. So the case described at lines 160-164, a new window beginning during the deferral, does not arise. Between requests the caller may set the clock freely.
- The hash-failure message rewrapping (lines 226-228, which reads Python 2's `exc.message`) is modelled only as "hash generation failure is raised" (`HashFailed`).
- The missing imports of `Tuple`, `Optional` and `Any` (lines 66 and 171) are an import-time defect with no bearing on the logic.
- Subclass overrides of `gen_initial_state` are a constructor parameter whose count must lie within the budget. A seeded count above the threshold makes `request` reach `return response` with `response` unbound (line 249); that case is not modelled.
- ApiManager.APIManager.Request: its `else` branch also covers a negative remaining budget, which the budget invariant rules out; the source would fail there on the unbound `response`.
- The public attributes `interval`, `threshold` and `cache` are constants; the code never reassigns them.
- Concurrency: the manager is unlocked and single-threaded by design.

## Findings

| source | as written | input that shows it | evidently intended | confidence | as-written member | corrected member |
|---|---|---|---|---|---|---|
| lc_api_manager/api_manager.py:144 | resets the window when `gen_remaining_time() > interval`, which never holds | interval 60, buffer 3, threshold 1, no cache hits; requests at t=0, t=10 (sleeps to 73, opens a window), t=1000: the third defers with remaining time -864 and `time.sleep(-864)` raises `ValueError` | reset once the whole interval has elapsed (remaining time < 0), so the third request finds a fresh window and calls the client | high, not executed | `Findings.StaleWindowExample` | `Findings.RemainingRequestsIntended` |

The class `APIManager` keeps the code's rule as written, because it is the model of
that code. The corrected rule and its property sit beside it in `Findings`.
