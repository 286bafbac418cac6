/**
 * The collaborators of the API manager, reduced to what the manager observes of them.
 *
 * The API client, the cache and the wall clock are implemented elsewhere. Each is
 * modelled here by the smallest object that lets the manager's code run against it:
 * the client by the three functions the manager calls and a log of the requests it
 * sent, the cache by a lookup table and a log of the values inserted into it, the
 * clock by one timestamp that only `Sleep` moves forward.
 */
module Collaborators {

  /** The request arguments, the request hash (cache key), an API response,
      a value the client prepares for the cache, a value read back from the cache,
      and the exception a failed request raises. */
  type Args(==)
  type Hash(==)
  type Response(==)
  type Entry(==)
  type Value(==)
  type Fault(==)

  datatype Option<+T> = None | Some(value: T)

  /** What the API answers to one request: a response, a rate-limit rejection
      (`RateLimitReachedError`), or any other exception. */
  datatype Outcome = Success(response: Response) | RateLimited | Failure(fault: Fault)

  /** The API client. `hashOf` is `gen_request_hash` (None when it raises),
      `forCache` is `process_response_for_cache`, and `reply(args, n)` is what the
      API answers when `args` is the n-th request this client sends. */
  class Client {
    const hashOf: Args -> Option<Hash>
    const forCache: Option<Response> -> Entry
    const reply: (Args, nat) -> Outcome
    var sent: seq<Args>

    constructor (hashOf: Args -> Option<Hash>, forCache: Option<Response> -> Entry, reply: (Args, nat) -> Outcome)
      ensures this.hashOf == hashOf && this.forCache == forCache && this.reply == reply
      ensures sent == []
    {
      this.hashOf, this.forCache, this.reply := hashOf, forCache, reply;
      sent := [];
    }

    /** The values `process_response_for_cache` makes of `responses`, in order. */
    function Prepared(responses: seq<Option<Response>>): (entries: seq<Entry>)
      ensures |entries| == |responses|
      ensures forall i :: 0 <= i < |responses| ==> entries[i] == forCache(responses[i])
    {
      if responses == [] then [] else [forCache(responses[0])] + Prepared(responses[1..])
    }

    /** Sends one request to the API. */
    method Send(args: Args) returns (outcome: Outcome)
      modifies this
      ensures outcome == reply(args, |old(sent)|)
      ensures sent == old(sent) + [args]
    {
      outcome := reply(args, |sent|);
      sent := sent + [args];
    }
  }

  /** The response cache. `check` and `get` read `entries`; `insert` takes a single
      value, and how it changes later lookups is up to the cache implementation,
      so `Insert` promises nothing about `entries`. */
  class Cache {
    var entries: map<Hash, Value>
    var inserted: seq<Entry>

    constructor (entries: map<Hash, Value>)
      ensures this.entries == entries && inserted == []
    {
      this.entries := entries;
      inserted := [];
    }

    predicate Check(hash: Hash)
      reads this
    {
      hash in entries
    }

    function Get(hash: Hash): Value
      requires Check(hash)
      reads this
    {
      entries[hash]
    }

    method Insert(entry: Entry)
      modifies this
      ensures inserted == old(inserted) + [entry]
    {
      inserted := inserted + [entry];
    }
  }

  /** UTC wall-clock time in seconds. `time.sleep` refuses a negative length
      with a `ValueError`; otherwise it lets exactly that much time pass. */
  class Clock {
    var now: real

    constructor (now: real)
      ensures this.now == now
    {
      this.now := now;
    }

    method Sleep(seconds: real) returns (ok: bool)
      modifies this
      ensures ok <==> seconds >= 0.0
      ensures now == if ok then old(now) + seconds else old(now)
    {
      ok := seconds >= 0.0;
      if ok {
        now := now + seconds;
      }
    }
  }
}
