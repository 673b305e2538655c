/**
 * The server's fixed-window rate limiter: a table from client address to
 * `{count, reset_time}`, one entry updated per request. Time is an integer
 * clock in minutes.
 */
module RateLimit {
  import opened Json

  /** Requests a client may make in one window. */
  const MaxRequests: nat := 100
  /** Length of a window, in minutes. */
  const WindowMinutes: nat := 15

  datatype Entry = Entry(count: nat, resetTime: int)

  datatype Verdict = Allowed | TooManyRequests

  /** The body of the refusal, `{"error": "Too many requests"}`. */
  const Refusal: Json := JObj(map["error" := JStr("Too many requests")])

  /** Every entry of the table is within the limit. */
  predicate Bounded(store: map<string, Entry>) {
    forall ip :: ip in store ==> store[ip].count <= MaxRequests
  }

  /** The entry a lookup finds: the stored one, or the default entry the table
      creates on first sight of a client. The default is made after the call
      has read the clock, so its reset time is the call's own time. */
  function Lookup(store: map<string, Entry>, ip: string, now: int): Entry {
    if ip in store then store[ip] else Entry(0, now)
  }

  /** One call on one client's entry: its verdict and the entry afterwards. */
  function Step(e: Entry, now: int): (r: (Verdict, Entry))
    ensures r.0 == TooManyRequests <==> now <= e.resetTime && e.count >= MaxRequests
    ensures r.0 == TooManyRequests ==> r.1 == e
    ensures now > e.resetTime ==> r.1 == Entry(1, now + WindowMinutes)
    ensures now <= e.resetTime && e.count < MaxRequests ==> r.1 == Entry(e.count + 1, e.resetTime)
    ensures e.count <= MaxRequests ==> r.1.count <= MaxRequests
  {
    if now > e.resetTime then (Allowed, Entry(1, now + WindowMinutes))
    else if e.count >= MaxRequests then (TooManyRequests, e)
    else (Allowed, e.(count := e.count + 1))
  }

  /** One call on the whole table: only the caller's entry changes, and the
      caller always has an entry afterwards. */
  function Call(store: map<string, Entry>, ip: string, now: int): (r: (map<string, Entry>, Verdict))
    ensures ip in r.0 && (r.1, r.0[ip]) == Step(Lookup(store, ip, now), now)
    ensures forall other :: other != ip ==> (other in r.0 <==> other in store)
    ensures forall other :: other != ip && other in store ==> r.0[other] == store[other]
    ensures Bounded(store) ==> Bounded(r.0)
  {
    var (verdict, e) := Step(Lookup(store, ip, now), now);
    (store[ip := e], verdict)
  }

  /** The table after a sequence of calls, each a client address and a time. */
  function Run(store: map<string, Entry>, calls: seq<(string, int)>): map<string, Entry>
    decreases |calls|
  {
    if calls == [] then store
    else Run(Call(store, calls[0].0, calls[0].1).0, calls[1..])
  }

  /** Starting from a bounded table (the empty one included), no sequence of
      calls ever raises a client's count above the limit. */
  lemma {:induction false} RunBounded(store: map<string, Entry>, calls: seq<(string, int)>)
    requires Bounded(store)
    ensures Bounded(Run(store, calls))
    decreases |calls|
  {
    if calls != [] {
      RunBounded(Call(store, calls[0].0, calls[0].1).0, calls[1..]);
    }
  }

  /** How many of a client's calls, at the given times, are allowed. */
  function AllowedCount(e: Entry, times: seq<int>): nat
    decreases |times|
  {
    if times == [] then 0
    else
      var (verdict, next) := Step(e, times[0]);
      (if verdict == Allowed then 1 else 0) + AllowedCount(next, times[1..])
  }

  /** Inside one window (no call after the entry's reset time), a client whose
      count is c gets at most 100 - c more requests through. */
  lemma {:induction false} WindowLimit(e: Entry, times: seq<int>)
    requires e.count <= MaxRequests
    requires forall i :: 0 <= i < |times| ==> times[i] <= e.resetTime
    ensures AllowedCount(e, times) <= MaxRequests - e.count
    decreases |times|
  {
    if times != [] {
      var next := Step(e, times[0]).1;
      assert next.resetTime == e.resetTime;
      WindowLimit(next, times[1..]);
    }
  }

  /** A client never seen before is allowed, and its entry's reset time is the
      call's own time, so its first window closes at once. */
  lemma NewClient(store: map<string, Entry>, ip: string, now: int)
    requires ip !in store
    ensures Call(store, ip, now) == (store[ip := Entry(1, now)], Allowed)
  {
  }

  /** The table of `check_rate_limit`, updated in place by each request. */
  class RateLimiter {
    var store: map<string, Entry>

    ghost predicate Valid()
      reads this
    {
      Bounded(store)
    }

    constructor ()
      ensures Valid() && store == map[]
    {
      store := map[];
    }

    /** Counts one request from `ip` at time `now`; returns the refusal body
        when the client has used up its window. */
    method Check(ip: string, now: int) returns (err: Option<Json>)
      requires Valid()
      modifies this
      ensures Valid()
      ensures store == Call(old(store), ip, now).0
      ensures err == (if Call(old(store), ip, now).1 == Allowed then None else Some(Refusal))
      ensures forall other :: other != ip && other in old(store) ==> other in store && store[other] == old(store)[other]
    {
      var data := if ip in store then store[ip] else Entry(0, now);
      if now > data.resetTime {
        store := store[ip := Entry(1, now + WindowMinutes)];
        return None;
      }
      if data.count >= MaxRequests {
        store := store[ip := data];
        return Some(Refusal);
      }
      store := store[ip := data.(count := data.count + 1)];
      err := None;
    }
  }
}
