/** The webhook rate limiter of internal/relay/ratelimit.go, and the Retry-After header
    of internal/relay/auth.go. Times are nanoseconds since Go's zero time; durations are
    64-bit, so that doubling a window can wrap. */
module RateLimiter {
  import opened Ints
  import opened Timestamps

  const MINUTE: int := 60 * NANOS_PER_SECOND

  type Duration = Int64

  /** A time the clock can show: after the zero time. */
  type Time = t: int | t > 0 witness 1

  /** Time.Sub saturates. */
  function Sub(t: int, u: int): Duration {
    if t - u > MAX_INT64 then MAX_INT64 else if t - u < MIN_INT64 then MIN_INT64 else t - u
  }

  /** start 0 is the zero time: no window yet. */
  datatype RateWindow = RateWindow(start: int, count: int, lastSeen: int)

  datatype Verdict = Verdict(allowed: bool, retryAfter: Duration)

  datatype Config = Config(limit: int, window: Duration)

  predicate ValidConfig(c: Config) {
    c.limit >= 1 && c.window >= 1
  }

  type Entries = map<string, RateWindow>

  /** The entry a call works on: a new window when there is none or it has run out. */
  function Current(c: Config, entries: Entries, key: string, now: int): RateWindow {
    var entry := if key in entries then entries[key] else RateWindow(0, 0, 0);
    if entry.start == 0 || Sub(now, entry.start) >= c.window then RateWindow(now, 0, now)
    else entry.(lastSeen := now)
  }

  function Judge(c: Config, entries: Entries, key: string, now: int): Verdict {
    var entry := Current(c, entries, key, now);
    if entry.count >= c.limit then
      var left := Sub(entry.start + c.window, now);
      Verdict(false, if left > 0 then left else 0)
    else Verdict(true, 0)
  }

  /** The entries after a call, before pruning. */
  function Recorded(c: Config, entries: Entries, key: string, now: int): Entries {
    var entry := Current(c, entries, key, now);
    entries[key := if entry.count >= c.limit then entry else entry.(count := entry.count + 1)]
  }

  /** now.Add(-2 * l.window) */
  function Cutoff(c: Config, now: int): int {
    now + Wrap64(-2 * c.window)
  }

  function Pruned(c: Config, entries: Entries, now: int): Entries {
    map key | key in entries && entries[key].lastSeen >= Cutoff(c, now) :: entries[key]
  }

  class WebhookRateLimiter {
    const config: Config
    var entries: Entries

    /** A limit or window that is not positive is replaced by 1 and one minute. */
    constructor (limit: int, window: Duration)
      ensures ValidConfig(config) && entries == map[]
      ensures config.limit == (if limit > 0 then limit else 1)
      ensures config.window == (if window > 0 then window else 60_000_000_000)
    {
      config := Config(if limit <= 0 then 1 else limit, if window <= 0 then MINUTE else window);
      entries := map[];
    }

    method Allow(key: string, now: Time) returns (verdict: Verdict)
      modifies this
      ensures verdict == Judge(config, old(entries), key, now)
      ensures entries == Pruned(config, Recorded(config, old(entries), key, now), now)
    {
      var entry := if key in entries then entries[key] else RateWindow(0, 0, 0);
      if entry.start == 0 || Sub(now, entry.start) >= config.window {
        entry := RateWindow(now, 0, now);
      }
      entry := entry.(lastSeen := now);
      if entry.count >= config.limit {
        entries := entries[key := entry];
        PruneLocked(now);
        var left := Sub(entry.start + config.window, now);
        return Verdict(false, if left > 0 then left else 0);
      }
      entry := entry.(count := entry.count + 1);
      entries := entries[key := entry];
      PruneLocked(now);
      return Verdict(true, 0);
    }

    /** Visits the keys in any order and deletes the stale ones. */
    method PruneLocked(now: int)
      modifies this
      ensures entries == Pruned(config, old(entries), now)
    {
      var cutoff := Cutoff(config, now);
      var unvisited := entries.Keys;
      while unvisited != {}
        invariant unvisited <= entries.Keys <= old(entries).Keys
        invariant forall key | key in old(entries) ::
                    if key in unvisited || old(entries)[key].lastSeen >= cutoff
                    then key in entries && entries[key] == old(entries)[key] else key !in entries
        decreases |unvisited|
      {
        var key :| key in unvisited;
        unvisited := unvisited - {key};
        if entries[key].lastSeen < cutoff {
          entries := entries - {key};
        }
      }
    }
  }

  // ---- call sequences ----

  datatype Call = Call(key: string, at: Time)

  /** The limiter after a call, pruning or not. */
  function After(c: Config, prune: bool, entries: Entries, call: Call): Entries {
    var recorded := Recorded(c, entries, call.key, call.at);
    if prune then Pruned(c, recorded, call.at) else recorded
  }

  /** What a sequence of calls is told. */
  function Verdicts(c: Config, prune: bool, entries: Entries, calls: seq<Call>): (v: seq<Verdict>)
    ensures |v| == |calls|
    decreases |calls|
  {
    if calls == [] then []
    else
      [Judge(c, entries, calls[0].key, calls[0].at)]
      + Verdicts(c, prune, After(c, prune, entries, calls[0]), calls[1..])
  }

  /** No call is earlier than a previous one by more than `slack`; slack 0 is a run in
      time order. The clock is read before the lock is taken, so slack can be positive. */
  predicate Disordered(calls: seq<Call>, slack: nat) {
    forall i, j | 0 <= i < j < |calls| :: calls[j].at >= calls[i].at - slack
  }

  // ---- Retry-After ----

  /** int((retryAfter + time.Second - 1) / time.Second), division truncating. */
  function RetryAfterSeconds(retryAfter: Duration): int {
    var n: int := Wrap64(retryAfter + NANOS_PER_SECOND - 1);
    if n >= 0 then n / NANOS_PER_SECOND else -(-n / NANOS_PER_SECOND)
  }

  /** The header rounds the wait up to whole seconds exactly when the rounding does not
      overflow. */
  lemma {:induction false} RetryAfterRoundsUp(retryAfter: Duration)
    requires retryAfter > 0
    ensures (retryAfter <= RetryAfterSeconds(retryAfter) * NANOS_PER_SECOND < retryAfter + NANOS_PER_SECOND)
            <==> retryAfter + NANOS_PER_SECOND - 1 <= MAX_INT64
  {
    var n := retryAfter + NANOS_PER_SECOND - 1;
    if n <= MAX_INT64 {
      assert Wrap64(n) == n;
      assert n / NANOS_PER_SECOND * NANOS_PER_SECOND <= n < n / NANOS_PER_SECOND * NANOS_PER_SECOND + NANOS_PER_SECOND;
    } else {
      assert Wrap64(n) == n - 0x1_0000_0000_0000_0000;
      var wrapped: int := Wrap64(n);
      assert -wrapped / NANOS_PER_SECOND >= 0;
    }
  }
}
