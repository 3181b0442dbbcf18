/** Pruning cannot be noticed, admission is bounded over any interval, and the retry
    hint is exact: for every sequence of calls on any keys. */
module RateLimiterProofs {
  import opened Ints
  import opened RateLimiter

  // ---- pruning ----

  /** 2 * window fits a Duration. */
  predicate CutoffExact(c: Config) {
    2 * c.window <= -MIN_INT64
  }

  lemma {:induction false} CutoffValue(c: Config, now: int)
    requires ValidConfig(c)
    ensures CutoffExact(c) ==> Cutoff(c, now) == now - 2 * c.window
    ensures !CutoffExact(c) ==> Cutoff(c, now) > now
  {
  }

  /** The pruned map `p` beside the unpruned map `u`, when no call so far was later than
      `latest`: what was pruned has run out for every call still to come. */
  ghost predicate Shadows(c: Config, p: Entries, u: Entries, latest: int, slack: nat) {
    && (forall key | key in p :: key in u && p[key] == u[key])
    && (forall key | key in u :: 0 < u[key].start <= latest && u[key].start <= u[key].lastSeen + slack)
    && (forall key | key in u && key !in p :: u[key].start + c.window + slack <= latest)
  }

  function Later(a: int, b: int): int {
    if a < b then b else a
  }

  lemma {:induction false} SameVerdict(c: Config, p: Entries, u: Entries, latest: int, slack: nat, call: Call)
    requires ValidConfig(c) && Shadows(c, p, u, latest, slack) && call.at >= latest - slack
    ensures Current(c, p, call.key, call.at) == Current(c, u, call.key, call.at)
    ensures Judge(c, p, call.key, call.at) == Judge(c, u, call.key, call.at)
  {
  }

  /** The unpruned map after a call, and what the pruned one keeps of it. */
  lemma {:induction false} AfterCall(c: Config, p: Entries, u: Entries, latest: int, slack: nat, call: Call)
    requires ValidConfig(c) && CutoffExact(c) && Shadows(c, p, u, latest, slack) && call.at >= latest - slack
    ensures var (p', u') := (After(c, true, p, call), After(c, false, u, call));
            && (forall key | key in p' :: key in u' && p'[key] == u'[key])
            && (forall key | key in u' :: key == call.key || (key in u && u'[key] == u[key]))
            && (forall key | key in u' && key !in p' ::
                (key in u && key !in p && u'[key] == u[key]) || u'[key].lastSeen < call.at - 2 * c.window)
  {
    SameVerdict(c, p, u, latest, slack, call);
    CutoffValue(c, call.at);
    hide Cutoff, Judge;
  }

  lemma {:induction false} StillShadows(c: Config, p: Entries, u: Entries, latest: int, slack: nat, call: Call)
    requires ValidConfig(c) && CutoffExact(c) && 2 * slack <= c.window + 1
    requires Shadows(c, p, u, latest, slack) && call.at >= latest - slack
    ensures Shadows(c, After(c, true, p, call), After(c, false, u, call), Later(latest, call.at), slack)
  {
    AfterCall(c, p, u, latest, slack, call);
    var p', u' := After(c, true, p, call), After(c, false, u, call);
    assert call.key in u' ==>
             0 < u'[call.key].start <= Later(latest, call.at) && u'[call.key].start <= u'[call.key].lastSeen + slack;
    hide After;
  }

  lemma {:induction false} PrunedAgrees(c: Config, p: Entries, u: Entries, latest: int, slack: nat, calls: seq<Call>)
    requires ValidConfig(c) && CutoffExact(c) && 2 * slack <= c.window + 1
    requires Shadows(c, p, u, latest, slack)
    requires Disordered(calls, slack) && forall i | 0 <= i < |calls| :: calls[i].at >= latest - slack
    ensures Verdicts(c, true, p, calls) == Verdicts(c, false, u, calls)
    decreases |calls|
  {
    hide Shadows, After, Judge;
    if calls != [] {
      SameVerdict(c, p, u, latest, slack, calls[0]);
      StillShadows(c, p, u, latest, slack, calls[0]);
      PrunedAgrees(c, After(c, true, p, calls[0]), After(c, false, u, calls[0]), Later(latest, calls[0].at), slack,
          calls[1..]);
    }
  }

  // ---- when pruning shows ----

  function Repeat(call: Call, n: nat): (calls: seq<Call>)
    ensures |calls| == n && forall i | 0 <= i < n :: calls[i] == call
  {
    seq(n, _ => call)
  }

  /** The limiter after a sequence of calls. */
  function StateAfter(c: Config, prune: bool, entries: Entries, calls: seq<Call>): Entries
    decreases |calls|
  {
    if calls == [] then entries else StateAfter(c, prune, After(c, prune, entries, calls[0]), calls[1..])
  }

  /** A run is told what its second part is told from where its first part ended. */
  lemma {:induction false} VerdictsSplit(c: Config, prune: bool, entries: Entries, a: seq<Call>, b: seq<Call>)
    ensures Verdicts(c, prune, entries, a + b)
            == Verdicts(c, prune, entries, a) + Verdicts(c, prune, StateAfter(c, prune, entries, a), b)
    ensures StateAfter(c, prune, entries, a + b) == StateAfter(c, prune, StateAfter(c, prune, entries, a), b)
    decreases |a|
  {
    hide After, Judge;
    if a == [] {
      assert a + b == b;
    } else {
      assert (a + b)[0] == a[0] && (a + b)[1..] == a[1..] + b;
      VerdictsSplit(c, prune, After(c, prune, entries, a[0]), a[1..], b);
    }
  }

  /** n more calls in a window that has room for them all. */
  lemma {:induction false} FillWindow(
      c: Config, prune: bool, entries: Entries, key: string, start: int, at: Time, count: int, n: nat)
    requires ValidConfig(c) && (prune ==> CutoffExact(c)) && 0 <= count && count + n <= c.limit && n >= 1
    requires key in entries ==> entries[key].start == start && entries[key].count == count
    requires key in entries ==> Sub(at, start) < c.window && start > 0
    requires key !in entries ==> start == at && count == 0
    ensures forall i | 0 <= i < n :: Verdicts(c, prune, entries, Repeat(Call(key, at), n))[i] == Verdict(true, 0)
    ensures var e := StateAfter(c, prune, entries, Repeat(Call(key, at), n));
            key in e && e[key] == RateWindow(start, count + n, at)
    decreases n
  {
    var calls := Repeat(Call(key, at), n);
    CutoffValue(c, at);
    hide Cutoff;
    var next := After(c, prune, entries, calls[0]);
    assert key in next && next[key] == RateWindow(start, count + 1, at);
    if n > 1 {
      assert calls[1..] == Repeat(Call(key, at), n - 1);
      FillWindow(c, prune, next, key, start, at, count + 1, n - 1);
    } else {
      assert calls[1..] == [];
    }
  }

  /** With a window so long that its double wraps, every call wipes the map. */
  lemma {:induction false} WrappedAdmitsAll(c: Config, calls: seq<Call>)
    requires ValidConfig(c) && !CutoffExact(c) && Disordered(calls, 0)
    ensures forall i | 0 <= i < |calls| :: Verdicts(c, true, map[], calls)[i] == Verdict(true, 0)
    decreases |calls|
  {
    if calls != [] {
      CutoffValue(c, calls[0].at);
      hide Cutoff;
      assert After(c, true, map[], calls[0]) == map[];
      WrappedAdmitsAll(c, calls[1..]);
    }
  }

  /** A run that tells the limiter with the wrapped cutoff from the unpruned one. */
  lemma {:induction false} WrapShows(c: Config) returns (calls: seq<Call>)
    requires ValidConfig(c) && !CutoffExact(c)
    ensures Disordered(calls, 0) && Verdicts(c, true, map[], calls) != Verdicts(c, false, map[], calls)
  {
    var call := Call("k", 1);
    var (a, b) := (Repeat(call, c.limit), [call]);
    calls := a + b;
    FillWindow(c, false, map[], "k", 1, 1, 0, c.limit);
    VerdictsSplit(c, false, map[], a, b);
    WrappedAdmitsAll(c, calls);
    var full := StateAfter(c, false, map[], a);
    assert !Judge(c, full, "k", 1).allowed;
    assert Verdicts(c, false, full, b)[0] == Judge(c, full, "k", 1);
    assert !Verdicts(c, false, map[], calls)[c.limit].allowed;
  }

  /** Fill the window at s, knock at s - d, let another key prune, come back d earlier. */
  lemma {:induction false} DisorderShows(c: Config, d: nat) returns (calls: seq<Call>)
    requires ValidConfig(c) && CutoffExact(c) && c.window + 1 < 2 * d && d <= c.window + 1
    ensures Disordered(calls, d) && Verdicts(c, true, map[], calls) != Verdicts(c, false, map[], calls)
  {
    var s: Time := 2 * d + 1;
    var (a, b) := (Repeat(Call("k", s), c.limit), Knocks(c, d));
    calls := a + b;
    assert Disordered(calls, d);
    FillWindow(c, false, map[], "k", s, s, 0, c.limit);
    FillWindow(c, true, map[], "k", s, s, 0, c.limit);
    hide Verdicts, StateAfter, Judge, After, Disordered;
    VerdictsSplit(c, false, map[], a, b);
    VerdictsSplit(c, true, map[], a, b);
    var p, u := StateAfter(c, true, map[], a), StateAfter(c, false, map[], a);
    KnocksDiffer(c, d, p, u);
    assert Verdicts(c, true, map[], calls)[c.limit + 2] != Verdicts(c, false, map[], calls)[c.limit + 2];
  }

  /** A call d early, another key's that prunes, and one d late in time but early in turn. */
  function Knocks(c: Config, d: nat): seq<Call>
    requires ValidConfig(c) && d <= c.window + 1
  {
    [Call("k", d + 1), Call("other", d + 2 * c.window + 2), Call("k", 2 * c.window + 2)]
  }

  lemma {:induction false} KnocksDiffer(c: Config, d: nat, p: Entries, u: Entries)
    requires ValidConfig(c) && CutoffExact(c) && c.window + 1 < 2 * d && d <= c.window + 1
    requires "k" in p && "k" in u && p["k"] == u["k"] == RateWindow(2 * d + 1, c.limit, 2 * d + 1)
    ensures Verdicts(c, true, p, Knocks(c, d))[2] != Verdicts(c, false, u, Knocks(c, d))[2]
  {
    var knocks := Knocks(c, d);
    LastOfThree(c, true, p, knocks);
    LastOfThree(c, false, u, knocks);
    CutoffValue(c, knocks[0].at);
    CutoffValue(c, knocks[1].at);
    hide Cutoff, Verdicts;
    var p1, u1 := After(c, true, p, knocks[0]), After(c, false, u, knocks[0]);
    assert p1["k"] == u1["k"] == RateWindow(2 * d + 1, c.limit, d + 1);
    var p2, u2 := After(c, true, p1, knocks[1]), After(c, false, u1, knocks[1]);
    assert "k" !in p2 && u2["k"] == RateWindow(2 * d + 1, c.limit, d + 1);
    assert Judge(c, p2, "k", knocks[2].at).allowed && !Judge(c, u2, "k", knocks[2].at).allowed;
  }

  lemma {:induction false} LastOfThree(c: Config, prune: bool, entries: Entries, b: seq<Call>)
    requires |b| == 3
    ensures Verdicts(c, prune, entries, b)[2]
            == Judge(c, After(c, prune, After(c, prune, entries, b[0]), b[1]), b[2].key, b[2].at)
  {
    hide After, Judge;
    var first := After(c, prune, entries, b[0]);
    var second := After(c, prune, first, b[1]);
    assert Verdicts(c, prune, entries, b)[2] == Verdicts(c, prune, first, b[1..])[1];
    assert Verdicts(c, prune, first, b[1..])[1] == Verdicts(c, prune, second, b[2..])[0];
  }

  /** No sequence of calls, on any keys, in which the clock slips back by at most
      `slack`, can tell the pruning limiter from one that never prunes. */
  ghost predicate PruningInvisible(c: Config, slack: nat) {
    forall calls | Disordered(calls, slack) :: Verdicts(c, true, map[], calls) == Verdicts(c, false, map[], calls)
  }

  /** Exactly when: the doubled window fits a Duration, and the clock slips back by no
      more than half a window, rounded up. */
  lemma {:induction false} PruningLimit(c: Config, slack: nat)
    requires ValidConfig(c)
    ensures PruningInvisible(c, slack) <==> CutoffExact(c) && 2 * slack <= c.window + 1
  {
    if CutoffExact(c) && 2 * slack <= c.window + 1 {
      forall calls | Disordered(calls, slack)
          ensures Verdicts(c, true, map[], calls) == Verdicts(c, false, map[], calls) {
        PrunedAgrees(c, map[], map[], 0, slack, calls);
      }
    } else if !CutoffExact(c) {
      var calls := WrapShows(c);
      assert Disordered(calls, slack);
    } else {
      var calls := DisorderShows(c, if slack < c.window + 1 then slack else c.window + 1);
      assert Disordered(calls, slack);
    }
  }

  // ---- admission over an interval ----

  /** Calls for the key that were let through at a time in [from, until). */
  function Admitted(calls: seq<Call>, verdicts: seq<Verdict>, key: string, from: int, until: int): nat
    requires |calls| == |verdicts|
  {
    if calls == [] then 0
    else (if calls[0].key == key && verdicts[0].allowed && from <= calls[0].at < until then 1 else 0)
         + Admitted(calls[1..], verdicts[1..], key, from, until)
  }

  /** `n` admissions so far in the interval that starts at `from`, and the state of the
      key's window; `last` is the time of the last call. */
  ghost predicate Tally(c: Config, u: Entries, key: string, from: int, n: nat, last: int) {
    && (last < from ==> n == 0)
    && (key !in u ==> n == 0)
    && (key in u ==>
          var e := u[key];
          && 0 < e.start <= last && 1 <= e.count <= c.limit
          && (e.start < from ==> n <= CarriedOver(c, e.count))
          && (from <= e.start < from + c.window ==> n <= CarriedOver(c, c.limit) + e.count)
          && n <= MostAdmitted(c))
  }

  /** What a window begun before the interval can let through in it, out of count calls:
      not the first one, and none when windows are one nanosecond long. */
  function CarriedOver(c: Config, count: int): int {
    if c.window >= 2 then count - 1 else 0
  }

  function MostAdmitted(c: Config): int {
    CarriedOver(c, c.limit) + c.limit
  }

  lemma {:induction false} TallyStep(
      c: Config, u: Entries, key: string, from: int, n: nat, last: int, call: Call)
    returns (n': nat)
    requires ValidConfig(c) && Tally(c, u, key, from, n, last) && last <= call.at
    ensures n' == n + (if call.key == key && Judge(c, u, call.key, call.at).allowed
            && from <= call.at < from + c.window then 1 else 0)
    ensures Tally(c, After(c, false, u, call), key, from, n', call.at)
  {
    n' := n + (if call.key == key && Judge(c, u, call.key, call.at).allowed
        && from <= call.at < from + c.window then 1 else 0);
  }

  lemma {:induction false} TallyBounds(
      c: Config, u: Entries, calls: seq<Call>, key: string, from: int, n: nat, last: int)
    requires ValidConfig(c) && Tally(c, u, key, from, n, last)
    requires Disordered(calls, 0) && forall i | 0 <= i < |calls| :: last <= calls[i].at
    ensures n + Admitted(calls, Verdicts(c, false, u, calls), key, from, from + c.window) <= MostAdmitted(c)
    decreases |calls|
  {
    hide After, Judge;
    if calls != [] {
      var n' := TallyStep(c, u, key, from, n, last, calls[0]);
      TallyBounds(c, After(c, false, u, calls[0]), calls[1..], key, from, n', calls[0].at);
      assert Verdicts(c, false, u, calls)[1..] == Verdicts(c, false, After(c, false, u, calls[0]), calls[1..]);
    }
  }

  lemma {:induction false} AllAdmitted(calls: seq<Call>, verdicts: seq<Verdict>, key: string, from: int, until: int)
    requires |calls| == |verdicts|
    requires forall i | 0 <= i < |calls| :: calls[i].key == key && verdicts[i].allowed && from <= calls[i].at < until
    ensures Admitted(calls, verdicts, key, from, until) == |calls|
  {
    if calls != [] { AllAdmitted(calls[1..], verdicts[1..], key, from, until); }
  }

  lemma {:induction false} LaterAdmitted(calls: seq<Call>, verdicts: seq<Verdict>, n: nat, key: string, from: int,
      until: int)
    requires n <= |calls| == |verdicts|
    requires forall i | n <= i < |calls| :: calls[i].key == key && verdicts[i].allowed && from <= calls[i].at < until
    ensures Admitted(calls, verdicts, key, from, until) >= |calls| - n
  {
    if n == 0 {
      AllAdmitted(calls, verdicts, key, from, until);
    } else {
      LaterAdmitted(calls[1..], verdicts[1..], n - 1, key, from, until);
    }
  }

  /** How many calls for the key a run lets through in the window-long interval at from. */
  function AdmittedFrom(c: Config, calls: seq<Call>, key: string, from: int): nat {
    Admitted(calls, Verdicts(c, true, map[], calls), key, from, from + c.window)
  }

  /** Runs in time order let at most n calls for any key through in any such interval. */
  ghost predicate AdmitsAtMost(c: Config, n: int) {
    forall calls, key, from | Disordered(calls, 0) :: AdmittedFrom(c, calls, key, from) <= n
  }

  lemma {:induction false} AdmissionBound(c: Config, calls: seq<Call>, key: string, from: int)
    requires ValidConfig(c) && CutoffExact(c) && Disordered(calls, 0)
    ensures AdmittedFrom(c, calls, key, from) <= MostAdmitted(c)
  {
    PrunedAgrees(c, map[], map[], 0, 0, calls);
    TallyBounds(c, map[], calls, key, from, 0, 0);
  }

  lemma {:induction false} WrappedIsUnbounded(c: Config, n: nat) returns (calls: seq<Call>)
    requires ValidConfig(c) && !CutoffExact(c)
    ensures Disordered(calls, 0) && AdmittedFrom(c, calls, "k", 1) == n
  {
    calls := Repeat(Call("k", 1), n);
    WrappedAdmitsAll(c, calls);
    AllAdmitted(calls, Verdicts(c, true, map[], calls), "k", 1, 1 + c.window);
  }

  /** A call that opens a window, and the rest of its limit at a later time. */
  function WindowOf(c: Config, start: Time, at: Time): seq<Call>
    requires ValidConfig(c)
  {
    [Call("k", start)] + Repeat(Call("k", at), c.limit - 1)
  }

  /** A window whose calls come just before it runs out, but for the first, and the whole
      of the next one just after. */
  function Burst(c: Config): seq<Call>
    requires ValidConfig(c)
  {
    WindowOf(c, 1, c.window) + WindowOf(c, c.window + 1, c.window + 1)
  }

  lemma {:induction false} OneCall(c: Config, entries: Entries, call: Call)
    ensures Verdicts(c, false, entries, [call]) == [Judge(c, entries, call.key, call.at)]
    ensures StateAfter(c, false, entries, [call]) == After(c, false, entries, call)
  {
    assert [call][0] == call && [call][1..] == [];
    hide After, Judge;
  }

  lemma {:induction false} Opens(c: Config, u: Entries, start: Time)
    requires ValidConfig(c) && Current(c, u, "k", start) == RateWindow(start, 0, start)
    ensures Judge(c, u, "k", start).allowed
    ensures var next := After(c, false, u, Call("k", start)); "k" in next && next["k"] == RateWindow(start, 1, start)
  {
  }

  /** All calls of a window that opens are allowed. */
  lemma {:induction false} WindowAllowed(c: Config, u: Entries, start: Time, at: Time)
    requires ValidConfig(c) && Current(c, u, "k", start) == RateWindow(start, 0, start) && Sub(at, start) < c.window
    ensures var (v, last) := (Verdicts(c, false, u, WindowOf(c, start, at)),
            StateAfter(c, false, u, WindowOf(c, start, at)));
            (forall i | 0 <= i < |v| :: v[i].allowed) && "k" in last && last["k"].start == start
  {
    Opens(c, u, start);
    hide Judge, After, Current;
    var (first, rest) := (Call("k", start), Repeat(Call("k", at), c.limit - 1));
    var next := After(c, false, u, first);
    OneCall(c, u, first);
    VerdictsSplit(c, false, u, [first], rest);
    if c.limit > 1 { FillWindow(c, false, next, "k", start, at, 1, c.limit - 1); } else { assert rest == []; }
  }

  /** Every call of the burst is allowed. */
  lemma {:induction false} BurstAllowed(c: Config)
    requires ValidConfig(c)
    ensures forall i | 0 <= i < |Burst(c)| :: Verdicts(c, false, map[], Burst(c))[i].allowed
  {
    hide Judge, After, Verdicts, StateAfter, WindowOf;
    var (a, b) := (WindowOf(c, 1, c.window), WindowOf(c, c.window + 1, c.window + 1));
    WindowAllowed(c, map[], 1, c.window);
    var u := StateAfter(c, false, map[], a);
    assert Current(c, u, "k", c.window + 1) == RateWindow(c.window + 1, 0, c.window + 1);
    WindowAllowed(c, u, c.window + 1, c.window + 1);
    VerdictsSplit(c, false, map[], a, b);
  }

  lemma {:induction false} BurstTimes(c: Config)
    requires ValidConfig(c)
    ensures |Burst(c)| == 2 * c.limit && Disordered(Burst(c), 0)
    ensures forall i | 0 <= i < 2 * c.limit ::
            Burst(c)[i] == Call("k", if i == 0 then 1 else if i < c.limit then c.window else c.window + 1)
  {
  }

  /** When a burst is allowed throughout, all but the first call fall into one interval, or
      the last window alone does. */
  lemma {:induction false} BurstCounts(c: Config, verdicts: seq<Verdict>) returns (from: int)
    requires ValidConfig(c) && |verdicts| == |Burst(c)| && forall i | 0 <= i < |verdicts| :: verdicts[i].allowed
    ensures Admitted(Burst(c), verdicts, "k", from, from + c.window) >= MostAdmitted(c)
  {
    from := if c.window >= 2 then c.window else 2;
    BurstTimes(c);
    hide Burst, Disordered, Admitted;
    LaterAdmitted(Burst(c), verdicts, if c.window >= 2 then 1 else c.limit, "k", from, from + c.window);
  }

  lemma {:induction false} BurstAttains(c: Config) returns (from: int)
    requires ValidConfig(c) && CutoffExact(c)
    ensures Disordered(Burst(c), 0) && AdmittedFrom(c, Burst(c), "k", from) >= MostAdmitted(c)
  {
    BurstTimes(c);
    hide Burst, Disordered, Verdicts, Admitted, MostAdmitted;
    BurstAllowed(c);
    PrunedAgrees(c, map[], map[], 0, 0, Burst(c));
    from := BurstCounts(c, Verdicts(c, true, map[], Burst(c)));
  }

  /** How many calls a window-long interval can let through, exactly: as many as one likes
      when the doubled window wraps; otherwise 2 * limit - 1, or limit when the window is
      a single nanosecond. */
  lemma {:induction false} AdmissionLimit(c: Config, n: nat)
    requires ValidConfig(c)
    ensures AdmitsAtMost(c, n) <==> CutoffExact(c) && n >= if c.window >= 2 then 2 * c.limit - 1 else c.limit
  {
    hide AdmittedFrom, Disordered;
    if !CutoffExact(c) {
      var calls := WrappedIsUnbounded(c, n + 1);
      assert AdmittedFrom(c, calls, "k", 1) > n;
    } else if n < MostAdmitted(c) {
      var from := BurstAttains(c);
      assert AdmittedFrom(c, Burst(c), "k", from) > n;
    } else {
      forall calls, key, from | Disordered(calls, 0) ensures AdmittedFrom(c, calls, key, from) <= n {
        AdmissionBound(c, calls, key, from);
      }
    }
  }

  // ---- the retry hint ----

  /** A key whose window is full from `start` on. */
  predicate Full(c: Config, u: Entries, key: string, start: int) {
    key in u && u[key].start == start && start > 0 && u[key].count >= c.limit
  }

  /** The first call for the key that is not before `until`. */
  predicate FirstFrom(calls: seq<Call>, key: string, until: int, j: int) {
    0 <= j < |calls| && calls[j].key == key && calls[j].at >= until
    && forall k | 0 <= k < j && calls[k].key == key :: calls[k].at < until
  }

  lemma {:induction false} FullUntil(c: Config, u: Entries, calls: seq<Call>, key: string, start: int, j: int)
    requires ValidConfig(c) && Full(c, u, key, start) && Disordered(calls, 0) && 0 <= j < |calls| && calls[j].key == key
    ensures calls[j].at < start + c.window ==> !Verdicts(c, false, u, calls)[j].allowed
    ensures FirstFrom(calls, key, start + c.window, j) ==> Verdicts(c, false, u, calls)[j].allowed
    decreases j
  {
    if j > 0 {
      var next := After(c, false, u, calls[0]);
      assert Verdicts(c, false, u, calls)[j] == Verdicts(c, false, next, calls[1..])[j - 1];
      assert calls[1..][j - 1] == calls[j];
      if calls[0].key != key || calls[0].at < start + c.window {
        assert Full(c, next, key, start);
        FullUntil(c, next, calls[1..], key, start, j - 1);
        if FirstFrom(calls, key, start + c.window, j) {
          assert forall k | 0 <= k < j - 1 :: calls[1..][k] == calls[k + 1];
          assert FirstFrom(calls[1..], key, start + c.window, j - 1);
        }
      }
    }
  }

  lemma {:induction false} DenialIsFull(c: Config, u: Entries, key: string, now: Time)
    requires ValidConfig(c) && !Judge(c, u, key, now).allowed
    requires key in u ==> 0 < u[key].start <= now
    ensures var d := Judge(c, u, key, now).retryAfter;
            0 < d <= c.window && Full(c, After(c, false, u, Call(key, now)), key, now + d - c.window)
  {
  }

  /** Windows never start in the future. */
  lemma {:induction false} StartsPast(c: Config, u: Entries, calls: seq<Call>, i: int, key: string, last: int)
    requires ValidConfig(c) && Disordered(calls, 0) && 0 <= i < |calls|
    requires forall k | 0 <= k < |calls| :: last <= calls[k].at
    requires key in u ==> 0 < u[key].start <= last
    ensures var s := StateAfter(c, false, u, calls[..i]); key in s ==> 0 < s[key].start <= calls[i].at
    decreases i
  {
    if i > 0 {
      var next := After(c, false, u, calls[0]);
      assert calls[..i][0] == calls[0] && calls[..i][1..] == calls[1..][..i - 1];
      StartsPast(c, next, calls[1..], i - 1, key, calls[0].at);
    }
  }

  /** From a state u: a call that is denied, and the m-th after it, for the same key. */
  lemma {:induction false} HintHolds(c: Config, u: Entries, call: Call, rest: seq<Call>, m: int)
    requires ValidConfig(c) && Disordered(rest, 0) && 1 <= m <= |rest| && rest[m - 1].key == call.key
    requires call.key in u ==> 0 < u[call.key].start <= call.at
    requires !Judge(c, u, call.key, call.at).allowed
    ensures var d := Judge(c, u, call.key, call.at).retryAfter;
            var v := Verdicts(c, false, u, [call] + rest);
            && v[0] == Judge(c, u, call.key, call.at) && 0 < d <= c.window
            && (rest[m - 1].at < call.at + d ==> !v[m].allowed)
            && (FirstFrom(rest, call.key, call.at + d, m - 1) ==> v[m].allowed)
  {
    var d := Judge(c, u, call.key, call.at).retryAfter;
    var next := After(c, false, u, call);
    DenialIsFull(c, u, call.key, call.at);
    FullUntil(c, next, rest, call.key, call.at + d - c.window, m - 1);
    hide After, Judge, FirstFrom;
    assert ([call] + rest)[0] == call && ([call] + rest)[1..] == rest;
    assert Verdicts(c, false, u, [call] + rest)[m] == Verdicts(c, false, next, rest)[m - 1];
  }

  /** In every run in time order, a denied call is told d with 0 < d <= window; until d
      has passed every call for that key is denied, and the first one after is let
      through. */
  lemma {:induction false} RetryHintExact(c: Config, calls: seq<Call>, i: int, j: int)
    requires ValidConfig(c) && Disordered(calls, 0) && 0 <= i < j < |calls|
    requires calls[i].key == calls[j].key
    requires !Verdicts(c, true, map[], calls)[i].allowed
    ensures var v := Verdicts(c, true, map[], calls);
            var until: int := calls[i].at + v[i].retryAfter;
            && 0 < v[i].retryAfter <= c.window
            && (calls[j].at < until ==> !v[j].allowed)
            && (FirstFrom(calls[i + 1..], calls[i].key, until, j - i - 1) ==> v[j].allowed)
  {
    if CutoffExact(c) {
      PrunedAgrees(c, map[], map[], 0, 0, calls);
      StartsPast(c, map[], calls, i, calls[i].key, 0);
      HintInRun(c, calls, i, j);
    } else {
      WrappedAdmitsAll(c, calls);
    }
  }

  /** The verdicts from the i-th call on are those of the limiter after the first i. */
  lemma {:induction false} VerdictAfter(c: Config, calls: seq<Call>, i: int, j: int, m: int)
    requires 0 <= i <= j < |calls| && m == j - i
    ensures Verdicts(c, false, map[], calls)[j]
            == Verdicts(c, false, StateAfter(c, false, map[], calls[..i]), calls[i..])[m]
  {
    hide Verdicts, StateAfter;
    assert calls == calls[..i] + calls[i..];
    VerdictsSplit(c, false, map[], calls[..i], calls[i..]);
  }

  lemma {:induction false} HintInRun(c: Config, calls: seq<Call>, i: int, j: int)
    requires ValidConfig(c) && Disordered(calls, 0) && 0 <= i < j < |calls| && calls[i].key == calls[j].key
    requires !Verdicts(c, false, map[], calls)[i].allowed
    requires var s := StateAfter(c, false, map[], calls[..i]);
             calls[i].key in s ==> 0 < s[calls[i].key].start <= calls[i].at
    ensures var v := Verdicts(c, false, map[], calls);
            var until: int := calls[i].at + v[i].retryAfter;
            && 0 < v[i].retryAfter <= c.window
            && (calls[j].at < until ==> !v[j].allowed)
            && (FirstFrom(calls[i + 1..], calls[i].key, until, j - i - 1) ==> v[j].allowed)
  {
    hide Judge, After, StateAfter, Verdicts, FirstFrom;
    var (u, call, rest, m) := (StateAfter(c, false, map[], calls[..i]), calls[i], calls[i + 1..], j - i);
    assert calls[i..] == [call] + rest && rest[m - 1] == calls[j];
    VerdictAfter(c, calls, i, i, 0);
    VerdictAfter(c, calls, i, j, m);
    FirstVerdict(c, u, call, rest);
    HintHolds(c, u, call, rest, m);
  }

  lemma {:induction false} FirstVerdict(c: Config, u: Entries, call: Call, rest: seq<Call>)
    ensures Verdicts(c, false, u, [call] + rest)[0] == Judge(c, u, call.key, call.at)
  {
    hide Judge, After;
  }
}
