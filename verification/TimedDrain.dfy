/** Why the periodic drain does not race live forwards (internal/relay/server.go): the
    relay with a clock. A hook's forward begins at most `slack` after its receive time and
    lasts at most `timeout`; a tick takes what is older than `minAge` by then. */
module TimedDrain {
  import opened Timestamps
  import opened Message
  import opened Store
  import opened Relay
  import opened RelayProofs
  import opened RelayTheorems
  import Delivering

  datatype Timing = Timing(slack: nat, timeout: nat, minAge: int)

  /** The relay, the time, and when each hook process began its live Send. */
  datatype Clocked = Clocked(relay: State, now: int, begun: map<Pid, int>)

  datatype Tick = Server(step: Step) | Pass(d: nat)

  /** A hook process is waiting for its live Send. */
  predicate Flying(procs: map<Pid, Proc>, pid: Pid) {
    pid in procs && procs[pid].HookProc? && procs[pid].h.HookSending?
  }

  /** A drain process is working on what a tick took. */
  predicate Taken(procs: map<Pid, Proc>, pid: Pid) {
    && pid in procs && procs[pid].DrainProc?
    && (procs[pid].d.Draining? || procs[pid].d.DrainSending? || procs[pid].d.DrainMarking?)
    && procs[pid].d.batch.round.Periodic?
  }

  /** Clock readings: the receive time is the time; a live forward begins within the slack;
      the age filter counts back from the time it runs, after the rows were read. */
  predicate OnTime(t: Timing, s: Clocked, step: Step) {
    match step
    case Spawn(_, HookProc(HookChecked(a))) => Instant(a.receivedAt) == s.now
    case Act(_, _, BeginSend(rec)) => rec.live ==> s.now <= Instant(rec.req.receivedAt) + t.slack
    case Act(pid, DrainProc(Draining(b)), _) =>
      pid in s.relay.procs && s.relay.procs[pid].DrainProc? && s.relay.procs[pid].d.DrainFetched? ==>
        b.todo == Delivering.OlderThan(s.relay.procs[pid].d.list, s.now - t.minAge)
    case _ => true
  }

  /** Time does not pass over the timeout of a Send that is waited for. */
  ghost predicate CanTick(c: Config, t: Timing, s: Clocked, tick: Tick) {
    match tick
    case Server(step) => Enabled(c, s.relay, step) && OnTime(t, s, step)
    case Pass(d) => forall pid | Flying(s.relay.procs, pid) && pid in s.begun :: s.now + d <= s.begun[pid] + t.timeout
  }

  function AfterTick(s: Clocked, tick: Tick): Clocked {
    match tick
    case Pass(d) => s.(now := s.now + d)
    case Server(step) =>
      s.(relay := Apply(s.relay, step),
         begun := if step.Act? && step.e.BeginSend? && step.e.rec.live then s.begun[step.pid := s.now] else s.begun)
  }

  ghost predicate TicksFrom(c: Config, t: Timing, s: Clocked, ticks: seq<Tick>)
    decreases |ticks|
  {
    ticks == [] || (CanTick(c, t, s, ticks[0]) && TicksFrom(c, t, AfterTick(s, ticks[0]), ticks[1..]))
  }

  function AfterTicks(s: Clocked, ticks: seq<Tick>): Clocked
    decreases |ticks|
  {
    if ticks == [] then s else AfterTicks(AfterTick(s, ticks[0]), ticks[1..])
  }

  function StartAt(now: int): Clocked {
    Clocked(INITIAL, now, map[])
  }

  ghost predicate TimedReached(c: Config, t: Timing, s: Clocked) {
    exists now, ticks :: TicksFrom(c, t, StartAt(now), ticks) && s == AfterTicks(StartAt(now), ticks)
  }

  lemma {:induction false} TicksConcat(c: Config, t: Timing, s: Clocked, a: seq<Tick>, b: seq<Tick>)
    requires TicksFrom(c, t, s, a) && TicksFrom(c, t, AfterTicks(s, a), b)
    ensures TicksFrom(c, t, s, a + b) && AfterTicks(s, a + b) == AfterTicks(AfterTicks(s, a), b)
    decreases |a|
  {
    hide AfterTick, CanTick;
    if a == [] {
      assert a + b == b;
    } else {
      assert (a + b)[1..] == a[1..] + b;
      TicksConcat(c, t, AfterTick(s, a[0]), a[1..], b);
    }
  }

  lemma {:induction false} TimedOn(c: Config, t: Timing, s: Clocked, tick: Tick)
    requires TimedReached(c, t, s) && CanTick(c, t, s, tick)
    ensures TimedReached(c, t, AfterTick(s, tick))
  {
    hide AfterTick, CanTick, StartAt;
    var now, ticks :| TicksFrom(c, t, StartAt(now), ticks) && s == AfterTicks(StartAt(now), ticks);
    assert [tick][0] == tick && [tick][1..] == [];
    assert TicksFrom(c, t, AfterTick(s, tick), []) && AfterTicks(AfterTick(s, tick), []) == AfterTick(s, tick);
    assert TicksFrom(c, t, s, [tick]) && AfterTicks(s, [tick]) == AfterTick(s, tick);
    TicksConcat(c, t, StartAt(now), ticks, [tick]);
  }

  // ---- what every timed run keeps ----

  /** This live Send began in time and is not over its timeout. */
  predicate FlightOk(t: Timing, now: int, begun: map<Pid, int>, pid: Pid, row: Webhook) {
    pid in begun && begun[pid] <= Instant(row.receivedAt) + t.slack && now <= begun[pid] + t.timeout
  }

  ghost predicate FlightsOk(t: Timing, s: Clocked) {
    forall pid | Flying(s.relay.procs, pid) :: FlightOk(t, s.now, s.begun, pid, s.relay.procs[pid].h.row)
  }

  ghost predicate AllOld(t: Timing, now: int, list: seq<Webhook>) {
    forall w | w in list :: Instant(w.receivedAt) < now - t.minAge
  }

  ghost predicate BatchesOk(t: Timing, s: Clocked) {
    forall pid | Taken(s.relay.procs, pid) :: AllOld(t, s.now, s.relay.procs[pid].d.batch.todo)
  }

  ghost predicate TimedInv(c: Config, t: Timing, s: Clocked) {
    Reached(c, s.relay) && FlightsOk(t, s) && BatchesOk(t, s)
  }

  /** A process only comes to wait for a live Send by beginning it. */
  lemma {:induction false} TakesOff(c: Config, s: State, pid: Pid, next: Proc, e: Effect)
    requires pid in s.procs && ProcStep(c, s.sh, s.procs[pid], next, e)
    requires next.HookProc? && next.h.HookSending?
    ensures e.BeginSend? && e.rec.live && e.rec.req.receivedAt == next.h.row.receivedAt
  {
    hide DrainStep, ReplayStep, TunnelStep, DeleteStep, KeyOf, SaveOutcome;
  }

  /** Only a hook process begins live Sends. */
  lemma {:induction false} LiveMeansHook(c: Config, s: State, pid: Pid, next: Proc, e: Effect)
    requires pid in s.procs && ProcStep(c, s.sh, s.procs[pid], next, e) && e.BeginSend? && e.rec.live
    ensures next.HookProc? && next.h.HookSending?
  {
    hide KeyOf, SaveOutcome, PendingAnswer, NewestFirst;
    match s.procs[pid]
    case HookProc(_) => hide DrainStep, ReplayStep, TunnelStep, DeleteStep;
    case DrainProc(_) => hide HookStep, ReplayStep, TunnelStep, DeleteStep;
    case ReplayProc(_) => hide HookStep, DrainStep, TunnelStep, DeleteStep;
    case TunnelProc(_) => hide HookStep, DrainStep, ReplayStep, DeleteStep;
    case DeleteProc(_) => hide HookStep, DrainStep, ReplayStep, TunnelStep;
  }

  lemma {:induction false} FlightsKept(c: Config, t: Timing, s: Clocked, pid: Pid, next: Proc, e: Effect)
    requires FlightsOk(t, s) && CanTick(c, t, s, Server(Act(pid, next, e)))
    ensures FlightsOk(t, AfterTick(s, Server(Act(pid, next, e))))
  {
    hide ProcStep, ApplyEffect, Instant;
    if next.HookProc? && next.h.HookSending? { TakesOff(c, s.relay, pid, next, e); }
    if e.BeginSend? && e.rec.live { LiveMeansHook(c, s.relay, pid, next, e); }
  }

  /** What a batch has to do was in it before, or was just taken by the age filter. */
  lemma {:induction false} BatchGrowsOld(c: Config, t: Timing, s: Clocked, pid: Pid, next: Proc, e: Effect)
    requires BatchesOk(t, s) && CanTick(c, t, s, Server(Act(pid, next, e)))
    requires Taken(s.relay.procs[pid := next], pid)
    ensures AllOld(t, s.now, next.d.batch.todo)
  {
    hide HookStep, ReplayStep, TunnelStep, DeleteStep, PendingAnswer, NewestFirst, Instant, Delivering.OlderThan;
    var p := s.relay.procs[pid];
    if p.d.DrainFetched? {
      Delivering.OlderThanPicks(p.d.list, s.now - t.minAge);
    } else {
      assert Taken(s.relay.procs, pid);
      assert forall w | w in next.d.batch.todo :: w in p.d.batch.todo;
    }
  }

  lemma {:induction false} BatchesKept(c: Config, t: Timing, s: Clocked, pid: Pid, next: Proc, e: Effect)
    requires BatchesOk(t, s) && CanTick(c, t, s, Server(Act(pid, next, e)))
    ensures BatchesOk(t, AfterTick(s, Server(Act(pid, next, e))))
  {
    var procs := s.relay.procs[pid := next];
    if Taken(procs, pid) { BatchGrowsOld(c, t, s, pid, next, e); }
    hide ProcStep, ApplyEffect, AllOld;
    assert forall q | q != pid && Taken(procs, q) :: Taken(s.relay.procs, q);
  }

  lemma {:induction false} TimePasses(c: Config, t: Timing, s: Clocked, d: nat)
    requires TimedInv(c, t, s) && CanTick(c, t, s, Pass(d))
    ensures TimedInv(c, t, AfterTick(s, Pass(d)))
  {
    hide Reached, Instant;
  }

  lemma {:induction false} TickKeeps(c: Config, t: Timing, s: Clocked, tick: Tick)
    requires TimedInv(c, t, s) && CanTick(c, t, s, tick)
    ensures TimedInv(c, t, AfterTick(s, tick))
  {
    match tick
    case Pass(d) => hide TimedInv, CanTick; TimePasses(c, t, s, d);
    case Server(step) =>
      ReachedOn(c, s.relay, step);
      hide Reached, Instant;
      match step {
        case Act(pid, next, e) =>
          FlightsKept(c, t, s, pid, next, e);
          BatchesKept(c, t, s, pid, next, e);
          hide FlightsOk, BatchesOk, Apply, Enabled;
        case Spawn(pid, p) => hide AllOld, FlightOk;
        case Environment(e) => hide ApplyEffect, AllOld, FlightOk;
        case Restart => hide AllOld, FlightOk;
      }
  }

  lemma {:induction false} TicksKeep(c: Config, t: Timing, s: Clocked, ticks: seq<Tick>)
    requires TimedInv(c, t, s) && TicksFrom(c, t, s, ticks)
    ensures TimedInv(c, t, AfterTicks(s, ticks))
    decreases |ticks|
  {
    hide TimedInv, CanTick, AfterTick;
    if ticks != [] {
      TickKeeps(c, t, s, ticks[0]);
      TicksKeep(c, t, AfterTick(s, ticks[0]), ticks[1..]);
    }
  }

  lemma {:induction false} TimedReachedInv(c: Config, t: Timing, s: Clocked)
    requires TimedReached(c, t, s)
    ensures TimedInv(c, t, s)
  {
    var now, ticks :| TicksFrom(c, t, StartAt(now), ticks) && s == AfterTicks(StartAt(now), ticks);
    assert ValidRun(c, INITIAL, []) && Run(INITIAL, []) == INITIAL;
    assert TimedInv(c, t, StartAt(now));
    hide TimedInv, TicksFrom, AfterTicks;
    TicksKeep(c, t, StartAt(now), ticks);
  }

  // ---- exclusion ----

  /** No webhook that a tick took and has still to deal with is being forwarded live. */
  ghost predicate NoRace(procs: map<Pid, Proc>) {
    forall p, q | Taken(procs, p) && Flying(procs, q) :: NotIn(procs[q].h.row.id, procs[p].d.batch.todo)
  }

  predicate NotIn(id: string, list: seq<Webhook>) {
    forall w | w in list :: w.id != id
  }

  ghost predicate Excluded(c: Config, t: Timing) {
    forall s | TimedReached(c, t, s) :: NoRace(s.relay.procs)
  }

  lemma {:induction false} OldIsNotFlying(c: Config, t: Timing, s: Clocked, p: Pid, q: Pid, w: Webhook)
    requires TimedInv(c, t, s) && t.minAge >= t.slack + t.timeout
    requires Taken(s.relay.procs, p) && Flying(s.relay.procs, q) && w in s.relay.procs[p].d.batch.todo
    ensures w.id != s.relay.procs[q].h.row.id
  {
    var row := s.relay.procs[q].h.row;
    assert FlightOk(t, s.now, s.begun, q, row) && AllOld(t, s.now, s.relay.procs[p].d.batch.todo);
    hide Reached, Instant;
    ReachedInv(c, s.relay);
    assert ProcOk(c, s.relay.sh, p, s.relay.procs[p]) && ProcOk(c, s.relay.sh, q, s.relay.procs[q]);
    hide SharedInv;
    assert KnownList(s.relay.sh.inserted, s.relay.procs[p].d.batch.token, s.relay.procs[p].d.batch.todo);
    assert KnownRow(s.relay.sh.inserted, w) && Mine(s.relay.sh, q, row);
    assert w.id == row.id ==> w.receivedAt == row.receivedAt;
  }

  // ---- a race, when the age floor is too low ----

  const RECEIVED: UtcTime := Civil(2024, 1, 1, 0, 0, 0, 0)
  const ARRIVAL := Arrival("t", "POST", "/", map[], "", RECEIVED)

  function Row(c: Config): Webhook {
    NewRow(c, ARRIVAL, "w")
  }

  /** A client is connected... */
  function Connected(): State {
    State(
      INITIAL.sh.(tokens := {"t"}, hub := map["t" := 7], clients := map[7 := Client("t", 1)]),
      map[1 := TunnelProc(TunnelOpen("t", 7))])
  }

  /** ...a webhook arrives and is stored... */
  function Saved(c: Config): State {
    var row := Row(c);
    State(
      Connected().sh.(rows := map["w" := row], inserted := map["w" := row], owner := map["w" := 2],
                      marks := map["w" := []], received := {DeliveryOf(row)}),
      Connected().procs[2 := HookProc(HookSaved(row))])
  }

  /** ...and forwarded live. */
  function Sent(c: Config): State {
    var rec := SendRecord("w", 7, RequestOf(Row(c), false), true);
    State(Saved(c).sh.(sends := [rec]), Saved(c).procs[2 := HookProc(HookSending(Row(c), 0))])
  }

  function WithDrain(c: Config, d: Drain): State {
    Sent(c).(procs := Sent(c).procs[3 := DrainProc(d)])
  }

  lemma {:induction false} Go(c: Config, t: Timing, s: Clocked, tick: Tick, next: Clocked)
    requires TimedReached(c, t, s) && CanTick(c, t, s, tick) && AfterTick(s, tick) == next
    ensures TimedReached(c, t, next)
  {
    hide TimedReached, CanTick, AfterTick;
    TimedOn(c, t, s, tick);
  }

  lemma {:induction false} ConnectedReached(c: Config, t: Timing, now: int)
    ensures TimedReached(c, t, Clocked(Connected(), now, map[]))
  {
    assert TicksFrom(c, t, StartAt(now), []) && AfterTicks(StartAt(now), []) == StartAt(now);
    assert TimedReached(c, t, StartAt(now));
    hide TimedReached;
    var s1 := State(INITIAL.sh.(tokens := {"t"}), map[]);
    Go(c, t, StartAt(now), Server(Environment(CreateToken("t"))), Clocked(s1, now, map[]));
    var s2 := s1.(procs := map[1 := TunnelProc(TunnelChecked("t"))]);
    Go(c, t, Clocked(s1, now, map[]), Server(Spawn(1, TunnelProc(TunnelChecked("t")))), Clocked(s2, now, map[]));
    var step := Act(1, TunnelProc(TunnelOpen("t", 7)), Register("t", 7));
    assert Apply(s2, step) == Connected();
    Go(c, t, Clocked(s2, now, map[]), Server(step), Clocked(Connected(), now, map[]));
  }

  lemma {:induction false} SavedReached(c: Config, t: Timing)
    ensures TimedReached(c, t, Clocked(Saved(c), Instant(RECEIVED), map[]))
  {
    hide TimedReached, Instant, KeyOf;
    var now := Instant(RECEIVED);
    ConnectedReached(c, t, now);
    var s1 := Connected().(procs := Connected().procs[2 := HookProc(HookChecked(ARRIVAL))]);
    Go(c, t, Clocked(Connected(), now, map[]), Server(Spawn(2, HookProc(HookChecked(ARRIVAL)))),
        Clocked(s1, now, map[]));
    var step := Act(2, HookProc(HookSaved(Row(c))), Insert(Row(c)));
    assert SaveOutcome(s1.sh.rows, Row(c)) == Store.Saved;
    assert Apply(s1, step) == Saved(c);
    Go(c, t, Clocked(s1, now, map[]), Server(step), Clocked(Saved(c), now, map[]));
  }

  lemma {:induction false} LookedUp(c: Config, t: Timing)
    ensures TimedReached(c, t, Clocked(Looking(c), Instant(RECEIVED) + t.slack, map[]))
  {
    hide TimedReached, Instant, KeyOf;
    var now := Instant(RECEIVED);
    SavedReached(c, t);
    var step := Act(2, HookProc(HookConnected(Row(c))), Nothing);
    Go(c, t, Clocked(Saved(c), now, map[]), Server(step), Clocked(Looking(c), now, map[]));
    Go(c, t, Clocked(Looking(c), now, map[]), Pass(t.slack), Clocked(Looking(c), now + t.slack, map[]));
  }

  function Looking(c: Config): State {
    Saved(c).(procs := Saved(c).procs[2 := HookProc(HookConnected(Row(c)))])
  }

  /** As late as may be, for as long as may be. */
  lemma {:induction false} SentReached(c: Config, t: Timing)
    ensures TimedReached(c, t, Clocked(Sent(c), Instant(RECEIVED) + t.slack + t.timeout,
            map[2 := Instant(RECEIVED) + t.slack]))
  {
    hide TimedReached, Instant, KeyOf;
    var late := Instant(RECEIVED) + t.slack;
    LookedUp(c, t);
    var step := Act(2, HookProc(HookSending(Row(c), 0)), BeginSend(SendRecord("w", 7, RequestOf(Row(c), false), true)));
    assert Apply(Looking(c), step) == Sent(c);
    Go(c, t, Clocked(Looking(c), late, map[]), Server(step), Clocked(Sent(c), late, map[2 := late]));
    Go(c, t, Clocked(Sent(c), late, map[2 := late]), Pass(t.timeout),
        Clocked(Sent(c), late + t.timeout, map[2 := late]));
  }

  lemma {:induction false} DrainGo(c: Config, t: Timing, s: Clocked, d: Drain, d': Drain)
    requires TimedReached(c, t, s) && s.relay == WithDrain(c, d) && DrainStep(s.relay.sh, d, d', Nothing)
    requires OnTime(t, s, Act(3, DrainProc(d'), Nothing))
    ensures TimedReached(c, t, s.(relay := WithDrain(c, d')))
  {
    hide TimedReached, DrainStep, OnTime, Sent;
    Go(c, t, s, Server(Act(3, DrainProc(d'), Nothing)), s.(relay := WithDrain(c, d')));
  }

  lemma {:induction false} WorkerReached(c: Config, t: Timing) returns (s: Clocked)
    ensures TimedReached(c, t, s) && s.relay == WithDrain(c, DrainStart("t", 7, 0))
    ensures s.now == Instant(RECEIVED) + t.slack + t.timeout
  {
    hide TimedReached, Instant, KeyOf;
    SentReached(c, t);
    var now := Instant(RECEIVED) + t.slack + t.timeout;
    var begun := map[2 := Instant(RECEIVED) + t.slack];
    s := Clocked(WithDrain(c, DrainStart("t", 7, 0)), now, begun);
    Go(c, t, Clocked(Sent(c), now, begun), Server(Spawn(3, DrainProc(DrainStart("t", 7, 0)))), s);
  }

  /** A drain worker whose first queries failed comes to its next tick. */
  lemma {:induction false} FetchedReached(c: Config, t: Timing) returns (s: Clocked)
    ensures TimedReached(c, t, s) && s.relay == WithDrain(c, DrainFetched("t", 7, 0, [Row(c)]))
    ensures s.now == Instant(RECEIVED) + t.slack + t.timeout
  {
    hide TimedReached, Instant, KeyOf;
    s := WorkerReached(c, t);
    assert PendingAnswer(s.relay.sh.rows, "t", [Row(c)]);
    hide PendingAnswer, Sent, Row;
    DrainGo(c, t, s, DrainStart("t", 7, 0), DrainReplays("t", 7, 0, {}));
    s := s.(relay := WithDrain(c, DrainReplays("t", 7, 0, {})));
    DrainGo(c, t, s, DrainReplays("t", 7, 0, {}), DrainIdle("t", 7, 0));
    s := s.(relay := WithDrain(c, DrainIdle("t", 7, 0)));
    DrainGo(c, t, s, DrainIdle("t", 7, 0), DrainFetched("t", 7, 0, [Row(c)]));
    s := s.(relay := WithDrain(c, DrainFetched("t", 7, 0, [Row(c)])));
  }

  lemma {:induction false} RaceShows(c: Config)
    ensures !NoRace(WithDrain(c, Draining(Batch("t", 7, 0, Periodic, [Row(c)], {}))).procs)
  {
    hide KeyOf;
    var procs := WithDrain(c, Draining(Batch("t", 7, 0, Periodic, [Row(c)], {}))).procs;
    assert Taken(procs, 3) && Flying(procs, 2);
    assert Row(c) in [Row(c)] && Row(c).id == "w";
  }

  lemma {:induction false} OldRow(c: Config, t: Timing, s: Clocked)
    requires s.now == Instant(RECEIVED) + t.slack + t.timeout && t.minAge < t.slack + t.timeout
    ensures Delivering.OlderThan([Row(c)], s.now - t.minAge) == [Row(c)]
  {
    hide Instant, KeyOf;
    assert [Row(c)][..0] == [];
  }

  lemma {:induction false} RaceReached(c: Config, t: Timing) returns (s: Clocked)
    requires t.minAge < t.slack + t.timeout
    ensures TimedReached(c, t, s) && !NoRace(s.relay.procs)
  {
    hide TimedReached, Instant, KeyOf;
    s := FetchedReached(c, t);
    OldRow(c, t, s);
    RaceShows(c);
    hide NoRace, Sent, Row, Delivering.OlderThan;
    var d' := Draining(Batch("t", 7, 0, Periodic, [Row(c)], {}));
    DrainGo(c, t, s, DrainFetched("t", 7, 0, [Row(c)]), d');
    s := s.(relay := WithDrain(c, d'));
  }

  /** In every timed run of the relay nothing a tick took is being forwarded live, from the
      age filter to the end of the batch, exactly when the age floor is at least the slack
      and the timeout together. */
  lemma {:induction false} AgeFloorExcludes(c: Config, t: Timing)
    ensures Excluded(c, t) <==> t.minAge >= t.slack + t.timeout
  {
    hide TimedReached, NoRace;
    if t.minAge >= t.slack + t.timeout {
      forall s | TimedReached(c, t, s) ensures NoRace(s.relay.procs) {
        TimedReachedInv(c, t, s);
        NoRaceThen(c, t, s);
      }
    } else {
      var s := RaceReached(c, t);
    }
  }

  lemma {:induction false} NoRaceThen(c: Config, t: Timing, s: Clocked)
    requires TimedInv(c, t, s) && t.minAge >= t.slack + t.timeout
    ensures NoRace(s.relay.procs)
  {
    hide TimedInv;
    forall p, q, w | Taken(s.relay.procs, p) && Flying(s.relay.procs, q) && w in s.relay.procs[p].d.batch.todo
      ensures w.id != s.relay.procs[q].h.row.id
    {
      OldIsNotFlying(c, t, s, p, q, w);
    }
  }

  /** With the relay's constants: no race if a hook starts its forward within 30 seconds. */
  lemma {:induction false} TicksDoNotRace(c: Config, s: Clocked)
    requires TimedReached(c, Timing(30_000_000_000, 30_000_000_000, 60_000_000_000), s)
    ensures NoRace(s.relay.procs)
  {
    hide TimedReached, NoRace;
    AgeFloorExcludes(c, Timing(30_000_000_000, 30_000_000_000, 60_000_000_000));
  }
}
