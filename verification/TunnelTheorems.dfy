/** The promises of the tunnel, over every run of its machine. */
module TunnelTheorems {
  import opened Wrappers
  import opened Decimal
  import opened Message
  import opened Tunnel
  import opened TunnelProofs

  // ---- runs ----

  lemma {:induction false} RunConcat(s: State, a: seq<Step>, b: seq<Step>)
    requires ValidRun(s, a) && ValidRun(Run(s, a), b)
    ensures ValidRun(s, a + b) && Run(s, a + b) == Run(Run(s, a), b)
    decreases |a|
  {
    hide Enabled, Apply;
    if a == [] {
      assert a + b == b;
    } else {
      assert (a + b)[0] == a[0] && (a + b)[1..] == a[1..] + b;
      RunConcat(Apply(s, a[0]), a[1..], b);
    }
  }

  lemma {:induction false} IssuedStep(s: State, step: Step)
    requires Enabled(s, step)
    ensures s.issued <= Apply(s, step).issued
  {
    hide FormatUint, ClientReply;
  }

  lemma {:induction false} IssuedGrows(s: State, steps: seq<Step>)
    requires ValidRun(s, steps)
    ensures s.issued <= Run(s, steps).issued
    decreases |steps|
  {
    hide Apply, Enabled;
    if steps != [] {
      IssuedStep(s, steps[0]);
      IssuedGrows(Apply(s, steps[0]), steps[1..]);
    }
  }

  /** The invariant holds in every state reached before the counter wraps. */
  lemma {:induction false} RunKeepsInv(s: State, steps: seq<Step>)
    requires Inv(s) && ValidRun(s, steps) && Run(s, steps).issued <= COUNTER_MODULUS
    ensures Inv(Run(s, steps))
    decreases |steps|
  {
    hide Inv, Apply, Enabled;
    if steps != [] {
      IssuedGrows(Apply(s, steps[0]), steps[1..]);
      InvKept(s, steps[0]);
      RunKeepsInv(Apply(s, steps[0]), steps[1..]);
    }
  }

  /** Reached from the start. */
  ghost predicate Reachable(s: State) {
    exists steps :: ValidRun(INITIAL, steps) && Run(INITIAL, steps) == s
  }

  /** With at most 2^64 correlation ids handed out. */
  ghost predicate Reached(s: State) {
    s.issued <= COUNTER_MODULUS && Reachable(s)
  }

  lemma {:induction false} ReachedInv(s: State)
    requires Reached(s)
    ensures Inv(s)
  {
    var steps :| ValidRun(INITIAL, steps) && Run(INITIAL, steps) == s;
    InitialInv();
    RunKeepsInv(INITIAL, steps);
  }

  // ---- correlation ----

  /** Every call that came back with a response holds what the client program computed
      for that call's own request, and that request went over the wire once. */
  ghost predicate Correlated(s: State) {
    forall t | t in s.senders && s.senders[t].Finished? && s.senders[t].result.Reply? ::
      exists k :: AnsweredBy(s, t, k)
  }

  ghost predicate AnsweredBy(s: State, t: nat, k: int)
    requires t in s.senders && s.senders[t].Finished? && s.senders[t].result.Reply?
  {
    && ReplyTo(s.sent, s.handled, k, s.senders[t].result.resp)
    && s.sent[k] == s.senders[t].req
    && (forall j | 0 <= j < |s.sent| && j != k :: s.sent[j].id != s.sent[k].id)
  }

  lemma {:induction false} InvCorrelates(s: State)
    requires Inv(s)
    ensures Correlated(s)
  {
    forall t | t in s.senders && s.senders[t].Finished? && s.senders[t].result.Reply?
      ensures exists k :: AnsweredBy(s, t, k)
    {
      var p := s.senders[t];
      assert GoodResult(s.sent, s.handled, p);
      var k :| ReplyTo(s.sent, s.handled, k, p.result.resp);
      assert WrittenByOwner(s.owner, s.senders, s.sent[k]);
      assert AnsweredBy(s, t, k);
    }
  }

  /** A request's content, apart from the correlation id. */
  function Content(req: Request): Request {
    req.(id := "")
  }

  lemma {:induction false} ContentStep(s: State, step: Step, t: nat)
    requires Enabled(s, step) && t in s.senders
    ensures t in Apply(s, step).senders && Content(Apply(s, step).senders[t].req) == Content(s.senders[t].req)
  {
    hide FormatUint, ClientReply;
  }

  /** The request call t sends is the one it was called with. */
  lemma {:induction false} ContentKept(s: State, steps: seq<Step>, t: nat)
    requires ValidRun(s, steps) && t in s.senders
    ensures t in Run(s, steps).senders && Content(Run(s, steps).senders[t].req) == Content(s.senders[t].req)
    decreases |steps|
  {
    hide Apply, Enabled;
    if steps != [] {
      ContentStep(s, steps[0], t);
      ContentKept(Apply(s, steps[0]), steps[1..], t);
    }
  }

  lemma {:induction false} CallSendsItsRequest(s: State, t: nat, req: Request, steps: seq<Step>)
    requires ValidRun(s, [Call(t, req)] + steps)
    ensures var s' := Run(s, [Call(t, req)] + steps);
            t in s'.senders && Content(s'.senders[t].req) == Content(req.WithType())
  {
    var all := [Call(t, req)] + steps;
    assert all[0] == Call(t, req) && all[1..] == steps;
    ContentKept(Apply(s, all[0]), steps, t);
  }

  // ---- after the counter wraps ----

  /** n calls, named from t on, that get an id and stop there. */
  function Burn(t: nat, n: nat): seq<Step>
    decreases n
  {
    if n == 0 then [] else [Call(t, BLANK), Number(t)] + Burn(t + 1, n - 1)
  }

  const BLANK := Request("", "", "", "", map[], "", false, Timestamps.Civil(1, 1, 1, 0, 0, 0, 0))

  /** Burning ids leaves everything else as it was. */
  ghost predicate OnlyNumbered(s: State, s': State, n: nat) {
    && s' == s.(counter := s'.counter, issued := s'.issued, owner := s'.owner, senders := s'.senders)
    && s'.issued == s.issued + n && s'.counter == s'.issued % COUNTER_MODULUS
    && (forall u | u in s.senders :: u in s'.senders && s'.senders[u] == s.senders[u])
  }

  lemma {:induction false} BurnOne(s: State, t: nat) returns (s': State)
    requires s.counter == s.issued % COUNTER_MODULUS && t !in s.senders
    ensures ValidRun(s, [Call(t, BLANK), Number(t)]) && s' == Run(s, [Call(t, BLANK), Number(t)])
    ensures OnlyNumbered(s, s', 1) && s'.senders.Keys == s.senders.Keys + {t}
  {
    hide FormatUint, ValidRun, Run;
    var mid := s.(senders := s.senders[t := Begun(BLANK.WithType())]);
    assert mid == Apply(s, Call(t, BLANK));
    s' := Apply(mid, Number(t));
    assert s'.counter == s'.issued % COUNTER_MODULUS by { NextCounter(s.issued); }
    StepsOneByOne(s, [Call(t, BLANK), Number(t)], [s, mid, s']);
  }

  lemma {:induction false} NextCounter(n: nat)
    ensures (n % COUNTER_MODULUS + 1) % COUNTER_MODULUS == (n + 1) % COUNTER_MODULUS
  {
  }

  lemma {:induction false} BurnRuns(s: State, t: nat, n: nat) returns (s': State)
    requires s.counter == s.issued % COUNTER_MODULUS && forall u | u in s.senders :: u < t
    ensures ValidRun(s, Burn(t, n)) && s' == Run(s, Burn(t, n)) && OnlyNumbered(s, s', n)
    ensures forall u | u in s'.senders :: u < t + n
    decreases n
  {
    hide Apply, Enabled;
    if n == 0 {
      s' := s;
    } else {
      var mid := BurnOne(s, t);
      s' := BurnRuns(mid, t + 1, n - 1);
      RunConcat(s, [Call(t, BLANK), Number(t)], Burn(t + 1, n - 1));
    }
  }

  /** One call has written its request and waits; nobody has read it yet. */
  ghost predicate Outstanding(s: State, req: Request) {
    && 0 in s.senders && s.senders[0] == Waiting(1, req) && req.id == IdOf(1) && req.kind == MESSAGE_REQUEST
    && s.pending == map[req.id := 0] && s.slots == map[] && !s.closed && !s.closing && s.reader == Reading
    && s.sent == [req] && s.taken == 0 && s.handled == [] && s.inbound == []
    && s.counter == s.issued % COUNTER_MODULUS
  }

  lemma {:induction false} OneOutstanding() returns (steps: seq<Step>, s: State, req: Request)
    ensures ValidRun(INITIAL, steps) && s == Run(INITIAL, steps)
    ensures Outstanding(s, req) && req.body == "" && s.issued == 1 && s.senders.Keys == {0}
  {
    hide FormatUint;
    steps := [Call(0, BLANK), Number(0), Insert(0), Write(0)];
    var s1 := Apply(INITIAL, Call(0, BLANK));
    var s2 := Apply(s1, Number(0));
    var s3 := Apply(s2, Insert(0));
    s := Apply(s3, Write(0));
    req := s.senders[0].req;
    StepsOneByOne(INITIAL, steps, [INITIAL, s1, s2, s3, s]);
  }

  /** Two calls with one id: both have written, the later one is in the pending map. */
  ghost predicate Collided(s: State, req: Request, other: Request, b: nat) {
    && b in s.senders && s.senders[b].Waiting? && s.senders[b].req == other && other.id == req.id
        && other.body != req.body
    && s.pending == map[req.id := b] && s.slots == map[] && !s.closed && !s.closing && s.reader == Reading
    && s.sent == [req, other] && s.taken == 0 && s.handled == [] && s.inbound == []
    && req.kind == other.kind == MESSAGE_REQUEST
    && b != 0 && 0 in s.senders && s.senders[0].Waiting? && s.senders[0].req == req
  }

  /** A second call now gets the same id... */
  lemma {:induction false} DrawsSameId(s: State, req: Request, b: nat, call: Request)
    requires Outstanding(s, req) && s.issued == COUNTER_MODULUS && b !in s.senders && call == BLANK.(body := "other")
    ensures ValidRun(s, [Call(b, call), Number(b)])
    ensures var end := Run(s, [Call(b, call), Number(b)]);
            end == s.(senders := s.senders[b := Numbered(COUNTER_MODULUS + 1, call.WithType().(id := req.id))],
                      counter := end.counter, issued := COUNTER_MODULUS + 1, owner := end.owner)
  {
    hide FormatUint, ValidRun, Run, OnlyNumbered;
    assert (s.counter + 1) % COUNTER_MODULUS == 1 % COUNTER_MODULUS;
    var s1 := s.(senders := s.senders[b := Begun(call.WithType())]);
    assert s1 == Apply(s, Call(b, call));
    StepsOneByOne(s, [Call(b, call), Number(b)], [s, s1, Apply(s1, Number(b))]);
  }

  /** ...and overwrites the first one's entry. */
  lemma {:induction false} Collides(s: State, req: Request, b: nat)
    returns (steps: seq<Step>, s': State, other: Request)
    requires Outstanding(s, req) && req.body == "" && s.issued == COUNTER_MODULUS && b !in s.senders
    ensures ValidRun(s, steps) && s' == Run(s, steps) && s'.issued == COUNTER_MODULUS + 1
    ensures Collided(s', req, other, b)
  {
    hide FormatUint, ValidRun, Run, OnlyNumbered;
    var call := BLANK.(body := "other");
    DrawsSameId(s, req, b, call);
    other := call.WithType().(id := req.id);
    var s2 := Run(s, [Call(b, call), Number(b)]);
    var s3 := s2.(senders := s2.senders[b := Inserted(COUNTER_MODULUS + 1, other)], pending := map[req.id := b]);
    assert s3 == Apply(s2, Insert(b));
    s' := s3.(senders := s3.senders[b := Waiting(COUNTER_MODULUS + 1, other)], sent := [req, other]);
    assert s' == Apply(s3, Write(b));
    StepsOneByOne(s2, [Insert(b), Write(b)], [s2, s3, s']);
    steps := [Call(b, call), Number(b)] + [Insert(b), Write(b)];
    RunConcat(s, [Call(b, call), Number(b)], [Insert(b), Write(b)]);
  }

  /** The client answers the earlier request... */
  lemma {:induction false} AnswersEarlier(
      s: State, req: Request, other: Request, b: nat, answer: LocalOutcome)
    returns (mid: State)
    requires Collided(s, req, other, b)
    ensures mid == s.(taken := 1, handled := [Some(answer)], inbound := [ClientReply(req, answer)])
    ensures ValidRun(s, [ClientTake, ClientHandle(answer)]) && Run(s, [ClientTake, ClientHandle(answer)]) == mid
  {
    hide ClientReply, FormatUint;
    var first := s.(taken := 1);
    assert first == Apply(s, ClientTake);
    mid := s.(taken := 1, handled := [Some(answer)], inbound := [ClientReply(req, answer)]);
    assert mid == Apply(first, ClientHandle(answer));
    StepsOneByOne(s, [ClientTake, ClientHandle(answer)], [s, first, mid]);
  }

  lemma {:induction false} HandsOver(s: State, resp: Response, b: nat)
    requires s.reader.Reading? && s.inbound == [resp] && !Foreign(resp) && !s.closing
    requires resp.id in s.pending && s.pending[resp.id] == b && s.slots == map[]
    ensures ValidRun(s, [Read, Lookup, Offer])
    ensures Run(s, [Read, Lookup, Offer]) == s.(inbound := [], slots := map[b := resp])
  {
    var s1 := s.(inbound := [], reader := Looking(resp));
    assert s1 == Apply(s, Read);
    var s2 := s1.(reader := Offering(resp, b));
    assert s2 == Apply(s1, Lookup);
    var s3 := s.(inbound := [], slots := map[b := resp]);
    assert s3 == Apply(s2, Offer);
    StepsOneByOne(s, [Read, Lookup, Offer], [s, s1, s2, s3]);
  }

  /** ...and the read loop hands the answer to the later call. */
  lemma {:induction false} Misdelivered(
      s: State, req: Request, other: Request, b: nat, answer: LocalOutcome)
    returns (steps: seq<Step>)
    requires Collided(s, req, other, b)
    ensures ValidRun(s, steps)
    ensures Run(s, steps) == s.(taken := 1, handled := [Some(answer)], slots := map[b := ClientReply(req, answer)])
  {
    var resp := ClientReply(req, answer);
    assert resp.kind == MESSAGE_RESPONSE && resp.id == req.id;
    hide ClientReply, ValidRun, Run, FormatUint;
    var mid := AnswersEarlier(s, req, other, b, answer);
    HandsOver(mid, resp, b);
    steps := [ClientTake, ClientHandle(answer)] + [Read, Lookup, Offer];
    RunConcat(s, [ClientTake, ClientHandle(answer)], [Read, Lookup, Offer]);
  }

  lemma {:induction false} TakesOver(
      s: State, req: Request, other: Request, b: nat)
    returns (steps: seq<Step>, s': State)
    requires Collided(s, req, other, b)
    ensures ValidRun(s, steps) && s' == Run(s, steps) && s'.issued == s.issued
    ensures !Correlated(s')
  {
    var answer := Answered(200, "ok");
    var first := Misdelivered(s, req, other, b, answer);
    var mid := Run(s, first);
    TakeTheAnswer(mid, b);
    RunConcat(s, first, [Receive(b), Remove(b)]);
    steps := first + [Receive(b), Remove(b)];
    s' := Run(mid, [Receive(b), Remove(b)]);
    WrongAnswer(mid, s', other, b);
  }

  lemma {:induction false} WrongAnswer(s: State, s': State, other: Request, b: nat)
    requires b in s.senders && s.senders[b].Waiting? && s.senders[b].req == other && b in s.slots && !s.closing
    requires s' == Apply(Apply(s, Receive(b)), Remove(b))
    requires |s.handled| == 1 && |s.sent| == 2 && s.sent[0].body != other.body
    ensures s'.issued == s.issued && !Correlated(s')
  {
    hide ClientReply;
    assert forall k :: !AnsweredBy(s', b, k);
  }

  lemma {:induction false} StepsOneByOne(s: State, steps: seq<Step>, states: seq<State>)
    requires |states| == |steps| + 1 && states[0] == s
    requires forall i | 0 <= i < |steps| :: Enabled(states[i], steps[i]) && states[i + 1] == Apply(states[i], steps[i])
    ensures ValidRun(s, steps) && Run(s, steps) == states[|steps|]
    decreases |steps|
  {
    hide Enabled, Apply;
    if steps != [] { StepsOneByOne(Apply(s, steps[0]), steps[1..], states[1..]); }
  }

  /** Two calls with one id are reached with the first id after 2^64. */
  lemma {:induction false} CollidedReached() returns (steps: seq<Step>, s: State, req: Request, other: Request)
    ensures ValidRun(INITIAL, steps) && s == Run(INITIAL, steps) && s.issued == COUNTER_MODULUS + 1
    ensures Collided(s, req, other, COUNTER_MODULUS)
  {
    hide Collided, Outstanding, ValidRun, Run;
    var a, first, theirs := OneOutstanding();
    req := theirs;
    var full := FullCircle(first, req);
    RunConcat(INITIAL, a, Burn(1, COUNTER_MODULUS - 1));
    var b := a + Burn(1, COUNTER_MODULUS - 1);
    var c, last, second := Collides(full, req, COUNTER_MODULUS);
    RunConcat(INITIAL, b, c);
    steps, s, other := b + c, last, second;
  }

  lemma {:induction false} FullCircle(s: State, req: Request) returns (full: State)
    requires Outstanding(s, req) && s.issued == 1 && s.senders.Keys == {0}
    ensures ValidRun(s, Burn(1, COUNTER_MODULUS - 1)) && full == Run(s, Burn(1, COUNTER_MODULUS - 1))
    ensures Outstanding(full, req) && full.issued == COUNTER_MODULUS && COUNTER_MODULUS !in full.senders
  {
    hide ValidRun, Run, Burn;
    full := BurnRuns(s, 1, COUNTER_MODULUS - 1);
  }

  /** Correlation holds in every run that hands out at most n ids exactly when n is at
      most 2^64: one more, and a call can be answered with another call's response. */
  lemma {:induction false} CorrelationLimit(n: nat)
    ensures (forall steps | ValidRun(INITIAL, steps) && Run(INITIAL, steps).issued <= n ::
            Correlated(Run(INITIAL, steps)))
            <==> n <= 18_446_744_073_709_551_616
  {
    hide Correlated;
    if n <= COUNTER_MODULUS {
      forall steps | ValidRun(INITIAL, steps) && Run(INITIAL, steps).issued <= n
        ensures Correlated(Run(INITIAL, steps))
      {
        assert Reached(Run(INITIAL, steps));
        ReachedInv(Run(INITIAL, steps));
        InvCorrelates(Run(INITIAL, steps));
      }
    } else {
      var a, s, req, other := CollidedReached();
      var b, s' := TakesOver(s, req, other, COUNTER_MODULUS);
      RunConcat(INITIAL, a, b);
      assert Run(INITIAL, a + b) == s';
    }
  }

  // ---- closing ----

  /** Close holds the lock from raising the flag to having emptied the map. */
  predicate CloseOrder(s: State) {
    (s.closing ==> s.closed) && (s.closed && !s.closing ==> s.pending == map[])
  }

  lemma {:induction false} CloseOrderKept(s: State, step: Step)
    requires CloseOrder(s) && Enabled(s, step)
    ensures CloseOrder(Apply(s, step))
  {
    hide FormatUint, ClientReply;
  }

  lemma {:induction false} RunKeepsCloseOrder(s: State, steps: seq<Step>)
    requires CloseOrder(s) && ValidRun(s, steps)
    ensures CloseOrder(Run(s, steps))
    decreases |steps|
  {
    hide CloseOrder, Apply, Enabled;
    if steps != [] {
      CloseOrderKept(s, steps[0]);
      RunKeepsCloseOrder(Apply(s, steps[0]), steps[1..]);
    }
  }

  lemma {:induction false} ReachableOrder(s: State)
    requires Reachable(s)
    ensures CloseOrder(s)
  {
    var steps :| ValidRun(INITIAL, steps) && Run(INITIAL, steps) == s;
    hide ValidRun, Run;
    RunKeepsCloseOrder(INITIAL, steps);
  }

  /** Once the connection is closed it stays closed; once Close has let go of the lock
      the pending map is empty and stays empty. */
  lemma {:induction false} ClosedForGood(s: State, step: Step)
    requires Reachable(s) && Enabled(s, step) && s.closed
    ensures Apply(s, step).closed
    ensures !s.closing ==> s.pending == map[] && !Apply(s, step).closing && Apply(s, step).pending == map[]
  {
    ReachableOrder(s);
    hide Reachable, Apply, Enabled;
    StaysClosed(s, step);
  }

  lemma {:induction false} StaysClosed(s: State, step: Step)
    requires Enabled(s, step) && s.closed && (!s.closing ==> s.pending == map[])
    ensures Apply(s, step).closed && (!s.closing ==> !Apply(s, step).closing && Apply(s, step).pending == map[])
  {
    hide FormatUint, ClientReply;
  }

  // ---- what a call leaves behind ----

  /** A call that found the connection closed, or whose deadline passed, leaves it closed:
      Send closes the connection itself when it gives up waiting. */
  predicate ReturnsFit(s: State) {
    forall t | t in s.senders && (s.senders[t].Leaving? || s.senders[t].Finished?) ::
      s.senders[t].result == ClientClosed || s.senders[t].result == ContextDone ==> s.closed
  }

  /** Every pending entry is that of a call that has inserted it and not yet come back. */
  predicate OnlyInFlight(s: State) {
    forall id | id in s.pending ::
      && s.pending[id] in s.senders
      && var p := s.senders[s.pending[id]];
         (p.Inserted? || p.Waiting? || p.Closing? || p.Leaving?) && p.req.id == id
  }

  lemma {:induction false} ReturnsFitKept(s: State, step: Step)
    requires ReturnsFit(s) && Enabled(s, step)
    ensures ReturnsFit(Apply(s, step))
  {
    hide FormatUint, ClientReply;
  }

  lemma {:induction false} InFlightKept(s: State, step: Step)
    requires OnlyInFlight(s) && Enabled(s, step)
    ensures OnlyInFlight(Apply(s, step))
  {
    hide FormatUint, ClientReply;
  }

  lemma {:induction false} RunLeavesNothing(s: State, steps: seq<Step>)
    requires ReturnsFit(s) && OnlyInFlight(s) && ValidRun(s, steps)
    ensures ReturnsFit(Run(s, steps)) && OnlyInFlight(Run(s, steps))
    decreases |steps|
  {
    hide ReturnsFit, OnlyInFlight, Apply, Enabled;
    if steps != [] {
      ReturnsFitKept(s, steps[0]);
      InFlightKept(s, steps[0]);
      RunLeavesNothing(Apply(s, steps[0]), steps[1..]);
    }
  }

  /** Why a call comes back is what happened to it: refused or woken by a closed connection,
      a failed write, an answer in its slot, or a deadline that has closed the connection. */
  lemma {:induction false} ReasonsAreTrue(s: State, step: Step, t: nat)
    requires Enabled(s, step) && t in s.senders && !s.senders[t].Leaving? && !s.senders[t].Finished?
    requires var p := Apply(s, step).senders[t]; p.Leaving? || p.Finished?
    ensures var result := Apply(s, step).senders[t].result;
            match result
            case Reply(resp) => s.senders[t].Waiting? && t in s.slots && resp == s.slots[t]
            case ClientClosed => s.closed && (s.senders[t].Numbered? || s.senders[t].Waiting?)
            case WriteFailed => s.senders[t].Inserted? && step.FailWrite?
            case ContextDone => s.closed && s.senders[t].Closing?
  {
    hide FormatUint, ClientReply;
  }

  /** A call that has come back, however it did and however many ids were handed out, has no
      pending entry left; and if it gave up or was refused the connection is closed. */
  lemma {:induction false} CallsLeaveNothing(s: State, t: nat)
    requires Reachable(s) && t in s.senders && s.senders[t].Finished?
    ensures forall id | id in s.pending :: s.pending[id] != t
    ensures s.senders[t].result == ClientClosed || s.senders[t].result == ContextDone ==> s.closed
  {
    var steps :| ValidRun(INITIAL, steps) && Run(INITIAL, steps) == s;
    hide ValidRun, Run;
    RunLeavesNothing(INITIAL, steps);
  }

  /** The read loop has ended for good: it closes the connection before it is gone. */
  predicate ReaderEnds(s: State) {
    s.reader.Exiting? || (s.reader.Stopped? && s.closed)
  }

  lemma {:induction false} ReaderEndsKept(s: State, step: Step)
    requires ReaderEnds(s) && Enabled(s, step)
    ensures ReaderEnds(Apply(s, step)) && s.inbound <= Apply(s, step).inbound
  {
    hide FormatUint, ClientReply;
  }

  /** After a read error nothing more is read, in any run, and the loop is gone only when the
      connection is closed. */
  lemma {:induction false} ReadErrorEnds(s: State, steps: seq<Step>)
    requires Enabled(s, ReadError) && ValidRun(Apply(s, ReadError), steps)
    ensures ReaderEnds(Run(Apply(s, ReadError), steps)) && s.inbound <= Run(Apply(s, ReadError), steps).inbound
  {
    var ended := Apply(s, ReadError);
    hide Apply, Enabled;
    EndedStays(ended, steps);
  }

  lemma {:induction false} EndedStays(s: State, steps: seq<Step>)
    requires ReaderEnds(s) && ValidRun(s, steps)
    ensures ReaderEnds(Run(s, steps)) && s.inbound <= Run(s, steps).inbound
    decreases |steps|
  {
    hide Apply, Enabled, ReaderEnds;
    if steps != [] {
      ReaderEndsKept(s, steps[0]);
      EndedStays(Apply(s, steps[0]), steps[1..]);
    }
  }

  // ---- no lost wake-up ----

  /** Call t has its own pending entry, and the answer to its request, once computed, is on
      its way or in its slot. */
  ghost predicate CanBeWoken(s: State, t: nat)
    requires t in s.senders
  {
    && s.senders[t].req.id in s.pending && s.pending[s.senders[t].req.id] == t
    && (forall k | 0 <= k < |s.handled| && k < |s.sent| && s.sent[k] == s.senders[t].req ::
          && s.handled[k].Some?
          && OnItsWay(s.inbound, s.reader, s.slots, t, ClientReply(s.sent[k], s.handled[k].value)))
  }

  /** While the connection is open that holds for every waiting call. */
  ghost predicate NoLostWakeup(s: State) {
    !s.closed ==> forall t | t in s.senders && s.senders[t].Waiting? :: CanBeWoken(s, t)
  }

  lemma {:induction false} InvWakes(s: State)
    requires Inv(s)
    ensures NoLostWakeup(s)
  {
    forall t | !s.closed && t in s.senders && s.senders[t].Waiting? ensures CanBeWoken(s, t) {
      forall k | 0 <= k < |s.handled| && k < |s.sent| && s.sent[k] == s.senders[t].req
        ensures s.handled[k].Some?
        ensures OnItsWay(s.inbound, s.reader, s.slots, t, ClientReply(s.sent[k], s.handled[k].value))
      {
        assert Awaits(s.owner, s.senders, s.sent, k, t);
      }
      hide IdOf;
    }
  }

  /** No wake-up is lost in any run that hands out at most n ids, exactly when n is at most
      2^64: with one more the earlier of two calls loses its entry to the later. */
  lemma {:induction false} WakeupLimit(n: nat)
    ensures (forall steps | ValidRun(INITIAL, steps) && Run(INITIAL, steps).issued <= n ::
            NoLostWakeup(Run(INITIAL, steps)))
            <==> n <= 18_446_744_073_709_551_616
  {
    if n <= COUNTER_MODULUS {
      hide NoLostWakeup;
      forall steps | ValidRun(INITIAL, steps) && Run(INITIAL, steps).issued <= n
        ensures NoLostWakeup(Run(INITIAL, steps))
      {
        assert Reached(Run(INITIAL, steps));
        ReachedInv(Run(INITIAL, steps));
        InvWakes(Run(INITIAL, steps));
      }
    } else {
      var steps, s, req, other := CollidedReached();
      hide ValidRun, Run;
      assert !CanBeWoken(s, 0);
    }
  }

  // ---- late and repeated responses ----

  /** Two genuine responses to one id are the same response. */
  lemma {:induction false} GenuineUnique(s: State, a: Response, b: Response)
    requires Inv(s) && Genuine(s.sent, s.handled, a) && Genuine(s.sent, s.handled, b) && a.id == b.id
    ensures a == b
  {
    var j :| ReplyTo(s.sent, s.handled, j, a);
    var k :| ReplyTo(s.sent, s.handled, k, b);
  }

  /** A response that is on the wire, with the reader, in a slot or a call's result. */
  predicate InPlay(s: State, resp: Response) {
    || (resp in s.inbound && !Foreign(resp))
    || ((s.reader.Looking? || s.reader.Offering?) && s.reader.resp == resp)
    || (exists t :: t in s.slots && s.slots[t] == resp)
    || (exists t :: t in s.senders && (s.senders[t].Leaving? || s.senders[t].Finished?)
                    && s.senders[t].result == Reply(resp))
  }

  /** However often a response is repeated and however late it comes, it says the same; and
      one is dropped only when the slot holds that very response or no call of an open
      connection waits under its id. */
  ghost predicate RepeatsChangeNothing(s: State) {
    && (forall a, b | InPlay(s, a) && InPlay(s, b) && a.id == b.id :: a == b)
    && (s.reader.Offering? && s.reader.slot in s.slots ==> s.slots[s.reader.slot] == s.reader.resp)
    && (s.reader.Looking? && s.reader.resp.id !in s.pending && !s.closed ==>
          forall t | t in s.senders && s.senders[t].Waiting? :: s.senders[t].req.id != s.reader.resp.id)
  }

  lemma {:induction false} InPlayIsGenuine(s: State, resp: Response)
    requires Inv(s) && InPlay(s, resp)
    ensures Genuine(s.sent, s.handled, resp)
  {
    hide OwnerInv, WireInv, PendingInv, WakeInv, Genuine, Foreign;
    if t :| t in s.senders && (s.senders[t].Leaving? || s.senders[t].Finished?) && s.senders[t].result == Reply(resp) {
      assert GoodResult(s.sent, s.handled, s.senders[t]);
    }
  }

  lemma {:induction false} DropsMissNothing(s: State)
    requires Inv(s)
    ensures s.reader.Offering? && s.reader.slot in s.slots ==> s.slots[s.reader.slot] == s.reader.resp
    ensures s.reader.Looking? && s.reader.resp.id !in s.pending && !s.closed ==>
              forall t | t in s.senders && s.senders[t].Waiting? :: s.senders[t].req.id != s.reader.resp.id
  {
    if s.reader.Offering? && s.reader.slot in s.slots {
      var (a, b) := (s.slots[s.reader.slot], s.reader.resp);
      assert s.owner[a.id] == s.reader.slot && s.owner[b.id] == s.reader.slot;
      assert a.id == b.id;
      GenuineUnique(s, a, b);
    }
    hide IdOf;
  }

  lemma {:induction false} InvRepeats(s: State)
    requires Inv(s)
    ensures RepeatsChangeNothing(s)
  {
    hide Inv, InPlay;
    forall a, b | InPlay(s, a) && InPlay(s, b) && a.id == b.id ensures a == b {
      InPlayIsGenuine(s, a);
      InPlayIsGenuine(s, b);
      GenuineUnique(s, a, b);
    }
    DropsMissNothing(s);
  }

  /** Past 2^64 ids the client answers the later request too, and that answer meets a slot
      that is full of the earlier one's. */
  lemma {:induction false} LaterAnswerDropped(s: State, req: Request, other: Request, b: nat)
    returns (steps: seq<Step>, s': State)
    requires Collided(s, req, other, b)
    ensures ValidRun(s, steps) && s' == Run(s, steps) && s'.issued == s.issued && !RepeatsChangeNothing(s')
  {
    var (first, second) := (Answered(200, "ok"), Answered(201, "ok"));
    var begin := Misdelivered(s, req, other, b, first);
    var resp := ClientReply(other, second);
    assert resp.status == 201 && ClientReply(req, first).status == 200;
    assert resp.kind == MESSAGE_RESPONSE && resp.id == other.id;
    hide ValidRun, Run, FormatUint;
    var mid := Run(s, begin);
    var rest := SecondAnswer(mid, other, b, second);
    RunConcat(s, begin, rest);
    steps, s' := begin + rest, Run(mid, rest);
  }

  lemma {:induction false} SecondAnswer(s: State, other: Request, b: nat, answer: LocalOutcome)
    returns (steps: seq<Step>)
    requires |s.sent| == 2 && s.sent[1] == other && other.kind == MESSAGE_REQUEST && s.taken == 1 && |s.handled| == 1
    requires s.reader == Reading && s.inbound == [] && !s.closing && other.id in s.pending && s.pending[other.id] == b
    ensures ValidRun(s, steps)
    ensures Run(s, steps)
            == s.(taken := 2, handled := s.handled + [Some(answer)], reader := Offering(ClientReply(other, answer), b))
  {
    var resp := ClientReply(other, answer);
    assert resp.kind == MESSAGE_RESPONSE && resp.id == other.id;
    hide ClientReply, ValidRun, Run, FormatUint;
    steps := [ClientTake, ClientHandle(answer)] + [Read, Lookup];
    var mid := s.(taken := 2, handled := s.handled + [Some(answer)], inbound := [resp]);
    AnswersSecond(s, other, answer);
    ReadsAndFinds(mid, resp, b);
    RunConcat(s, [ClientTake, ClientHandle(answer)], [Read, Lookup]);
  }

  lemma {:induction false} AnswersSecond(s: State, other: Request, answer: LocalOutcome)
    requires |s.sent| == 2 && s.sent[1] == other && other.kind == MESSAGE_REQUEST && s.taken == 1 && |s.handled| == 1
    requires s.inbound == []
    ensures var steps := [ClientTake, ClientHandle(answer)];
            ValidRun(s, steps) && Run(s, steps)
            == s.(taken := 2, handled := s.handled + [Some(answer)], inbound := [ClientReply(other, answer)])
  {
    hide ClientReply, ValidRun, Run, FormatUint;
    var s1 := s.(taken := 2);
    assert s1 == Apply(s, ClientTake);
    var s2 := s1.(handled := s1.handled + [Some(answer)], inbound := [ClientReply(other, answer)]);
    assert s2 == Apply(s1, ClientHandle(answer));
    StepsOneByOne(s, [ClientTake, ClientHandle(answer)], [s, s1, s2]);
  }

  lemma {:induction false} ReadsAndFinds(s: State, resp: Response, b: nat)
    requires s.reader == Reading && s.inbound == [resp] && !s.closing && resp.kind == MESSAGE_RESPONSE
    requires resp.id in s.pending && s.pending[resp.id] == b
    ensures ValidRun(s, [Read, Lookup])
    ensures Run(s, [Read, Lookup]) == s.(inbound := [], reader := Offering(resp, b))
  {
    hide ValidRun, Run, FormatUint;
    var s1 := s.(inbound := [], reader := Looking(resp));
    assert s1 == Apply(s, Read);
    var s2 := s1.(reader := Offering(resp, b));
    assert s2 == Apply(s1, Lookup);
    StepsOneByOne(s, [Read, Lookup], [s, s1, s2]);
  }

  /** Late and repeated responses are harmless in every run that hands out at most n ids,
      exactly when n is at most 2^64. */
  lemma {:induction false} RepeatLimit(n: nat)
    ensures (forall steps | ValidRun(INITIAL, steps) && Run(INITIAL, steps).issued <= n ::
            RepeatsChangeNothing(Run(INITIAL, steps)))
            <==> n <= 18_446_744_073_709_551_616
  {
    hide RepeatsChangeNothing;
    if n <= COUNTER_MODULUS {
      forall steps | ValidRun(INITIAL, steps) && Run(INITIAL, steps).issued <= n
        ensures RepeatsChangeNothing(Run(INITIAL, steps))
      {
        assert Reached(Run(INITIAL, steps));
        ReachedInv(Run(INITIAL, steps));
        InvRepeats(Run(INITIAL, steps));
      }
    } else {
      var a, s, req, other := CollidedReached();
      var b, s' := LaterAnswerDropped(s, req, other, COUNTER_MODULUS);
      RunConcat(INITIAL, a, b);
      assert Run(INITIAL, a + b) == s';
    }
  }

  lemma {:induction false} ResultStays(s: State, step: Step, t: nat)
    requires Enabled(s, step) && t in s.senders && (s.senders[t].Leaving? || s.senders[t].Finished?)
    ensures var next := Apply(s, step).senders;
            t in next && (next[t].Leaving? || next[t].Finished?) && next[t].result == s.senders[t].result
  {
    hide FormatUint, ClientReply;
  }

  /** What a call came back with is settled: no later step of anyone changes it, in any run. */
  lemma {:induction false} ResultsAreFinal(s: State, steps: seq<Step>, t: nat)
    requires ValidRun(s, steps) && t in s.senders && (s.senders[t].Leaving? || s.senders[t].Finished?)
    ensures var end := Run(s, steps).senders;
            t in end && (end[t].Leaving? || end[t].Finished?) && end[t].result == s.senders[t].result
    decreases |steps|
  {
    hide Apply, Enabled;
    if steps != [] {
      ResultStays(s, steps[0], t);
      ResultsAreFinal(Apply(s, steps[0]), steps[1..], t);
    }
  }

  // ---- every call can come back ----

  predicate OwnStep(step: Step, t: nat) {
    step in {Number(t), Insert(t), FailWrite(t, false), Expire(t), CloseReturned(t), Remove(t), BeginClose, EndClose}
  }

  /** How many such steps a call still needs. */
  function Remaining(p: Sender, closed: bool, closing: bool): nat {
    (if closing then 1 else 0) +
    match p
    case Begun(_) => 4
    case Numbered(_, _) => 3
    case Inserted(_, _) => 2
    case Waiting(_, _) => if closed then 3 else 5
    case Closing(_, _) => if closed then 2 else 4
    case Leaving(_, _, _) => 1
    case Finished(_, _, _) => 0
  }

  function NextOwn(s: State, t: nat): Step
    requires t in s.senders
  {
    if s.closing then EndClose else
    match s.senders[t]
    case Begun(_) => Number(t)
    case Numbered(_, _) => Insert(t)
    case Inserted(_, _) => FailWrite(t, false)
    case Waiting(_, _) => Expire(t)
    case Closing(_, _) => if s.closed then CloseReturned(t) else BeginClose
    case Leaving(_, _, _) => Remove(t)
    case Finished(_, _, _) => EndClose
  }

  lemma {:induction false} NextOwnProgress(s: State, t: nat)
    requires t in s.senders && !s.senders[t].Finished? && (s.closing ==> s.closed)
    ensures Enabled(s, NextOwn(s, t)) && OwnStep(NextOwn(s, t), t)
    ensures var s' := Apply(s, NextOwn(s, t));
            t in s'.senders && (s'.closing ==> s'.closed)
            && Remaining(s'.senders[t], s'.closed, s'.closing) < Remaining(s.senders[t], s.closed, s.closing)
  {
    hide FormatUint;
  }

  /** Whatever the read loop and the peer do, a call can always come back, in at most
      six steps of its own and of Close: the deadline is never in vain. */
  lemma {:induction false} CanAlwaysReturn(s: State, t: nat) returns (steps: seq<Step>)
    requires t in s.senders && (s.closing ==> s.closed)
    ensures ValidRun(s, steps) && |steps| <= Remaining(s.senders[t], s.closed, s.closing) <= 6
    ensures forall i | 0 <= i < |steps| :: OwnStep(steps[i], t)
    ensures t in Run(s, steps).senders && Run(s, steps).senders[t].Finished?
    decreases Remaining(s.senders[t], s.closed, s.closing)
  {
    hide Apply, Enabled, OwnStep, NextOwn;
    if s.senders[t].Finished? {
      steps := [];
    } else {
      NextOwnProgress(s, t);
      var rest := CanAlwaysReturn(Apply(s, NextOwn(s, t)), t);
      steps := [NextOwn(s, t)] + rest;
      assert steps[0] == NextOwn(s, t) && steps[1..] == rest;
    }
  }

  // ---- every computed answer can arrive ----

  predicate ReaderStep(step: Step) {
    step in {Read, Lookup, Offer}
  }

  predicate ReaderAlive(reader: Reader) {
    reader.Reading? || reader.Looking? || reader.Offering?
  }

  function ReaderWork(s: State): nat {
    3 * |s.inbound| + (if s.reader.Looking? then 2 else if s.reader.Offering? then 1 else 0)
  }

  function NextRead(s: State): Step {
    if s.reader.Looking? then Lookup else if s.reader.Offering? then Offer else Read
  }

  /** How far the read loop is from having dealt with one message. */
  function ReaderSteps(s: State): nat {
    (if s.closing then 1 else 0) + if s.reader.Reading? then 3 else if s.reader.Looking? then 2 else 1
  }

  /** The read loop never blocks on a message: it deals with it, whatever it is and
      whether anyone waits for it, in at most three steps of its own, after the closer, if
      it holds the lock, let go of it; no Send has to move. */
  lemma {:induction false} ReaderNeverBlocks(s: State) returns (steps: seq<Step>)
    requires ReaderAlive(s.reader) && (s.reader.Reading? ==> s.inbound != [])
    ensures ValidRun(s, steps) && |steps| <= ReaderSteps(s) <= 4
    ensures forall i | 0 <= i < |steps| :: ReaderStep(steps[i]) || steps[i] == EndClose
    ensures var s' := Run(s, steps);
            && s'.reader.Reading? && s'.senders == s.senders && s'.closed == s.closed
            && s'.inbound == if s.reader.Reading? then s.inbound[1..] else s.inbound
    decreases ReaderSteps(s)
  {
    var step := if s.closing then EndClose else NextRead(s);
    ReaderTurn(s);
    var next := Apply(s, step);
    hide Apply, Enabled, ReaderStep, ReaderSteps, NextRead;
    assert [step][0] == step && [step][1..] == [];
    if next.reader.Reading? && !s.closing {
      assert ValidRun(next, []) && Run(next, []) == next;
      steps := [step];
    } else {
      var rest := ReaderNeverBlocks(next);
      steps := [step] + rest;
      assert steps[0] == step && steps[1..] == rest;
    }
  }

  /** One step towards it. */
  lemma {:induction false} ReaderTurn(s: State)
    requires ReaderAlive(s.reader) && (s.reader.Reading? ==> s.inbound != [])
    ensures var step := if s.closing then EndClose else NextRead(s);
            && Enabled(s, step) && (s.closing || ReaderStep(step))
            && var next := Apply(s, step);
               && ReaderAlive(next.reader)
               && (s.closing || !next.reader.Reading? ==> ReaderSteps(next) < ReaderSteps(s))
               && next.senders == s.senders && next.closed == s.closed && 1 <= ReaderSteps(s) <= 4
               && (s.closing ==> next.reader == s.reader && next.inbound == s.inbound && !next.closing)
               && (!s.closing ==>
                     next.inbound == (if s.reader.Reading? then s.inbound[1..] else s.inbound) && !next.closing)
  {
  }

  /** The connection is open, its read loop runs, and call t waits for the answer to
      the k-th request, which has been computed. */
  ghost predicate Due(s: State, t: nat, k: nat) {
    Inv(s) && !s.closed && ReaderAlive(s.reader) && k < |s.handled| && Awaits(s.owner, s.senders, s.sent, k, t)
  }

  lemma {:induction false} ReaderHasWork(s: State, t: nat, k: nat)
    requires WakeInv(s) && !s.closed && !s.closing && ReaderAlive(s.reader) && t !in s.slots
    requires k < |s.handled| && s.handled[k].Some? && Awaits(s.owner, s.senders, s.sent, k, t)
    ensures Enabled(s, NextRead(s))
  {
    assert OnItsWay(s.inbound, s.reader, s.slots, t, ClientReply(s.sent[k], s.handled[k].value));
    hide ClientReply;
  }

  lemma {:induction false} DueFacts(s: State, t: nat, k: nat)
    requires Due(s, t, k)
    ensures WakeInv(s) && !s.closing && k < |s.handled| && s.handled[k].Some? && k < |s.sent| && Inv(s)
  {
    hide WakeInv, IdOf;
  }

  lemma {:induction false} ReadFrame(s: State)
    requires ReaderAlive(s.reader) && Enabled(s, NextRead(s))
    ensures var s' := Apply(s, NextRead(s));
            ReaderWork(s') < ReaderWork(s) && ReaderAlive(s'.reader)
            && s' == s.(inbound := s'.inbound, reader := s'.reader, slots := s'.slots)
  {
  }

  lemma {:induction false} ReadStepKeepsDue(s: State, t: nat, k: nat)
    requires Due(s, t, k) && t !in s.slots && s.issued <= COUNTER_MODULUS
    ensures Enabled(s, NextRead(s)) && Due(Apply(s, NextRead(s)), t, k) && ReaderStep(NextRead(s))
    ensures var s' := Apply(s, NextRead(s));
            ReaderWork(s') < ReaderWork(s) && s'.sent == s.sent && s'.handled == s.handled && s'.issued == s.issued
  {
    DueFacts(s, t, k);
    ReaderHasWork(s, t, k);
    ReadFrame(s);
    hide Inv, Apply, Enabled, ReaderWork, WakeInv;
    InvKept(s, NextRead(s));
  }

  lemma {:induction false} DriveReader(s: State, t: nat, k: nat) returns (steps: seq<Step>)
    requires Due(s, t, k) && s.issued <= COUNTER_MODULUS
    ensures ValidRun(s, steps) && (forall i | 0 <= i < |steps| :: ReaderStep(steps[i]))
    ensures var s' := Run(s, steps);
            Due(s', t, k) && t in s'.slots && s'.sent == s.sent && s'.handled == s.handled && s'.issued == s.issued
    decreases ReaderWork(s)
  {
    hide Due, Apply, Enabled, ReaderStep, NextRead;
    if t in s.slots {
      steps := [];
    } else {
      ReadStepKeepsDue(s, t, k);
      var rest := DriveReader(Apply(s, NextRead(s)), t, k);
      steps := [NextRead(s)] + rest;
      assert steps[0] == NextRead(s) && steps[1..] == rest;
    }
  }

  lemma {:induction false} DueArrives(s: State, t: nat, k: nat) returns (steps: seq<Step>)
    requires Due(s, t, k) && s.issued <= COUNTER_MODULUS
    ensures ValidRun(s, steps) && forall i | 0 <= i < |steps| ::
            ReaderStep(steps[i]) || steps[i] == Receive(t) || steps[i] == Remove(t)
    ensures var s' := Run(s, steps);
            t in s'.senders && s'.senders[t].Finished? && k < |s.handled| && k < |s.sent| && s.handled[k].Some?
            && s'.senders[t].result == Reply(ClientReply(s.sent[k], s.handled[k].value))
  {
    hide Inv, WakeInv, Due, ReaderStep, ClientReply, Apply, Enabled, ValidRun, Run;
    DueFacts(s, t, k);
    var path := DriveReader(s, t, k);
    var s1 := Run(s, path);
    SlotHoldsTheAnswer(s1, t, k);
    TakeTheAnswer(s1, t);
    RunConcat(s, path, [Receive(t), Remove(t)]);
    steps := path + [Receive(t), Remove(t)];
  }

  /** With the connection open and its read loop running, a waiting call whose answer
      has been computed can always be given exactly that answer, by steps of the read
      loop and its own last two. */
  lemma {:induction false} AnswerCanArrive(s: State, t: nat, k: nat) returns (steps: seq<Step>)
    requires Reached(s) && !s.closed && ReaderAlive(s.reader)
    requires k < |s.handled| && k < |s.sent| && t in s.senders && s.senders[t].Waiting? && s.senders[t].req == s.sent[k]
    ensures ValidRun(s, steps) && forall i | 0 <= i < |steps| ::
            ReaderStep(steps[i]) || steps[i] == Receive(t) || steps[i] == Remove(t)
    ensures var s' := Run(s, steps);
            t in s'.senders && s'.senders[t].Finished? && s.handled[k].Some?
            && s'.senders[t].result == Reply(ClientReply(s.sent[k], s.handled[k].value))
  {
    ReachedInv(s);
    assert Due(s, t, k);
    hide Inv, WakeInv, Due, ReaderStep, ClientReply, Apply, Enabled, ValidRun, Run;
    steps := DueArrives(s, t, k);
  }

  lemma {:induction false} TakeTheAnswer(s: State, t: nat)
    requires Enabled(s, Receive(t)) && !s.closing
    ensures ValidRun(s, [Receive(t), Remove(t)])
    ensures var s' := Run(s, [Receive(t), Remove(t)]);
            s' == Apply(Apply(s, Receive(t)), Remove(t))
            && t in s'.senders && s'.senders[t].Finished? && s'.senders[t].result == Reply(s.slots[t])
  {
    var s1 := Apply(s, Receive(t));
    StepsOneByOne(s, [Receive(t), Remove(t)], [s, s1, Apply(s1, Remove(t))]);
  }

  lemma {:induction false} SlotHoldsTheAnswer(s: State, t: nat, k: nat)
    requires Due(s, t, k) && t in s.slots
    ensures Enabled(s, Receive(t)) && !s.closing && s.handled[k].Some?
    ensures s.slots[t] == ClientReply(s.sent[k], s.handled[k].value)
  {
    var answer := ClientReply(s.sent[k], s.handled[k].value);
    assert ReplyTo(s.sent, s.handled, k, answer);
    var held := s.slots[t];
    var j :| ReplyTo(s.sent, s.handled, j, held);
    assert WrittenByOwner(s.owner, s.senders, s.sent[j]) && WrittenByOwner(s.owner, s.senders, s.sent[k]);
    assert s.senders[t].req == s.sent[j] && s.senders[t].req == s.sent[k];
    GenuineUnique(s, held, answer);
  }
}
