/** The dashboard's event broker, internal/dashboard/broker.go: bounded, lossy fan-out.
    The class runs the loops; the step machine interleaves publishers, subscribers and
    unsubscriptions. */
module Broker {
  import opened Message

  const CAPACITY := 16

  /** select { case ch <- event: default: } on a channel of this capacity. */
  function Offered(buffer: seq<Webhook>, event: Webhook): seq<Webhook> {
    if |buffer| < CAPACITY then buffer + [event] else buffer
  }

  class Channel {
    var buffer: seq<Webhook>
    var open: bool

    constructor ()
      ensures buffer == [] && open
    {
      buffer, open := [], true;
    }

    /** A send on a closed channel panics. */
    method Offer(event: Webhook)
      requires open
      modifies this`buffer
      ensures buffer == Offered(old(buffer), event)
      ensures buffer == if |old(buffer)| < 16 then old(buffer) + [event] else old(buffer)
    {
      if |buffer| < CAPACITY { buffer := buffer + [event]; }
    }
  }

  class Broker {
    var clients: set<Channel>

    ghost predicate Valid()
      reads this, clients
    {
      forall ch | ch in clients :: ch.open && |ch.buffer| <= CAPACITY
    }

    constructor ()
      ensures Valid() && clients == {}
    {
      clients := {};
    }

    /** Every subscriber is offered the event once, in no particular order. */
    method Publish(event: Webhook)
      requires Valid()
      modifies clients
      ensures Valid() && clients == old(clients)
      ensures forall ch | ch in clients ::
                ch.buffer == if |old(ch.buffer)| < 16 then old(ch.buffer) + [event] else old(ch.buffer)
    {
      var rest := clients;
      while rest != {}
        invariant rest <= clients && Valid()
        invariant forall ch | ch in rest :: ch.buffer == old(ch.buffer)
        invariant forall ch | ch in clients - rest :: ch.buffer == Offered(old(ch.buffer), event)
        decreases |rest|
      {
        var ch :| ch in rest;
        rest := rest - {ch};
        ch.Offer(event);
      }
    }

    method Subscribe() returns (ch: Channel)
      requires Valid()
      modifies this
      ensures Valid() && fresh(ch) && clients == old(clients) + {ch} && ch.buffer == []
    {
      ch := new Channel();
      clients := clients + {ch};
    }

    /** The closure Subscribe returns, called once: what is buffered stays readable. */
    method Unsubscribe(ch: Channel)
      requires Valid() && ch in clients
      modifies this, ch`open
      ensures Valid() && clients == old(clients) - {ch} && !ch.open
    {
      clients := clients - {ch};
      ch.open := false;
    }
  }

  // ---- every interleaving ----

  /** A subscription: its channel, whether it is still a client, what was taken from the
      channel; then what was published while it was a client, and how often its buffer
      was full. */
  datatype Sub = Sub(buffer: seq<Webhook>, subscribed: bool, closed: bool, taken: seq<Webhook>, published: seq<Webhook>,
      missed: nat)

  datatype Step = Publish(event: Webhook) | Subscribe(id: nat) | Receive(id: nat) | Unsubscribe(id: nat)

  type Subs = map<nat, Sub>

  function AfterPublish(sub: Sub, event: Webhook): Sub {
    if !sub.subscribed then sub
    else sub.(buffer := Offered(sub.buffer, event), published := sub.published + [event],
              missed := if |sub.buffer| < CAPACITY then sub.missed else sub.missed + 1)
  }

  predicate Enabled(subs: Subs, step: Step) {
    match step
    case Publish(_) => true
    case Subscribe(id) => id !in subs
    case Receive(id) => id in subs && subs[id].buffer != []
    case Unsubscribe(id) => id in subs && subs[id].subscribed
  }

  function Apply(subs: Subs, step: Step): Subs
    requires Enabled(subs, step)
  {
    match step
    case Publish(event) => map id | id in subs :: AfterPublish(subs[id], event)
    case Subscribe(id) => subs[id := Sub([], true, false, [], [], 0)]
    case Receive(id) =>
      var sub := subs[id];
      subs[id := sub.(buffer := sub.buffer[1..], taken := sub.taken + [sub.buffer[0]])]
    case Unsubscribe(id) => subs[id := subs[id].(subscribed := false, closed := true)]
  }

  predicate ValidRun(subs: Subs, steps: seq<Step>)
    decreases |steps|
  {
    steps == [] || (Enabled(subs, steps[0]) && ValidRun(Apply(subs, steps[0]), steps[1..]))
  }

  function Run(subs: Subs, steps: seq<Step>): Subs
    requires ValidRun(subs, steps)
    decreases |steps|
  {
    if steps == [] then subs else Run(Apply(subs, steps[0]), steps[1..])
  }

  /** part is what is left of whole after leaving some events out. */
  predicate Subsequence<T(==)>(part: seq<T>, whole: seq<T>)
    decreases |whole|
  {
    part == []
    || (whole != []
        && (|| (part[|part| - 1] == whole[|whole| - 1] && Subsequence(part[..|part| - 1], whole[..|whole| - 1]))
            || Subsequence(part, whole[..|whole| - 1])))
  }

  lemma {:induction false} SubsequenceGrows<T>(part: seq<T>, whole: seq<T>, x: T)
    requires Subsequence(part, whole)
    ensures Subsequence(part + [x], whole + [x]) && Subsequence(part, whole + [x])
  {
    assert (part + [x])[..|part|] == part && (whole + [x])[..|whole|] == whole;
  }

  /** In order, at most once, nothing invented, losses counted. */
  predicate Faithful(sub: Sub) {
    && |sub.buffer| <= CAPACITY && !(sub.subscribed && sub.closed)
    && Subsequence(sub.taken + sub.buffer, sub.published)
    && |sub.taken| + |sub.buffer| + sub.missed == |sub.published|
  }

  lemma {:induction false} PublishKeeps(sub: Sub, event: Webhook)
    requires Faithful(sub)
    ensures Faithful(AfterPublish(sub, event))
  {
    SubsequenceGrows(sub.taken + sub.buffer, sub.published, event);
    assert sub.taken + (sub.buffer + [event]) == sub.taken + sub.buffer + [event];
    hide Subsequence;
  }

  ghost predicate AllFaithful(subs: Subs) {
    forall id | id in subs :: Faithful(subs[id])
  }

  lemma {:induction false} StepKeeps(subs: Subs, step: Step)
    requires AllFaithful(subs) && Enabled(subs, step)
    ensures AllFaithful(Apply(subs, step))
  {
    match step
    case Publish(event) => forall id | id in subs
        ensures Faithful(AfterPublish(subs[id], event)) { PublishKeeps(subs[id], event); }
    case Subscribe(_) =>
    case Receive(id) =>
      var sub := subs[id];
      assert sub.taken + [sub.buffer[0]] + sub.buffer[1..] == sub.taken + sub.buffer;
    case Unsubscribe(_) =>
    hide Subsequence;
  }

  /** In every run each subscriber's events, taken or still buffered, are a subsequence of
      what was published while it was subscribed, at most 16 are buffered, one is lost
      exactly each time the buffer is full, and no publish meets a closed channel. */
  lemma {:induction false} FanOutIsFaithful(subs: Subs, steps: seq<Step>)
    requires AllFaithful(subs) && ValidRun(subs, steps)
    ensures AllFaithful(Run(subs, steps))
    decreases |steps|
  {
    hide AllFaithful, Apply, Enabled;
    if steps != [] {
      StepKeeps(subs, steps[0]);
      FanOutIsFaithful(Apply(subs, steps[0]), steps[1..]);
    }
  }

  lemma {:induction false} SubsequenceOfSameLength<T>(part: seq<T>, whole: seq<T>)
    requires Subsequence(part, whole)
    ensures |part| <= |whole| && (|part| == |whole| ==> part == whole)
    decreases |whole|
  {
    if part != [] {
      var (p, w) := (part[..|part| - 1], whole[..|whole| - 1]);
      if part[|part| - 1] == whole[|whole| - 1] && Subsequence(p, w) {
        SubsequenceOfSameLength(p, w);
        assert part == p + [part[|part| - 1]] && whole == w + [whole[|whole| - 1]];
      } else {
        SubsequenceOfSameLength(part, w);
      }
    }
  }

  /** What these steps publish while `id` is subscribed. */
  function Heard(steps: seq<Step>, id: nat, subscribed: bool): seq<Webhook> {
    if steps == [] then []
    else match steps[0]
      case Publish(event) => (if subscribed then [event] else []) + Heard(steps[1..], id, subscribed)
      case Subscribe(other) => Heard(steps[1..], id, subscribed || other == id)
      case Unsubscribe(other) => Heard(steps[1..], id, subscribed && other != id)
      case Receive(_) => Heard(steps[1..], id, subscribed)
  }

  lemma {:induction false} PublishedIsHeard(subs: Subs, steps: seq<Step>, id: nat)
    requires ValidRun(subs, steps) && id in Run(subs, steps)
    ensures Run(subs, steps)[id].published
            == (if id in subs then subs[id].published else []) + Heard(steps, id, id in subs && subs[id].subscribed)
    decreases |steps|
  {
    if steps != [] {
      PublishedIsHeard(Apply(subs, steps[0]), steps[1..], id);
      hide Run, ValidRun, Offered;
    }
  }

  /** What a subscriber took and still has buffered is, in order, what was published between
      its subscription and its unsubscription, but for some events it missed. */
  lemma {:induction false} SubscribersHear(steps: seq<Step>, id: nat)
    requires ValidRun(map[], steps) && id in Run(map[], steps)
    ensures var sub := Run(map[], steps)[id];
            && Subsequence(sub.taken + sub.buffer, Heard(steps, id, false)) && |sub.buffer| <= 16
            && |sub.taken| + |sub.buffer| + sub.missed == |Heard(steps, id, false)|
  {
    PublishedIsHeard(map[], steps, id);
    FanOutIsFaithful(map[], steps);
    hide Run, ValidRun, Heard, Subsequence;
    var sub := Run(map[], steps)[id];
    assert Faithful(sub);
    assert sub.published == Heard(steps, id, false);
  }

  /** A subscriber whose buffer was never full when an event came gets every event. */
  lemma {:induction false} NoLossWithoutFullBuffer(steps: seq<Step>, id: nat)
    requires ValidRun(map[], steps) && id in Run(map[], steps)
    ensures var sub := Run(map[], steps)[id];
            sub.missed == 0 <==> sub.taken + sub.buffer == sub.published
  {
    FanOutIsFaithful(map[], steps);
    hide Run, ValidRun;
    var sub := Run(map[], steps)[id];
    assert Faithful(sub);
    SubsequenceOfSameLength(sub.taken + sub.buffer, sub.published);
    hide Subsequence;
  }
}
