/** What every run of the tunnel machine keeps. */
module TunnelProofs {
  import opened Wrappers
  import opened Decimal
  import opened Message
  import opened Tunnel

  /** Ids drawn from the counter are pairwise distinct exactly until it wraps. */
  lemma {:induction false} IdsDistinct(n: nat)
    ensures (forall i: nat, j: nat | 1 <= i < j <= n :: IdOf(i) != IdOf(j)) <==> n <= COUNTER_MODULUS
  {
    if n <= COUNTER_MODULUS {
      forall i: nat, j: nat | 1 <= i < j <= n ensures IdOf(i) != IdOf(j) {
        FormatUintInjective(i % COUNTER_MODULUS, j % COUNTER_MODULUS);
      }
    } else {
      var (i, j) := (1, COUNTER_MODULUS + 1);
      assert i % COUNTER_MODULUS == j % COUNTER_MODULUS;
      assert IdOf(i) == IdOf(j);
    }
  }

  // ---- the invariant ----

  /** Has a correlation id. */
  predicate HasId(p: Sender) {
    !p.Begun?
  }

  /** Has its own entry in the pending map, unless Close took it. */
  predicate Registered(p: Sender) {
    p.Inserted? || p.Waiting? || p.Closing? || p.Leaving?
  }

  predicate PastWrite(p: Sender) {
    p.Waiting? || p.Closing? || p.Leaving? || p.Finished?
  }

  /** The same call, further on. */
  predicate SameCall(p: Sender, q: Sender) {
    HasId(p) && HasId(q) && p.serial == q.serial && p.req == q.req
  }

  /** Correlation ids belong to one call each. */
  ghost predicate OwnerInv(counter: nat, issued: nat, owner: map<string, nat>, senders: map<nat, Sender>) {
    && counter == issued % COUNTER_MODULUS
    && (forall t | t in senders && HasId(senders[t]) ::
          1 <= senders[t].serial <= issued && senders[t].req.id == IdOf(senders[t].serial)
          && senders[t].req.id in owner && owner[senders[t].req.id] == t)
    && (forall id | id in owner :: owner[id] in senders && HasId(senders[owner[id]]) && senders[owner[id]].req.id == id)
    && (forall t | t in senders :: senders[t].req.kind == MESSAGE_REQUEST)
  }

  /** req was written by the call that owns its id. */
  predicate WrittenByOwner(owner: map<string, nat>, senders: map<nat, Sender>, req: Request) {
    && req.id in owner && owner[req.id] in senders
    && PastWrite(senders[owner[req.id]]) && senders[owner[req.id]].req == req
  }

  /** What is on the wire was written once, by the call that owns its id. */
  ghost predicate WireInv(
    owner: map<string, nat>, senders: map<nat, Sender>, sent: seq<Request>, taken: nat,
    handled: seq<Option<LocalOutcome>>)
  {
    && |handled| <= taken <= |sent| && taken <= |handled| + 1
    && (forall k | 0 <= k < |sent| :: WrittenByOwner(owner, senders, sent[k]))
    && (forall j, k | 0 <= j < k < |sent| :: sent[j].id != sent[k].id)
    && (forall k | 0 <= k < |handled| :: handled[k].Some?)
  }

  /** resp is what the client program computed for the k-th request it read. */
  predicate ReplyTo(sent: seq<Request>, handled: seq<Option<LocalOutcome>>, k: int, resp: Response) {
    0 <= k < |handled| && k < |sent| && handled[k].Some? && resp == ClientReply(sent[k], handled[k].value)
  }

  ghost predicate Genuine(sent: seq<Request>, handled: seq<Option<LocalOutcome>>, resp: Response) {
    exists k :: ReplyTo(sent, handled, k, resp)
  }

  /** A call that has come back with a response has a genuine one to its own id. */
  ghost predicate GoodResult(sent: seq<Request>, handled: seq<Option<LocalOutcome>>, p: Sender) {
    (p.Leaving? || p.Finished?) && p.result.Reply? ==>
      Genuine(sent, handled, p.result.resp) && p.result.resp.id == p.req.id
  }

  ghost predicate ResultInv(senders: map<nat, Sender>, sent: seq<Request>, handled: seq<Option<LocalOutcome>>) {
    forall t | t in senders :: GoodResult(sent, handled, senders[t])
  }

  ghost predicate InboundInv(sent: seq<Request>, handled: seq<Option<LocalOutcome>>, inbound: seq<Response>) {
    forall i | 0 <= i < |inbound| :: Foreign(inbound[i]) || Genuine(sent, handled, inbound[i])
  }

  ghost predicate ReaderInv(
      owner: map<string, nat>, sent: seq<Request>, handled: seq<Option<LocalOutcome>>, reader: Reader) {
    && (reader.Looking? ==> Genuine(sent, handled, reader.resp))
    && (reader.Offering? ==>
          Genuine(sent, handled, reader.resp) && reader.resp.id in owner && owner[reader.resp.id] == reader.slot)
  }

  ghost predicate SlotInv(
    owner: map<string, nat>, sent: seq<Request>, handled: seq<Option<LocalOutcome>>, slots: map<nat, Response>)
  {
    forall t | t in slots :: Genuine(sent, handled, slots[t]) && slots[t].id in owner && owner[slots[t].id] == t
  }

  /** The pending map holds exactly the registered calls, until it is closed for good. */
  ghost predicate PendingInv(
    owner: map<string, nat>, senders: map<nat, Sender>, pending: map<string, nat>, closed: bool, closing: bool)
  {
    && (closing ==> closed)
    && (closed && !closing ==> pending == map[])
    && (forall id | id in pending ::
          id in owner && pending[id] == owner[id] && pending[id] in senders && Registered(senders[pending[id]]))
    && (!closed ==> forall t | t in senders && Registered(senders[t]) ::
          senders[t].req.id in pending && pending[senders[t].req.id] == t)
  }

  /** A response is on its way to call t, or already in its slot. */
  predicate OnItsWay(inbound: seq<Response>, reader: Reader, slots: map<nat, Response>, t: nat, resp: Response) {
    resp in inbound || reader == Looking(resp) || reader == Offering(resp, t) || t in slots
  }

  /** Call t waits for the answer to the k-th request. */
  predicate Awaits(owner: map<string, nat>, senders: map<nat, Sender>, sent: seq<Request>, k: int, t: nat) {
    0 <= k < |sent| && sent[k].id in owner && owner[sent[k].id] == t && t in senders && senders[t].Waiting?
  }

  /** No response to a waiting call is lost while the connection is open. */
  ghost predicate WakeInv(s: State) {
    !s.closed ==>
      forall k, t | 0 <= k < |s.handled| && s.handled[k].Some? && Awaits(s.owner, s.senders, s.sent, k, t) ::
        OnItsWay(s.inbound, s.reader, s.slots, t, ClientReply(s.sent[k], s.handled[k].value))
  }

  ghost predicate Inv(s: State) {
    && OwnerInv(s.counter, s.issued, s.owner, s.senders)
    && WireInv(s.owner, s.senders, s.sent, s.taken, s.handled)
    && ResultInv(s.senders, s.sent, s.handled)
    && InboundInv(s.sent, s.handled, s.inbound)
    && ReaderInv(s.owner, s.sent, s.handled, s.reader)
    && SlotInv(s.owner, s.sent, s.handled, s.slots)
    && PendingInv(s.owner, s.senders, s.pending, s.closed, s.closing)
    && WakeInv(s)
  }

  lemma {:induction false} InitialInv()
    ensures Inv(INITIAL)
  {
  }

  // ---- one call moves ----

  lemma {:induction false} OwnerMove(
      counter: nat, issued: nat, owner: map<string, nat>, senders: map<nat, Sender>, t: nat, next: Sender)
    requires OwnerInv(counter, issued, owner, senders) && t in senders && SameCall(senders[t], next)
    ensures OwnerInv(counter, issued, owner, senders[t := next])
  {
    hide IdOf;
  }

  lemma {:induction false} FreshId(counter: nat, issued: nat, owner: map<string, nat>, senders: map<nat, Sender>)
    requires OwnerInv(counter, issued, owner, senders) && issued < COUNTER_MODULUS
    ensures FormatUint((counter + 1) % COUNTER_MODULUS) == IdOf(issued + 1)
    ensures IdOf(issued + 1) !in owner
  {
    assert (counter + 1) % COUNTER_MODULUS == (issued + 1) % COUNTER_MODULUS;
    IdsDistinct(issued + 1);
    hide IdOf, FormatUint;
    forall id | id in owner ensures id != IdOf(issued + 1) {
      var call := senders[owner[id]];
      assert IdOf(call.serial) == id && 1 <= call.serial < issued + 1;
    }
  }

  lemma {:induction false} OwnerNumber(
      counter: nat, issued: nat, owner: map<string, nat>, senders: map<nat, Sender>, t: nat)
    requires OwnerInv(counter, issued, owner, senders) && t in senders && senders[t].Begun? && issued < COUNTER_MODULUS
    ensures var id := FormatUint((counter + 1) % COUNTER_MODULUS);
            && id !in owner
            && OwnerInv((counter + 1) % COUNTER_MODULUS, issued + 1, owner[id := t],
                        senders[t := Numbered(issued + 1, senders[t].req.(id := id))])
  {
    FreshId(counter, issued, owner, senders);
    hide IdOf, FormatUint;
  }

  lemma {:induction false} WireMove(
    owner: map<string, nat>, senders: map<nat, Sender>, sent: seq<Request>, taken: nat,
    handled: seq<Option<LocalOutcome>>,
    t: nat, next: Sender)
    requires WireInv(owner, senders, sent, taken, handled)
    requires t in senders && PastWrite(senders[t]) ==> PastWrite(next) && next.req == senders[t].req
    ensures WireInv(owner, senders[t := next], sent, taken, handled)
  {
  }

  lemma {:induction false} WireWrite(s: State, t: nat, next: Sender)
    requires Inv(s) && t in s.senders && s.senders[t].Inserted? && PastWrite(next) && next.req == s.senders[t].req
    ensures WireInv(s.owner, s.senders[t := next], s.sent + [next.req], s.taken, s.handled)
  {
    forall k | 0 <= k < |s.sent| ensures s.sent[k].id != next.req.id {
      assert WrittenByOwner(s.owner, s.senders, s.sent[k]);
    }
    WireMove(s.owner, s.senders, s.sent, s.taken, s.handled, t, next);
    hide IdOf;
  }

  lemma {:induction false} GenuineGrows(
    sent: seq<Request>, handled: seq<Option<LocalOutcome>>, sent': seq<Request>, handled': seq<Option<LocalOutcome>>,
    resp: Response)
    requires sent <= sent' && handled <= handled' && Genuine(sent, handled, resp)
    ensures Genuine(sent', handled', resp)
  {
    var k :| ReplyTo(sent, handled, k, resp);
    assert ReplyTo(sent', handled', k, resp);
  }

  /** What is known of every response stays known as the streams grow. */
  lemma {:induction false} RepliesGrow(s: State, sent': seq<Request>, handled': seq<Option<LocalOutcome>>)
    requires Inv(s) && s.sent <= sent' && s.handled <= handled'
    ensures ResultInv(s.senders, sent', handled') && InboundInv(sent', handled', s.inbound)
    ensures ReaderInv(s.owner, sent', handled', s.reader) && SlotInv(s.owner, sent', handled', s.slots)
  {
    forall resp | Genuine(s.sent, s.handled, resp) ensures Genuine(sent', handled', resp) {
      GenuineGrows(s.sent, s.handled, sent', handled', resp);
    }
    hide OwnerInv, WireInv, PendingInv, WakeInv, Genuine;
  }

  lemma {:induction false} ResultMove(
    senders: map<nat, Sender>, sent: seq<Request>, handled: seq<Option<LocalOutcome>>, t: nat, next: Sender)
    requires ResultInv(senders, sent, handled) && GoodResult(sent, handled, next)
    ensures ResultInv(senders[t := next], sent, handled)
  {
    hide Genuine;
  }

  lemma {:induction false} PendingMove(
    owner: map<string, nat>, senders: map<nat, Sender>, pending: map<string, nat>, closed: bool, closing: bool, t: nat,
    next: Sender)
    requires PendingInv(owner, senders, pending, closed, closing)
    requires t in senders && SameCall(senders[t], next) && Registered(senders[t]) && Registered(next)
    ensures PendingInv(owner, senders[t := next], pending, closed, closing)
  {
  }

  lemma {:induction false} PendingInsert(
    owner: map<string, nat>, senders: map<nat, Sender>, pending: map<string, nat>, t: nat, next: Sender)
    requires PendingInv(owner, senders, pending, false, false)
    requires t in senders && senders[t].Numbered? && SameCall(senders[t], next) && Registered(next)
    requires next.req.id in owner && owner[next.req.id] == t
    ensures PendingInv(owner, senders[t := next], pending[next.req.id := t], false, false)
  {
  }

  lemma {:induction false} PendingRefuse(
    owner: map<string, nat>, senders: map<nat, Sender>, pending: map<string, nat>, t: nat, next: Sender)
    requires PendingInv(owner, senders, pending, true, false) && t in senders && senders[t].Numbered?
    ensures PendingInv(owner, senders[t := next], pending, true, false)
  {
  }

  lemma {:induction false} PendingRemove(s: State, t: nat, next: Sender)
    requires Inv(s) && t in s.senders && s.senders[t].Leaving? && SameCall(s.senders[t], next) && next.Finished?
    requires !s.closing
    ensures PendingInv(s.owner, s.senders[t := next], s.pending - {next.req.id}, s.closed, s.closing)
  {
    hide IdOf, WireInv, ResultInv, InboundInv, ReaderInv, SlotInv, WakeInv;
  }

  lemma {:induction false} WakeMove(s: State, s': State, t: nat)
    requires WakeInv(s) && t in s'.senders && !s'.senders[t].Waiting? && s'.senders == s.senders[t := s'.senders[t]]
    requires s'.owner == s.owner && s'.sent == s.sent && s'.handled == s.handled && s'.inbound == s.inbound
    requires s'.reader == s.reader && s'.closed == s.closed && forall u | u in s.slots && u != t :: u in s'.slots
    ensures WakeInv(s')
  {
    if !s'.closed {
      forall k, u | 0 <= k < |s'.handled| && s'.handled[k].Some? && Awaits(s'.owner, s'.senders, s'.sent, k, u)
        ensures OnItsWay(s'.inbound, s'.reader, s'.slots, u, ClientReply(s'.sent[k], s'.handled[k].value))
      {
        assert u != t && Awaits(s.owner, s.senders, s.sent, k, u);
      }
    }
  }

  /** Nothing handled so far is for a call that has only just written, or not yet. */
  lemma {:induction false} WakeAppend(s: State, s': State, t: nat, req: Request)
    requires Inv(s) && t in s.senders && s.senders[t].Inserted? && t in s'.senders
    requires s'.senders == s.senders[t := s'.senders[t]]
    requires s' == s.(senders := s'.senders, sent := s.sent + [req])
    ensures WakeInv(s')
  {
    if !s'.closed {
      forall k, u | 0 <= k < |s'.handled| && s'.handled[k].Some? && Awaits(s'.owner, s'.senders, s'.sent, k, u)
        ensures OnItsWay(s'.inbound, s'.reader, s'.slots, u, ClientReply(s'.sent[k], s'.handled[k].value))
      {
        assert s'.sent[k] == s.sent[k] && WrittenByOwner(s.owner, s.senders, s.sent[k]);
        assert Awaits(s.owner, s.senders, s.sent, k, u);
      }
    }
    hide IdOf;
  }

  // ---- steps ----

  lemma {:induction false} BegunFrames(s: State, t: nat, next: Sender)
    requires Inv(s) && t !in s.senders && next.Begun? && next.req.kind == MESSAGE_REQUEST
    ensures OwnerInv(s.counter, s.issued, s.owner, s.senders[t := next])
    ensures PendingInv(s.owner, s.senders[t := next], s.pending, s.closed, s.closing)
  {
    hide IdOf, WireInv, ResultInv, InboundInv, ReaderInv, SlotInv, WakeInv;
  }

  lemma {:induction false} CallKept(s: State, t: nat, req: Request)
    requires Inv(s) && t !in s.senders
    ensures Inv(Moved(s, t, Begun(req.WithType())))
  {
    hide OwnerInv, PendingInv, WireInv, ResultInv, InboundInv, ReaderInv, SlotInv, WakeInv, Genuine;
    var next := Begun(req.WithType());
    BegunFrames(s, t, next);
    WireMove(s.owner, s.senders, s.sent, s.taken, s.handled, t, next);
    ResultMove(s.senders, s.sent, s.handled, t, next);
    WakeMove(s, Moved(s, t, next), t);
  }

  lemma {:induction false} NumberFrames(s: State, t: nat, id: string, next: Sender)
    requires Inv(s) && t in s.senders && s.senders[t].Begun? && id !in s.owner && next.Numbered?
    ensures WireInv(s.owner[id := t], s.senders[t := next], s.sent, s.taken, s.handled)
    ensures ReaderInv(s.owner[id := t], s.sent, s.handled, s.reader)
    ensures SlotInv(s.owner[id := t], s.sent, s.handled, s.slots)
  {
    hide IdOf, Genuine, ResultInv, InboundInv, WakeInv;
  }

  lemma {:induction false} NumberWakes(s: State, s': State, t: nat, id: string)
    requires Inv(s) && t in s.senders && s.senders[t].Begun? && id !in s.owner && t in s'.senders
    requires s'.senders[t].Numbered?
    requires s' == s.(counter := s'.counter, issued := s'.issued, owner := s.owner[id := t],
             senders := s.senders[t := s'.senders[t]])
    ensures WakeInv(s')
  {
    forall k, u | 0 <= k < |s'.handled| && Awaits(s'.owner, s'.senders, s'.sent, k, u)
      ensures Awaits(s.owner, s.senders, s.sent, k, u)
    {
      assert WrittenByOwner(s.owner, s.senders, s.sent[k]);
    }
    hide IdOf, OwnerInv, WireInv;
  }

  lemma {:induction false} NumberPending(
    owner: map<string, nat>, senders: map<nat, Sender>, pending: map<string, nat>, closed: bool, closing: bool,
    t: nat, id: string, next: Sender)
    requires PendingInv(owner, senders, pending, closed, closing)
    requires t in senders && senders[t].Begun? && next.Numbered? && id !in owner
    ensures PendingInv(owner[id := t], senders[t := next], pending, closed, closing)
  {
  }

  lemma {:induction false} NumberKept(s: State, t: nat)
    requires Inv(s) && t in s.senders && s.senders[t].Begun? && s.issued < COUNTER_MODULUS
    ensures Inv(AfterNumber(s, t))
  {
    var s' := AfterNumber(s, t);
    var next := s'.senders[t];
    OwnerNumber(s.counter, s.issued, s.owner, s.senders, t);
    var id := FormatUint((s.counter + 1) % COUNTER_MODULUS);
    NumberFrames(s, t, id, next);
    NumberWakes(s, s', t, id);
    NumberPending(s.owner, s.senders, s.pending, s.closed, s.closing, t, id, next);
    ResultMove(s.senders, s.sent, s.handled, t, next);
    hide FormatUint, OwnerInv, ResultInv, InboundInv, ReaderInv, SlotInv, WireInv, WakeInv, PendingInv;
  }

  lemma {:induction false} InsertWakes(s: State, s': State, t: nat)
    requires WakeInv(s'.(pending := s.pending))
    ensures WakeInv(s')
  {
  }

  lemma {:induction false} InsertKept(s: State, t: nat)
    requires Inv(s) && t in s.senders && s.senders[t].Numbered? && !s.closing
    ensures Inv(AfterInsert(s, t))
  {
    hide WireInv, ResultInv, WakeInv, PendingInv, InboundInv, ReaderInv, SlotInv, Genuine;
    var s' := AfterInsert(s, t);
    var next := s'.senders[t];
    assert next.req.id in s.owner && s.owner[next.req.id] == t;
    hide OwnerInv;
    OwnerMove(s.counter, s.issued, s.owner, s.senders, t, next);
    WireMove(s.owner, s.senders, s.sent, s.taken, s.handled, t, next);
    ResultMove(s.senders, s.sent, s.handled, t, next);
    WakeMove(s, s'.(pending := s.pending), t);
    InsertWakes(s, s', t);
    if s.closed {
      PendingRefuse(s.owner, s.senders, s.pending, t, next);
    } else {
      PendingInsert(s.owner, s.senders, s.pending, t, next);
    }
  }

  /** A call that has written moves on within Send. */
  lemma {:induction false} MoveKept(s: State, s': State, t: nat)
    requires Inv(s) && t in s.senders && (s.senders[t].Waiting? || s.senders[t].Closing?) && t in s'.senders
    requires SameCall(s.senders[t], s'.senders[t]) && (s'.senders[t].Leaving? || s'.senders[t].Closing?)
    requires s' == s.(senders := s.senders[t := s'.senders[t]], slots := s'.slots)
    requires s'.slots == s.slots || s'.slots == s.slots - {t}
    requires GoodResult(s.sent, s.handled, s'.senders[t])
    ensures Inv(s')
  {
    hide OwnerInv, WireInv, ResultInv, InboundInv, ReaderInv, WakeInv, PendingInv, GoodResult, Genuine;
    var next := s'.senders[t];
    OwnerMove(s.counter, s.issued, s.owner, s.senders, t, next);
    WireMove(s.owner, s.senders, s.sent, s.taken, s.handled, t, next);
    PendingMove(s.owner, s.senders, s.pending, s.closed, s.closing, t, next);
    WakeMove(s, s', t);
    ResultMove(s.senders, s.sent, s.handled, t, next);
  }

  lemma {:induction false} ReceiveKept(s: State, t: nat)
    requires Inv(s) && t in s.senders && s.senders[t].Waiting? && t in s.slots
    ensures Inv(AfterReceive(s, t))
  {
    assert GoodResult(s.sent, s.handled, AfterReceive(s, t).senders[t]);
    hide Inv;
    MoveKept(s, AfterReceive(s, t), t);
  }

  lemma {:induction false} GiveUpKept(s: State, t: nat)
    requires Inv(s) && t in s.senders
    ensures s.senders[t].Waiting? ==> Inv(AfterSeeClosed(s, t)) && Inv(AfterExpire(s, t))
    ensures s.senders[t].Closing? ==> Inv(AfterClose(s, t))
  {
    hide Inv;
    if s.senders[t].Waiting? {
      MoveKept(s, AfterSeeClosed(s, t), t);
      MoveKept(s, AfterExpire(s, t), t);
    } else if s.senders[t].Closing? {
      MoveKept(s, AfterClose(s, t), t);
    }
  }

  /** The request of call t goes onto the wire. */
  lemma {:induction false} SendKept(s: State, s': State, t: nat)
    requires Inv(s) && t in s.senders && s.senders[t].Inserted? && t in s'.senders
    requires SameCall(s.senders[t], s'.senders[t])
    requires s'.senders[t].Waiting? || (s'.senders[t].Leaving? && s'.senders[t].result.WriteFailed?)
    requires s' == s.(senders := s.senders[t := s'.senders[t]], sent := s.sent + [s.senders[t].req])
    ensures Inv(s')
  {
    hide OwnerInv, ResultInv, WireInv, WakeInv, PendingInv, Genuine, InboundInv, ReaderInv, SlotInv;
    var next := s'.senders[t];
    OwnerMove(s.counter, s.issued, s.owner, s.senders, t, next);
    PendingMove(s.owner, s.senders, s.pending, s.closed, s.closing, t, next);
    RepliesGrow(s, s'.sent, s'.handled);
    ResultMove(s.senders, s'.sent, s.handled, t, next);
    WireWrite(s, t, next);
    WakeAppend(s, s', t, next.req);
  }

  lemma {:induction false} WriteKept(s: State, t: nat, reached: bool)
    requires Inv(s) && t in s.senders && s.senders[t].Inserted?
    ensures Inv(AfterWrite(s, t)) && Inv(AfterFailedWrite(s, t, reached))
  {
    hide Inv;
    SendKept(s, AfterWrite(s, t), t);
    if reached {
      SendKept(s, AfterFailedWrite(s, t, reached), t);
    } else {
      UnsentKept(s, t);
    }
  }

  lemma {:induction false} UnsentKept(s: State, t: nat)
    requires Inv(s) && t in s.senders && s.senders[t].Inserted?
    ensures Inv(AfterFailedWrite(s, t, false))
  {
    hide OwnerInv, ResultInv, WireInv, WakeInv, PendingInv, Genuine, InboundInv, ReaderInv, SlotInv;
    var s' := AfterFailedWrite(s, t, false);
    var next := s'.senders[t];
    OwnerMove(s.counter, s.issued, s.owner, s.senders, t, next);
    WireMove(s.owner, s.senders, s.sent, s.taken, s.handled, t, next);
    PendingMove(s.owner, s.senders, s.pending, s.closed, s.closing, t, next);
    ResultMove(s.senders, s.sent, s.handled, t, next);
    WakeMove(s, s', t);
  }

  lemma {:induction false} RemoveKept(s: State, t: nat)
    requires Inv(s) && t in s.senders && s.senders[t].Leaving? && !s.closing
    ensures Inv(AfterRemove(s, t))
  {
    hide OwnerInv, WireInv, WakeInv, PendingInv, InboundInv, ReaderInv, SlotInv, Genuine;
    var s' := AfterRemove(s, t);
    var next := s'.senders[t];
    assert GoodResult(s.sent, s.handled, s.senders[t]);
    assert GoodResult(s.sent, s.handled, next);
    hide ResultInv, GoodResult;
    OwnerMove(s.counter, s.issued, s.owner, s.senders, t, next);
    WireMove(s.owner, s.senders, s.sent, s.taken, s.handled, t, next);
    ResultMove(s.senders, s.sent, s.handled, t, next);
    PendingRemove(s, t, next);
    WakeMove(s, s', t);
  }

  lemma {:induction false} CloseKept(s: State)
    requires Inv(s)
    ensures !s.closed ==> Inv(s.(closed := true, closing := true))
    ensures s.closing ==> Inv(s.(closing := false, pending := map[]))
    ensures s.reader.Reading? ==> Inv(s.(reader := Exiting))
    ensures s.reader.Exiting? ==> Inv(s.(reader := Stopped))
  {
    hide IdOf, OwnerInv, WireInv, ResultInv, InboundInv, SlotInv, Genuine;
  }

  lemma {:induction false} ReadKept(s: State)
    requires Inv(s) && s.reader.Reading? && s.inbound != []
    ensures Inv(AfterRead(s))
  {
    assert s.inbound == [s.inbound[0]] + s.inbound[1..];
    hide IdOf, OwnerInv, WireInv, ResultInv, SlotInv, Genuine, PendingInv;
  }

  lemma {:induction false} LookupKept(s: State)
    requires Inv(s) && s.reader.Looking? && !s.closing
    ensures Inv(AfterLookup(s))
  {
    var s' := AfterLookup(s);
    assert WakeInv(s') by {
      if !s.closed {
        forall k, u | 0 <= k < |s.handled| && s.handled[k].Some? && Awaits(s.owner, s.senders, s.sent, k, u)
          ensures OnItsWay(s'.inbound, s'.reader, s'.slots, u, ClientReply(s.sent[k], s.handled[k].value))
        {
          assert WrittenByOwner(s.owner, s.senders, s.sent[k]);
          assert s.sent[k].id in s.pending && s.pending[s.sent[k].id] == u;
        }
      }
    }
    hide IdOf, OwnerInv, WireInv, ResultInv, SlotInv, InboundInv, Genuine, WakeInv;
  }

  lemma {:induction false} OfferKept(s: State)
    requires Inv(s) && s.reader.Offering?
    ensures Inv(AfterOffer(s))
  {
    hide IdOf, OwnerInv, WireInv, ResultInv, InboundInv, Genuine, PendingInv;
  }

  lemma {:induction false} TakeKept(s: State)
    requires Inv(s) && s.taken == |s.handled| && s.taken < |s.sent|
    ensures Inv(AfterTake(s))
  {
    assert WrittenByOwner(s.owner, s.senders, s.sent[s.taken]);
    assert s.sent[s.taken].kind == MESSAGE_REQUEST;
    hide IdOf, OwnerInv, ResultInv, InboundInv, ReaderInv, SlotInv, PendingInv;
  }

  lemma {:induction false} HandleKept(s: State, outcome: LocalOutcome)
    requires Inv(s) && |s.handled| < s.taken
    ensures Inv(AfterHandle(s, outcome))
  {
    hide OwnerInv, PendingInv, ReaderInv, SlotInv, ResultInv;
    var s' := AfterHandle(s, outcome);
    var (k, resp) := (|s.handled|, ClientReply(s.sent[|s.handled|], outcome));
    RepliesGrow(s, s'.sent, s'.handled);
    assert ReplyTo(s'.sent, s'.handled, k, resp);
    hide Genuine, ClientReply;
    assert s'.inbound == s.inbound + [resp] && s'.inbound[|s.inbound|] == resp;
  }

  lemma {:induction false} PeerKept(s: State, resp: Response)
    requires Inv(s) && (Foreign(resp) || Genuine(s.sent, s.handled, resp))
    ensures Inv(s.(inbound := s.inbound + [resp]))
  {
    hide IdOf, OwnerInv, WireInv, PendingInv, ReaderInv, SlotInv, ResultInv, Genuine;
  }

  /** Every step keeps the invariant, as long as the counter has not wrapped. */
  lemma {:induction false} InvKept(s: State, step: Step)
    requires Inv(s) && Enabled(s, step) && Apply(s, step).issued <= COUNTER_MODULUS
    ensures Inv(Apply(s, step))
  {
    hide Inv, AfterInsert, AfterWrite, AfterFailedWrite, AfterReceive, AfterSeeClosed, AfterExpire, AfterClose,
      AfterRemove, AfterRead, AfterLookup, AfterOffer, AfterTake, AfterHandle, ClientReply;
    match step
    case Call(t, req) => CallKept(s, t, req);
    case Number(t) => NumberKept(s, t);
    case Insert(t) => InsertKept(s, t);
    case Write(t) => WriteKept(s, t, true);
    case FailWrite(t, reached) => WriteKept(s, t, reached);
    case Receive(t) => ReceiveKept(s, t);
    case SeeClosed(t) => GiveUpKept(s, t);
    case Expire(t) => GiveUpKept(s, t);
    case CloseReturned(t) => GiveUpKept(s, t);
    case Remove(t) => RemoveKept(s, t);
    case BeginClose => CloseKept(s);
    case EndClose => CloseKept(s);
    case Read => ReadKept(s);
    case ReadError => CloseKept(s);
    case Lookup => LookupKept(s);
    case Offer => OfferKept(s);
    case ReaderExit => CloseKept(s);
    case ClientTake => TakeKept(s);
    case ClientHandle(outcome) => HandleKept(s, outcome);
    case ClientRepeat(k) =>
      assert ReplyTo(s.sent, s.handled, k, ClientReply(s.sent[k], s.handled[k].value));
      PeerKept(s, ClientReply(s.sent[k], s.handled[k].value));
    case ClientNoise(resp) => PeerKept(s, resp);
  }
}
