/** The server's end of a tunnel as the object it is: each method is one critical
    section of internal/relay/ws_client.go, and does to the fields what the matching
    step of the tunnel machine does to the machine's counter, pending map, closed flag
    and slots. */
module WSClient {
  import opened Wrappers
  import opened Decimal
  import opened Message
  import Tunnel

  /** A channel of capacity one, made by the call that waits on it. */
  class Slot {
    const call: nat
    var held: Option<Response>

    constructor (call: nat)
      ensures this.call == call && held == None
    {
      this.call := call;
      held := None;
    }
  }

  predicate Holds(slot: Slot, slots: map<nat, Response>)
    reads slot
  {
    slot.held == if slot.call in slots then Some(slots[slot.call]) else None
  }

  /** The read loop's steps for the next message: read, look up, offer. */
  function Routed(s: Tunnel.State): Tunnel.State
    requires Tunnel.Enabled(s, Tunnel.Read)
  {
    var looking := Tunnel.AfterRead(s);
    if !looking.reader.Looking? then looking
    else
      var offering := Tunnel.AfterLookup(looking);
      if offering.reader.Offering? then Tunnel.AfterOffer(offering) else offering
  }

  class Client {
    var counter: nat
    var pending: map<string, Slot>
    var closed: bool

    /** Once closed, nothing is pending. */
    ghost predicate Valid()
      reads this
    {
      counter < Tunnel.COUNTER_MODULUS && (closed ==> pending == map[])
    }

    /** The machine's view: which call's slot is registered under which id. */
    ghost function Calls(): map<string, nat>
      reads this
    {
      map id | id in pending :: pending[id].call
    }

    /** This object is what the machine's state s says it is. */
    ghost predicate Shows(s: Tunnel.State)
      reads this
    {
      counter == s.counter && Calls() == s.pending && closed == s.closed && !s.closing
    }

    /** And every pending call's slot holds what s says. */
    ghost predicate SlotsShow(s: Tunnel.State)
      reads this, pending.Values
    {
      && (forall id | id in pending :: Holds(pending[id], s.slots))
      && (forall i, j | i in pending && j in pending && pending[i].call == pending[j].call :: pending[i] == pending[j])
    }

    constructor ()
      ensures Shows(Tunnel.INITIAL)
      ensures Valid() && counter == 0 && pending == map[] && !closed
    {
      counter, pending, closed := 0, map[], false;
    }

    /** strconv.FormatUint(c.seq.Add(1), 10) */
    method NextId() returns (id: string)
      requires Valid()
      modifies this`counter
      ensures Valid() && counter == (old(counter) + 1) % Tunnel.COUNTER_MODULUS && id == FormatUint(counter)
      ensures forall s, t | old(Shows(s)) && Tunnel.Enabled(s, Tunnel.Number(t)) ::
                Shows(Tunnel.AfterNumber(s, t)) && id == Tunnel.AfterNumber(s, t).senders[t].req.id
    {
      counter := (counter + 1) % Tunnel.COUNTER_MODULUS;
      id := FormatUint(counter);
    }

    method Insert(id: string, slot: Slot) returns (ok: bool)
      requires Valid()
      modifies this`pending
      ensures Valid() && ok == !closed
      ensures Calls() == if closed then old(Calls()) else old(Calls())[id := slot.call]
      ensures forall s | old(Shows(s)) && Tunnel.Enabled(s, Tunnel.Step.Insert(slot.call))
              && s.senders[slot.call].req.id == id ::
                Shows(Tunnel.AfterInsert(s, slot.call))
                    && ok == Tunnel.AfterInsert(s, slot.call).senders[slot.call].Inserted?
    {
      ok := !closed;
      if ok { pending := pending[id := slot]; }
    }

    method RemovePending(id: string)
      requires Valid()
      modifies this`pending
      ensures Valid() && Calls() == old(Calls()) - {id}
      ensures pending == old(pending) - {id}
      ensures forall s, t | old(Shows(s)) && Tunnel.Enabled(s, Tunnel.Remove(t)) && s.senders[t].req.id == id ::
                Shows(Tunnel.AfterRemove(s, t))
    {
      pending := pending - {id};
    }

    /** closePending: only the first call does anything; it empties the map entry by
        entry. */
    method ClosePending()
      requires Valid()
      modifies this`pending, this`closed
      ensures Valid() && closed && pending == map[]
      ensures forall s | old(Shows(s)) && (s.closed ==> s.pending == map[]) ::
                if s.closed then Shows(s)
                else Shows(Tunnel.Apply(Tunnel.Apply(s, Tunnel.BeginClose), Tunnel.EndClose))
    {
      if closed { return; }
      closed := true;
      while pending != map[]
        invariant closed
        decreases |pending|
      {
        var id :| id in pending;
        ghost var before := pending;
        pending := pending - {id};
        assert |before.Keys| == |pending.Keys| + 1 by { assert before.Keys == pending.Keys + {id}; }
        assert |pending| == |pending.Keys| && |before| == |before.Keys|;
      }
    }

    /** One turn of readLoop for a message that was read: messages of other kinds,
        unknown ids and full slots are dropped. */
    method Route(resp: Response)
      modifies pending.Values
      ensures forall slot: Slot | old(allocated(slot)) ::
                slot.held == if (resp.kind == "" || resp.kind == "response") && resp.id in pending
                    && slot == pending[resp.id] && old(slot.held) == None
                             then Some(resp) else old(slot.held)
      ensures forall s | old(Shows(s)) && old(SlotsShow(s)) && Tunnel.Enabled(s, Tunnel.Read) && s.inbound[0] == resp ::
                Shows(Routed(s)) && SlotsShow(Routed(s))
    {
      if Tunnel.Foreign(resp) || resp.id !in pending { return; }
      var slot := pending[resp.id];
      assert slot in pending.Values;
      if slot.held == None { slot.held := Some(resp); }
    }
  }
}
