/** One tunnel connection as a step machine: the server's WSClient
    (internal/relay/ws_client.go), its read loop, any number of concurrent Send calls
    and Close calls, and the client program's request loop (cmd/holloway/main.go)
    at the other end of two FIFO message streams. */
module Tunnel {
  import opened Wrappers
  import opened Decimal
  import opened Message

  /** The correlation counter is a uint64. */
  const COUNTER_MODULUS: nat := 0x1_0000_0000_0000_0000

  // ---- the client program ----

  /** What the local forward of one request can come to. */
  datatype LocalOutcome =
    | UnsafePath(reason: string)
    | BadRequest(reason: string)
    | Unreachable(reason: string)
    | BodyUnreadable(reason: string)
    | Answered(status: int, body: string)

  /** forwardLocal keeps so much of the local response's body. */
  const MAX_LOCAL_RESPONSE_BODY: nat := 0x10_0000

  function KeptBody(body: string): string {
    if |body| <= MAX_LOCAL_RESPONSE_BODY then body else body[..MAX_LOCAL_RESPONSE_BODY]
  }

  /** forwardLocal: every branch echoes the request's id. */
  function ForwardLocal(req: Request, outcome: LocalOutcome): Response {
    match outcome
    case UnsafePath(reason) => Response("", req.id, 0, "", reason)
    case BadRequest(reason) => Response("", req.id, 0, "", reason)
    case Unreachable(reason) => Response("", req.id, 0, "", reason)
    case BodyUnreadable(reason) => Response("", req.id, 0, "", reason)
    case Answered(status, body) => Response("", req.id, status, KeptBody(body), "")
  }

  /** The message connectOnce writes back for a request. */
  function ClientReply(req: Request, outcome: LocalOutcome): Response {
    ForwardLocal(req, outcome).WithType()
  }

  // ---- Send ----

  datatype Result = Reply(resp: Response) | ClientClosed | WriteFailed | ContextDone

  /** Where one Send call is. `serial` counts counter increments; the id is its decimal
      text after wrap-around. */
  datatype Sender =
    | Begun(req: Request)
    | Numbered(serial: nat, req: Request)
    | Inserted(serial: nat, req: Request)
    | Waiting(serial: nat, req: Request)
    | Closing(serial: nat, req: Request)
    | Leaving(serial: nat, req: Request, result: Result)
    | Finished(serial: nat, req: Request, result: Result)

  datatype Reader =
    | Reading
    | Looking(resp: Response)
    | Offering(resp: Response, slot: nat)
    | Exiting
    | Stopped

  /** Senders are named by call; call t owns the one-slot channel t. `sent` is every
      request written to the connection, in order; the client program has read the first
      `taken` of them and dealt with the first |handled| (None: not a request, skipped).
      `closing` holds while the closer is between closing the flag and releasing the lock. */
  datatype State = State(
    counter: nat,
    issued: nat,
    owner: map<string, nat>,
    senders: map<nat, Sender>,
    pending: map<string, nat>,
    slots: map<nat, Response>,
    closed: bool,
    closing: bool,
    reader: Reader,
    sent: seq<Request>,
    taken: nat,
    handled: seq<Option<LocalOutcome>>,
    inbound: seq<Response>
  )

  const INITIAL := State(0, 0, map[], map[], map[], map[], false, false, Reading, [], 0, [], [])

  datatype Step =
    | Call(t: nat, req: Request)
    | Number(t: nat)
    | Insert(t: nat)
    | Write(t: nat)
    | FailWrite(t: nat, reached: bool)
    | Receive(t: nat)
    | SeeClosed(t: nat)
    | Expire(t: nat)
    | CloseReturned(t: nat)
    | Remove(t: nat)
    | BeginClose
    | EndClose
    | Read
    | ReadError
    | Lookup
    | Offer
    | ReaderExit
    | ClientTake
    | ClientHandle(outcome: LocalOutcome)
    | ClientRepeat(k: nat)
    | ClientNoise(resp: Response)

  function IdOf(serial: nat): string {
    FormatUint(serial % COUNTER_MODULUS)
  }

  /** A message the read loop skips. */
  predicate Foreign(resp: Response) {
    resp.kind != "" && resp.kind != MESSAGE_RESPONSE
  }

  // ---- what each step does ----

  function Moved(s: State, t: nat, next: Sender): State {
    s.(senders := s.senders[t := next])
  }

  /** req.ID = FormatUint(seq.Add(1)); ch := make(chan Response, 1). */
  function AfterNumber(s: State, t: nat): State
    requires t in s.senders && s.senders[t].Begun?
  {
    var counter := (s.counter + 1) % COUNTER_MODULUS;
    var id := FormatUint(counter);
    Moved(s, t, Numbered(s.issued + 1, s.senders[t].req.(id := id)))
      .(counter := counter, issued := s.issued + 1, owner := s.owner[id := t])
  }

  /** Under the mutex: refuse when closed, else pending[req.ID] = ch. */
  function AfterInsert(s: State, t: nat): State
    requires t in s.senders && s.senders[t].Numbered?
  {
    var at := s.senders[t];
    if s.closed then Moved(s, t, Finished(at.serial, at.req, ClientClosed))
    else Moved(s, t, Inserted(at.serial, at.req)).(pending := s.pending[at.req.id := t])
  }

  function AfterWrite(s: State, t: nat): State
    requires t in s.senders && s.senders[t].Inserted?
  {
    var at := s.senders[t];
    Moved(s, t, Waiting(at.serial, at.req)).(sent := s.sent + [at.req])
  }

  function AfterFailedWrite(s: State, t: nat, reached: bool): State
    requires t in s.senders && s.senders[t].Inserted?
  {
    var at := s.senders[t];
    Moved(s, t, Leaving(at.serial, at.req, WriteFailed)).(sent := if reached then s.sent + [at.req] else s.sent)
  }

  /** The select in Send: a filled slot, the closed flag, or the context. */
  function AfterReceive(s: State, t: nat): State
    requires t in s.senders && s.senders[t].Waiting? && t in s.slots
  {
    var at := s.senders[t];
    Moved(s, t, Leaving(at.serial, at.req, Reply(s.slots[t]))).(slots := s.slots - {t})
  }

  function AfterSeeClosed(s: State, t: nat): State
    requires t in s.senders && s.senders[t].Waiting?
  {
    Moved(s, t, Leaving(s.senders[t].serial, s.senders[t].req, ClientClosed))
  }

  function AfterExpire(s: State, t: nat): State
    requires t in s.senders && s.senders[t].Waiting?
  {
    Moved(s, t, Closing(s.senders[t].serial, s.senders[t].req))
  }

  function AfterClose(s: State, t: nat): State
    requires t in s.senders && s.senders[t].Closing?
  {
    Moved(s, t, Leaving(s.senders[t].serial, s.senders[t].req, ContextDone))
  }

  /** The deferred removePending. */
  function AfterRemove(s: State, t: nat): State
    requires t in s.senders && s.senders[t].Leaving?
  {
    var at := s.senders[t];
    Moved(s, t, Finished(at.serial, at.req, at.result)).(pending := s.pending - {at.req.id})
  }

  function AfterRead(s: State): State
    requires s.inbound != []
  {
    var resp := s.inbound[0];
    s.(inbound := s.inbound[1..], reader := if Foreign(resp) then s.reader else Looking(resp))
  }

  /** ch := pending[resp.ID], under the mutex. */
  function AfterLookup(s: State): State
    requires s.reader.Looking?
  {
    var resp := s.reader.resp;
    s.(reader := if resp.id in s.pending then Offering(resp, s.pending[resp.id]) else Reading)
  }

  /** select { case ch <- resp: default: } on a channel of capacity one. */
  function AfterOffer(s: State): State
    requires s.reader.Offering?
  {
    var (resp, slot) := (s.reader.resp, s.reader.slot);
    s.(reader := Reading, slots := if slot in s.slots then s.slots else s.slots[slot := resp])
  }

  function AfterTake(s: State): State
    requires s.taken < |s.sent|
  {
    var req := s.sent[s.taken];
    var skip := req.kind != "" && req.kind != MESSAGE_REQUEST;
    s.(taken := s.taken + 1, handled := if skip then s.handled + [None] else s.handled)
  }

  function AfterHandle(s: State, outcome: LocalOutcome): State
    requires |s.handled| < |s.sent|
  {
    s.(handled := s.handled + [Some(outcome)], inbound := s.inbound + [ClientReply(s.sent[|s.handled|], outcome)])
  }

  // ---- steps ----

  /** A step can be taken. Steps that take the mutex need it free. A write may fail
      before or after the message reached the other end; the peer may repeat any
      response it has sent or send messages of other kinds; Close may be called at any
      time. */
  predicate Enabled(s: State, step: Step) {
    match step
    case Call(t, req) => t !in s.senders
    case Number(t) => t in s.senders && s.senders[t].Begun?
    case Insert(t) => t in s.senders && s.senders[t].Numbered? && !s.closing
    case Write(t) => t in s.senders && s.senders[t].Inserted?
    case FailWrite(t, _) => t in s.senders && s.senders[t].Inserted?
    case Receive(t) => t in s.senders && s.senders[t].Waiting? && t in s.slots
    case SeeClosed(t) => t in s.senders && s.senders[t].Waiting? && s.closed
    case Expire(t) => t in s.senders && s.senders[t].Waiting?
    case CloseReturned(t) => t in s.senders && s.senders[t].Closing? && s.closed && !s.closing
    case Remove(t) => t in s.senders && s.senders[t].Leaving? && !s.closing
    case BeginClose => !s.closed
    case EndClose => s.closing
    case Read => s.reader.Reading? && s.inbound != []
    case ReadError => s.reader.Reading?
    case Lookup => s.reader.Looking? && !s.closing
    case Offer => s.reader.Offering?
    case ReaderExit => s.reader.Exiting? && s.closed && !s.closing
    case ClientTake => s.taken == |s.handled| && s.taken < |s.sent|
    case ClientHandle(_) => |s.handled| < s.taken <= |s.sent|
    case ClientRepeat(k) => k < |s.handled| && k < |s.sent| && s.handled[k].Some?
    case ClientNoise(resp) => Foreign(resp)
  }

  function Apply(s: State, step: Step): State
    requires Enabled(s, step)
  {
    match step
    case Call(t, req) => Moved(s, t, Begun(req.WithType()))
    case Number(t) => AfterNumber(s, t)
    case Insert(t) => AfterInsert(s, t)
    case Write(t) => AfterWrite(s, t)
    case FailWrite(t, reached) => AfterFailedWrite(s, t, reached)
    case Receive(t) => AfterReceive(s, t)
    case SeeClosed(t) => AfterSeeClosed(s, t)
    case Expire(t) => AfterExpire(s, t)
    case CloseReturned(t) => AfterClose(s, t)
    case Remove(t) => AfterRemove(s, t)
    case BeginClose => s.(closed := true, closing := true)
    case EndClose => s.(closing := false, pending := map[])
    case Read => AfterRead(s)
    case ReadError => s.(reader := Exiting)
    case Lookup => AfterLookup(s)
    case Offer => AfterOffer(s)
    case ReaderExit => s.(reader := Stopped)
    case ClientTake => AfterTake(s)
    case ClientHandle(outcome) => AfterHandle(s, outcome)
    case ClientRepeat(k) => s.(inbound := s.inbound + [ClientReply(s.sent[k], s.handled[k].value)])
    case ClientNoise(resp) => s.(inbound := s.inbound + [resp])
  }

  /** Taking a list of steps, each enabled when its turn comes. */
  predicate ValidRun(s: State, steps: seq<Step>)
    decreases |steps|
  {
    steps == [] || (Enabled(s, steps[0]) && ValidRun(Apply(s, steps[0]), steps[1..]))
  }

  function Run(s: State, steps: seq<Step>): State
    requires ValidRun(s, steps)
    decreases |steps|
  {
    if steps == [] then s else Run(Apply(s, steps[0]), steps[1..])
  }
}
