/** The relay protocol as a transition system: ingress (internal/relay/handlers.go),
    drain workers and replays (internal/relay/delivery.go), tunnel and token handlers,
    the hub (internal/relay/hub.go), retention and restarts, all interleaved at their atomic
    points: one store call, one hub lock section, the start and the end of a Send, one
    Close. What a Send may return is left open here, and settled by EndToEnd, which runs
    every Send through its tunnel. Store calls may fail. */
module Relay {
  import opened Wrappers
  import opened Timestamps
  import opened Message
  import opened Store
  import opened Dedup
  import opened Hub
  import opened Ints
  import Delivering
  import Retention
  import ReplaySelection

  type Pid = nat
  type ClientId = nat

  /** Whether deduplication is on, and the hash it uses. */
  datatype Config = Config(dedup: bool, hash: string -> Digest)

  // ---- what is shared ----

  /** A tunnel client: the token it was registered under, and by which handler. */
  datatype Client = Client(token: string, handler: Pid)

  /** One Send: of which webhook, to which client, with which request; live when it is
      the ingress forwarding. */
  datatype SendRecord = SendRecord(id: string, client: ClientId, req: Request, live: bool)

  /** A committed mark, and the Send that returned its response. */
  datatype MarkRecord = MarkRecord(send: nat, resp: Response)

  /** What a provider delivered, apart from headers. */
  datatype Delivery = Delivery(token: string, httpMethod: string, path: string, body: string)

  /** The store, the hub and the clients, followed by the history of the run: rows as
      first stored and by whom, rows retention removed, marks committed, Sends begun,
      (send, response) pairs returned, deliveries that got past the save, and displaced
      clients that a process has still to close. */
  datatype Shared = Shared(
    rows: Rows,
    tokens: set<string>,
    hub: map<string, ClientId>,
    clients: map<ClientId, Client>,
    closed: set<ClientId>,
    inserted: Rows,
    owner: map<string, Pid>,
    removed: set<string>,
    marks: map<string, seq<MarkRecord>>,
    sends: seq<SendRecord>,
    returned: set<(nat, Response)>,
    received: set<Delivery>,
    owed: map<ClientId, Pid>
  )

  datatype Effect =
    | Nothing
    | Insert(row: Webhook)
    | Receive(delivery: Delivery)
    | Mark(id: string, send: nat, resp: Response)
    | BeginSend(rec: SendRecord)
    | EndSend(send: nat, outcome: Option<Response>)
    | Register(token: string, client: ClientId)
    | PayClose(client: ClientId)
    | Unregister(token: string, client: ClientId)
    | CloseClient(client: ClientId)
    | CreateToken(token: string)
    | DeleteToken(token: string)
    | Disconnect(token: string)
    | AgeSweep(cutoff: UtcTime)
    | CountSweep(max: int)

  function DeliveryOf(w: Webhook): Delivery {
    Delivery(w.token, w.httpMethod, w.path, w.body)
  }

  function KeyOf(c: Config, d: Delivery): string {
    if c.dedup then DedupKey(c.hash, d.httpMethod, d.path, d.body) else ""
  }

  // ---- effects ----

  function Swept(sh: Shared, rows: Rows): Shared {
    sh.(rows := rows, removed := sh.removed + (sh.rows.Keys - rows.Keys))
  }

  function ApplyEffect(sh: Shared, pid: Pid, e: Effect): Shared {
    match e
    case Nothing => sh
    case Insert(row) =>
      sh.(rows := AfterSave(sh.rows, row), inserted := sh.inserted[row.id := row], owner := sh.owner[row.id := pid],
          marks := sh.marks[row.id := []], received := sh.received + {DeliveryOf(row)})
    case Receive(d) => sh.(received := sh.received + {d})
    case Mark(id, send, resp) =>
      sh.(rows := AfterMark(sh.rows, id, resp.status, resp.body),
          marks := if id in sh.rows && id in sh.marks then sh.marks[id := sh.marks[id] + [MarkRecord(send, resp)]]
              else sh.marks)
    case BeginSend(rec) => sh.(sends := sh.sends + [rec])
    case EndSend(send, outcome) =>
        sh.(returned := if outcome.Some? then sh.returned + {(send, outcome.value)} else sh.returned)
    case Register(token, client) =>
      sh.(hub := Registered(sh.hub, token, client), clients := sh.clients[client := Client(token, pid)],
          owed := if token in sh.hub then sh.owed[sh.hub[token] := pid] else sh.owed)
    case PayClose(client) => sh.(closed := sh.closed + {client}, owed := sh.owed - {client})
    case Unregister(token, client) => sh.(hub := Unregistered(sh.hub, token, client))
    case CloseClient(client) => sh.(closed := sh.closed + {client})
    case CreateToken(token) => sh.(tokens := sh.tokens + {token})
    case DeleteToken(token) => sh.(tokens := sh.tokens - {token})
    case Disconnect(token) =>
      sh.(hub := sh.hub - {token}, owed := if token in sh.hub then sh.owed[sh.hub[token] := pid] else sh.owed)
    case AgeSweep(cutoff) => Swept(sh, Retention.AfterAgeSweep(sh.rows, cutoff))
    case CountSweep(max) => Swept(sh, Retention.AfterCountSweep(sh.rows, max))
  }

  // ---- processes ----

  /** A request on /hook/<token>/... as parsed. */
  datatype Arrival = Arrival(token: string, httpMethod: string, path: string, headers: Headers, body: string,
      receivedAt: UtcTime)

  function Delivered(a: Arrival): Delivery {
    Delivery(a.token, a.httpMethod, a.path, a.body)
  }

  function NewRow(c: Config, a: Arrival, id: string): Webhook {
    Webhook(id, a.token, a.httpMethod, a.path, a.headers, a.body, KeyOf(c, Delivered(a)), a.receivedAt, 0, "")
  }

  datatype Reply = Accepted | Local(status: int, body: string) | ServerError

  /** handleHook. A duplicate remembers the row that held its key; an answer remembers
      the row it rests on and, for a local answer, the row the answer was read for. */
  datatype Hook =
    | HookChecked(arrival: Arrival)
    | HookSaved(row: Webhook)
    | HookConnected(row: Webhook)
    | HookSending(row: Webhook, send: nat)
    | HookMarking(row: Webhook, send: nat, resp: Response)
    | HookDuplicate(delivery: Delivery, holder: string)
    | HookAnswered(delivery: Delivery, reply: Reply, holder: string, source: string)

  datatype Round = OnConnect | Replays | Periodic

  /** deliverStored at work: what is left to send, and the ids recorded as delivered by
      the drain on connect. */
  datatype Batch = Batch(token: string, client: ClientId, limit: Int64, round: Round, todo: seq<Webhook>,
      delivered: set<string>)

  datatype Drain =
    | DrainStart(token: string, client: ClientId, limit: Int64)
    | Draining(batch: Batch)
    | DrainSending(batch: Batch, send: nat)
    | DrainMarking(batch: Batch, send: nat, resp: Response)
    | DrainReplays(token: string, client: ClientId, limit: Int64, delivered: set<string>)
    | DrainIdle(token: string, client: ClientId, limit: Int64)
    | DrainFetched(token: string, client: ClientId, limit: Int64, list: seq<Webhook>)
    | DrainDone

  datatype ReplayResult = ReplayStatus(status: int) | NotFound | NoClient | DeliveryFailed | ReplayStoreError

  datatype Replay =
    | ReplayGet(id: string)
    | ReplayLookup(row: Webhook)
    | ReplaySending(row: Webhook, send: nat)
    | ReplayMarking(row: Webhook, send: nat, resp: Response)
    | ReplayDone(result: ReplayResult)

  datatype Tunnel =
    | TunnelChecked(token: string)
    | TunnelOwes(token: string, client: ClientId, displaced: ClientId)
    | TunnelOpen(token: string, client: ClientId)
    | TunnelClosed(token: string, client: ClientId)
    | TunnelDone(token: string, client: ClientId)

  datatype Deletion =
    | DeleteChecked(token: string)
    | Disconnecting(token: string)
    | DeleteOwes(displaced: ClientId)
    | DeleteDone

  datatype Proc = HookProc(h: Hook) | DrainProc(d: Drain) | ReplayProc(r: Replay) | TunnelProc(t: Tunnel)
      | DeleteProc(x: Deletion)

  /** handleHook, one atomic point at a time. Ids are fresh. */
  predicate HookStep(c: Config, sh: Shared, h: Hook, h': Hook, e: Effect) {
    match h
    case HookChecked(a) =>
      var d := Delivered(a);
      || (e.Insert? && e.row == NewRow(c, a, e.row.id) && e.row.id !in sh.inserted
          && SaveOutcome(sh.rows, e.row) == Saved && h' == HookSaved(e.row))
      || (e == Receive(d) && h'.HookDuplicate? && h'.delivery == d
          && HoldsKey(sh.rows, h'.holder, d.token, KeyOf(c, d)))
      || (e == Nothing && h' == HookAnswered(d, ServerError, "", ""))
    case HookSaved(row) =>
      e == Nothing && h' == if row.token in sh.hub then HookConnected(row)
          else HookAnswered(DeliveryOf(row), Accepted, row.id, "")
    case HookConnected(row) =>
      if row.token in sh.hub then
        e == BeginSend(SendRecord(row.id, sh.hub[row.token], RequestOf(row, false), true))
            && h' == HookSending(row, |sh.sends|)
      else e == Nothing && h' == HookAnswered(DeliveryOf(row), Accepted, row.id, "")
    case HookSending(row, send) =>
      e.EndSend? && e.send == send
      && h' == if e.outcome.None? || e.outcome.value.status == 0 then
          HookAnswered(DeliveryOf(row), Accepted, row.id, "")
               else HookMarking(row, send, e.outcome.value)
    case HookMarking(row, send, resp) =>
      || (e == Mark(row.id, send, resp)
          && h' == HookAnswered(DeliveryOf(row), Local(resp.status, resp.body), row.id, row.id))
      || (e == Nothing && h' == HookAnswered(DeliveryOf(row), ServerError, row.id, ""))
    case HookDuplicate(d, holder) =>
      e == Nothing && h'.HookAnswered? && h'.delivery == d && h'.holder == holder
      && (|| h'.reply == Accepted
          || (HoldsKey(sh.rows, h'.source, d.token, KeyOf(c, d)) && sh.rows[h'.source].status != 0
              && h'.reply == Local(sh.rows[h'.source].status, sh.rows[h'.source].responseBody)))
    case HookAnswered(_, _, _, _) => false
  }

  /** Where a worker goes when deliverStored returns. */
  function AfterBatch(b: Batch): Drain {
    if b.round.OnConnect? then DrainReplays(b.token, b.client, b.limit, b.delivered)
        else DrainIdle(b.token, b.client, b.limit)
  }

  /** drainLoop, drainOnConnect and deliverStored. */
  ghost predicate DrainStep(sh: Shared, d: Drain, d': Drain, e: Effect) {
    match d
    case DrainStart(token, client, limit) =>
      e == Nothing
      && (|| d' == DrainReplays(token, client, limit, {})
          || (exists list ::
                PendingAnswer(sh.rows, token, list)
                && d' == Draining(Batch(token, client, limit, OnConnect, list, {}))))
    case Draining(b) =>
      if b.todo == [] then e == Nothing && d' == AfterBatch(b)
      else
        e == BeginSend(SendRecord(b.todo[0].id, b.client, RequestOf(b.todo[0], b.round.Replays?), false))
        && d' == DrainSending(b, |sh.sends|)
    case DrainSending(b, send) =>
      e.EndSend? && e.send == send
      && d' == if e.outcome.None? || e.outcome.value.status == 0 then AfterBatch(b)
          else DrainMarking(b, send, e.outcome.value)
    case DrainMarking(b, send, resp) =>
      b.todo != []
      && (|| (e == Mark(b.todo[0].id, send, resp)
              && d' == Draining(b.(todo := b.todo[1..],
                                   delivered := if b.round.OnConnect? then b.delivered + {b.todo[0].id}
                                       else b.delivered)))
          || (e == Nothing && d' == Draining(b.(todo := b.todo[1..]))))
    case DrainReplays(token, client, limit, delivered) =>
      e == Nothing
      && (|| d' == DrainIdle(token, client, limit)
          || (limit > 0 && exists list ::
                NewestFirst(sh.rows, token, list)
                && d' == Draining(Batch(token, client, limit, Replays, ReplaySelection.Selected(list, limit, delivered),
                    delivered))))
    case DrainIdle(token, client, limit) =>
      e == Nothing
      && (|| (client in sh.closed && d' == DrainDone)
          || (exists list :: PendingAnswer(sh.rows, token, list) && d' == DrainFetched(token, client, limit, list)))
    case DrainFetched(token, client, limit, list) =>
      e == Nothing
      && exists cutoff :: d' == Draining(Batch(token, client, limit, Periodic, Delivering.OlderThan(list, cutoff), {}))
    case DrainDone => false
  }

  /** ReplayWebhook and Hub.Forward. */
  predicate ReplayStep(sh: Shared, r: Replay, r': Replay, e: Effect) {
    match r
    case ReplayGet(id) =>
      e == Nothing
      && (r' == ReplayDone(ReplayStoreError)
          || r' == if id in sh.rows then ReplayLookup(sh.rows[id]) else ReplayDone(NotFound))
    case ReplayLookup(row) =>
      if row.token in sh.hub then
        e == BeginSend(SendRecord(row.id, sh.hub[row.token], RequestOf(row, true), false))
            && r' == ReplaySending(row, |sh.sends|)
      else e == Nothing && r' == ReplayDone(NoClient)
    case ReplaySending(row, send) =>
      e.EndSend? && e.send == send
      && r' == if e.outcome.None? then ReplayDone(NoClient)
               else if e.outcome.value.status == 0 then ReplayDone(DeliveryFailed)
                   else ReplayMarking(row, send, e.outcome.value)
    case ReplayMarking(row, send, resp) =>
      || (e == Mark(row.id, send, resp) && r' == ReplayDone(ReplayStatus(resp.status)))
      || (e == Nothing && r' == ReplayDone(ReplayStoreError))
    case ReplayDone(_) => false
  }

  /** handleTunnel after validation; each connection is a new client. */
  predicate TunnelStep(sh: Shared, t: Tunnel, t': Tunnel, e: Effect) {
    match t
    case TunnelChecked(token) =>
      e.Register? && e.token == token && e.client !in sh.clients
      && t' == if token in sh.hub then TunnelOwes(token, e.client, sh.hub[token]) else TunnelOpen(token, e.client)
    case TunnelOwes(token, client, displaced) => e == PayClose(displaced) && t' == TunnelOpen(token, client)
    case TunnelOpen(token, client) => client in sh.closed && e == CloseClient(client)
        && t' == TunnelClosed(token, client)
    case TunnelClosed(token, client) => e == Unregister(token, client) && t' == TunnelDone(token, client)
    case TunnelDone(_, _) => false
  }

  /** handleTokenAction. */
  predicate DeleteStep(sh: Shared, x: Deletion, x': Deletion, e: Effect) {
    match x
    case DeleteChecked(token) =>
      (e == DeleteToken(token) && x' == Disconnecting(token)) || (e == Nothing && x' == DeleteDone)
    case Disconnecting(token) =>
      e == Disconnect(token) && x' == if token in sh.hub then DeleteOwes(sh.hub[token]) else DeleteDone
    case DeleteOwes(displaced) => e == PayClose(displaced) && x' == DeleteDone
    case DeleteDone => false
  }

  ghost predicate ProcStep(c: Config, sh: Shared, p: Proc, p': Proc, e: Effect) {
    match p
    case HookProc(h) => p'.HookProc? && HookStep(c, sh, h, p'.h, e)
    case DrainProc(d) => p'.DrainProc? && DrainStep(sh, d, p'.d, e)
    case ReplayProc(r) => p'.ReplayProc? && ReplayStep(sh, r, p'.r, e)
    case TunnelProc(t) => p'.TunnelProc? && TunnelStep(sh, t, p'.t, e)
    case DeleteProc(x) => p'.DeleteProc? && DeleteStep(sh, x, p'.x, e)
  }

  /** Where processes begin: a hook request for a token that exists, a drain worker of a
      registered client, a replay of any id, a validated tunnel, a token deletion. */
  predicate Starts(sh: Shared, p: Proc) {
    match p
    case HookProc(h) => h.HookChecked? && h.arrival.token in sh.tokens && h.arrival.token != ""
    case DrainProc(d) => d.DrainStart? && d.client in sh.clients && sh.clients[d.client].token == d.token
    case ReplayProc(r) => r.ReplayGet?
    case TunnelProc(t) => t.TunnelChecked? && t.token in sh.tokens
    case DeleteProc(x) => x.DeleteChecked?
  }

  // ---- the system ----

  datatype State = State(sh: Shared, procs: map<Pid, Proc>)

  const INITIAL := State(Shared(map[], {}, map[], map[], {}, map[], map[], {}, map[], [], {}, {}, map[]), map[])

  datatype Step =
    | Spawn(pid: Pid, p: Proc)
    | Act(pid: Pid, next: Proc, e: Effect)
    | Environment(e: Effect)
    | Restart

  /** Tokens are made, retention sweeps and connections drop at any time. */
  predicate FromOutside(sh: Shared, e: Effect) {
    e.CreateToken? || e.AgeSweep? || e.CountSweep? || (e.CloseClient? && e.client in sh.clients)
  }

  /** The server process ends, at any moment, and begins again: the tables survive, and
      nothing else; every connection is lost. */
  function Restarted(sh: Shared): Shared {
    sh.(hub := map[], closed := sh.closed + sh.clients.Keys, owed := map[])
  }

  ghost predicate Enabled(c: Config, s: State, step: Step) {
    match step
    case Spawn(pid, p) => pid !in s.procs && Starts(s.sh, p)
    case Act(pid, next, e) => pid in s.procs && ProcStep(c, s.sh, s.procs[pid], next, e)
    case Environment(e) => FromOutside(s.sh, e)
    case Restart => true
  }

  function Apply(s: State, step: Step): State {
    match step
    case Spawn(pid, p) => s.(procs := s.procs[pid := p])
    case Act(pid, next, e) => State(ApplyEffect(s.sh, pid, e), s.procs[pid := next])
    case Environment(e) => s.(sh := ApplyEffect(s.sh, 0, e))
    case Restart => State(Restarted(s.sh), map[])
  }

  ghost predicate ValidRun(c: Config, s: State, steps: seq<Step>)
    decreases |steps|
  {
    steps == [] || (Enabled(c, s, steps[0]) && ValidRun(c, Apply(s, steps[0]), steps[1..]))
  }

  function Run(s: State, steps: seq<Step>): State
    decreases |steps|
  {
    if steps == [] then s else Run(Apply(s, steps[0]), steps[1..])
  }
}
