/** What every interleaving of the relay keeps. Each effect keeps the shared invariant
    and what every other process relies on; each process only asks for effects it may
    have and ends where its own reliance holds again. */
module RelayProofs {
  import opened Wrappers
  import opened Message
  import opened Store
  import opened Hub
  import opened Relay
  import Delivering
  import Retention
  import ReplaySelection

  // ---- the shared invariant ----

  /** The same webhook apart from its response. */
  predicate SameRequest(a: Webhook, b: Webhook) {
    a.(status := 0, responseBody := "") == b.(status := 0, responseBody := "")
  }

  /** The Send that a mark or an answer rests on: it was of this id and returned resp. */
  predicate ReturnedFor(sends: seq<SendRecord>, returned: set<(nat, Response)>, id: string, send: nat, resp: Response) {
    send < |sends| && sends[send].id == id && (send, resp) in returned
  }

  /** Rows are the inserted ones retention has left; their requests never change. */
  ghost predicate RowsInv(rows: Rows, inserted: Rows, removed: set<string>) {
    && rows.Keys == inserted.Keys - removed && removed <= inserted.Keys
    && (forall id | id in inserted ::
        inserted[id].id == id && id != "" && inserted[id].token != "" && inserted[id].status == 0)
    && (forall id | id in rows :: SameRequest(rows[id], inserted[id]))
  }

  /** A row is pending exactly when no mark has committed for it; otherwise it holds the
      last one. */
  predicate RowMarked(row: Webhook, marks: seq<MarkRecord>) {
    if marks == [] then row.status == 0
    else row.status == marks[|marks| - 1].resp.status && row.responseBody == marks[|marks| - 1].resp.body
  }

  ghost predicate MarksInv(rows: Rows, inserted: Rows, marks: map<string, seq<MarkRecord>>) {
    && marks.Keys == inserted.Keys
    && (forall id | id in rows && id in marks :: RowMarked(rows[id], marks[id]))
  }

  /** Every mark has a non-zero response that a Send of that id returned. */
  ghost predicate MarkOriginInv(
    marks: map<string, seq<MarkRecord>>, sends: seq<SendRecord>, returned: set<(nat, Response)>)
  {
    forall id | id in marks :: forall i | 0 <= i < |marks[id]| ::
      marks[id][i].resp.status != 0 && ReturnedFor(sends, returned, id, marks[id][i].send, marks[id][i].resp)
  }

  /** A Send carries exactly what was first stored, to a client of that webhook's token. */
  predicate FaithfulSend(inserted: Rows, clients: map<ClientId, Client>, rec: SendRecord) {
    && rec.id in inserted && rec.req == RequestOf(inserted[rec.id], rec.req.replay)
    && rec.client in clients && clients[rec.client].token == inserted[rec.id].token
    && (rec.live ==> !rec.req.replay)
  }

  ghost predicate SendsInv(inserted: Rows, clients: map<ClientId, Client>, sends: seq<SendRecord>) {
    forall i | 0 <= i < |sends| :: FaithfulSend(inserted, clients, sends[i])
  }

  /** The ingress forwards a webhook live at most once. */
  ghost predicate LiveInv(sends: seq<SendRecord>) {
    forall i, j | 0 <= i < j < |sends| && sends[i].live && sends[j].live :: sends[i].id != sends[j].id
  }

  ghost predicate NotLive(sends: seq<SendRecord>, id: string) {
    forall i | 0 <= i < |sends| && sends[i].live :: sends[i].id != id
  }

  /** Received deliveries and stored rows stand for each other while nothing is removed. */
  ghost predicate ReceivedInv(c: Config, rows: Rows, inserted: Rows, removed: set<string>, received: set<Delivery>) {
    && (forall id | id in inserted ::
        DeliveryOf(inserted[id]) in received && inserted[id].dedupKey == KeyOf(c, DeliveryOf(inserted[id])))
    && (c.dedup && removed == {} ==> forall d | d in received :: KeyTaken(rows, d.token, KeyOf(c, d)))
  }

  /** A client that was ever registered is current, or closed, or owed a Close. */
  ghost predicate HubInv(
    hub: map<string, ClientId>, clients: map<ClientId, Client>, closed: set<ClientId>, owed: map<ClientId, Pid>)
  {
    && (forall token | token in hub :: hub[token] in clients && clients[hub[token]].token == token)
    && (forall cl | cl in clients :: Current(hub, clients[cl].token) == Some(cl) || cl in closed || cl in owed)
    && (forall cl | cl in owed :: cl in clients && Current(hub, clients[cl].token) != Some(cl))
  }

  ghost predicate OwnersInv(inserted: Rows, owner: map<string, Pid>) {
    owner.Keys == inserted.Keys
  }

  ghost predicate SharedInv(c: Config, sh: Shared) {
    && ValidRows(sh.rows)
    && RowsInv(sh.rows, sh.inserted, sh.removed)
    && OwnersInv(sh.inserted, sh.owner)
    && MarksInv(sh.rows, sh.inserted, sh.marks)
    && MarkOriginInv(sh.marks, sh.sends, sh.returned)
    && SendsInv(sh.inserted, sh.clients, sh.sends)
    && LiveInv(sh.sends)
    && ReceivedInv(c, sh.rows, sh.inserted, sh.removed, sh.received)
    && HubInv(sh.hub, sh.clients, sh.closed, sh.owed)
  }

  // ---- what a process relies on ----

  /** The process carries a webhook as it was first stored, apart from its response. */
  predicate KnownRow(inserted: Rows, w: Webhook) {
    w.id in inserted && SameRequest(w, inserted[w.id])
  }

  /** The process stored this row. */
  predicate Mine(sh: Shared, pid: Pid, row: Webhook) {
    row.id in sh.inserted && sh.inserted[row.id] == row && row.id in sh.owner && sh.owner[row.id] == pid
  }

  /** row holds the dedup key of this delivery. */
  predicate SameKey(c: Config, row: Webhook, d: Delivery) {
    c.dedup && row.token == d.token && row.dedupKey != "" && row.dedupKey == KeyOf(c, d)
  }

  /** What the process may answer for: the row it stored for this delivery itself, or
      under dedup the row that held the key. */
  predicate Backed(c: Config, sh: Shared, pid: Pid, d: Delivery, id: string) {
    id in sh.inserted && ((Mine(sh, pid, sh.inserted[id]) && DeliveryOf(sh.inserted[id]) == d)
        || SameKey(c, sh.inserted[id], d))
  }

  predicate KnownClient(clients: map<ClientId, Client>, token: string, client: ClientId) {
    client in clients && clients[client].token == token
  }

  ghost predicate HookOk(c: Config, sh: Shared, pid: Pid, h: Hook) {
    match h
    case HookChecked(a) => a.token != ""
    case HookSaved(row) => Mine(sh, pid, row) && NotLive(sh.sends, row.id)
    case HookConnected(row) => Mine(sh, pid, row) && NotLive(sh.sends, row.id)
    case HookSending(row, send) => Mine(sh, pid, row) && send < |sh.sends| && sh.sends[send].id == row.id
    case HookMarking(row, send, resp) =>
      Mine(sh, pid, row) && resp.status != 0 && ReturnedFor(sh.sends, sh.returned, row.id, send, resp)
    case HookDuplicate(d, holder) => holder in sh.inserted && SameKey(c, sh.inserted[holder], d)
    case HookAnswered(d, reply, holder, source) => AnswerOk(c, sh, pid, d, reply, holder, source)
  }

  /** An answer of 202 or with a local status rests on a row stored before; a local
      status and body were returned by a Send of such a row. */
  ghost predicate AnswerOk(c: Config, sh: Shared, pid: Pid, d: Delivery, reply: Reply, holder: string, source: string) {
    && (!reply.ServerError? ==> Backed(c, sh, pid, d, holder))
    && (reply.Local? ==>
          Backed(c, sh, pid, d, source) && reply.status != 0
          && exists send: nat, resp :: ReturnedFor(sh.sends, sh.returned, source, send, resp)
              && resp.status == reply.status && resp.body == reply.body)
  }

  ghost predicate KnownList(inserted: Rows, token: string, list: seq<Webhook>) {
    forall i | 0 <= i < |list| :: KnownRow(inserted, list[i]) && list[i].token == token
  }

  ghost predicate BatchOk(sh: Shared, b: Batch) {
    && KnownClient(sh.clients, b.token, b.client)
    && KnownList(sh.inserted, b.token, b.todo)
    && (b.round.Replays? ==> forall i | 0 <= i < |b.todo| :: b.todo[i].id !in b.delivered)
  }

  ghost predicate DrainOk(sh: Shared, d: Drain) {
    match d
    case DrainStart(token, client, _) => KnownClient(sh.clients, token, client)
    case Draining(b) => BatchOk(sh, b)
    case DrainSending(b, send) => BatchOk(sh, b) && b.todo != [] && send < |sh.sends|
        && sh.sends[send].id == b.todo[0].id
    case DrainMarking(b, send, resp) =>
      BatchOk(sh, b) && b.todo != [] && resp.status != 0 && ReturnedFor(sh.sends, sh.returned, b.todo[0].id, send, resp)
    case DrainReplays(token, client, _, _) => KnownClient(sh.clients, token, client)
    case DrainIdle(token, client, _) => KnownClient(sh.clients, token, client)
    case DrainFetched(token, client, _, list) => KnownClient(sh.clients, token, client)
        && KnownList(sh.inserted, token, list)
    case DrainDone => true
  }

  ghost predicate ReplayOk(sh: Shared, r: Replay) {
    match r
    case ReplayGet(_) => true
    case ReplayLookup(row) => KnownRow(sh.inserted, row)
    case ReplaySending(row, send) => KnownRow(sh.inserted, row) && send < |sh.sends| && sh.sends[send].id == row.id
    case ReplayMarking(row, send, resp) =>
      KnownRow(sh.inserted, row) && resp.status != 0 && ReturnedFor(sh.sends, sh.returned, row.id, send, resp)
    case ReplayDone(_) => true
  }

  predicate OwnClient(sh: Shared, pid: Pid, token: string, client: ClientId) {
    client in sh.clients && sh.clients[client] == Client(token, pid)
  }

  predicate Owes(sh: Shared, pid: Pid, client: ClientId) {
    client in sh.owed && sh.owed[client] == pid
  }

  ghost predicate TunnelOk(sh: Shared, pid: Pid, t: Tunnel) {
    match t
    case TunnelChecked(_) => true
    case TunnelOwes(token, client, displaced) => OwnClient(sh, pid, token, client) && Owes(sh, pid, displaced)
    case TunnelOpen(token, client) => OwnClient(sh, pid, token, client)
    case TunnelClosed(token, client) => OwnClient(sh, pid, token, client) && client in sh.closed
    case TunnelDone(token, client) =>
      OwnClient(sh, pid, token, client) && client in sh.closed && Current(sh.hub, token) != Some(client)
  }

  ghost predicate ProcOk(c: Config, sh: Shared, pid: Pid, p: Proc) {
    match p
    case HookProc(h) => HookOk(c, sh, pid, h)
    case DrainProc(d) => DrainOk(sh, d)
    case ReplayProc(r) => ReplayOk(sh, r)
    case TunnelProc(t) => TunnelOk(sh, pid, t)
    case DeleteProc(x) => x.DeleteOwes? ==> Owes(sh, pid, x.displaced)
  }

  // ---- which effects a process may have ----

  ghost predicate EffectOk(c: Config, sh: Shared, pid: Pid, e: Effect) {
    match e
    case Nothing => true
    case Insert(row) =>
      row.id !in sh.inserted && SaveOutcome(sh.rows, row) == Saved && row.status == 0
          && row.dedupKey == KeyOf(c, DeliveryOf(row))
    case Receive(d) => KeyTaken(sh.rows, d.token, KeyOf(c, d))
    case Mark(id, send, resp) => id in sh.inserted && resp.status != 0
        && ReturnedFor(sh.sends, sh.returned, id, send, resp)
    case BeginSend(rec) =>
      FaithfulSend(sh.inserted, sh.clients, rec)
      && (rec.live ==> rec.id in sh.owner && sh.owner[rec.id] == pid && NotLive(sh.sends, rec.id))
    case EndSend(send, _) => send < |sh.sends|
    case Register(_, client) => client !in sh.clients
    case PayClose(client) => Owes(sh, pid, client)
    case Unregister(token, client) => client in sh.clients && sh.clients[client].token == token && client in sh.closed
    case CloseClient(client) => client in sh.clients
    case CreateToken(_) => true
    case DeleteToken(_) => true
    case Disconnect(_) => true
    case AgeSweep(_) => true
    case CountSweep(_) => true
  }

  // ---- effects keep the shared invariant ----

  lemma {:induction false} InsertKeys(rows: Rows, row: Webhook)
    requires ValidRows(rows) && SaveOutcome(rows, row) == Saved
    ensures ValidRows(rows[row.id := row]) && AfterSave(rows, row) == rows[row.id := row]
    ensures row.id !in rows && row.id != "" && row.token != ""
  {
    forall id | id in rows && row.dedupKey != "" && rows[id].dedupKey == row.dedupKey
        ensures rows[id].token != row.token {
      assert !HoldsKey(rows, id, row.token, row.dedupKey);
    }
  }

  lemma {:induction false} InsertRows(rows: Rows, inserted: Rows, removed: set<string>, row: Webhook)
    requires RowsInv(rows, inserted, removed) && row.id !in inserted && row.id != "" && row.token != ""
    requires row.status == 0
    ensures RowsInv(rows[row.id := row], inserted[row.id := row], removed)
  {
    assert row.id !in rows.Keys;
  }

  lemma {:induction false} InsertMarks(rows: Rows, inserted: Rows, marks: map<string, seq<MarkRecord>>,
      sends: seq<SendRecord>,
                                       returned: set<(nat, Response)>, row: Webhook)
    requires MarksInv(rows, inserted, marks) && MarkOriginInv(marks, sends, returned) && row.status == 0
    ensures MarksInv(rows[row.id := row], inserted[row.id := row], marks[row.id := []])
    ensures MarkOriginInv(marks[row.id := []], sends, returned)
  {
  }

  lemma {:induction false} InsertReceived(c: Config, sh: Shared, row: Webhook)
    requires ReceivedInv(c, sh.rows, sh.inserted, sh.removed, sh.received)
    requires row.id !in sh.inserted && row.id !in sh.rows && row.dedupKey == KeyOf(c, DeliveryOf(row))
    ensures ReceivedInv(c, sh.rows[row.id := row], sh.inserted[row.id := row], sh.removed,
            sh.received + {DeliveryOf(row)})
  {
    var rows' := sh.rows[row.id := row];
    forall d | c.dedup && sh.removed == {} && d in sh.received + {DeliveryOf(row)}
        ensures KeyTaken(rows', d.token, KeyOf(c, d)) {
      if d == DeliveryOf(row) {
        assert HoldsKey(rows', row.id, d.token, KeyOf(c, d));
      } else {
        var id :| id in sh.rows && HoldsKey(sh.rows, id, d.token, KeyOf(c, d));
        assert HoldsKey(rows', id, d.token, KeyOf(c, d));
      }
    }
  }

  lemma {:induction false} InsertSends(
      inserted: Rows, clients: map<ClientId, Client>, sends: seq<SendRecord>, row: Webhook)
    requires SendsInv(inserted, clients, sends) && row.id !in inserted
    ensures SendsInv(inserted[row.id := row], clients, sends)
  {
  }

  lemma {:induction false} InsertKeeps(c: Config, sh: Shared, pid: Pid, row: Webhook)
    requires SharedInv(c, sh) && EffectOk(c, sh, pid, Insert(row))
    ensures SharedInv(c, ApplyEffect(sh, pid, Insert(row)))
  {
    hide ValidRows, RowsInv, MarksInv, MarkOriginInv, SendsInv, LiveInv, ReceivedInv, HubInv, SaveOutcome, AfterSave,
        KeyOf;
    InsertKeys(sh.rows, row);
    InsertRows(sh.rows, sh.inserted, sh.removed, row);
    InsertMarks(sh.rows, sh.inserted, sh.marks, sh.sends, sh.returned, row);
    InsertReceived(c, sh, row);
    InsertSends(sh.inserted, sh.clients, sh.sends, row);
  }

  lemma {:induction false} MarkValid(rows: Rows, id: string, status: int, body: string)
    requires ValidRows(rows)
    ensures ValidRows(AfterMark(rows, id, status, body))
  {
    var rows' := AfterMark(rows, id, status, body);
    assert forall j | j in rows' ::
           j in rows && rows'[j].dedupKey == rows[j].dedupKey && rows'[j].token == rows[j].token
           && rows'[j].id == rows[j].id;
    hide AfterMark;
  }

  lemma {:induction false} MarkRows(
      rows: Rows, inserted: Rows, removed: set<string>, id: string, status: int, body: string)
    requires RowsInv(rows, inserted, removed)
    ensures RowsInv(AfterMark(rows, id, status, body), inserted, removed)
  {
    var rows' := AfterMark(rows, id, status, body);
    assert rows'.Keys == rows.Keys;
    assert forall j | j in rows' :: j in rows && SameRequest(rows'[j], rows[j]);
    hide AfterMark;
  }

  lemma {:induction false} MarkReceived(c: Config, sh: Shared, id: string, status: int, body: string)
    requires ReceivedInv(c, sh.rows, sh.inserted, sh.removed, sh.received)
    ensures ReceivedInv(c, AfterMark(sh.rows, id, status, body), sh.inserted, sh.removed, sh.received)
  {
    var rows' := AfterMark(sh.rows, id, status, body);
    forall d | c.dedup && sh.removed == {} && d in sh.received ensures KeyTaken(rows', d.token, KeyOf(c, d)) {
      var j :| j in sh.rows && HoldsKey(sh.rows, j, d.token, KeyOf(c, d));
      assert HoldsKey(rows', j, d.token, KeyOf(c, d));
    }
  }

  lemma {:induction false} MarkMarks(
      rows: Rows, inserted: Rows, marks: map<string, seq<MarkRecord>>, id: string, m: MarkRecord)
    requires MarksInv(rows, inserted, marks) && id in rows && id in inserted
    ensures id in marks
    ensures MarksInv(AfterMark(rows, id, m.resp.status, m.resp.body), inserted, marks[id := marks[id] + [m]])
  {
    assert id in marks.Keys;
    var (rows', marks') := (AfterMark(rows, id, m.resp.status, m.resp.body), marks[id := marks[id] + [m]]);
    assert marks'.Keys == marks.Keys;
    assert RowMarked(rows'[id], marks'[id]);
    hide RowMarked;
    assert forall j | j in rows' && j in marks' && j != id :: rows'[j] == rows[j] && marks'[j] == marks[j];
  }

  lemma {:induction false} MarkOrigins(
    marks: map<string, seq<MarkRecord>>, sends: seq<SendRecord>, returned: set<(nat, Response)>, id: string,
    m: MarkRecord)
    requires MarkOriginInv(marks, sends, returned) && id in marks && m.resp.status != 0
    requires ReturnedFor(sends, returned, id, m.send, m.resp)
    ensures MarkOriginInv(marks[id := marks[id] + [m]], sends, returned)
  {
    hide ReturnedFor;
  }

  lemma {:induction false} MarkKeeps(c: Config, sh: Shared, pid: Pid, id: string, send: nat, resp: Response)
    requires SharedInv(c, sh) && EffectOk(c, sh, pid, Mark(id, send, resp))
    ensures SharedInv(c, ApplyEffect(sh, pid, Mark(id, send, resp)))
  {
    hide ValidRows, RowsInv, MarksInv, MarkOriginInv, SendsInv, LiveInv, ReceivedInv, HubInv, ReturnedFor;
    MarkValid(sh.rows, id, resp.status, resp.body);
    MarkRows(sh.rows, sh.inserted, sh.removed, id, resp.status, resp.body);
    MarkReceived(c, sh, id, resp.status, resp.body);
    if id in sh.rows {
      MarkMarks(sh.rows, sh.inserted, sh.marks, id, MarkRecord(send, resp));
      MarkOrigins(sh.marks, sh.sends, sh.returned, id, MarkRecord(send, resp));
    }
  }

  lemma {:induction false} SendOrigins(
    marks: map<string, seq<MarkRecord>>, sends: seq<SendRecord>, returned: set<(nat, Response)>,
    sends': seq<SendRecord>, returned': set<(nat, Response)>)
    requires MarkOriginInv(marks, sends, returned) && sends <= sends' && returned <= returned'
    ensures MarkOriginInv(marks, sends', returned')
  {
    forall id, i | id in marks && 0 <= i < |marks[id]|
      ensures ReturnedFor(sends', returned', id, marks[id][i].send, marks[id][i].resp)
    {
      assert ReturnedFor(sends, returned, id, marks[id][i].send, marks[id][i].resp);
    }
  }

  lemma {:induction false} SendKeeps(c: Config, sh: Shared, pid: Pid, e: Effect)
    requires SharedInv(c, sh) && EffectOk(c, sh, pid, e) && (e.BeginSend? || e.EndSend?)
    ensures SharedInv(c, ApplyEffect(sh, pid, e))
  {
    var sh' := ApplyEffect(sh, pid, e);
    hide ValidRows, RowsInv, MarksInv, MarkOriginInv, ReceivedInv, HubInv, FaithfulSend;
    SendOrigins(sh.marks, sh.sends, sh.returned, sh'.sends, sh'.returned);
  }

  lemma {:induction false} RegisterHub(
    hub: map<string, ClientId>, clients: map<ClientId, Client>, closed: set<ClientId>, owed: map<ClientId, Pid>,
    token: string, client: ClientId, pid: Pid)
    requires HubInv(hub, clients, closed, owed) && client !in clients
    ensures HubInv(Registered(hub, token, client), clients[client := Client(token, pid)], closed,
                   if token in hub then owed[hub[token] := pid] else owed)
  {
  }

  lemma {:induction false} LeaveHub(
    hub: map<string, ClientId>, clients: map<ClientId, Client>, closed: set<ClientId>, owed: map<ClientId, Pid>,
    token: string, client: ClientId, pid: Pid)
    requires HubInv(hub, clients, closed, owed)
    ensures HubInv(hub - {token}, clients, closed, if token in hub then owed[hub[token] := pid] else owed)
    ensures client in clients && clients[client].token == token && client in closed ==>
            HubInv(Unregistered(hub, token, client), clients, closed, owed)
  {
  }

  lemma {:induction false} CloseHub(
    hub: map<string, ClientId>, clients: map<ClientId, Client>, closed: set<ClientId>, owed: map<ClientId, Pid>,
    client: ClientId)
    requires HubInv(hub, clients, closed, owed)
    ensures HubInv(hub, clients, closed + {client}, owed) && HubInv(hub, clients, closed + {client}, owed - {client})
  {
  }

  lemma {:induction false} RegisterSends(
      inserted: Rows, clients: map<ClientId, Client>, sends: seq<SendRecord>, client: ClientId, info: Client)
    requires SendsInv(inserted, clients, sends) && client !in clients
    ensures SendsInv(inserted, clients[client := info], sends)
  {
  }

  lemma {:induction false} HubKeeps(c: Config, sh: Shared, pid: Pid, e: Effect)
    requires SharedInv(c, sh) && EffectOk(c, sh, pid, e)
    requires e.Register? || e.PayClose? || e.Unregister? || e.CloseClient? || e.Disconnect?
    ensures SharedInv(c, ApplyEffect(sh, pid, e))
  {
    hide ValidRows, RowsInv, MarksInv, MarkOriginInv, LiveInv, ReceivedInv, HubInv, SendsInv, Registered, Unregistered;
    match e
    case Register(token, client) =>
      RegisterHub(sh.hub, sh.clients, sh.closed, sh.owed, token, client, pid);
      RegisterSends(sh.inserted, sh.clients, sh.sends, client, Client(token, pid));
    case PayClose(client) => CloseHub(sh.hub, sh.clients, sh.closed, sh.owed, client);
    case Unregister(token, client) => LeaveHub(sh.hub, sh.clients, sh.closed, sh.owed, token, client, pid);
    case CloseClient(client) => CloseHub(sh.hub, sh.clients, sh.closed, sh.owed, client);
    case Disconnect(token) => LeaveHub(sh.hub, sh.clients, sh.closed, sh.owed, token, 0, pid);
    case _ =>
  }

  lemma {:induction false} SweepRows(rows: Rows, rows': Rows, inserted: Rows, removed: set<string>)
    requires ValidRows(rows) && RowsInv(rows, inserted, removed)
    requires rows'.Keys <= rows.Keys && forall id | id in rows' :: rows'[id] == rows[id]
    ensures ValidRows(rows') && RowsInv(rows', inserted, removed + (rows.Keys - rows'.Keys))
  {
  }

  lemma {:induction false} SweepMarks(rows: Rows, rows': Rows, inserted: Rows, marks: map<string, seq<MarkRecord>>)
    requires MarksInv(rows, inserted, marks) && rows'.Keys <= rows.Keys
    requires forall id | id in rows' :: rows'[id] == rows[id]
    ensures MarksInv(rows', inserted, marks)
  {
    hide RowMarked;
    forall id | id in rows' ensures id in rows { assert id in rows'.Keys; }
  }

  lemma {:induction false} SweepReceived(
      c: Config, rows: Rows, rows': Rows, inserted: Rows, removed: set<string>, received: set<Delivery>)
    requires ReceivedInv(c, rows, inserted, removed, received)
    requires rows'.Keys <= rows.Keys && forall id | id in rows' :: rows'[id] == rows[id]
    ensures ReceivedInv(c, rows', inserted, removed + (rows.Keys - rows'.Keys), received)
  {
    if removed + (rows.Keys - rows'.Keys) == {} {
      forall id | id in rows ensures id in rows' && rows'[id] == rows[id] {
        assert id !in rows.Keys - rows'.Keys;
      }
      assert rows' == rows;
    }
    hide KeyTaken, KeyOf;
  }

  lemma {:induction false} SweepKeeps(c: Config, sh: Shared, rows': Rows)
    requires SharedInv(c, sh)
    requires rows'.Keys <= sh.rows.Keys && forall id | id in rows' :: rows'[id] == sh.rows[id]
    ensures SharedInv(c, Swept(sh, rows'))
  {
    hide ValidRows, RowsInv, MarksInv, MarkOriginInv, ReceivedInv, LiveInv, SendsInv, HubInv;
    SweepRows(sh.rows, rows', sh.inserted, sh.removed);
    SweepMarks(sh.rows, rows', sh.inserted, sh.marks);
    SweepReceived(c, sh.rows, rows', sh.inserted, sh.removed, sh.received);
  }

  lemma {:induction false} EffectKeeps(c: Config, sh: Shared, pid: Pid, e: Effect)
    requires SharedInv(c, sh) && EffectOk(c, sh, pid, e)
    ensures SharedInv(c, ApplyEffect(sh, pid, e))
  {
    hide HubInv, MarksInv, RowsInv, ValidRows, LiveInv, SendsInv, MarkOriginInv;
    match e
    case Nothing =>
    case Insert(row) => InsertKeeps(c, sh, pid, row);
    case Receive(d) =>
    case Mark(id, send, resp) => MarkKeeps(c, sh, pid, id, send, resp);
    case BeginSend(_) => SendKeeps(c, sh, pid, e);
    case EndSend(_, _) => SendKeeps(c, sh, pid, e);
    case CreateToken(_) =>
    case DeleteToken(_) =>
    case AgeSweep(cutoff) => SweepKeeps(c, sh, Retention.AfterAgeSweep(sh.rows, cutoff));
    case CountSweep(max) => SweepKeeps(c, sh, Retention.AfterCountSweep(sh.rows, max));
    case _ => HubKeeps(c, sh, pid, e);
  }

  // ---- effects leave what other processes rely on ----

  /** pid's effect, seen by process q. */
  predicate ForOthers(sh: Shared, pid: Pid, e: Effect, q: Pid) {
    q != pid || FromOutside(sh, e)
  }

  ghost predicate StoreGrows(inserted: Rows, owner: map<string, Pid>, inserted': Rows, owner': map<string, Pid>) {
    && (forall id | id in inserted :: id in inserted' && inserted'[id] == inserted[id])
    && (forall id | id in owner :: id in owner' && owner'[id] == owner[id])
  }

  ghost predicate ClientsGrow(clients: map<ClientId, Client>, clients': map<ClientId, Client>) {
    forall cl | cl in clients :: cl in clients' && clients'[cl] == clients[cl]
  }

  /** Nothing already known is taken back. */
  ghost predicate Grows(sh: Shared, sh': Shared) {
    && StoreGrows(sh.inserted, sh.owner, sh'.inserted, sh'.owner)
    && ClientsGrow(sh.clients, sh'.clients)
    && sh.closed <= sh'.closed && sh.sends <= sh'.sends && sh.returned <= sh'.returned
  }

  lemma {:induction false} OnlyInsertStores(sh: Shared, pid: Pid, e: Effect)
    requires !e.Insert?
    ensures ApplyEffect(sh, pid, e).inserted == sh.inserted && ApplyEffect(sh, pid, e).owner == sh.owner
  {
  }

  lemma {:induction false} InsertedGrows(c: Config, sh: Shared, pid: Pid, e: Effect)
    requires OwnersInv(sh.inserted, sh.owner) && EffectOk(c, sh, pid, e)
    ensures var sh' := ApplyEffect(sh, pid, e); StoreGrows(sh.inserted, sh.owner, sh'.inserted, sh'.owner)
  {
    hide SaveOutcome, AfterSave, KeyOf, DeliveryOf;
    if e.Insert? {
      assert e.row.id !in sh.owner.Keys;
    } else {
      hide EffectOk, ApplyEffect;
      OnlyInsertStores(sh, pid, e);
    }
  }

  lemma {:induction false} HistoryGrows(c: Config, sh: Shared, pid: Pid, e: Effect)
    requires EffectOk(c, sh, pid, e)
    ensures var sh' := ApplyEffect(sh, pid, e);
            ClientsGrow(sh.clients, sh'.clients) && sh.closed <= sh'.closed && sh.sends <= sh'.sends
                && sh.returned <= sh'.returned
  {
    hide AfterSave, AfterMark, Registered, Unregistered, Retention.AfterAgeSweep, Retention.AfterCountSweep,
      SaveOutcome, ReturnedFor, FaithfulSend, KeyTaken, KeyOf, NotLive;
  }

  lemma {:induction false} EffectGrows(c: Config, sh: Shared, pid: Pid, e: Effect)
    requires SharedInv(c, sh) && EffectOk(c, sh, pid, e)
    ensures Grows(sh, ApplyEffect(sh, pid, e))
  {
    assert OwnersInv(sh.inserted, sh.owner);
    hide SharedInv, OwnersInv, EffectOk, ApplyEffect, StoreGrows, ClientsGrow;
    InsertedGrows(c, sh, pid, e);
    HistoryGrows(c, sh, pid, e);
  }

  lemma {:induction false} EffectNotLive(c: Config, sh: Shared, pid: Pid, e: Effect, q: Pid, id: string)
    requires EffectOk(c, sh, pid, e) && ForOthers(sh, pid, e, q) && NotLive(sh.sends, id) && id in sh.owner
    requires sh.owner[id] == q
    ensures NotLive(ApplyEffect(sh, pid, e).sends, id)
  {
    hide FaithfulSend, AfterSave, AfterMark, Retention.AfterAgeSweep, Retention.AfterCountSweep, SaveOutcome,
        ReturnedFor, KeyTaken;
  }

  /** A debt is taken on by displacing a current client, and only its owner pays it. */
  lemma {:induction false} OwesStays(
      hub: map<string, ClientId>, clients: map<ClientId, Client>, closed: set<ClientId>, owed: map<ClientId, Pid>,
      client: ClientId)
    requires HubInv(hub, clients, closed, owed) && client in owed
    ensures forall token | token in hub :: hub[token] != client
  {
  }

  lemma {:induction false} OwedKept(sh: Shared, pid: Pid, e: Effect, client: ClientId)
    requires client in sh.owed && forall token | token in sh.hub :: sh.hub[token] != client
    requires e != PayClose(client)
    ensures var owed := ApplyEffect(sh, pid, e).owed; client in owed && owed[client] == sh.owed[client]
  {
    hide AfterSave, AfterMark, Retention.AfterAgeSweep, Retention.AfterCountSweep, Registered, Unregistered, DeliveryOf;
  }

  lemma {:induction false} EffectOwes(c: Config, sh: Shared, pid: Pid, e: Effect, q: Pid, client: ClientId)
    requires SharedInv(c, sh) && EffectOk(c, sh, pid, e) && ForOthers(sh, pid, e, q) && Owes(sh, q, client)
    ensures Owes(ApplyEffect(sh, pid, e), q, client)
  {
    OwesStays(sh.hub, sh.clients, sh.closed, sh.owed, client);
    hide SharedInv, ApplyEffect, SaveOutcome, ReturnedFor, FaithfulSend, KeyTaken, KeyOf, NotLive;
    OwedKept(sh, pid, e, client);
  }

  /** A client that left the hub does not come back. */
  lemma {:induction false} EffectGone(c: Config, sh: Shared, pid: Pid, e: Effect, token: string, client: ClientId)
    requires EffectOk(c, sh, pid, e) && client in sh.clients && Current(sh.hub, token) != Some(client)
    ensures Current(ApplyEffect(sh, pid, e).hub, token) != Some(client)
  {
    hide AfterSave, AfterMark, Retention.AfterAgeSweep, Retention.AfterCountSweep, SaveOutcome, ReturnedFor,
        FaithfulSend, KeyTaken;
  }

  lemma {:induction false} ReturnedForStays(sh: Shared, sh': Shared, id: string, send: nat, resp: Response)
    requires Grows(sh, sh') && ReturnedFor(sh.sends, sh.returned, id, send, resp)
    ensures ReturnedFor(sh'.sends, sh'.returned, id, send, resp)
  {
  }

  lemma {:induction false} BackedStays(c: Config, sh: Shared, sh': Shared, pid: Pid, d: Delivery, id: string)
    requires Grows(sh, sh') && Backed(c, sh, pid, d, id)
    ensures Backed(c, sh', pid, d, id)
  {
    hide SameKey, DeliveryOf;
  }

  lemma {:induction false} AnswerStays(
    c: Config, sh: Shared, sh': Shared, pid: Pid, d: Delivery, reply: Reply, holder: string, source: string)
    requires Grows(sh, sh') && AnswerOk(c, sh, pid, d, reply, holder, source)
    ensures AnswerOk(c, sh', pid, d, reply, holder, source)
  {
    if reply.Local? {
      var send: nat, resp :| ReturnedFor(sh.sends, sh.returned, source, send, resp) && resp.status == reply.status
          && resp.body == reply.body;
      ReturnedForStays(sh, sh', source, send, resp);
      BackedStays(c, sh, sh', pid, d, source);
    }
    if !reply.ServerError? { BackedStays(c, sh, sh', pid, d, holder); }
    hide Backed, Grows, ReturnedFor;
  }

  lemma {:induction false} HookGrows(c: Config, sh: Shared, sh': Shared, q: Pid, h: Hook)
    requires Grows(sh, sh') && HookOk(c, sh, q, h)
    requires h.HookSaved? || h.HookConnected? ==> NotLive(sh'.sends, h.row.id)
    ensures HookOk(c, sh', q, h)
  {
    hide AnswerOk, NotLive, SameKey, ReturnedFor;
    if h.HookMarking? { ReturnedForStays(sh, sh', h.row.id, h.send, h.resp); }
    if h.HookAnswered? { AnswerStays(c, sh, sh', q, h.delivery, h.reply, h.holder, h.source); }
  }

  lemma {:induction false} HookStable(c: Config, sh: Shared, pid: Pid, e: Effect, q: Pid, h: Hook)
    requires SharedInv(c, sh) && EffectOk(c, sh, pid, e) && ForOthers(sh, pid, e, q) && HookOk(c, sh, q, h)
    ensures HookOk(c, ApplyEffect(sh, pid, e), q, h)
  {
    hide SharedInv, EffectOk, ApplyEffect, AnswerOk, NotLive, ForOthers, Grows, SameKey, ReturnedFor;
    EffectGrows(c, sh, pid, e);
    if h.HookSaved? || h.HookConnected? { EffectNotLive(c, sh, pid, e, q, h.row.id); }
    HookGrows(c, sh, ApplyEffect(sh, pid, e), q, h);
  }

  lemma {:induction false} DrainGrows(sh: Shared, sh': Shared, d: Drain)
    requires Grows(sh, sh') && DrainOk(sh, d)
    ensures DrainOk(sh', d)
  {
    hide ReturnedFor, SameRequest, BatchOk, KnownList;
    if d.DrainFetched? { ListGrows(sh, sh', d.token, d.list); }
    if d.DrainMarking? { ReturnedForStays(sh, sh', d.batch.todo[0].id, d.send, d.resp); }
    if d.Draining? || d.DrainSending? || d.DrainMarking? { BatchGrows(sh, sh', d.batch); }
  }

  lemma {:induction false} ListGrows(sh: Shared, sh': Shared, token: string, list: seq<Webhook>)
    requires Grows(sh, sh') && KnownList(sh.inserted, token, list)
    ensures KnownList(sh'.inserted, token, list)
  {
    hide SameRequest;
  }

  lemma {:induction false} BatchGrows(sh: Shared, sh': Shared, b: Batch)
    requires Grows(sh, sh') && BatchOk(sh, b)
    ensures BatchOk(sh', b)
  {
    hide KnownList;
    ListGrows(sh, sh', b.token, b.todo);
  }

  lemma {:induction false} DrainStable(c: Config, sh: Shared, pid: Pid, e: Effect, d: Drain)
    requires SharedInv(c, sh) && EffectOk(c, sh, pid, e) && DrainOk(sh, d)
    ensures DrainOk(ApplyEffect(sh, pid, e), d)
  {
    hide SharedInv, EffectOk, ApplyEffect, DrainOk, Grows;
    EffectGrows(c, sh, pid, e);
    DrainGrows(sh, ApplyEffect(sh, pid, e), d);
  }

  lemma {:induction false} ReplayGrows(sh: Shared, sh': Shared, r: Replay)
    requires Grows(sh, sh') && ReplayOk(sh, r)
    ensures ReplayOk(sh', r)
  {
    hide ReturnedFor, SameRequest;
    if r.ReplayMarking? { ReturnedForStays(sh, sh', r.row.id, r.send, r.resp); }
  }

  lemma {:induction false} ReplayStable(c: Config, sh: Shared, pid: Pid, e: Effect, r: Replay)
    requires SharedInv(c, sh) && EffectOk(c, sh, pid, e) && ReplayOk(sh, r)
    ensures ReplayOk(ApplyEffect(sh, pid, e), r)
  {
    hide SharedInv, EffectOk, ApplyEffect, ReplayOk, Grows;
    EffectGrows(c, sh, pid, e);
    ReplayGrows(sh, ApplyEffect(sh, pid, e), r);
  }

  lemma {:induction false} TunnelStable(c: Config, sh: Shared, pid: Pid, e: Effect, q: Pid, t: Tunnel)
    requires SharedInv(c, sh) && EffectOk(c, sh, pid, e) && ForOthers(sh, pid, e, q) && TunnelOk(sh, q, t)
    ensures TunnelOk(ApplyEffect(sh, pid, e), q, t)
  {
    EffectGrows(c, sh, pid, e);
    if t.TunnelOwes? { EffectOwes(c, sh, pid, e, q, t.displaced); }
    if t.TunnelDone? { EffectGone(c, sh, pid, e, t.token, t.client); }
    hide SharedInv, EffectOk, ApplyEffect, Current;
  }

  lemma {:induction false} ProcStable(c: Config, sh: Shared, pid: Pid, e: Effect, q: Pid, p: Proc)
    requires SharedInv(c, sh) && EffectOk(c, sh, pid, e) && ForOthers(sh, pid, e, q) && ProcOk(c, sh, q, p)
    ensures ProcOk(c, ApplyEffect(sh, pid, e), q, p)
  {
    hide SharedInv, EffectOk, ApplyEffect, HookOk, DrainOk, ReplayOk, TunnelOk, Owes, ForOthers;
    match p
    case HookProc(h) => HookStable(c, sh, pid, e, q, h);
    case DrainProc(d) => DrainStable(c, sh, pid, e, d);
    case ReplayProc(r) => ReplayStable(c, sh, pid, e, r);
    case TunnelProc(t) => TunnelStable(c, sh, pid, e, q, t);
    case DeleteProc(x) => if x.DeleteOwes? { EffectOwes(c, sh, pid, e, q, x.displaced); }
  }

  // ---- each process keeps to that ----

  lemma {:induction false} HolderIsKnown(c: Config, sh: Shared, id: string, d: Delivery)
    requires SharedInv(c, sh) && HoldsKey(sh.rows, id, d.token, KeyOf(c, d))
    ensures id in sh.inserted && SameKey(c, sh.inserted[id], d)
  {
    assert id in sh.rows.Keys && SameRequest(sh.rows[id], sh.inserted[id]);
    hide ValidRows, MarksInv, MarkOriginInv, SendsInv, LiveInv, ReceivedInv, HubInv;
  }

  /** The response a row holds was returned by a Send of that row. */
  lemma {:induction false} RowResponse(c: Config, sh: Shared, id: string)
    requires SharedInv(c, sh) && id in sh.rows && sh.rows[id].status != 0
    ensures exists send: nat, resp ::
              ReturnedFor(sh.sends, sh.returned, id, send, resp) && resp.status == sh.rows[id].status
                  && resp.body == sh.rows[id].responseBody
  {
    hide ValidRows, SendsInv, LiveInv, ReceivedInv, HubInv, ReturnedFor;
    assert id in sh.rows.Keys && id in sh.inserted.Keys && id in sh.marks.Keys;
    var marks := sh.marks[id];
    assert RowMarked(sh.rows[id], marks);
    var m := marks[|marks| - 1];
    assert ReturnedFor(sh.sends, sh.returned, id, m.send, m.resp);
  }


  lemma {:induction false} CheckedGoesOn(c: Config, sh: Shared, pid: Pid, a: Arrival, h': Hook, e: Effect)
    requires SharedInv(c, sh) && a.token != "" && HookStep(c, sh, HookChecked(a), h', e)
    ensures EffectOk(c, sh, pid, e) && HookOk(c, ApplyEffect(sh, pid, e), pid, h')
  {
    hide SharedInv, SameKey, KeyOf, SaveOutcome, NotLive, AfterSave, AfterMark, ReturnedFor, FaithfulSend;
    if h'.HookDuplicate? {
      HolderIsKnown(c, sh, h'.holder, Delivered(a));
      assert KeyTaken(sh.rows, a.token, KeyOf(c, Delivered(a)));
    } else if h'.HookSaved? {
      FreshIsNotLive(c, sh, h'.row.id);
    }
  }

  lemma {:induction false} FreshIsNotLive(c: Config, sh: Shared, id: string)
    requires SharedInv(c, sh) && id !in sh.inserted
    ensures NotLive(sh.sends, id)
  {
    forall i | 0 <= i < |sh.sends| ensures sh.sends[i].id != id {
      assert FaithfulSend(sh.inserted, sh.clients, sh.sends[i]);
    }
  }

  lemma {:induction false} SavedGoesOn(c: Config, sh: Shared, pid: Pid, h: Hook, h': Hook, e: Effect)
    requires SharedInv(c, sh) && HookOk(c, sh, pid, h) && (h.HookSaved? || h.HookConnected?)
    requires HookStep(c, sh, h, h', e)
    ensures EffectOk(c, sh, pid, e) && HookOk(c, ApplyEffect(sh, pid, e), pid, h')
  {
    hide SharedInv, NotLive, FaithfulSend, SameKey, KeyTaken, SaveOutcome, AfterSave, AfterMark, ReturnedFor;
    if e.BeginSend? { LiveSends(c, sh, pid, h.row); }
  }

  lemma {:induction false} LiveSends(c: Config, sh: Shared, pid: Pid, row: Webhook)
    requires SharedInv(c, sh) && Mine(sh, pid, row) && row.token in sh.hub
    ensures FaithfulSend(sh.inserted, sh.clients, SendRecord(row.id, sh.hub[row.token], RequestOf(row, false), true))
  {
    CurrentIsKnown(c, sh, row.token);
    hide SharedInv;
  }

  lemma {:induction false} SendingGoesOn(c: Config, sh: Shared, pid: Pid, h: Hook, h': Hook, e: Effect)
    requires HookOk(c, sh, pid, h) && h.HookSending? && HookStep(c, sh, h, h', e)
    ensures EffectOk(c, sh, pid, e) && HookOk(c, ApplyEffect(sh, pid, e), pid, h')
  {
    hide SameKey, KeyTaken, HoldsKey, SaveOutcome, AfterSave, AfterMark, NotLive, KeyOf;
  }

  lemma {:induction false} MarkingGoesOn(c: Config, sh: Shared, pid: Pid, h: Hook, h': Hook, e: Effect)
    requires HookOk(c, sh, pid, h) && h.HookMarking? && HookStep(c, sh, h, h', e)
    ensures EffectOk(c, sh, pid, e) && HookOk(c, ApplyEffect(sh, pid, e), pid, h')
  {
    hide SameKey, KeyTaken, HoldsKey, SaveOutcome, AfterSave, AfterMark, NotLive, KeyOf, ReturnedFor;
    assert ReturnedFor(sh.sends, sh.returned, h.row.id, h.send, h.resp);
  }

  lemma {:induction false} DuplicateGoesOn(c: Config, sh: Shared, pid: Pid, h: Hook, h': Hook, e: Effect)
    requires SharedInv(c, sh) && HookOk(c, sh, pid, h) && h.HookDuplicate? && HookStep(c, sh, h, h', e)
    ensures EffectOk(c, sh, pid, e) && HookOk(c, ApplyEffect(sh, pid, e), pid, h')
  {
    hide SharedInv, ReturnedFor, SameKey, Mine, KeyTaken, SaveOutcome, AfterSave, AfterMark, NotLive, KeyOf;
    if h'.reply.Local? {
      HolderIsKnown(c, sh, h'.source, h.delivery);
      RowResponse(c, sh, h'.source);
    }
  }

  lemma {:induction false} HookGoesOn(c: Config, sh: Shared, pid: Pid, h: Hook, h': Hook, e: Effect)
    requires SharedInv(c, sh) && HookOk(c, sh, pid, h) && HookStep(c, sh, h, h', e)
    ensures EffectOk(c, sh, pid, e) && HookOk(c, ApplyEffect(sh, pid, e), pid, h')
  {
    if h.HookChecked? {
      CheckedGoesOn(c, sh, pid, h.arrival, h', e);
    } else if h.HookSaved? || h.HookConnected? {
      SavedGoesOn(c, sh, pid, h, h', e);
    } else if h.HookSending? {
      SendingGoesOn(c, sh, pid, h, h', e);
    } else if h.HookMarking? {
      MarkingGoesOn(c, sh, pid, h, h', e);
    } else if h.HookDuplicate? {
      DuplicateGoesOn(c, sh, pid, h, h', e);
    }
    hide SharedInv, EffectOk, ApplyEffect, HookOk;
  }

  lemma {:induction false} ListIsKnown(c: Config, sh: Shared, token: string, list: seq<Webhook>)
    requires SharedInv(c, sh)
    requires forall i | 0 <= i < |list| ::
             list[i].id in sh.rows && sh.rows[list[i].id] == list[i] && list[i].token == token
    ensures KnownList(sh.inserted, token, list)
  {
    forall i | 0 <= i < |list| ensures KnownRow(sh.inserted, list[i]) {
      assert list[i].id in sh.rows.Keys && list[i].id in sh.inserted.Keys;
    }
  }

  lemma {:induction false} AnswersAreRows(rows: Rows, token: string, list: seq<Webhook>)
    requires PendingAnswer(rows, token, list) || NewestFirst(rows, token, list)
    ensures forall i | 0 <= i < |list| :: list[i].id in rows && rows[list[i].id] == list[i] && list[i].token == token
  {
    hide TextBefore;
  }

  /** Rows picked out of a database answer are known rows of the token. */
  lemma {:induction false} PickedAreKnown(
      c: Config, sh: Shared, token: string, list: seq<Webhook>, picked: seq<Webhook>)
    requires SharedInv(c, sh) && (PendingAnswer(sh.rows, token, list) || NewestFirst(sh.rows, token, list))
    requires forall w | w in picked :: w in list
    ensures KnownList(sh.inserted, token, picked)
  {
    hide SharedInv, PendingAnswer, NewestFirst, SameRequest;
    AnswersAreRows(sh.rows, token, list);
    ListIsKnown(c, sh, token, list);
    assert forall i | 0 <= i < |picked| :: picked[i] in picked;
  }

  lemma {:induction false} ConnectFetch(c: Config, sh: Shared, d: Drain, d': Drain)
    requires SharedInv(c, sh) && DrainOk(sh, d) && d.DrainStart? && DrainStep(sh, d, d', Nothing)
    ensures DrainOk(sh, d')
  {
    hide SharedInv, PendingAnswer, NewestFirst, KnownRow;
    if d'.Draining? { PickedAreKnown(c, sh, d.token, d'.batch.todo, d'.batch.todo); }
  }

  lemma {:induction false} ReplayFetch(c: Config, sh: Shared, d: Drain, d': Drain)
    requires SharedInv(c, sh) && DrainOk(sh, d) && d.DrainReplays? && DrainStep(sh, d, d', Nothing)
    ensures DrainOk(sh, d')
  {
    hide SharedInv, PendingAnswer, NewestFirst, KnownRow, ReplaySelection.Selected;
    if d'.Draining? {
      var list :| NewestFirst(sh.rows, d.token, list)
          && d'.batch.todo == ReplaySelection.Selected(list, d.limit, d.delivered);
      ReplaySelection.SelectedIsFromList(list, d.limit, d.delivered);
      PickedAreKnown(c, sh, d.token, list, d'.batch.todo);
      assert forall i | 0 <= i < |d'.batch.todo| :: d'.batch.todo[i] in d'.batch.todo;
    }
  }

  lemma {:induction false} PeriodicFetch(c: Config, sh: Shared, d: Drain, d': Drain)
    requires SharedInv(c, sh) && DrainOk(sh, d) && d.DrainIdle? && DrainStep(sh, d, d', Nothing)
    ensures DrainOk(sh, d')
  {
    hide SharedInv, PendingAnswer, NewestFirst, KnownList;
    if d'.DrainFetched? { PickedAreKnown(c, sh, d.token, d'.list, d'.list); }
  }

  lemma {:induction false} PickedFromKnown(inserted: Rows, token: string, list: seq<Webhook>, picked: seq<Webhook>)
    requires KnownList(inserted, token, list) && forall w | w in picked :: w in list
    ensures KnownList(inserted, token, picked)
  {
    hide KnownRow;
    assert forall i | 0 <= i < |picked| :: picked[i] in picked;
  }

  lemma {:induction false} AgeFilter(sh: Shared, d: Drain, d': Drain)
    requires DrainOk(sh, d) && d.DrainFetched? && DrainStep(sh, d, d', Nothing)
    ensures DrainOk(sh, d')
  {
    hide KnownList;
    var cutoff :| d'.batch.todo == Delivering.OlderThan(d.list, cutoff);
    Delivering.OlderThanPicks(d.list, cutoff);
    PickedFromKnown(sh.inserted, d.token, d.list, d'.batch.todo);
  }

  lemma {:induction false} BatchSends(c: Config, sh: Shared, pid: Pid, b: Batch)
    requires BatchOk(sh, b) && b.todo != []
    ensures EffectOk(c, sh, pid, BeginSend(SendRecord(b.todo[0].id, b.client, RequestOf(b.todo[0], b.round.Replays?),
            false)))
    ensures b.todo[0].id in sh.inserted
  {
    assert KnownRow(sh.inserted, b.todo[0]);
  }

  lemma {:induction false} BatchShrinks(sh: Shared, b: Batch, delivered: set<string>)
    requires BatchOk(sh, b) && b.todo != [] && (b.round.Replays? ==> delivered == b.delivered)
    ensures BatchOk(sh, b.(todo := b.todo[1..], delivered := delivered))
  {
    hide KnownRow;
  }

  lemma {:induction false} BatchStarts(c: Config, sh: Shared, pid: Pid, b: Batch, d': Drain, e: Effect)
    requires BatchOk(sh, b) && DrainStep(sh, Draining(b), d', e)
    ensures EffectOk(c, sh, pid, e) && DrainOk(ApplyEffect(sh, pid, e), d')
  {
    hide KnownRow, PendingAnswer, NewestFirst;
    if b.todo != [] {
      BatchSends(c, sh, pid, b);
      hide FaithfulSend;
    }
  }

  lemma {:induction false} BatchReturns(c: Config, sh: Shared, pid: Pid, b: Batch, send: nat, d': Drain, e: Effect)
    requires DrainOk(sh, DrainSending(b, send)) && DrainStep(sh, DrainSending(b, send), d', e)
    ensures EffectOk(c, sh, pid, e) && DrainOk(ApplyEffect(sh, pid, e), d')
  {
    hide KnownRow, PendingAnswer, NewestFirst;
  }

  lemma {:induction false} BatchMarks(
      c: Config, sh: Shared, pid: Pid, b: Batch, send: nat, resp: Response, d': Drain, e: Effect)
    requires DrainOk(sh, DrainMarking(b, send, resp)) && DrainStep(sh, DrainMarking(b, send, resp), d', e)
    ensures EffectOk(c, sh, pid, e) && DrainOk(ApplyEffect(sh, pid, e), d')
  {
    hide PendingAnswer, NewestFirst, AfterMark, ReturnedFor, SameRequest;
    assert KnownRow(sh.inserted, b.todo[0]);
    BatchShrinks(sh, b, b.delivered);
    if b.round.OnConnect? { BatchShrinks(sh, b, b.delivered + {b.todo[0].id}); }
  }

  lemma {:induction false} BatchGoesOn(c: Config, sh: Shared, pid: Pid, d: Drain, d': Drain, e: Effect)
    requires DrainOk(sh, d) && DrainStep(sh, d, d', e) && (d.Draining? || d.DrainSending? || d.DrainMarking?)
    ensures EffectOk(c, sh, pid, e) && DrainOk(ApplyEffect(sh, pid, e), d')
  {
    assert d.Draining? ==> BatchOk(sh, d.batch);
    hide DrainOk, DrainStep, EffectOk, ApplyEffect;
    match d
    case Draining(b) => BatchStarts(c, sh, pid, b, d', e);
    case DrainSending(b, send) => BatchReturns(c, sh, pid, b, send, d', e);
    case DrainMarking(b, send, resp) => BatchMarks(c, sh, pid, b, send, resp, d', e);
    case _ =>
  }

  lemma {:induction false} DrainGoesOn(c: Config, sh: Shared, pid: Pid, d: Drain, d': Drain, e: Effect)
    requires SharedInv(c, sh) && DrainOk(sh, d) && DrainStep(sh, d, d', e)
    ensures EffectOk(c, sh, pid, e) && DrainOk(ApplyEffect(sh, pid, e), d')
  {
    if d.Draining? || d.DrainSending? || d.DrainMarking? {
      BatchGoesOn(c, sh, pid, d, d', e);
    } else if !d.DrainDone? {
      assert e == Nothing by { hide SharedInv, DrainOk, PendingAnswer, NewestFirst; }
      hide SharedInv, DrainOk, DrainStep;
      if d.DrainStart? {
        ConnectFetch(c, sh, d, d');
      } else if d.DrainReplays? {
        ReplayFetch(c, sh, d, d');
      } else if d.DrainIdle? {
        PeriodicFetch(c, sh, d, d');
      } else {
        AgeFilter(sh, d, d');
      }
    }
  }

  lemma {:induction false} CurrentIsKnown(c: Config, sh: Shared, token: string)
    requires SharedInv(c, sh) && token in sh.hub
    ensures KnownClient(sh.clients, token, sh.hub[token])
  {
    hide ValidRows, RowsInv, MarksInv, MarkOriginInv, SendsInv, LiveInv, ReceivedInv;
  }

  lemma {:induction false} ReplayGoesOn(c: Config, sh: Shared, pid: Pid, r: Replay, r': Replay, e: Effect)
    requires SharedInv(c, sh) && ReplayOk(sh, r) && ReplayStep(sh, r, r', e)
    ensures EffectOk(c, sh, pid, e) && ReplayOk(ApplyEffect(sh, pid, e), r')
  {
    hide SharedInv, KnownRow, ReturnedFor, AfterMark, AfterSave, SaveOutcome, KeyTaken;
    match r
    case ReplayGet(id) => if id in sh.rows { RowIsKnown(c, sh, id); }
    case ReplayLookup(row) => if row.token in sh.hub { ReplaySends(c, sh, row, pid); }
    case ReplaySending(row, send) => ReplayReturns(c, sh, pid, r, r', e);
    case ReplayMarking(row, send, resp) => ReplayMarks(sh, row);
    case ReplayDone(_) =>
  }

  lemma {:induction false} ReplayMarks(sh: Shared, row: Webhook)
    requires KnownRow(sh.inserted, row)
    ensures row.id in sh.inserted
  {
    hide SameRequest;
  }

  lemma {:induction false} ReplaySends(c: Config, sh: Shared, row: Webhook, pid: Pid)
    requires SharedInv(c, sh) && KnownRow(sh.inserted, row) && row.token in sh.hub
    ensures EffectOk(c, sh, pid, BeginSend(SendRecord(row.id, sh.hub[row.token], RequestOf(row, true), false)))
  {
    CurrentIsKnown(c, sh, row.token);
    hide SharedInv;
  }

  lemma {:induction false} ReplayReturns(c: Config, sh: Shared, pid: Pid, r: Replay, r': Replay, e: Effect)
    requires r.ReplaySending? && ReplayOk(sh, r) && ReplayStep(sh, r, r', e)
    ensures EffectOk(c, sh, pid, e) && ReplayOk(ApplyEffect(sh, pid, e), r')
  {
    hide KnownRow, AfterMark, AfterSave, SaveOutcome, KeyTaken;
  }

  lemma {:induction false} RowIsKnown(c: Config, sh: Shared, id: string)
    requires SharedInv(c, sh) && id in sh.rows
    ensures KnownRow(sh.inserted, sh.rows[id])
  {
    hide MarksInv, MarkOriginInv, SendsInv, LiveInv, ReceivedInv, HubInv;
    assert id in sh.inserted.Keys;
  }

  lemma {:induction false} TunnelGoesOn(c: Config, sh: Shared, pid: Pid, t: Tunnel, t': Tunnel, e: Effect)
    requires SharedInv(c, sh) && TunnelOk(sh, pid, t) && TunnelStep(sh, t, t', e)
    ensures EffectOk(c, sh, pid, e) && TunnelOk(ApplyEffect(sh, pid, e), pid, t')
  {
    assert HubInv(sh.hub, sh.clients, sh.closed, sh.owed);
    hide SharedInv;
  }

  lemma {:induction false} ProcGoesOn(c: Config, sh: Shared, pid: Pid, p: Proc, p': Proc, e: Effect)
    requires SharedInv(c, sh) && ProcOk(c, sh, pid, p) && ProcStep(c, sh, p, p', e)
    ensures EffectOk(c, sh, pid, e) && ProcOk(c, ApplyEffect(sh, pid, e), pid, p')
  {
    hide SharedInv, HookOk, DrainOk, ReplayOk, TunnelOk, HookStep, DrainStep, ReplayStep, TunnelStep;
    match p
    case HookProc(h) => HookGoesOn(c, sh, pid, h, p'.h, e); hide EffectOk, ApplyEffect;
    case DrainProc(d) => DrainGoesOn(c, sh, pid, d, p'.d, e); hide EffectOk, ApplyEffect;
    case ReplayProc(r) => ReplayGoesOn(c, sh, pid, r, p'.r, e); hide EffectOk, ApplyEffect;
    case TunnelProc(t) => TunnelGoesOn(c, sh, pid, t, p'.t, e); hide EffectOk, ApplyEffect;
    case DeleteProc(x) =>
  }

  // ---- the whole system ----

  /** The client a process has still to close. */
  function Debt(p: Proc): Option<ClientId> {
    match p
    case TunnelProc(TunnelOwes(_, _, displaced)) => Some(displaced)
    case DeleteProc(DeleteOwes(displaced)) => Some(displaced)
    case _ => None
  }

  /** Every owed Close is about to be paid by a running process. */
  ghost predicate DebtInv(owed: map<ClientId, Pid>, procs: map<Pid, Proc>) {
    forall cl | cl in owed :: owed[cl] in procs && Debt(procs[owed[cl]]) == Some(cl)
  }

  ghost predicate ProcsInv(c: Config, sh: Shared, procs: map<Pid, Proc>) {
    forall pid | pid in procs :: ProcOk(c, sh, pid, procs[pid])
  }

  ghost predicate Inv(c: Config, s: State) {
    SharedInv(c, s.sh) && ProcsInv(c, s.sh, s.procs) && DebtInv(s.sh.owed, s.procs)
  }

  lemma {:induction false} InitialInv(c: Config)
    ensures Inv(c, INITIAL)
  {
  }

  lemma {:induction false} OutsideIsOk(c: Config, sh: Shared, e: Effect)
    requires FromOutside(sh, e)
    ensures EffectOk(c, sh, 0, e) && ApplyEffect(sh, 0, e).owed == sh.owed
  {
  }

  lemma {:induction false} OthersStable(c: Config, sh: Shared, procs: map<Pid, Proc>, pid: Pid, e: Effect)
    requires SharedInv(c, sh) && EffectOk(c, sh, pid, e) && ProcsInv(c, sh, procs)
    ensures forall q | q in procs && ForOthers(sh, pid, e, q) :: ProcOk(c, ApplyEffect(sh, pid, e), q, procs[q])
  {
    hide SharedInv, EffectOk, ApplyEffect, ProcOk, ForOthers;
    forall q | q in procs && ForOthers(sh, pid, e, q) ensures ProcOk(c, ApplyEffect(sh, pid, e), q, procs[q]) {
      ProcStable(c, sh, pid, e, q, procs[q]);
    }
  }

  /** An effect that moves no debt, by a process that has none and gets none. */
  lemma {:induction false} DebtFree(s: State, pid: Pid, next: Proc, e: Effect)
    requires DebtInv(s.sh.owed, s.procs) && pid in s.procs && !(e.Register? || e.PayClose? || e.Disconnect?)
    requires Debt(s.procs[pid]) == None
    ensures DebtInv(ApplyEffect(s.sh, pid, e).owed, s.procs[pid := next])
  {
    hide AfterSave, AfterMark, Registered, Unregistered, Retention.AfterAgeSweep, Retention.AfterCountSweep, Debt;
  }

  lemma {:induction false} TunnelDebt(s: State, pid: Pid, t: Tunnel, t': Tunnel, e: Effect)
    requires DebtInv(s.sh.owed, s.procs) && pid in s.procs && s.procs[pid] == TunnelProc(t)
             && TunnelStep(s.sh, t, t', e)
    ensures DebtInv(ApplyEffect(s.sh, pid, e).owed, s.procs[pid := TunnelProc(t')])
  {
    hide Registered, Unregistered;
  }

  lemma {:induction false} DeleteDebt(s: State, pid: Pid, x: Deletion, x': Deletion, e: Effect)
    requires DebtInv(s.sh.owed, s.procs) && pid in s.procs && s.procs[pid] == DeleteProc(x)
             && DeleteStep(s.sh, x, x', e)
    ensures DebtInv(ApplyEffect(s.sh, pid, e).owed, s.procs[pid := DeleteProc(x')])
  {
  }

  /** A process with a debt pays it, and one that displaces a client takes it on. */
  lemma {:induction false} DebtKept(c: Config, s: State, pid: Pid, next: Proc, e: Effect)
    requires DebtInv(s.sh.owed, s.procs) && pid in s.procs && ProcStep(c, s.sh, s.procs[pid], next, e)
    ensures DebtInv(ApplyEffect(s.sh, pid, e).owed, s.procs[pid := next])
  {
    hide HookStep, DrainStep, ReplayStep, ApplyEffect, DebtInv, TunnelStep, DeleteStep;
    match s.procs[pid]
    case HookProc(h) => HookEffects(c, s.sh, h, next.h, e); DebtFree(s, pid, next, e);
    case DrainProc(d) => DrainEffects(s.sh, d, next.d, e); DebtFree(s, pid, next, e);
    case ReplayProc(r) => ReplayEffects(s.sh, r, next.r, e); DebtFree(s, pid, next, e);
    case TunnelProc(t) => TunnelDebt(s, pid, t, next.t, e);
    case DeleteProc(x) => DeleteDebt(s, pid, x, next.x, e);
  }

  lemma {:induction false} HookEffects(c: Config, sh: Shared, h: Hook, h': Hook, e: Effect)
    requires HookStep(c, sh, h, h', e)
    ensures !(e.Register? || e.PayClose? || e.Disconnect?)
  {
    hide KeyOf, SaveOutcome;
  }

  lemma {:induction false} DrainEffects(sh: Shared, d: Drain, d': Drain, e: Effect)
    requires DrainStep(sh, d, d', e)
    ensures !(e.Register? || e.PayClose? || e.Disconnect?)
  {
    hide PendingAnswer, NewestFirst;
  }

  lemma {:induction false} ReplayEffects(sh: Shared, r: Replay, r': Replay, e: Effect)
    requires ReplayStep(sh, r, r', e)
    ensures !(e.Register? || e.PayClose? || e.Disconnect?)
  {
  }

  lemma {:induction false} ActKept(c: Config, s: State, pid: Pid, next: Proc, e: Effect)
    requires Inv(c, s) && Enabled(c, s, Act(pid, next, e))
    ensures Inv(c, Apply(s, Act(pid, next, e)))
  {
    hide SharedInv, EffectOk, ApplyEffect, ProcOk, ProcStep;
    ProcGoesOn(c, s.sh, pid, s.procs[pid], next, e);
    EffectKeeps(c, s.sh, pid, e);
    OthersStable(c, s.sh, s.procs, pid, e);
    DebtKept(c, s, pid, next, e);
    hide DebtInv;
  }

  lemma {:induction false} OutsideKept(c: Config, s: State, e: Effect)
    requires Inv(c, s) && FromOutside(s.sh, e)
    ensures Inv(c, Apply(s, Environment(e)))
  {
    hide SharedInv, EffectOk, ApplyEffect, ProcOk, FromOutside;
    OutsideIsOk(c, s.sh, e);
    EffectKeeps(c, s.sh, 0, e);
    OthersStable(c, s.sh, s.procs, 0, e);
    hide DebtInv;
  }

  lemma {:induction false} SpawnKept(c: Config, s: State, pid: Pid, p: Proc)
    requires Inv(c, s) && pid !in s.procs && Starts(s.sh, p)
    ensures Inv(c, Apply(s, Spawn(pid, p)))
  {
    assert ProcOk(c, s.sh, pid, p);
    hide SharedInv, ProcOk, Starts;
  }

  lemma {:induction false} RestartKept(c: Config, s: State)
    requires Inv(c, s)
    ensures Inv(c, Apply(s, Restart))
  {
    hide ValidRows, RowsInv, MarksInv, MarkOriginInv, SendsInv, LiveInv, ReceivedInv, ProcOk;
  }

  /** Every step of every process, of the environment and of a restart keeps the invariant. */
  lemma {:induction false} InvKept(c: Config, s: State, step: Step)
    requires Inv(c, s) && Enabled(c, s, step)
    ensures Inv(c, Apply(s, step))
  {
    hide Inv, ProcStep, Starts, FromOutside, ApplyEffect;
    match step
    case Spawn(pid, p) => SpawnKept(c, s, pid, p);
    case Act(pid, next, e) => ActKept(c, s, pid, next, e);
    case Environment(e) => OutsideKept(c, s, e);
    case Restart => RestartKept(c, s);
  }

  lemma {:induction false} RunKeepsInv(c: Config, s: State, steps: seq<Step>)
    requires Inv(c, s) && ValidRun(c, s, steps)
    ensures Inv(c, Run(s, steps))
    decreases |steps|
  {
    hide Inv, Enabled, Apply;
    if steps != [] {
      InvKept(c, s, steps[0]);
      RunKeepsInv(c, Apply(s, steps[0]), steps[1..]);
    }
  }
}
