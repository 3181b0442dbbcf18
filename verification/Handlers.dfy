/** handleHook and ReplayWebhook as the sequences of effects they are
    (internal/relay/handlers.go, internal/relay/delivery.go), each beside the machine's
    steps: with nothing interleaved, what the handler does to the table and answers is
    what a valid run of its process does. */
module Handlers {
  import opened Wrappers
  import opened Ints
  import opened Message
  import opened Store
  import opened Delivering
  import opened Relay
  import Dedup
  import ReplaySelection
  import RelayTheorems

  /** steps lead the machine from s to now. */
  ghost predicate Leads(c: Config, s: State, steps: seq<Step>, now: State) {
    ValidRun(c, s, steps) && Run(s, steps) == now
  }

  lemma {:induction false} Advance(c: Config, s: State, steps: seq<Step>, now: State, step: Step)
    requires Leads(c, s, steps, now) && Enabled(c, now, step)
    ensures Leads(c, s, steps + [step], Apply(now, step))
  {
    hide Enabled, Apply;
    assert [step][0] == step && [step][1..] == [];
    assert ValidRun(c, Apply(now, step), []) && Run(Apply(now, step), []) == Apply(now, step);
    RelayTheorems.RunConcat(c, s, steps, [step]);
  }

  /** Process pid at p, over this table, its token's client in the hub. */
  ghost predicate At(now: State, pid: Pid, p: Proc, rows: Rows, hub: map<string, ClientId>) {
    pid in now.procs && now.procs[pid] == p && now.sh.rows == rows && now.sh.hub == hub
  }

  lemma {:induction false} Stored(
      c: Config, now: State, pid: Pid, a: Arrival, row: Webhook, rows: Rows, hub: map<string, ClientId>)
    requires At(now, pid, HookProc(HookChecked(a)), rows, hub)
    requires row == NewRow(c, a, row.id) && row.id !in now.sh.inserted && SaveOutcome(rows, row) == Saved
    ensures var step := Act(pid, HookProc(HookSaved(row)), Insert(row));
            Enabled(c, now, step) && At(Apply(now, step), pid, HookProc(HookSaved(row)), AfterSave(rows, row), hub)
  {
    hide SaveOutcome, KeyOf;
  }

  lemma {:induction false} Lost(c: Config, now: State, pid: Pid, a: Arrival, rows: Rows, hub: map<string, ClientId>)
    requires At(now, pid, HookProc(HookChecked(a)), rows, hub)
    ensures var p := HookProc(HookAnswered(Delivered(a), ServerError, "", ""));
            Enabled(c, now, Act(pid, p, Nothing)) && At(Apply(now, Act(pid, p, Nothing)), pid, p, rows, hub)
  {
  }

  lemma {:induction false} Known(
      c: Config, now: State, pid: Pid, a: Arrival, holder: string, rows: Rows, hub: map<string, ClientId>)
    requires At(now, pid, HookProc(HookChecked(a)), rows, hub)
    requires HoldsKey(rows, holder, a.token, KeyOf(c, Delivered(a)))
    ensures var p := HookProc(HookDuplicate(Delivered(a), holder));
            Enabled(c, now, Act(pid, p, Receive(Delivered(a))))
                && At(Apply(now, Act(pid, p, Receive(Delivered(a)))), pid, p, rows, hub)
  {
    hide KeyOf;
  }

  /** respondDuplicate's answer. */
  function DuplicateReply(original: Option<Webhook>): Reply {
    if original.None? || original.value.status == 0 then Accepted
    else Local(original.value.status, original.value.responseBody)
  }

  lemma {:induction false} Repeated(
      c: Config, now: State, pid: Pid, d: Delivery, holder: string, original: Option<Webhook>,
      rows: Rows, hub: map<string, ClientId>)
    requires At(now, pid, HookProc(HookDuplicate(d, holder)), rows, hub)
    requires original.Some? ==>
               HoldsKey(rows, original.value.id, d.token, KeyOf(c, d)) && rows[original.value.id] == original.value
    ensures var source := if original.Some? then original.value.id else "";
            var p := HookProc(HookAnswered(d, DuplicateReply(original), holder, source));
            Enabled(c, now, Act(pid, p, Nothing)) && At(Apply(now, Act(pid, p, Nothing)), pid, p, rows, hub)
  {
    hide KeyOf;
  }

  /** Connected, then Forward's lookup and the beginning of its Send. */
  lemma {:induction false} Looked(c: Config, now: State, pid: Pid, row: Webhook, rows: Rows, hub: map<string, ClientId>)
    requires At(now, pid, HookProc(HookSaved(row)), rows, hub)
    ensures var p := HookProc(if row.token in hub then HookConnected(row)
            else HookAnswered(DeliveryOf(row), Accepted, row.id, ""));
            Enabled(c, now, Act(pid, p, Nothing)) && At(Apply(now, Act(pid, p, Nothing)), pid, p, rows, hub)
  {
  }

  lemma {:induction false} Began(c: Config, now: State, pid: Pid, row: Webhook, rows: Rows, hub: map<string, ClientId>)
    requires At(now, pid, HookProc(HookConnected(row)), rows, hub) && row.token in hub
    ensures var step := Act(pid, HookProc(HookSending(row, |now.sh.sends|)),
                            BeginSend(SendRecord(row.id, hub[row.token], RequestOf(row, false), true)));
            Enabled(c, now, step) && At(Apply(now, step), pid, step.next, rows, hub)
  {
  }

  lemma {:induction false} Returned(
    c: Config, now: State, pid: Pid, row: Webhook, send: nat, outcome: Option<Response>, rows: Rows,
    hub: map<string, ClientId>)
    requires At(now, pid, HookProc(HookSending(row, send)), rows, hub)
    ensures var p := HookProc(if Good(outcome) then HookMarking(row, send, outcome.value)
                              else HookAnswered(DeliveryOf(row), Accepted, row.id, ""));
            Enabled(c, now, Act(pid, p, EndSend(send, outcome)))
                && At(Apply(now, Act(pid, p, EndSend(send, outcome))), pid, p, rows, hub)
  {
  }

  lemma {:induction false} MarkedOrNot(
    c: Config, now: State, pid: Pid, row: Webhook, send: nat, resp: Response, ok: bool, rows: Rows,
    hub: map<string, ClientId>)
    requires At(now, pid, HookProc(HookMarking(row, send, resp)), rows, hub)
    ensures var reply := if ok then Local(resp.status, resp.body) else ServerError;
            var p := HookProc(HookAnswered(DeliveryOf(row), reply, row.id, if ok then row.id else ""));
            var step := Act(pid, p, if ok then Mark(row.id, send, resp) else Nothing);
            Enabled(c, now, step)
            && At(Apply(now, step), pid, p, if ok then AfterMark(rows, row.id, resp.status, resp.body) else rows, hub)
  {
    hide AfterMark;
  }

  // ---- whole runs of the process ----

  lemma {:induction false} StartsThere(c: Config, s: State)
    ensures Leads(c, s, [], s)
  {
  }

  lemma {:induction false} LostRun(c: Config, s: State, pid: Pid, a: Arrival, rows: Rows, hub: map<string, ClientId>)
    returns (steps: seq<Step>, end: State)
    requires At(s, pid, HookProc(HookChecked(a)), rows, hub)
    ensures Leads(c, s, steps, end) && HookDone(end, pid, Delivered(a), ServerError, rows)
  {
    StartsThere(c, s);
    Lost(c, s, pid, a, rows, hub);
    var step := Act(pid, HookProc(HookAnswered(Delivered(a), ServerError, "", "")), Nothing);
    hide Enabled, Apply, Leads;
    Advance(c, s, [], s, step);
    steps, end := [] + [step], Apply(s, step);
  }

  lemma {:induction false} KnownRun(
      c: Config, s: State, pid: Pid, a: Arrival, holder: string, rows: Rows, hub: map<string, ClientId>)
    returns (steps: seq<Step>, end: State)
    requires At(s, pid, HookProc(HookChecked(a)), rows, hub)
    requires HoldsKey(rows, holder, a.token, KeyOf(c, Delivered(a)))
    ensures Leads(c, s, steps, end) && At(end, pid, HookProc(HookDuplicate(Delivered(a), holder)), rows, hub)
  {
    hide Enabled, Apply, Leads, KeyOf;
    StartsThere(c, s);
    Known(c, s, pid, a, holder, rows, hub);
    var step := Act(pid, HookProc(HookDuplicate(Delivered(a), holder)), Receive(Delivered(a)));
    Advance(c, s, [], s, step);
    steps, end := [] + [step], Apply(s, step);
  }

  lemma {:induction false} RepeatedRun(
      c: Config, s: State, before: seq<Step>, now: State, pid: Pid, d: Delivery, holder: string,
      original: Option<Webhook>,
      rows: Rows, hub: map<string, ClientId>)
    returns (steps: seq<Step>, end: State)
    requires Leads(c, s, before, now) && At(now, pid, HookProc(HookDuplicate(d, holder)), rows, hub)
    requires original.Some? ==>
               HoldsKey(rows, original.value.id, d.token, KeyOf(c, d)) && rows[original.value.id] == original.value
    ensures Leads(c, s, steps, end) && HookDone(end, pid, d, DuplicateReply(original), rows)
  {
    hide Enabled, Apply, Leads, KeyOf;
    Repeated(c, now, pid, d, holder, original, rows, hub);
    var source := if original.Some? then original.value.id else "";
    var step := Act(pid, HookProc(HookAnswered(d, DuplicateReply(original), holder, source)), Nothing);
    Advance(c, s, before, now, step);
    steps, end := before + [step], Apply(now, step);
  }

  /** Stored, and the hub asked. */
  lemma {:induction false} StoredRun(
      c: Config, s: State, pid: Pid, a: Arrival, row: Webhook, rows: Rows, hub: map<string, ClientId>)
    returns (steps: seq<Step>, end: State)
    requires At(s, pid, HookProc(HookChecked(a)), rows, hub)
    requires row == NewRow(c, a, row.id) && row.id !in s.sh.inserted && SaveOutcome(rows, row) == Saved
    ensures Leads(c, s, steps, end)
    ensures At(end, pid, HookProc(if row.token in hub then HookConnected(row)
            else HookAnswered(DeliveryOf(row), Accepted, row.id, "")),
               AfterSave(rows, row), hub)
  {
    hide Enabled, Apply, Leads, SaveOutcome, AfterSave, KeyOf, NewRow;
    StartsThere(c, s);
    Stored(c, s, pid, a, row, rows, hub);
    var first := Act(pid, HookProc(HookSaved(row)), Insert(row));
    Advance(c, s, [], s, first);
    var mid := Apply(s, first);
    Looked(c, mid, pid, row, AfterSave(rows, row), hub);
    var second := Act(pid, HookProc(if row.token in hub then HookConnected(row)
        else HookAnswered(DeliveryOf(row), Accepted, row.id, "")), Nothing);
    Advance(c, s, [] + [first], mid, second);
    steps, end := [] + [first] + [second], Apply(mid, second);
  }

  /** Sent live, and the Send came back. */
  lemma {:induction false} SentRun(
    c: Config, s: State, before: seq<Step>, now: State, pid: Pid, row: Webhook, outcome: Option<Response>, rows: Rows,
    hub: map<string, ClientId>)
    returns (steps: seq<Step>, end: State, send: nat)
    requires Leads(c, s, before, now) && At(now, pid, HookProc(HookConnected(row)), rows, hub) && row.token in hub
    ensures Leads(c, s, steps, end)
    ensures At(end, pid, HookProc(if Good(outcome) then HookMarking(row, send, outcome.value)
                                  else HookAnswered(DeliveryOf(row), Accepted, row.id, "")), rows, hub)
  {
    hide Enabled, Apply, Leads;
    send := |now.sh.sends|;
    Began(c, now, pid, row, rows, hub);
    var first := Act(pid, HookProc(HookSending(row, send)),
        BeginSend(SendRecord(row.id, hub[row.token], RequestOf(row, false), true)));
    Advance(c, s, before, now, first);
    var mid := Apply(now, first);
    Returned(c, mid, pid, row, send, outcome, rows, hub);
    var second := Act(pid, HookProc(if Good(outcome) then HookMarking(row, send, outcome.value)
                                    else HookAnswered(DeliveryOf(row), Accepted, row.id, "")), EndSend(send, outcome));
    Advance(c, s, before + [first], mid, second);
    steps, end := before + [first] + [second], Apply(mid, second);
  }

  lemma {:induction false} MarkRun(
    c: Config, s: State, before: seq<Step>, now: State, pid: Pid, row: Webhook, send: nat, resp: Response, ok: bool,
    rows: Rows, hub: map<string, ClientId>)
    returns (steps: seq<Step>, end: State)
    requires Leads(c, s, before, now) && At(now, pid, HookProc(HookMarking(row, send, resp)), rows, hub)
    ensures Leads(c, s, steps, end)
    ensures HookDone(end, pid, DeliveryOf(row), if ok then Local(resp.status, resp.body) else ServerError,
                     if ok then AfterMark(rows, row.id, resp.status, resp.body) else rows)
  {
    hide Enabled, Apply, Leads, AfterMark;
    MarkedOrNot(c, now, pid, row, send, resp, ok, rows, hub);
    var reply := if ok then Local(resp.status, resp.body) else ServerError;
    var step := Act(pid, HookProc(HookAnswered(DeliveryOf(row), reply, row.id, if ok then row.id else "")),
                    if ok then Mark(row.id, send, resp) else Nothing);
    Advance(c, s, before, now, step);
    steps, end := before + [step], Apply(now, step);
  }

  /** The process has answered, and the table is this. */
  ghost predicate HookDone(now: State, pid: Pid, d: Delivery, reply: Reply, rows: Rows) {
    && pid in now.procs && now.sh.rows == rows && now.procs[pid].HookProc? && now.procs[pid].h.HookAnswered?
    && now.procs[pid].h.delivery == d && now.procs[pid].h.reply == reply
  }

  // ---- the handler ----

  lemma {:induction false} NotSaved(rows: Rows, row: Webhook)
    ensures SaveOutcome(rows, row) != Saved ==> AfterSave(rows, row) == rows
    ensures SaveOutcome(rows, row) == Duplicate ==> KeyTaken(rows, row.token, row.dedupKey)
  {
  }

  lemma {:induction false} KeyHolder(rows: Rows, token: string, key: string) returns (holder: string)
    requires KeyTaken(rows, token, key)
    ensures HoldsKey(rows, holder, token, key)
  {
    holder :| holder in rows && HoldsKey(rows, holder, token, key);
  }

  /** The lookup may fail, and the row that held the key when the insert was refused may
      be gone by now: both are answered 202. */
  method RespondDuplicate(
      c: Config, table: Table, d: Delivery, key: string, lookupFails: bool,
      ghost s: State, ghost before: seq<Step>, ghost now: State, ghost pid: Pid, ghost holder: string)
    returns (reply: Reply, ghost steps: seq<Step>, ghost end: State)
    requires table.Valid() && key == KeyOf(c, d) && Leads(c, s, before, now)
    requires At(now, pid, HookProc(HookDuplicate(d, holder)), table.rows, now.sh.hub)
    ensures Leads(c, s, steps, end) && HookDone(end, pid, d, reply, table.rows)
    ensures lookupFails || !KeyTaken(table.rows, d.token, key) ==> reply == Accepted
    ensures forall id | HoldsKey(table.rows, id, d.token, key) && !lookupFails && !Pending(table.rows[id]) ::
              reply == Local(table.rows[id].status, table.rows[id].responseBody)
    ensures forall id | HoldsKey(table.rows, id, d.token, key) && Pending(table.rows[id]) :: reply == Accepted
  {
    hide Leads, HookDone, KeyOf, ValidRows;
    var original: Option<Webhook> := None;
    if !lookupFails { original := table.WebhookByDedupKey(d.token, key); }
    reply := if original.None? || original.value.status == 0 then Accepted
             else Local(original.value.status, original.value.responseBody);
    steps, end := RepeatedRun(c, s, before, now, pid, d, holder, original, table.rows, now.sh.hub);
  }

  /** The row stores what arrived, field by field, under this id. */
  predicate StoresArrival(c: Config, row: Webhook, a: Arrival, id: string) {
    && row.id == id && row.token == a.token && row.httpMethod == a.httpMethod && row.path == a.path
    && row.headers == a.headers && row.body == a.body && row.receivedAt == a.receivedAt
    && row.dedupKey == (if c.dedup then Dedup.DedupKey(c.hash, a.httpMethod, a.path, a.body) else "")
  }

  /** The insert can succeed: ids are given and the primary key is free. */
  predicate Fits(rows: Rows, a: Arrival, id: string) {
    id != "" && a.token != "" && id !in rows
  }

  /** The answer to a webhook that was stored, and what its row then records: the client's
      answer, if it has a status and could be marked; otherwise the row is pending. */
  predicate StoredOutcome(answer: Option<Response>, markFails: bool, reply: Reply, row: Webhook) {
    if answer.Some? && answer.value.status != 0 && !markFails then
      && reply == Local(answer.value.status, answer.value.body)
      && row.status == answer.value.status && row.responseBody == answer.value.body
    else
      && reply == (if answer.Some? && answer.value.status != 0 then ServerError else Accepted)
      && row.status == 0 && row.responseBody == ""
  }

  /** Rows gained this one and are otherwise the same. */
  ghost predicate OneMore(rows: Rows, rows': Rows, id: string) {
    rows'.Keys == rows.Keys + {id} && forall other | other in rows && other != id :: rows'[other] == rows[other]
  }

  /** One request was sent in addition; it carries this row. */
  predicate OneSent(was: seq<Request>, sent: seq<Request>, row: Webhook, replay: bool) {
    && |sent| == |was| + 1 && was <= sent
    && sent[|was|].id == row.id && sent[|was|].replay == replay && Carries(sent[|was|], row)
  }

  /** Which of handleHook's statements on the store fail. */
  datatype Failures = Failures(save: bool, mark: bool, lookup: bool)

  /** What the token's client was sent, if there is one. */
  function SentTo(peer: Option<Peer>): seq<Request>
    reads if peer.Some? then {peer.value} else {}
  {
    if peer.Some? then peer.value.sent else []
  }

  /** What it answers to its next request. */
  function NextAnswer(peer: Option<Peer>): Option<Response>
    reads if peer.Some? then {peer.value} else {}
  {
    if peer.Some? then peer.value.answers(|peer.value.sent|) else None
  }

  /** What a hook request comes to. An insert that fails or is refused: 500, and nothing
      stored or sent. A duplicate: the answer its first delivery got. Otherwise the row is
      stored and, if a client is there, sent to it once. */
  ghost predicate HookOutcome(
    c: Config, a: Arrival, id: string, fails: Failures, connected: bool, answer: Option<Response>,
    rows: Rows, rows': Rows, was: seq<Request>, sent: seq<Request>, reply: Reply)
  {
    var key := KeyOf(c, Delivered(a));
    if fails.save || !Fits(rows, a, id) then reply == ServerError && rows' == rows && sent == was
    else if KeyTaken(rows, a.token, key) then
      && rows' == rows && sent == was
      && (forall other | HoldsKey(rows, other, a.token, key) ::
            reply == if fails.lookup || rows[other].status == 0 then Accepted
                     else Local(rows[other].status, rows[other].responseBody))
    else
      && OneMore(rows, rows', id) && StoresArrival(c, rows'[id], a, id)
      && StoredOutcome(answer, fails.mark, reply, rows'[id])
      && if connected then OneSent(was, sent, rows'[id], false) else sent == was
  }

  lemma {:induction false} LostOutcome(
    c: Config, a: Arrival, id: string, fails: Failures, connected: bool, answer: Option<Response>,
    rows: Rows, was: seq<Request>)
    requires fails.save || SaveOutcome(rows, NewRow(c, a, id)) == Refused
    ensures HookOutcome(c, a, id, fails, connected, answer, rows, rows, was, was, ServerError)
  {
    hide KeyOf, KeyTaken;
  }

  lemma {:induction false} RepeatedOutcome(
    c: Config, a: Arrival, id: string, fails: Failures, connected: bool, answer: Option<Response>,
    rows: Rows, was: seq<Request>, reply: Reply)
    requires !fails.save && SaveOutcome(rows, NewRow(c, a, id)) == Duplicate
    requires forall other | HoldsKey(rows, other, a.token, KeyOf(c, Delivered(a))) ::
               reply == if fails.lookup || rows[other].status == 0 then Accepted
                        else Local(rows[other].status, rows[other].responseBody)
    ensures HookOutcome(c, a, id, fails, connected, answer, rows, rows, was, was, reply)
  {
    hide KeyOf, KeyTaken;
  }

  /** Stored, but without an answer that could be recorded. */
  lemma {:induction false} PendingOutcome(
    c: Config, a: Arrival, id: string, fails: Failures, connected: bool, answer: Option<Response>,
    rows: Rows, was: seq<Request>)
    requires !fails.save && SaveOutcome(rows, NewRow(c, a, id)) == Saved
    requires !Good(answer) || fails.mark
    ensures var row := NewRow(c, a, id);
            HookOutcome(c, a, id, fails, connected, answer, rows, AfterSave(rows, row), was,
              if connected then was + [RequestOf(row, false)] else was,
              if Good(answer) then ServerError else Accepted)
  {
    hide KeyTaken;
  }

  /** Stored, sent and answered. */
  lemma {:induction false} AnsweredOutcome(
    c: Config, a: Arrival, id: string, fails: Failures, answer: Option<Response>, rows: Rows, was: seq<Request>)
    requires !fails.save && SaveOutcome(rows, NewRow(c, a, id)) == Saved
    requires Good(answer) && !fails.mark
    ensures var row := NewRow(c, a, id);
            HookOutcome(c, a, id, fails, true, answer, rows,
              AfterMark(AfterSave(rows, row), id, answer.value.status, answer.value.body), was,
              was + [RequestOf(row, false)], Local(answer.value.status, answer.value.body))
  {
    hide KeyTaken;
  }

  /** handleHook from the checks on. `peer` is the token's client, if one is registered. */
  method HandleHook(
      c: Config, table: Table, peer: Option<Peer>, a: Arrival, id: string, fails: Failures,
      ghost s: State, ghost pid: Pid)
    returns (reply: Reply, ghost steps: seq<Step>, ghost end: State)
    requires table.Valid() && At(s, pid, HookProc(HookChecked(a)), table.rows, s.sh.hub)
    requires peer.Some? <==> a.token in s.sh.hub
    requires id !in s.sh.inserted
    modifies table, if peer.Some? then {peer.value} else {}
    ensures table.Valid() && Leads(c, s, steps, end) && HookDone(end, pid, Delivered(a), reply, table.rows)
    ensures HookOutcome(c, a, id, fails, peer.Some?, old(NextAnswer(peer)), old(table.rows), table.rows,
              old(SentTo(peer)), SentTo(peer), reply)
  {
    hide SaveOutcome, AfterSave, AfterMark, Apply, Enabled, Leads, KeyTaken, ValidRows, RequestOf, HookOutcome;
    ghost var hub, rows := s.sh.hub, table.rows;
    ghost var was, answer := SentTo(peer), NextAnswer(peer);
    var row := NewRow(c, a, id);
    var outcome := Refused;
    if !fails.save { outcome := table.SaveWebhook(row); }
    NotSaved(rows, row);
    match outcome {
      case Refused =>
        reply := ServerError;
        steps, end := LostRun(c, s, pid, a, rows, hub);
        LostOutcome(c, a, id, fails, peer.Some?, answer, rows, was);
      case Duplicate =>
        ghost var holder := KeyHolder(rows, a.token, row.dedupKey);
        steps, end := KnownRun(c, s, pid, a, holder, rows, hub);
        reply, steps, end := RespondDuplicate(c, table, Delivered(a), row.dedupKey, fails.lookup, s, steps, end, pid,
            holder);
        RepeatedOutcome(c, a, id, fails, peer.Some?, answer, rows, was, reply);
      case Saved =>
        steps, end := StoredRun(c, s, pid, a, row, rows, hub);
        reply := Accepted;
        if !Good(answer) || fails.mark { PendingOutcome(c, a, id, fails, peer.Some?, answer, rows, was); }
        if peer.Some? {
          var resp := peer.value.Send(RequestOf(row, false));
          ghost var send;
          steps, end, send := SentRun(c, s, steps, end, pid, row, resp, table.rows, hub);
          if resp.Some? && resp.value.status != 0 {
            steps, end := MarkRun(c, s, steps, end, pid, row, send, resp.value, !fails.mark, table.rows, hub);
            if fails.mark {
              reply := ServerError;
            } else {
              AnsweredOutcome(c, a, id, fails, answer, rows, was);
              table.MarkDelivered(id, resp.value.status, resp.value.body);
              reply := Local(resp.value.status, resp.value.body);
            }
          }
        }
    }
  }

  // ---- ReplayWebhook ----

  lemma {:induction false} ReplayAct(
      c: Config, s: State, steps: seq<Step>, now: State, pid: Pid, r: Replay, next: Replay, e: Effect, rows: Rows)
    requires Leads(c, s, steps, now) && At(now, pid, ReplayProc(r), rows, now.sh.hub)
    requires ReplayStep(now.sh, r, next, e) && !e.Insert? && !e.AgeSweep? && !e.CountSweep?
    ensures var now' := Apply(now, Act(pid, ReplayProc(next), e));
            && Leads(c, s, steps + [Act(pid, ReplayProc(next), e)], now')
            && At(now', pid, ReplayProc(next), if e.Mark? then AfterMark(rows, e.id, e.resp.status, e.resp.body)
                else rows, now'.sh.hub)
            && (e.Nothing? || e.BeginSend? || e.EndSend? ==> now'.sh.hub == now.sh.hub)
  {
    hide ReplayStep, AfterMark, Leads;
    Advance(c, s, steps, now, Act(pid, ReplayProc(next), e));
  }

  lemma {:induction false} FetchRun(c: Config, s: State, pid: Pid, id: string, next: Replay, rows: Rows)
    returns (steps: seq<Step>, end: State)
    requires At(s, pid, ReplayProc(ReplayGet(id)), rows, s.sh.hub)
    requires next == ReplayDone(ReplayStoreError)
             || next == if id in rows then ReplayLookup(rows[id]) else ReplayDone(NotFound)
    ensures Leads(c, s, steps, end) && At(end, pid, ReplayProc(next), rows, s.sh.hub)
  {
    StartsThere(c, s);
    ReplayAct(c, s, [], s, pid, ReplayGet(id), next, Nothing, rows);
    steps, end := [] + [Act(pid, ReplayProc(next), Nothing)], Apply(s, Act(pid, ReplayProc(next), Nothing));
    hide Leads, Apply;
  }

  /** No client, or one that is sent the request and answers with this outcome. */
  lemma {:induction false} ResendRun(
    c: Config, s: State, before: seq<Step>, now: State, pid: Pid, row: Webhook, outcome: Option<Response>, rows: Rows)
    returns (steps: seq<Step>, end: State, send: nat)
    requires Leads(c, s, before, now) && At(now, pid, ReplayProc(ReplayLookup(row)), rows, now.sh.hub)
    ensures Leads(c, s, steps, end)
    ensures At(end, pid, ReplayProc(if row.token !in now.sh.hub || outcome.None? then ReplayDone(NoClient)
                                    else if outcome.value.status == 0 then ReplayDone(DeliveryFailed)
                                    else ReplayMarking(row, send, outcome.value)), rows, end.sh.hub)
  {
    send := |now.sh.sends|;
    hide Leads, Apply;
    if row.token in now.sh.hub {
      var rec := SendRecord(row.id, now.sh.hub[row.token], RequestOf(row, true), false);
      var first := Act(pid, ReplayProc(ReplaySending(row, send)), BeginSend(rec));
      ReplayAct(c, s, before, now, pid, ReplayLookup(row), ReplaySending(row, send), BeginSend(rec), rows);
      var mid := Apply(now, first);
      var next := if outcome.None? then ReplayDone(NoClient)
                  else if outcome.value.status == 0 then ReplayDone(DeliveryFailed)
                      else ReplayMarking(row, send, outcome.value);
      ReplayAct(c, s, before + [first], mid, pid, ReplaySending(row, send), next, EndSend(send, outcome), rows);
      var second := Act(pid, ReplayProc(next), EndSend(send, outcome));
      steps, end := before + [first] + [second], Apply(mid, second);
    } else {
      var step := Act(pid, ReplayProc(ReplayDone(NoClient)), Nothing);
      ReplayAct(c, s, before, now, pid, ReplayLookup(row), ReplayDone(NoClient), Nothing, rows);
      steps, end := before + [step], Apply(now, step);
    }
  }

  lemma {:induction false} RemarkRun(
    c: Config, s: State, before: seq<Step>, now: State, pid: Pid, row: Webhook, send: nat, resp: Response, ok: bool,
    rows: Rows)
    returns (steps: seq<Step>, end: State)
    requires Leads(c, s, before, now) && At(now, pid, ReplayProc(ReplayMarking(row, send, resp)), rows, now.sh.hub)
    ensures Leads(c, s, steps, end)
    ensures At(end, pid, ReplayProc(ReplayDone(if ok then ReplayStatus(resp.status) else ReplayStoreError)),
               if ok then AfterMark(rows, row.id, resp.status, resp.body) else rows, end.sh.hub)
  {
    hide Leads, Apply, AfterMark;
    var next := ReplayDone(if ok then ReplayStatus(resp.status) else ReplayStoreError);
    var e := if ok then Mark(row.id, send, resp) else Nothing;
    ReplayAct(c, s, before, now, pid, ReplayMarking(row, send, resp), next, e, rows);
    steps, end := before + [Act(pid, ReplayProc(next), e)], Apply(now, Act(pid, ReplayProc(next), e));
  }

  /** What a token's client answers to its next request, if there is one. */
  ghost function AnswerFor(peers: map<string, Peer>, token: string): Option<Response>
    reads peers.Values
  {
    if token in peers then
      var peer := peers[token];
      assert peer in peers.Values;
      peer.answers(|peer.sent|)
    else None
  }

  ghost function ReplayAnswer(table: Table, peers: map<string, Peer>, id: string): Option<Response>
    reads table, peers.Values
  {
    if id in table.rows then AnswerFor(peers, table.rows[id].token) else None
  }

  /** What a replay comes to, by the row read and the answer it got. */
  predicate ReplayOutcome(
    getFails: bool, markFails: bool, rows: Rows, id: string, answer: Option<Response>, result: ReplayResult,
    rows': Rows)
  {
    && result == (if getFails then ReplayStoreError
                  else if id !in rows then NotFound
                  else if answer.None? then NoClient
                  else if answer.value.status == 0 then DeliveryFailed
                  else if markFails then ReplayStoreError
                  else ReplayStatus(answer.value.status))
    && rows' == if result.ReplayStatus? && id in rows && answer.Some?
                then rows[id := rows[id].(status := answer.value.status, responseBody := answer.value.body)]
                else rows
  }

  lemma {:induction false} ReplayOutcomes(
      getFails: bool, markFails: bool, rows: Rows, id: string, answer: Option<Response>)
    ensures getFails ==> ReplayOutcome(getFails, markFails, rows, id, answer, ReplayStoreError, rows)
    ensures !getFails && id !in rows ==> ReplayOutcome(getFails, markFails, rows, id, answer, NotFound, rows)
    ensures !getFails && id in rows ==>
              if answer.None? then ReplayOutcome(getFails, markFails, rows, id, answer, NoClient, rows)
              else if answer.value.status == 0 then
                ReplayOutcome(getFails, markFails, rows, id, answer, DeliveryFailed, rows)
              else if markFails then ReplayOutcome(getFails, markFails, rows, id, answer, ReplayStoreError, rows)
              else ReplayOutcome(getFails, markFails, rows, id, answer, ReplayStatus(answer.value.status),
                     AfterMark(rows, id, answer.value.status, answer.value.body))
  {
  }

  lemma {:induction false} CarriesRow(was: seq<Request>, row: Webhook)
    ensures OneSent(was, was + [RequestOf(row, true)], row, true)
  {
  }

  /** This is the token's client. */
  predicate Target(peers: map<string, Peer>, token: string, peer: Peer) {
    token in peers && peer == peers[token]
  }

  /** Hub.Forward, for a replay: to the client of the row's token, if there is one. */
  method Forward(peers: map<string, Peer>, row: Webhook) returns (resp: Option<Response>)
    modifies peers.Values
    ensures resp == old(AnswerFor(peers, row.token))
    ensures forall peer | peer in peers.Values ::
              if Target(peers, row.token, peer) then OneSent(old(peer.sent), peer.sent, row, true)
              else peer.sent == old(peer.sent)
  {
    if row.token !in peers.Keys { return None; }
    var peer := peers[row.token];
    assert peer in peers.Values;
    CarriesRow(peer.sent, row);
    resp := peer.Send(RequestOf(row, true));
  }

  /** Every such outcome is that of a run of the process. */
  lemma {:induction false} ReplayRuns(
    c: Config, s: State, pid: Pid, id: string, getFails: bool, markFails: bool, rows: Rows,
    answer: Option<Response>, result: ReplayResult, rows': Rows)
    returns (steps: seq<Step>, end: State)
    requires At(s, pid, ReplayProc(ReplayGet(id)), rows, s.sh.hub) && ValidRows(rows)
    requires ReplayOutcome(getFails, markFails, rows, id, answer, result, rows')
    requires answer.Some? && id in rows ==> rows[id].token in s.sh.hub
    ensures Leads(c, s, steps, end) && At(end, pid, ReplayProc(ReplayDone(result)), rows', end.sh.hub)
  {
    hide Leads;
    if getFails || id !in rows {
      steps, end := FetchRun(c, s, pid, id, ReplayDone(result), rows);
    } else {
      var row := rows[id];
      assert row.id == id;
      hide ValidRows, RequestOf;
      steps, end := FetchRun(c, s, pid, id, ReplayLookup(row), rows);
      var send;
      steps, end, send := ResendRun(c, s, steps, end, pid, row, answer, rows);
      if answer.Some? && answer.value.status != 0 {
        steps, end := RemarkRun(c, s, steps, end, pid, row, send, answer.value, !markFails, rows);
      }
    }
  }

  /** `peers` are the registered clients by token; the read and the mark may fail. Only the
      client of the row's token, if any, is sent something. */
  method ReplayWebhook(
    c: Config, table: Table, peers: map<string, Peer>, id: string, getFails: bool, markFails: bool, ghost s: State,
    ghost pid: Pid)
    returns (result: ReplayResult, ghost steps: seq<Step>, ghost end: State)
    requires table.Valid() && At(s, pid, ReplayProc(ReplayGet(id)), table.rows, s.sh.hub) && peers.Keys == s.sh.hub.Keys
    modifies table, peers.Values
    ensures table.Valid() && Leads(c, s, steps, end)
    ensures At(end, pid, ReplayProc(ReplayDone(result)), table.rows, end.sh.hub)
    ensures ReplayOutcome(getFails, markFails, old(table.rows), id, old(ReplayAnswer(table, peers, id)), result,
              table.rows)
    ensures forall peer | peer in peers.Values ::
              if !getFails && id in old(table.rows) && Target(peers, old(table.rows)[id].token, peer)
              then OneSent(old(peer.sent), peer.sent, old(table.rows)[id], true) else peer.sent == old(peer.sent)
  {
    ghost var rows, answer := table.rows, ReplayAnswer(table, peers, id);
    hide Leads, At, AfterMark, ValidRows, RequestOf, ReplayOutcome, OneSent;
    ReplayOutcomes(getFails, markFails, rows, id, answer);
    if getFails {
      result := ReplayStoreError;
    } else {
      var found := table.GetWebhook(id);
      if found.None? {
        result := NotFound;
      } else {
        var webhook := found.value;
        var resp := Forward(peers, webhook);
        hide Target;
        if resp.None? {
          result := NoClient;
        } else if resp.value.status == 0 {
          result := DeliveryFailed;
        } else if markFails {
          result := ReplayStoreError;
        } else {
          table.MarkDelivered(webhook.id, resp.value.status, resp.value.body);
          result := ReplayStatus(resp.value.status);
        }
      }
    }
    steps, end := ReplayRuns(c, s, pid, id, getFails, markFails, rows, answer, result, table.rows);
  }

  // ---- deliverStored ----

  /** The Sends of the first n webhooks of a batch. */
  function BatchSends(b: Batch, n: nat): seq<SendRecord>
    requires n <= |b.todo|
  {
    if n == 0 then []
    else BatchSends(b, n - 1) + [SendRecord(b.todo[n - 1].id, b.client, RequestOf(b.todo[n - 1], b.round.Replays?),
        false)]
  }

  lemma {:induction false} DrainAct(
      c: Config, s: State, steps: seq<Step>, now: State, pid: Pid, d: Drain, next: Drain, e: Effect, rows: Rows)
    requires Leads(c, s, steps, now) && At(now, pid, DrainProc(d), rows, now.sh.hub)
    requires DrainStep(now.sh, d, next, e) && (e.Nothing? || e.BeginSend? || e.EndSend? || e.Mark?)
    ensures var now' := Apply(now, Act(pid, DrainProc(next), e));
            && Leads(c, s, steps + [Act(pid, DrainProc(next), e)], now')
            && At(now', pid, DrainProc(next), if e.Mark? then AfterMark(rows, e.id, e.resp.status, e.resp.body)
                else rows, now'.sh.hub)
            && now'.sh.sends == if e.BeginSend? then now.sh.sends + [e.rec] else now.sh.sends
  {
    hide DrainStep, AfterMark, Leads;
    Advance(c, s, steps, now, Act(pid, DrainProc(next), e));
  }

  /** The batch after its first webhook was marked, or its mark failed. */
  function Shorter(b: Batch, ok: bool): Batch
    requires b.todo != []
  {
    b.(todo := b.todo[1..], delivered := if ok && b.round.OnConnect? then b.delivered + {b.todo[0].id} else b.delivered)
  }

  /** One turn of the loop: sent, and marked if answered well. */
  lemma {:induction false} DrainTurn(
    c: Config, s: State, before: seq<Step>, now: State, pid: Pid, b: Batch, outcome: Option<Response>,
    broken: string -> bool, rows: Rows)
    returns (steps: seq<Step>, end: State)
    requires Leads(c, s, before, now) && At(now, pid, DrainProc(Draining(b)), rows, now.sh.hub) && b.todo != []
    ensures Leads(c, s, steps, end)
    ensures end.sh.sends == now.sh.sends
            + [SendRecord(b.todo[0].id, b.client, RequestOf(b.todo[0], b.round.Replays?), false)]
    ensures At(end, pid, DrainProc(if Good(outcome) then Draining(Shorter(b, !broken(b.todo[0].id)))
            else AfterBatch(b)),
               if Good(outcome) then Tried(rows, Answered(b.todo[0], outcome), broken) else rows, end.sh.hub)
  {
    hide Leads, Apply, AfterMark;
    var (send, w, ok) := (|now.sh.sends|, b.todo[0], !broken(b.todo[0].id));
    var rec := SendRecord(w.id, b.client, RequestOf(w, b.round.Replays?), false);
    DrainAct(c, s, before, now, pid, Draining(b), DrainSending(b, send), BeginSend(rec), rows);
    var first := Act(pid, DrainProc(DrainSending(b, send)), BeginSend(rec));
    var mid := Apply(now, first);
    var next := if Good(outcome) then DrainMarking(b, send, outcome.value) else AfterBatch(b);
    DrainAct(c, s, before + [first], mid, pid, DrainSending(b, send), next, EndSend(send, outcome), rows);
    var second := Act(pid, DrainProc(next), EndSend(send, outcome));
    steps, end := before + [first] + [second], Apply(mid, second);
    if Good(outcome) {
      var e := if ok then Mark(w.id, send, outcome.value) else Nothing;
      DrainAct(c, s, steps, end, pid, next, Draining(Shorter(b, ok)), e, rows);
      var third := Act(pid, DrainProc(Draining(Shorter(b, ok))), e);
      steps, end := steps + [third], Apply(end, third);
    }
  }

  /** The batch after i well-answered webhooks. */
  function After(b: Batch, answers: nat -> Option<Response>, next: nat, broken: string -> bool, i: nat): Batch
    requires i <= |b.todo|
  {
    b.(todo := b.todo[i..],
       delivered := if b.round.OnConnect? then b.delivered + Ids(Recorded(b.todo, answers, next, broken, i))
           else b.delivered)
  }

  lemma {:induction false} OneShorter(
      b: Batch, answers: nat -> Option<Response>, next: nat, broken: string -> bool, i: nat)
    requires i < |b.todo|
    ensures Shorter(After(b, answers, next, broken, i), !broken(b.todo[i].id)) == After(b, answers, next, broken, i + 1)
  {
    var was := Recorded(b.todo, answers, next, broken, i);
    OneMoreId(was, Answered(b.todo[i], answers(next + i)));
    assert b.todo[i..][1..] == b.todo[i + 1..];
    hide Ids;
  }

  lemma {:induction false} NothingDone(b: Batch, answers: nat -> Option<Response>, next: nat, broken: string -> bool)
    ensures After(b, answers, next, broken, 0) == b
  {
    assert Ids([]) == {};
  }

  lemma {:induction false} DrainTurns(
    c: Config, s: State, pid: Pid, b: Batch, answers: nat -> Option<Response>, next: nat, broken: string -> bool,
    i: nat, rows: Rows)
    returns (steps: seq<Step>, end: State)
    requires At(s, pid, DrainProc(Draining(b)), rows, s.sh.hub) && i <= GoodRun(answers, next, |b.todo|)
    ensures Leads(c, s, steps, end) && end.sh.sends == s.sh.sends + BatchSends(b, i)
    ensures At(end, pid, DrainProc(Draining(After(b, answers, next, broken, i))),
            Marked(rows, b.todo, answers, next, broken, i), end.sh.hub)
  {
    hide Leads, GoodRun, Shorter, Tried, At, RequestOf, Recorded, Ids, Answered;
    if i == 0 {
      StartsThere(c, s);
      NothingDone(b, answers, next, broken);
      steps, end := [], s;
    } else {
      steps, end := DrainTurns(c, s, pid, b, answers, next, broken, i - 1, rows);
      GoodRunEnds(answers, next, |b.todo|, i - 1);
      OneShorter(b, answers, next, broken, i - 1);
      var was, rows' := After(b, answers, next, broken, i - 1), Marked(rows, b.todo, answers, next, broken, i - 1);
      assert was.todo[0] == b.todo[i - 1];
      hide After;
      steps, end := DrainTurn(c, s, steps, end, pid, was, answers(next + i - 1), broken, rows');
    }
  }

  /** Nothing left to send. */
  lemma {:induction false} DrainEnds(c: Config, s: State, before: seq<Step>, now: State, pid: Pid, b: Batch, rows: Rows)
    returns (steps: seq<Step>, end: State)
    requires Leads(c, s, before, now) && At(now, pid, DrainProc(Draining(b)), rows, now.sh.hub) && b.todo == []
    ensures Leads(c, s, steps, end) && end.sh.sends == now.sh.sends
    ensures At(end, pid, DrainProc(AfterBatch(b)), rows, end.sh.hub)
  {
    hide Leads, Apply;
    DrainAct(c, s, before, now, pid, Draining(b), AfterBatch(b), Nothing, rows);
    var step := Act(pid, DrainProc(AfterBatch(b)), Nothing);
    steps, end := before + [step], Apply(now, step);
  }

  /** What deliverStored sends, marks and reports is what a run of the drain process
      sends, marks and remembers, for any answers and any failing marks. */
  lemma {:induction false} DrainRunsDeliverStored(
    c: Config, s: State, pid: Pid, b: Batch, answers: nat -> Option<Response>, next: nat, broken: string -> bool,
    rows: Rows)
    returns (steps: seq<Step>, end: State)
    requires At(s, pid, DrainProc(Draining(b)), rows, s.sh.hub)
    ensures Leads(c, s, steps, end)
    ensures var k := GoodRun(answers, next, |b.todo|);
            && end.sh.sends == s.sh.sends + BatchSends(b, SentCount(b.todo, k))
            && At(end, pid, DrainProc(AfterBatch(After(b, answers, next, broken, k))),
                Marked(rows, b.todo, answers, next, broken, k), end.sh.hub)
  {
    hide Leads, GoodRun, Recorded, Marked, Ids, At, AfterBatch, RequestOf, Shorter, Tried, Answered;
    var k := GoodRun(answers, next, |b.todo|);
    steps, end := DrainTurns(c, s, pid, b, answers, next, broken, k, rows);
    var last, rows' := After(b, answers, next, broken, k), Marked(rows, b.todo, answers, next, broken, k);
    if k < |b.todo| {
      GoodRunEnds(answers, next, |b.todo|, k);
      assert last.todo[0] == b.todo[k] && last.client == b.client && last.round == b.round;
      hide After;
      steps, end := DrainTurn(c, s, steps, end, pid, last, answers(next + k), broken, rows');
    } else {
      assert last.todo == [];
      hide After;
      steps, end := DrainEnds(c, s, steps, end, pid, last, rows');
    }
  }

  // ---- drainOnConnect and the ticks ----

  /** The Sends of a list, to a client. */
  function SendsOf(list: seq<Webhook>, client: ClientId, replay: bool): seq<SendRecord> {
    seq(|list|, i requires 0 <= i < |list| => SendRecord(list[i].id, client, RequestOf(list[i], replay), false))
  }

  lemma {:induction false} BatchSendsOf(b: Batch, n: nat)
    requires n <= |b.todo|
    ensures BatchSends(b, n) == SendsOf(b.todo[..n], b.client, b.round.Replays?)
  {
    hide RequestOf;
    if n > 0 {
      BatchSendsOf(b, n - 1);
      assert b.todo[..n] == b.todo[..n - 1] + [b.todo[n - 1]];
    }
  }

  lemma {:induction false} LeadsOn(c: Config, s: State, a: seq<Step>, mid: State, b: seq<Step>, end: State)
    requires Leads(c, s, a, mid) && Leads(c, mid, b, end)
    ensures Leads(c, s, a + b, end)
  {
    RelayTheorems.RunConcat(c, s, a, b);
  }

  /** One batch, from the step that takes it up. */
  lemma {:induction false} BatchRuns(
    c: Config, s: State, before: seq<Step>, now: State, pid: Pid, d: Drain, b: Batch,
    answers: nat -> Option<Response>, next: nat, broken: string -> bool, rows: Rows)
    returns (steps: seq<Step>, end: State)
    requires Leads(c, s, before, now) && At(now, pid, DrainProc(d), rows, now.sh.hub)
    requires DrainStep(now.sh, d, Draining(b), Nothing)
    ensures Leads(c, s, steps, end)
    ensures var k := GoodRun(answers, next, |b.todo|);
            && end.sh.sends == now.sh.sends + SendsOf(b.todo[..SentCount(b.todo, k)], b.client, b.round.Replays?)
            && At(end, pid, DrainProc(AfterBatch(After(b, answers, next, broken, k))),
                Marked(rows, b.todo, answers, next, broken, k), end.sh.hub)
  {
    hide Leads, GoodRun, Recorded, Marked, Ids, AfterBatch, RequestOf, DrainStep, Apply, After;
    var k := GoodRun(answers, next, |b.todo|);
    DrainAct(c, s, before, now, pid, d, Draining(b), Nothing, rows);
    var step := Act(pid, DrainProc(Draining(b)), Nothing);
    var mid := Apply(now, step);
    var rest;
    rest, end := DrainRunsDeliverStored(c, mid, pid, b, answers, next, broken, rows);
    LeadsOn(c, s, before + [step], mid, rest, end);
    BatchSendsOf(b, SentCount(b.todo, k));
    steps := before + [step] + rest;
  }

  /** A step of the worker that only goes on. */
  lemma {:induction false} GoesOn(
      c: Config, s: State, before: seq<Step>, now: State, pid: Pid, d: Drain, next: Drain, rows: Rows)
    returns (steps: seq<Step>, end: State)
    requires Leads(c, s, before, now) && At(now, pid, DrainProc(d), rows, now.sh.hub)
    requires DrainStep(now.sh, d, next, Nothing)
    ensures Leads(c, s, steps, end) && At(end, pid, DrainProc(next), rows, end.sh.hub)
    ensures end.sh.sends == now.sh.sends
  {
    hide Leads, DrainStep, Apply;
    DrainAct(c, s, before, now, pid, d, next, Nothing, rows);
    steps, end := before + [Act(pid, DrainProc(next), Nothing)], Apply(now, Act(pid, DrainProc(next), Nothing));
  }

  /** The first phase of drainOnConnect. */
  lemma {:induction false} DrainPendingRuns(
    c: Config, s: State, pid: Pid, token: string, client: ClientId, limit: Int64, pending: Option<seq<Webhook>>,
    answers: nat -> Option<Response>, next: nat, broken: string -> bool, rows: Rows)
    returns (steps: seq<Step>, end: State)
    requires At(s, pid, DrainProc(DrainStart(token, client, limit)), rows, s.sh.hub)
    requires pending.Some? ==> PendingAnswer(rows, token, pending.value)
    ensures Leads(c, s, steps, end)
    ensures end.sh.sends == s.sh.sends + SendsOf(FirstSent(pending, answers, next), client, false)
    ensures At(end, pid, DrainProc(DrainReplays(token, client, limit, DrainedIds(pending, answers, next, broken))),
               DrainedRows(rows, pending, answers, next, broken), end.sh.hub)
  {
    hide Leads, GoodRun, Recorded, Marked, Ids, PendingAnswer, RequestOf;
    StartsThere(c, s);
    if pending.Some? {
      var b := Batch(token, client, limit, OnConnect, pending.value, {});
      assert DrainStep(s.sh, DrainStart(token, client, limit), Draining(b), Nothing);
      steps, end := BatchRuns(c, s, [], s, pid, DrainStart(token, client, limit), b, answers, next, broken, rows);
      var delivered := DrainedIds(pending, answers, next, broken);
      assert {} + delivered == delivered;
    } else {
      steps, end := GoesOn(c, s, [], s, pid, DrainStart(token, client, limit), DrainReplays(token, client, limit, {}),
          rows);
      assert SendsOf([], client, false) == [];
    }
  }

  /** The replay phase. */
  lemma {:induction false} ReplayPhaseRuns(
    c: Config, s: State, before: seq<Step>, now: State, pid: Pid, token: string, client: ClientId, limit: Int64,
    newest: Option<seq<Webhook>>, drained: set<string>, answers: nat -> Option<Response>, next: nat,
    broken: string -> bool, rows: Rows)
    returns (steps: seq<Step>, end: State)
    requires Leads(c, s, before, now)
    requires At(now, pid, DrainProc(DrainReplays(token, client, limit, drained)), rows, now.sh.hub)
    requires newest.Some? ==> NewestFirst(rows, token, newest.value)
    ensures Leads(c, s, steps, end)
    ensures end.sh.sends == now.sh.sends + SendsOf(ThenSent(newest, limit, drained, answers, next), client, true)
    ensures At(end, pid, DrainProc(DrainIdle(token, client, limit)),
               ReplayedRows(rows, newest, limit, drained, answers, next, broken), end.sh.hub)
  {
    hide Leads, GoodRun, Recorded, Marked, Ids, NewestFirst, RequestOf, ReplaySelection.Selected;
    var d := DrainReplays(token, client, limit, drained);
    if limit > 0 && newest.Some? {
      var b := Batch(token, client, limit, Replays, ReplaySelection.Selected(newest.value, limit, drained), drained);
      assert DrainStep(now.sh, d, Draining(b), Nothing);
      steps, end := BatchRuns(c, s, before, now, pid, d, b, answers, next, broken, rows);
    } else {
      steps, end := GoesOn(c, s, before, now, pid, d, DrainIdle(token, client, limit), rows);
      NothingReplayed(rows, newest, limit, drained, answers, next, broken);
      assert SendsOf([], client, true) == [];
    }
  }

  /** What drainOnConnect sends and leaves in the table is what a run of the worker, from its
      start to its first wait for a tick, sends and leaves. */
  lemma {:induction false} WorkerRunsDrainOnConnect(
    c: Config, s: State, pid: Pid, token: string, client: ClientId, limit: Int64, pending: Option<seq<Webhook>>,
    newest: Option<seq<Webhook>>, answers: nat -> Option<Response>, next: nat, broken: string -> bool, rows: Rows)
    returns (steps: seq<Step>, end: State)
    requires At(s, pid, DrainProc(DrainStart(token, client, limit)), rows, s.sh.hub)
    requires pending.Some? ==> PendingAnswer(rows, token, pending.value)
    requires newest.Some? ==> NewestFirst(DrainedRows(rows, pending, answers, next, broken), token, newest.value)
    ensures Leads(c, s, steps, end)
    ensures var (drained, first) := (DrainedIds(pending, answers, next, broken), FirstSent(pending, answers, next));
            var later := next + |first|;
            && end.sh.sends == s.sh.sends + SendsOf(first, client, false)
                               + SendsOf(ThenSent(newest, limit, drained, answers, later), client, true)
            && At(end, pid, DrainProc(DrainIdle(token, client, limit)),
                  ReplayedRows(DrainedRows(rows, pending, answers, next, broken), newest, limit, drained, answers,
                    later, broken), end.sh.hub)
  {
    hide Leads, DrainedIds, DrainedRows, FirstSent, ThenSent, ReplayedRows, PendingAnswer, NewestFirst, SendsOf;
    var mid;
    steps, mid := DrainPendingRuns(c, s, pid, token, client, limit, pending, answers, next, broken, rows);
    steps, end := ReplayPhaseRuns(c, s, steps, mid, pid, token, client, limit, newest,
        DrainedIds(pending, answers, next, broken), answers, next + |FirstSent(pending, answers, next)|, broken,
        DrainedRows(rows, pending, answers, next, broken));
  }

  /** And so for a tick: from one wait to the next. */
  lemma {:induction false} WorkerRunsDrainTick(
    c: Config, s: State, pid: Pid, token: string, client: ClientId, limit: Int64, pending: seq<Webhook>, cutoff: int,
    answers: nat -> Option<Response>, next: nat, broken: string -> bool, rows: Rows)
    returns (steps: seq<Step>, end: State)
    requires At(s, pid, DrainProc(DrainIdle(token, client, limit)), rows, s.sh.hub)
    requires PendingAnswer(rows, token, pending)
    ensures Leads(c, s, steps, end)
    ensures var stale := OlderThan(pending, cutoff);
            var k := GoodRun(answers, next, |stale|);
            && end.sh.sends == s.sh.sends + SendsOf(stale[..SentCount(stale, k)], client, false)
            && At(end, pid, DrainProc(DrainIdle(token, client, limit)), Marked(rows, stale, answers, next, broken, k),
                  end.sh.hub)
  {
    hide Leads, GoodRun, Recorded, Marked, Ids, PendingAnswer, RequestOf, OlderThan;
    StartsThere(c, s);
    var mid;
    steps, mid := GoesOn(c, s, [], s, pid, DrainIdle(token, client, limit), DrainFetched(token, client, limit, pending),
        rows);
    var b := Batch(token, client, limit, Periodic, OlderThan(pending, cutoff), {});
    assert DrainStep(mid.sh, DrainFetched(token, client, limit, pending), Draining(b), Nothing);
    steps, end := BatchRuns(c, s, steps, mid, pid, DrainFetched(token, client, limit, pending), b, answers, next,
        broken, rows);
  }
}
