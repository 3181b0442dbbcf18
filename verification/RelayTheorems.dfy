/** What holds in every run of the relay protocol: it does to its webhooks what a simple
    ledger does; answers rest on stored rows; Sends are faithful; dedup counts distinct
    deliveries; hub entries live no longer than their handlers. */
module RelayTheorems {
  import opened Timestamps
  import opened Message
  import opened Store
  import opened Relay
  import opened RelayProofs
  import opened Ints
  import ReplaySelection
  import Retention

  // ---- runs ----

  ghost predicate Reached(c: Config, s: State) {
    exists steps :: ValidRun(c, INITIAL, steps) && s == Run(INITIAL, steps)
  }

  lemma {:induction false} RunConcat(c: Config, s: State, a: seq<Step>, b: seq<Step>)
    requires ValidRun(c, s, a) && ValidRun(c, Run(s, a), b)
    ensures ValidRun(c, s, a + b) && Run(s, a + b) == Run(Run(s, a), b)
    decreases |a|
  {
    hide Apply, Enabled;
    if a == [] {
      assert a + b == b;
    } else {
      assert (a + b)[1..] == a[1..] + b;
      RunConcat(c, Apply(s, a[0]), a[1..], b);
    }
  }

  lemma {:induction false} ReachedOn(c: Config, s: State, step: Step)
    requires Reached(c, s) && Enabled(c, s, step)
    ensures Reached(c, Apply(s, step))
  {
    hide Apply, Enabled;
    var steps :| ValidRun(c, INITIAL, steps) && s == Run(INITIAL, steps);
    assert [step][1..] == [];
    assert ValidRun(c, Apply(s, step), [][..]);
    assert ValidRun(c, s, [step]) && Run(s, [step]) == Apply(s, step);
    RunConcat(c, INITIAL, steps, [step]);
  }

  lemma {:induction false} ReachedInv(c: Config, s: State)
    requires Reached(c, s)
    ensures Inv(c, s)
  {
    hide Inv, ValidRun, Run;
    var steps :| ValidRun(c, INITIAL, steps) && s == Run(INITIAL, steps);
    InitialInv(c);
    RunKeepsInv(c, INITIAL, steps);
  }

  // ---- a simple ledger ----

  datatype Entry = Waiting | Answered(status: int, body: string)

  datatype Ledger = Ledger(entries: map<string, Entry>, forgotten: set<string>)

  const EMPTY := Ledger(map[], {})

  datatype LedgerStep =
    | Rest
    | Accept(id: string)
    | Record(id: string, status: int, body: string)
    | Forget(ids: set<string>)

  predicate LedgerMay(l: Ledger, step: LedgerStep) {
    match step
    case Rest => true
    case Accept(id) => id !in l.entries && id !in l.forgotten
    case Record(id, status, _) => id in l.entries && status != 0
    case Forget(ids) => ids <= l.entries.Keys
  }

  function LedgerAfter(l: Ledger, step: LedgerStep): Ledger {
    match step
    case Rest => l
    case Accept(id) => l.(entries := l.entries[id := Waiting])
    case Record(id, status, body) => l.(entries := l.entries[id := Answered(status, body)])
    case Forget(ids) => Ledger(l.entries - ids, l.forgotten + ids)
  }

  predicate LedgerRuns(l: Ledger, steps: seq<LedgerStep>)
    decreases |steps|
  {
    steps == [] || (LedgerMay(l, steps[0]) && LedgerRuns(LedgerAfter(l, steps[0]), steps[1..]))
  }

  function LedgerEnd(l: Ledger, steps: seq<LedgerStep>): Ledger
    decreases |steps|
  {
    if steps == [] then l else LedgerEnd(LedgerAfter(l, steps[0]), steps[1..])
  }

  /** In a ledger an answer is never taken back, nothing leaves unless forgotten, and
      what was forgotten does not return. */
  lemma {:induction false} LedgerLaws(l: Ledger, steps: seq<LedgerStep>, id: string)
    requires LedgerRuns(l, steps)
    ensures var end := LedgerEnd(l, steps);
            && (id in l.entries && l.entries[id].Answered? && id in end.entries ==> end.entries[id].Answered?)
            && (id in l.entries && id !in end.entries ==> exists i ::
                0 <= i < |steps| && steps[i].Forget? && id in steps[i].ids)
            && (id in l.forgotten && id !in l.entries ==> id in end.forgotten && id !in end.entries)
    decreases |steps|
  {
    if steps != [] {
      var mid := LedgerAfter(l, steps[0]);
      LedgerLaws(mid, steps[1..], id);
      if id in mid.entries && id !in LedgerEnd(l, steps).entries {
        var i :| 0 <= i < |steps[1..]| && steps[1..][i].Forget? && id in steps[1..][i].ids;
        assert steps[i + 1] == steps[1..][i];
      }
    }
  }

  // ---- the relay refines it ----

  function EntryOf(w: Webhook): Entry {
    if Pending(w) then Waiting else Answered(w.status, w.responseBody)
  }

  function View(sh: Shared): Ledger {
    Ledger(map id | id in sh.rows :: EntryOf(sh.rows[id]), sh.removed)
  }

  /** The ledger's side of a relay step: only an insert accepts, only a committed mark
      records, only retention forgets. */
  function Seen(s: State, step: Step): LedgerStep {
    match step
    case Act(_, _, Insert(row)) => Accept(row.id)
    case Act(_, _, Mark(id, _, resp)) => if id in s.sh.rows then Record(id, resp.status, resp.body) else Rest
    case Environment(AgeSweep(cutoff)) => Forget(s.sh.rows.Keys - Retention.AfterAgeSweep(s.sh.rows, cutoff).Keys)
    case Environment(CountSweep(max)) => Forget(s.sh.rows.Keys - Retention.AfterCountSweep(s.sh.rows, max).Keys)
    case _ => Rest
  }

  function SeenRun(s: State, steps: seq<Step>): seq<LedgerStep>
    decreases |steps|
  {
    if steps == [] then [] else [Seen(s, steps[0])] + SeenRun(Apply(s, steps[0]), steps[1..])
  }

  lemma {:induction false} InsertIsFresh(c: Config, sh: Shared, pid: Pid, row: Webhook)
    requires SharedInv(c, sh) && EffectOk(c, sh, pid, Insert(row))
    ensures row.id !in sh.rows && row.id !in sh.removed && row.status == 0
    ensures AfterSave(sh.rows, row) == sh.rows[row.id := row]
  {
    assert ValidRows(sh.rows) && RowsInv(sh.rows, sh.inserted, sh.removed);
    hide SharedInv, ValidRows;
    InsertKeys(sh.rows, row);
  }

  lemma {:induction false} InsertSeen(c: Config, sh: Shared, pid: Pid, row: Webhook)
    requires SharedInv(c, sh) && EffectOk(c, sh, pid, Insert(row))
    ensures LedgerMay(View(sh), Accept(row.id))
    ensures View(ApplyEffect(sh, pid, Insert(row))) == LedgerAfter(View(sh), Accept(row.id))
  {
    hide SharedInv, EffectOk, AfterSave, DeliveryOf;
    InsertIsFresh(c, sh, pid, row);
    var rows' := sh.rows[row.id := row];
    assert (map id | id in rows' :: EntryOf(rows'[id])) == View(sh).entries[row.id := Waiting];
  }

  lemma {:induction false} MarkRows(sh: Shared, pid: Pid, id: string, send: nat, resp: Response)
    ensures var sh' := ApplyEffect(sh, pid, Mark(id, send, resp));
            sh'.rows == AfterMark(sh.rows, id, resp.status, resp.body) && sh'.removed == sh.removed
  {
    hide AfterMark;
  }

  lemma {:induction false} MarkedRows(rows: Rows, id: string, status: int, body: string)
    ensures AfterMark(rows, id, status, body)
            == if id in rows then rows[id := rows[id].(status := status, responseBody := body)] else rows
  {
  }

  lemma {:induction false} MarkSeen(sh: Shared, pid: Pid, id: string, send: nat, resp: Response)
    requires resp.status != 0
    ensures var step := if id in sh.rows then Record(id, resp.status, resp.body) else Rest;
            LedgerMay(View(sh), step) && View(ApplyEffect(sh, pid, Mark(id, send, resp))) == LedgerAfter(View(sh), step)
  {
    var rows' := AfterMark(sh.rows, id, resp.status, resp.body);
    MarkRows(sh, pid, id, send, resp);
    MarkedRows(sh.rows, id, resp.status, resp.body);
    hide ApplyEffect, AfterMark;
    if id in sh.rows {
      assert (map j | j in rows' :: EntryOf(rows'[j])) == View(sh).entries[id := Answered(resp.status, resp.body)];
    }
  }

  lemma {:induction false} SweepSeen(sh: Shared, rows': Rows)
    requires rows'.Keys <= sh.rows.Keys && forall id | id in rows' :: rows'[id] == sh.rows[id]
    ensures var step := Forget(sh.rows.Keys - rows'.Keys);
            LedgerMay(View(sh), step) && View(Swept(sh, rows')) == LedgerAfter(View(sh), step)
  {
    assert View(sh).entries.Keys == sh.rows.Keys;
    assert (map id | id in rows' :: EntryOf(rows'[id])) == View(sh).entries - (sh.rows.Keys - rows'.Keys);
  }

  /** No handler and no worker deletes rows. */
  lemma {:induction false} ProcsDoNotSweep(c: Config, sh: Shared, p: Proc, p': Proc, e: Effect)
    requires ProcStep(c, sh, p, p', e)
    ensures !e.AgeSweep? && !e.CountSweep?
  {
    hide PendingAnswer, NewestFirst, HoldsKey, KeyOf, SaveOutcome;
    match p
    case HookProc(h) => hide DrainStep, ReplayStep, TunnelStep, DeleteStep;
    case DrainProc(d) => hide HookStep, ReplayStep, TunnelStep, DeleteStep;
    case ReplayProc(r) => hide DrainStep, HookStep, TunnelStep, DeleteStep;
    case TunnelProc(t) => hide DrainStep, ReplayStep, HookStep, DeleteStep;
    case DeleteProc(x) => hide DrainStep, ReplayStep, TunnelStep, HookStep;
  }

  lemma {:induction false} RowsUntouched(sh: Shared, pid: Pid, e: Effect)
    requires !e.Insert? && !e.Mark? && !e.AgeSweep? && !e.CountSweep?
    ensures ApplyEffect(sh, pid, e).rows == sh.rows && ApplyEffect(sh, pid, e).removed == sh.removed
  {
  }

  lemma {:induction false} ActSeen(c: Config, s: State, pid: Pid, next: Proc, e: Effect)
    requires Inv(c, s) && Enabled(c, s, Act(pid, next, e))
    ensures var step := Act(pid, next, e);
            LedgerMay(View(s.sh), Seen(s, step)) && View(Apply(s, step).sh) == LedgerAfter(View(s.sh), Seen(s, step))
  {
    assert ProcOk(c, s.sh, pid, s.procs[pid]) by { hide SharedInv, ProcOk; }
    hide SharedInv, ProcOk, ProcStep;
    ProcGoesOn(c, s.sh, pid, s.procs[pid], next, e);
    ProcsDoNotSweep(c, s.sh, s.procs[pid], next, e);
    if e.Insert? {
      hide EffectOk, ApplyEffect;
      InsertSeen(c, s.sh, pid, e.row);
    } else if e.Mark? {
      assert e.resp.status != 0;
      hide EffectOk, ApplyEffect;
      MarkSeen(s.sh, pid, e.id, e.send, e.resp);
    } else {
      hide EffectOk, ApplyEffect;
      RowsUntouched(s.sh, pid, e);
    }
  }

  /** Every step of the relay is a step the ledger may take. */
  lemma {:induction false} StepIsLedgerStep(c: Config, s: State, step: Step)
    requires Inv(c, s) && Enabled(c, s, step)
    ensures LedgerMay(View(s.sh), Seen(s, step)) && View(Apply(s, step).sh) == LedgerAfter(View(s.sh), Seen(s, step))
  {
    match step
    case Spawn(_, _) =>
    case Restart => hide Inv, View; ViewOfRows(s.sh, Restarted(s.sh));
    case Act(pid, next, e) => hide Inv, Enabled, Apply; ActSeen(c, s, pid, next, e);
    case Environment(e) =>
      hide Inv;
      if e.AgeSweep? {
        SweepSeen(s.sh, Retention.AfterAgeSweep(s.sh.rows, e.cutoff));
      } else if e.CountSweep? {
        SweepSeen(s.sh, Retention.AfterCountSweep(s.sh.rows, e.max));
      } else {
        hide View, ApplyEffect;
        RowsUntouched(s.sh, 0, e);
        assert View(ApplyEffect(s.sh, 0, e)) == View(s.sh) by { ViewOfRows(s.sh, ApplyEffect(s.sh, 0, e)); }
      }
  }

  lemma {:induction false} ViewOfRows(sh: Shared, sh': Shared)
    requires sh'.rows == sh.rows && sh'.removed == sh.removed
    ensures View(sh') == View(sh)
  {
  }

  lemma {:induction false} RunIsLedgerRun(c: Config, s: State, steps: seq<Step>)
    requires Inv(c, s) && ValidRun(c, s, steps)
    ensures LedgerRuns(View(s.sh), SeenRun(s, steps))
    ensures LedgerEnd(View(s.sh), SeenRun(s, steps)) == View(Run(s, steps).sh)
    decreases |steps|
  {
    hide Inv, Enabled, Apply, View, Seen, LedgerMay, LedgerAfter;
    if steps != [] {
      StepIsLedgerStep(c, s, steps[0]);
      InvKept(c, s, steps[0]);
      RunIsLedgerRun(c, Apply(s, steps[0]), steps[1..]);
      assert SeenRun(s, steps)[1..] == SeenRun(Apply(s, steps[0]), steps[1..]);
    }
  }

  /** Every run of the relay, seen as ledger steps, is a run of the ledger. */
  lemma {:induction false} RelayRefinesLedger(c: Config, steps: seq<Step>)
    requires ValidRun(c, INITIAL, steps)
    ensures LedgerRuns(EMPTY, SeenRun(INITIAL, steps))
    ensures LedgerEnd(EMPTY, SeenRun(INITIAL, steps)) == View(Run(INITIAL, steps).sh)
  {
    hide ValidRun, SeenRun, LedgerRuns, LedgerEnd;
    InitialInv(c);
    assert View(INITIAL.sh) == EMPTY;
    hide Inv, View;
    RunIsLedgerRun(c, INITIAL, steps);
  }

  /** A status never goes back to 0, whatever happens in between. */
  lemma {:induction false} StatusNeverReturnsToPending(c: Config, s: State, steps: seq<Step>, id: string)
    requires Reached(c, s) && ValidRun(c, s, steps)
    requires id in s.sh.rows && !Pending(s.sh.rows[id]) && id in Run(s, steps).sh.rows
    ensures !Pending(Run(s, steps).sh.rows[id])
  {
    hide ValidRun, Reached;
    ReachedInv(c, s);
    assert id !in s.sh.removed;
    hide Inv, LedgerRuns, LedgerEnd, SeenRun;
    RunIsLedgerRun(c, s, steps);
    LedgerLaws(View(s.sh), SeenRun(s, steps), id);
    assert id in View(s.sh).entries && id in View(Run(s, steps).sh).entries;
  }

  /** The step is a sweep that the row falls to: by age, received before the cutoff; by
      count, with max newer rows of its token above it. */
  predicate SweepsAway(rows: Rows, step: Step, id: string) {
    && id in rows && step.Environment?
    && (|| (step.e.AgeSweep? && Instant(rows[id].receivedAt) < Instant(step.e.cutoff))
        || (step.e.CountSweep? && step.e.max > 0 && Retention.RowNumber(rows, id) > step.e.max))
  }

  /** Only retention removes a row. */
  lemma {:induction false} OnlyRetentionRemoves(c: Config, s: State, step: Step, id: string)
    requires Reached(c, s) && Enabled(c, s, step) && id in s.sh.rows
    ensures id in Apply(s, step).sh.rows <==> !SweepsAway(s.sh.rows, step, id)
  {
    hide Reached, Enabled, Inv, Apply, SweepsAway;
    ReachedInv(c, s);
    if id !in Apply(s, step).sh.rows {
      RemovalIsForgetting(c, s, step, id);
    }
    if step.Environment? && (step.e.AgeSweep? || step.e.CountSweep?) {
      SweptOut(s, step.e, id);
    } else {
      NotSwept(s, step, id);
    }
  }

  lemma {:induction false} NotSwept(s: State, step: Step, id: string)
    requires !(step.Environment? && (step.e.AgeSweep? || step.e.CountSweep?))
    ensures !SweepsAway(s.sh.rows, step, id)
  {
  }

  lemma {:induction false} SweptOut(s: State, e: Effect, id: string)
    requires id in s.sh.rows && (e.AgeSweep? || e.CountSweep?)
    ensures id in Apply(s, Environment(e)).sh.rows <==> !SweepsAway(s.sh.rows, Environment(e), id)
  {
    hide Retention.AfterAgeSweep, Retention.AfterCountSweep, Retention.RowNumber, Instant;
    if e.AgeSweep? {
      Retention.AgeSweepIsChronological(s.sh.rows, e.cutoff, id);
    } else {
      CountedOut(s.sh.rows, e.max, id);
    }
  }

  lemma {:induction false} CountedOut(rows: Rows, max: int, id: string)
    requires id in rows
    ensures id in Retention.AfterCountSweep(rows, max) <==> !(max > 0 && Retention.RowNumber(rows, id) > max)
  {
    hide Retention.RowNumber;
  }

  lemma {:induction false} RemovalIsForgetting(c: Config, s: State, step: Step, id: string)
    requires Inv(c, s) && Enabled(c, s, step) && id in s.sh.rows && id !in Apply(s, step).sh.rows
    ensures step.Environment? && (step.e.AgeSweep? || step.e.CountSweep?)
  {
    hide Inv, Enabled, Apply, View, LedgerMay;
    StepIsLedgerStep(c, s, step);
    ViewHasRows(s.sh, id);
    ViewHasRows(Apply(s, step).sh, id);
    assert Seen(s, step).Forget?;
  }

  lemma {:induction false} ViewHasRows(sh: Shared, id: string)
    ensures id in View(sh).entries <==> id in sh.rows
  {
  }

  // ---- what a row says ----

  /** A row is pending exactly when no mark has committed for it; otherwise its status
      and body are those of the last mark, and a Send of that very webhook returned
      them. */
  lemma {:induction false} RowTellsLastMark(c: Config, s: State, id: string)
    requires Reached(c, s) && id in s.sh.rows
    ensures id in s.sh.marks && (Pending(s.sh.rows[id]) <==> s.sh.marks[id] == [])
    ensures s.sh.marks[id] != [] ==>
              var m := s.sh.marks[id][|s.sh.marks[id]| - 1];
              && s.sh.rows[id].status == m.resp.status != 0 && s.sh.rows[id].responseBody == m.resp.body
              && m.send < |s.sh.sends| && s.sh.sends[m.send].id == id && (m.send, m.resp) in s.sh.returned
  {
    hide Reached;
    ReachedInv(c, s);
    var sh := s.sh;
    assert RowsInv(sh.rows, sh.inserted, sh.removed) && MarksInv(sh.rows, sh.inserted, sh.marks)
           && MarkOriginInv(sh.marks, sh.sends, sh.returned);
    hide Inv;
    assert id in sh.rows.Keys && id in sh.inserted.Keys && id in sh.marks.Keys;
    assert RowMarked(sh.rows[id], sh.marks[id]);
    if sh.marks[id] != [] {
      var m := sh.marks[id][|sh.marks[id]| - 1];
      assert m.resp.status != 0 && ReturnedFor(sh.sends, sh.returned, id, m.send, m.resp);
    }
  }

  // ---- answers ----

  /** An answer of 202 or with a local status rests on a row stored before it: the one
      this very request stored, or under dedup one holding its key. The row is still
      there unless retention removed it. */
  lemma {:induction false} AnswersRestOnRows(
      c: Config, s: State, pid: Pid, d: Delivery, reply: Reply, holder: string, source: string)
    requires Reached(c, s)
    requires pid in s.procs && s.procs[pid] == HookProc(HookAnswered(d, reply, holder, source)) && !reply.ServerError?
    ensures holder in s.sh.inserted && (holder in s.sh.rows || holder in s.sh.removed)
    ensures (DeliveryOf(s.sh.inserted[holder]) == d && holder in s.sh.owner && s.sh.owner[holder] == pid)
            || (c.dedup && s.sh.inserted[holder].token == d.token && s.sh.inserted[holder].dedupKey == KeyOf(c, d))
  {
    hide Reached;
    ReachedInv(c, s);
    assert ProcOk(c, s.sh, pid, s.procs[pid]) && RowsInv(s.sh.rows, s.sh.inserted, s.sh.removed);
    hide Inv;
    assert Backed(c, s.sh, pid, d, holder);
    assert holder in s.sh.inserted.Keys;
  }

  /** Without dedup no two requests are answered for the same row. */
  lemma {:induction false} AnswersHaveOwnRows(
    c: Config, s: State, p: Pid, q: Pid, d: Delivery, e: Delivery, r: Reply, t: Reply, row: string, other: string,
    x: string, y: string)
    requires Reached(c, s) && !c.dedup && p != q
    requires p in s.procs && s.procs[p] == HookProc(HookAnswered(d, r, row, x)) && !r.ServerError?
    requires q in s.procs && s.procs[q] == HookProc(HookAnswered(e, t, other, y)) && !t.ServerError?
    ensures row != other
  {
    hide Reached;
    AnswersRestOnRows(c, s, p, d, r, row, x);
    AnswersRestOnRows(c, s, q, e, t, other, y);
  }

  /** A local answer repeats a non-zero response that a Send of a row for this delivery
      returned. */
  lemma {:induction false} LocalAnswersWereReturned(
      c: Config, s: State, pid: Pid, d: Delivery, reply: Reply, holder: string, source: string)
    requires Reached(c, s)
    requires pid in s.procs && s.procs[pid] == HookProc(HookAnswered(d, reply, holder, source)) && reply.Local?
    ensures reply.status != 0 && source in s.sh.inserted && s.sh.inserted[source].token == d.token
    ensures (DeliveryOf(s.sh.inserted[source]) == d && source in s.sh.owner && s.sh.owner[source] == pid)
            || (c.dedup && s.sh.inserted[source].dedupKey == KeyOf(c, d))
    ensures exists n: nat, resp :: n < |s.sh.sends| && s.sh.sends[n].id == source && (n, resp) in s.sh.returned
                                   && resp.status == reply.status && resp.body == reply.body
  {
    hide Reached;
    ReachedInv(c, s);
    assert ProcOk(c, s.sh, pid, s.procs[pid]);
    hide Inv;
    assert Backed(c, s.sh, pid, d, source);
    var n: nat, resp :| ReturnedFor(s.sh.sends, s.sh.returned, source, n, resp) && resp.status == reply.status
        && resp.body == reply.body;
    assert n < |s.sh.sends| && s.sh.sends[n].id == source && (n, resp) in s.sh.returned;
  }

  // ---- requests ----

  /** Every Send, live, drained or replayed, carries what its row was stored with, and still
      has, and goes to a client of that row's token. */
  lemma {:induction false} SendsAreFaithful(c: Config, s: State, n: nat)
    requires Reached(c, s) && n < |s.sh.sends|
    ensures var (sh, rec) := (s.sh, s.sh.sends[n]);
            && rec.id in sh.inserted && rec.req.id == rec.id && Carries(rec.req, sh.inserted[rec.id])
            && rec.client in sh.clients && sh.clients[rec.client].token == sh.inserted[rec.id].token
            && (rec.id in sh.rows ==> Carries(rec.req, sh.rows[rec.id]))
            && (rec.live ==> !rec.req.replay)
  {
    hide Reached;
    ReachedInv(c, s);
    assert FaithfulSend(s.sh.inserted, s.sh.clients, s.sh.sends[n]) && RowsInv(s.sh.rows, s.sh.inserted, s.sh.removed);
    hide Inv;
  }

  /** What a hook stores is what arrived, field by field, pending and under the delivery's
      key. */
  lemma {:induction false} HooksStoreArrivals(c: Config, s: State, pid: Pid, next: Proc, row: Webhook)
    requires Enabled(c, s, Act(pid, next, Insert(row)))
    ensures var p := s.procs[pid];
            && p.HookProc? && p.h.HookChecked?
            && var a := p.h.arrival;
               && row.token == a.token && row.httpMethod == a.httpMethod && row.path == a.path
               && row.headers == a.headers && row.body == a.body && row.receivedAt == a.receivedAt
               && row.status == 0 && row.dedupKey == KeyOf(c, Delivery(a.token, a.httpMethod, a.path, a.body))
  {
    hide PendingAnswer, NewestFirst, SaveOutcome, HoldsKey, KeyOf;
  }

  /** The request says that it is a replay exactly when someone asked for the webhook to be
      sent again: a manual replay, or the replay phase of a new connection. Only the ingress
      forwards live. */
  lemma {:induction false} ReplaysSaySo(c: Config, s: State, pid: Pid, next: Proc, e: Effect)
    requires Enabled(c, s, Act(pid, next, e)) && e.BeginSend?
    ensures var p := s.procs[pid];
            && (e.rec.req.replay <==>
                p.ReplayProc? || (p.DrainProc? && p.d.Draining? && p.d.batch.round == Replays))
            && (e.rec.live <==> p.HookProc?)
  {
    hide PendingAnswer, NewestFirst, SaveOutcome, HoldsKey, KeyOf;
  }

  lemma {:induction false} GrowsTransitive(a: Shared, b: Shared, d: Shared)
    requires Grows(a, b) && Grows(b, d)
    ensures Grows(a, d)
  {
  }

  lemma {:induction false} StepGrows(c: Config, s: State, step: Step)
    requires Inv(c, s) && Enabled(c, s, step)
    ensures Grows(s.sh, Apply(s, step).sh)
  {
    hide SharedInv, ProcOk, ProcStep, EffectOk, ApplyEffect, FromOutside;
    match step
    case Spawn(_, _) =>
    case Restart =>
    case Act(pid, next, e) =>
      hide Grows;
      ProcGoesOn(c, s.sh, pid, s.procs[pid], next, e);
      EffectGrows(c, s.sh, pid, e);
    case Environment(e) =>
      hide Grows;
      OutsideIsOk(c, s.sh, e);
      EffectGrows(c, s.sh, 0, e);
  }

  lemma {:induction false} RunGrows(c: Config, s: State, steps: seq<Step>)
    requires Inv(c, s) && ValidRun(c, s, steps)
    ensures Grows(s.sh, Run(s, steps).sh) && Inv(c, Run(s, steps))
    decreases |steps|
  {
    hide Inv, Enabled, Apply;
    if steps != [] {
      var next := Apply(s, steps[0]);
      StepGrows(c, s, steps[0]);
      InvKept(c, s, steps[0]);
      RunGrows(c, next, steps[1..]);
      GrowsTransitive(s.sh, next.sh, Run(s, steps).sh);
      hide Grows;
    }
  }

  /** No part of a row's request ever changes. */
  lemma {:induction false} RequestsNeverChange(c: Config, s: State, steps: seq<Step>, id: string)
    requires Reached(c, s) && ValidRun(c, s, steps)
    requires id in s.sh.rows && id in Run(s, steps).sh.rows
    ensures SameRequest(s.sh.rows[id], Run(s, steps).sh.rows[id])
  {
    hide Reached, ValidRun, Run;
    ReachedInv(c, s);
    RunGrows(c, s, steps);
    var (a, b) := (s.sh, Run(s, steps).sh);
    assert RowsInv(a.rows, a.inserted, a.removed) && RowsInv(b.rows, b.inserted, b.removed);
    hide Inv;
    assert id in a.rows.Keys && id in a.inserted.Keys;
  }

  /** What the replay phase sends was not recorded as delivered by the drain before it. */
  lemma {:induction false} ReplayPhaseSkipsDelivered(c: Config, s: State, pid: Pid, b: Batch, send: nat)
    requires Reached(c, s)
    requires pid in s.procs && s.procs[pid] == DrainProc(DrainSending(b, send)) && b.round.Replays?
    ensures send < |s.sh.sends| && s.sh.sends[send].id !in b.delivered
  {
    hide Reached;
    ReachedInv(c, s);
    assert ProcOk(c, s.sh, pid, s.procs[pid]);
    hide Inv;
  }

  /** What a replay phase sets out to send: the newest `limit` webhooks of the token that
      its drain phase did not record, when the limit and their number add up; otherwise
      nothing. */
  lemma {:induction false} ReplayPhaseWants(sh: Shared, d: Drain, b: Batch, e: Effect)
    requires d.DrainReplays? && DrainStep(sh, d, Draining(b), e) && |d.delivered| <= MAX_INT64
    ensures if ReplaySelection.SumFits(d.limit, |d.delivered|)
            then exists list :: NewestFirst(sh.rows, d.token, list)
                                && b.todo == ReplaySelection.Wanted(list, d.limit, d.delivered)
            else b.todo == []
  {
    hide NewestFirst, ReplaySelection.Selected, ReplaySelection.Wanted;
    var list :| NewestFirst(sh.rows, d.token, list) && b.todo == ReplaySelection.Selected(list, d.limit, d.delivered);
    if ReplaySelection.SumFits(d.limit, |d.delivered|) {
      ReplaySelection.AnswersAreDistinct(sh.rows, d.token, list);
      ReplaySelection.SelectionIsWanted(list, d.limit, d.delivered);
    } else {
      ReplaySelection.WrappedSelectsNothing(list, d.limit, d.delivered);
    }
  }

  /** What was answered for stays stored, with the same request, across restarts too,
      until retention removes it. */
  lemma {:induction false} AnsweredStaysStored(
      c: Config, s: State, pid: Pid, d: Delivery, reply: Reply, holder: string, source: string, steps: seq<Step>)
    requires Reached(c, s) && ValidRun(c, s, steps)
    requires pid in s.procs && s.procs[pid] == HookProc(HookAnswered(d, reply, holder, source)) && !reply.ServerError?
    ensures holder in s.sh.inserted
    ensures var end := Run(s, steps).sh;
            if holder in end.rows then SameRequest(end.rows[holder], s.sh.inserted[holder]) else holder in end.removed
  {
    hide Reached, ValidRun, Run;
    AnswersRestOnRows(c, s, pid, d, reply, holder, source);
    ReachedInv(c, s);
    RunGrows(c, s, steps);
    var (a, b) := (s.sh, Run(s, steps).sh);
    assert RowsInv(b.rows, b.inserted, b.removed);
    hide Inv;
    assert holder in b.inserted.Keys && b.inserted[holder] == a.inserted[holder];
  }
}
