/** The drains of internal/relay/delivery.go as the loops they are: the age filter that
    compacts in place, deliverStored, and drainOnConnect's two phases. The peer answers
    the n-th request it is sent as it pleases, or not at all; any mark may fail. */
module Delivering {
  import opened Wrappers
  import opened Ints
  import opened Timestamps
  import opened Message
  import opened Store
  import ReplaySelection

  // ---- pendingOlderThan ----

  /** The rows older than the cutoff, in the order given. */
  function OlderThan(list: seq<Webhook>, cutoff: int): (older: seq<Webhook>)
    ensures |older| <= |list|
  {
    if list == [] then []
    else
      var (front, last) := (list[..|list| - 1], list[|list| - 1]);
      OlderThan(front, cutoff) + if Instant(last.receivedAt) < cutoff then [last] else []
  }

  lemma {:induction false} OlderThanPicks(list: seq<Webhook>, cutoff: int)
    ensures forall w :: w in OlderThan(list, cutoff) <==> w in list && Instant(w.receivedAt) < cutoff
  {
    if list != [] {
      var (front, last) := (list[..|list| - 1], list[|list| - 1]);
      assert list == front + [last];
      OlderThanPicks(front, cutoff);
    }
    hide Instant;
  }

  lemma {:induction false} OlderIsDistinct(list: seq<Webhook>, cutoff: int)
    ensures ReplaySelection.DistinctIds(list) ==> ReplaySelection.DistinctIds(OlderThan(list, cutoff))
  {
    if list != [] && ReplaySelection.DistinctIds(list) {
      var front := list[..|list| - 1];
      OlderIsDistinct(front, cutoff);
      OlderThanPicks(front, cutoff);
      var older := OlderThan(front, cutoff);
      forall i | 0 <= i < |older| ensures older[i].id != list[|list| - 1].id {
        assert older[i] in front;
      }
    }
    hide Instant;
  }

  lemma {:induction false} OneMoreOlder(all: seq<Webhook>, i: nat, cutoff: int)
    requires i < |all|
    ensures OlderThan(all[..i + 1], cutoff)
            == OlderThan(all[..i], cutoff) + (if Instant(all[i].receivedAt) < cutoff then [all[i]] else [])
  {
    assert all[..i + 1][..i] == all[..i];
    hide Instant;
  }

  /** stale := webhooks[:0]; the stale rows overwrite the slice they are read from. */
  method PendingOlderThan(webhooks: array<Webhook>, cutoff: int) returns (n: nat)
    modifies webhooks
    ensures n <= webhooks.Length
    ensures webhooks[..n] == OlderThan(old(webhooks[..]), cutoff)
  {
    n := 0;
    ghost var all := webhooks[..];
    assert OlderThan(all[..0], cutoff) == [];
    hide OlderThan, Instant;
    for read := 0 to webhooks.Length
      invariant n <= read
      invariant forall j | read <= j < webhooks.Length :: webhooks[j] == all[j]
      invariant webhooks[..n] == OlderThan(all[..read], cutoff)
    {
      OneMoreOlder(all, read, cutoff);
      if Instant(webhooks[read].receivedAt) < cutoff {
        ghost var before := webhooks[..n];
        webhooks[n] := webhooks[read];
        n := n + 1;
        assert webhooks[..n] == before + [all[read]];
      }
    }
    assert all[..webhooks.Length] == all;
  }

  // ---- the other end ----

  /** A tunnel client as deliverStored sees it: what it was sent, and what it answers to
      the n-th request; None is an error. */
  class Peer {
    const answers: nat -> Option<Response>
    var sent: seq<Request>

    constructor (answers: nat -> Option<Response>)
      ensures this.answers == answers && sent == []
    {
      this.answers, sent := answers, [];
    }

    method Send(req: Request) returns (resp: Option<Response>)
      modifies this
      ensures sent == old(sent) + [req] && resp == answers(|old(sent)|)
    {
      resp := answers(|sent|);
      sent := sent + [req];
    }
  }

  // ---- deliverStored ----

  /** A response that counts as delivery. */
  predicate Good(answer: Option<Response>) {
    answer.Some? && answer.value.status != 0
  }

  /** How many of the next n requests are answered well before one is not. */
  function GoodRun(answers: nat -> Option<Response>, next: nat, n: nat): (k: nat)
    ensures k <= n
    decreases n
  {
    if n == 0 || !Good(answers(next)) then 0 else 1 + GoodRun(answers, next + 1, n - 1)
  }

  lemma {:induction false} GoodRunEnds(answers: nat -> Option<Response>, next: nat, n: nat, i: nat)
    requires i <= GoodRun(answers, next, n) && i < n
    ensures i < GoodRun(answers, next, n) <==> Good(answers(next + i))
    decreases n
  {
    if i > 0 { GoodRunEnds(answers, next + 1, n - 1, i - 1); }
  }

  function Requests(list: seq<Webhook>, replay: bool): (rs: seq<Request>)
    ensures |rs| == |list|
    ensures forall i | 0 <= i < |rs| :: rs[i].id == list[i].id && rs[i].replay == replay && Carries(rs[i], list[i])
  {
    seq(|list|, i requires 0 <= i < |list| => RequestOf(list[i], replay))
  }

  const NO_RESPONSE := Response("", "", 0, "", "")

  /** A webhook with the response it got. */
  function Answered(w: Webhook, answer: Option<Response>): Webhook {
    var resp := if answer.Some? then answer.value else NO_RESPONSE;
    w.(status := resp.status, responseBody := resp.body)
  }

  /** The table after an attempt to mark w with its response: the mark of a broken id fails. */
  function Tried(rows: Rows, w: Webhook, broken: string -> bool): Rows {
    if broken(w.id) then rows else AfterMark(rows, w.id, w.status, w.responseBody)
  }

  method TryMark(table: Table, w: Webhook, broken: string -> bool) returns (ok: bool)
    requires table.Valid()
    modifies table
    ensures table.Valid() && table.rows == Tried(old(table.rows), w, broken) && ok == !broken(w.id)
  {
    ok := !broken(w.id);
    if ok { table.MarkDelivered(w.id, w.status, w.responseBody); }
  }

  /** The table after the responses to list[..k], the first of them to request `next`,
      were marked. */
  function Marked(
      rows: Rows, list: seq<Webhook>, answers: nat -> Option<Response>, next: nat, broken: string -> bool, k: nat): Rows
    requires k <= |list|
  {
    if k == 0 then rows
    else
      Tried(Marked(rows, list, answers, next, broken, k - 1), Answered(list[k - 1], answers(next + k - 1)), broken)
  }

  /** What deliverStored reports of them: the ones whose mark committed. */
  function Recorded(
      list: seq<Webhook>, answers: nat -> Option<Response>, next: nat, broken: string -> bool, k: nat): seq<Webhook>
    requires k <= |list|
  {
    if k == 0 then []
    else
      var (before, w) := (Recorded(list, answers, next, broken, k - 1), Answered(list[k - 1], answers(next + k - 1)));
      if broken(w.id) then before else before + [w]
  }

  /** How many of list are sent when the first k are answered well: one more, if any. */
  function SentCount(list: seq<Webhook>, k: nat): (n: nat)
    ensures n <= |list|
  {
    if k < |list| then k + 1 else |list|
  }

  /** What becomes of the rows when the first k of a list, of different ids, are answered and
      marked: each shows the answer its own request got, unless its mark failed, and every
      other row is as it was. */
  ghost predicate MarksShow(
    rows: Rows, rows': Rows, list: seq<Webhook>, answers: nat -> Option<Response>, next: nat, broken: string -> bool,
    k: nat)
  {
    && k <= |list| && rows'.Keys == rows.Keys
    && (forall i | 0 <= i < k && list[i].id in rows && !broken(list[i].id) ::
          answers(next + i).Some?
          && rows'[list[i].id] == rows[list[i].id].(status := answers(next + i).value.status,
                                                    responseBody := answers(next + i).value.body))
    && (forall id | id in rows && (broken(id) || forall i | 0 <= i < k :: list[i].id != id) :: rows'[id] == rows[id])
  }

  /** What was sent in addition carries the first webhooks of the list, in order, each under
      its own id, and says whether it is a replay. */
  ghost predicate RequestsCarry(was: seq<Request>, sent: seq<Request>, list: seq<Webhook>, replay: bool) {
    && was <= sent && |sent| - |was| <= |list|
    && (forall i | 0 <= i < |sent| - |was| ::
          var req := sent[|was| + i];
          req.id == list[i].id && req.replay == replay && Carries(req, list[i]))
  }

  lemma {:induction false} TheyCarry(was: seq<Request>, list: seq<Webhook>, n: nat, replay: bool)
    requires n <= |list|
    ensures RequestsCarry(was, was + Requests(list[..n], replay), list, replay)
  {
    var sent := was + Requests(list[..n], replay);
    forall i | 0 <= i < n ensures sent[|was| + i] == Requests(list[..n], replay)[i] && list[..n][i] == list[i] {
    }
    hide Requests, Carries;
  }

  lemma {:induction false} MarkedShows(
    rows: Rows, list: seq<Webhook>, answers: nat -> Option<Response>, next: nat, broken: string -> bool, k: nat)
    requires k <= GoodRun(answers, next, |list|) && ReplaySelection.DistinctIds(list)
    ensures MarksShow(rows, Marked(rows, list, answers, next, broken, k), list, answers, next, broken, k)
  {
    hide MarksShow, GoodRun, Tried, Answered, ReplaySelection.DistinctIds;
    if k == 0 {
      NoneShown(rows, list, answers, next, broken);
    } else {
      MarkedShows(rows, list, answers, next, broken, k - 1);
      GoodRunEnds(answers, next, |list|, k - 1);
      OneMoreShows(rows, Marked(rows, list, answers, next, broken, k - 1), list, answers, next, broken, k - 1);
    }
  }

  lemma {:induction false} NoneShown(
    rows: Rows, list: seq<Webhook>, answers: nat -> Option<Response>, next: nat, broken: string -> bool)
    ensures MarksShow(rows, rows, list, answers, next, broken, 0)
  {
  }

  lemma {:induction false} OneMoreShows(
    rows: Rows, rows': Rows, list: seq<Webhook>, answers: nat -> Option<Response>, next: nat, broken: string -> bool,
    i: nat)
    requires MarksShow(rows, rows', list, answers, next, broken, i) && i < |list| && Good(answers(next + i))
    requires ReplaySelection.DistinctIds(list)
    ensures MarksShow(rows, Tried(rows', Answered(list[i], answers(next + i)), broken), list, answers, next, broken,
              i + 1)
  {
    var id := list[i].id;
    assert id in rows ==> rows'[id] == rows[id];
  }

  lemma {:induction false} NoRequests()
    ensures forall replay :: Requests([], replay) == []
  {
  }

  lemma {:induction false} OneMoreRequest(before: seq<Request>, list: seq<Webhook>, i: nat, replay: bool)
    requires i < |list|
    ensures before + Requests(list[..i], replay) + [RequestOf(list[i], replay)]
            == before + Requests(list[..i + 1], replay)
  {
    assert Requests(list[..i + 1], replay) == Requests(list[..i], replay) + [RequestOf(list[i], replay)];
  }

  lemma {:induction false} OneMoreMark(
    rows: Rows, list: seq<Webhook>, answers: nat -> Option<Response>, next: nat, broken: string -> bool, i: nat)
    requires i < |list|
    ensures var (w, before) := (Answered(list[i], answers(next + i)), Marked(rows, list, answers, next, broken, i));
            && Marked(rows, list, answers, next, broken, i + 1) == Tried(before, w, broken)
            && Recorded(list, answers, next, broken, i + 1)
               == Recorded(list, answers, next, broken, i) + (if broken(w.id) then [] else [w])
  {
  }

  /** Where deliverStored stands after i webhooks were answered well. */
  ghost predicate DeliveredSoFar(
    was: seq<Request>, sent: seq<Request>, before: Rows, rows: Rows, delivered: seq<Webhook>,
    list: seq<Webhook>, replay: bool, answers: nat -> Option<Response>, broken: string -> bool, i: nat)
  {
    && i <= |list|
    && sent == was + Requests(list[..i], replay)
    && rows == Marked(before, list, answers, |was|, broken, i)
    && delivered == Recorded(list, answers, |was|, broken, i)
  }

  lemma {:induction false} NothingDelivered(
    was: seq<Request>, rows: Rows, list: seq<Webhook>, replay: bool, answers: nat -> Option<Response>,
    broken: string -> bool)
    ensures DeliveredSoFar(was, was, rows, rows, [], list, replay, answers, broken, 0)
  {
    NoRequests();
  }

  lemma {:induction false} OneMoreDelivered(
    was: seq<Request>, sent: seq<Request>, before: Rows, rows: Rows, delivered: seq<Webhook>,
    list: seq<Webhook>, replay: bool, answers: nat -> Option<Response>, broken: string -> bool, i: nat)
    requires DeliveredSoFar(was, sent, before, rows, delivered, list, replay, answers, broken, i) && i < |list|
    ensures |sent| == |was| + i
    ensures var w := Answered(list[i], answers(|was| + i));
            && sent + [RequestOf(list[i], replay)] == was + Requests(list[..i + 1], replay)
            && DeliveredSoFar(was, sent + [RequestOf(list[i], replay)], before, Tried(rows, w, broken),
                         delivered + (if broken(w.id) then [] else [w]), list, replay, answers, broken, i + 1)
  {
    OneMoreRequest(was, list, i, replay);
    OneMoreMark(before, list, answers, |was|, broken, i);
    hide Requests, RequestOf, Marked, Recorded, Tried;
  }

  /** What deliverStored has done when it returns: it sent the first webhooks of the list, in
      order, up to the first that is not answered well; it marked and reported those before,
      less the ones whose mark failed. */
  ghost predicate DeliveredAll(
    was: seq<Request>, sent: seq<Request>, before: Rows, rows: Rows, delivered: seq<Webhook>,
    list: seq<Webhook>, replay: bool, answers: nat -> Option<Response>, broken: string -> bool)
  {
    var k := GoodRun(answers, |was|, |list|);
    && sent == was + Requests(list[..SentCount(list, k)], replay)
    && rows == Marked(before, list, answers, |was|, broken, k)
    && delivered == Recorded(list, answers, |was|, broken, k)
    && RequestsCarry(was, sent, list, replay)
    && (ReplaySelection.DistinctIds(list) ==> MarksShow(before, rows, list, answers, |was|, broken, k))
  }

  lemma {:induction false} DeliveryEnds(
    was: seq<Request>, sent: seq<Request>, before: Rows, rows: Rows, delivered: seq<Webhook>,
    list: seq<Webhook>, replay: bool, answers: nat -> Option<Response>, broken: string -> bool, i: nat)
    requires DeliveredSoFar(was, sent, before, rows, delivered, list, replay, answers, broken, i)
    requires i == |list| || !Good(answers(|was| + i))
    requires i <= GoodRun(answers, |was|, |list|)
    ensures DeliveredAll(was, if i < |list| then sent + [RequestOf(list[i], replay)] else sent, before, rows, delivered,
              list, replay, answers, broken)
  {
    var k := GoodRun(answers, |was|, |list|);
    if i < |list| {
      GoodRunEnds(answers, |was|, |list|, i);
      OneMoreRequest(was, list, i, replay);
    }
    assert k == i;
    hide RequestsCarry, MarksShow, Marked, Recorded, GoodRun, Requests, RequestOf, ReplaySelection.DistinctIds;
    TheyCarry(was, list, SentCount(list, k), replay);
    if ReplaySelection.DistinctIds(list) { MarkedShows(before, list, answers, |was|, broken, k); }
  }

  /** deliverStored sends in list order, each request only after the one before was
      answered well, and stops at the first that is not. */
  method DeliverStored(table: Table, peer: Peer, list: seq<Webhook>, replay: bool, broken: string -> bool)
    returns (delivered: seq<Webhook>)
    requires table.Valid()
    modifies table, peer
    ensures table.Valid()
    ensures DeliveredAll(old(peer.sent), peer.sent, old(table.rows), table.rows, delivered, list, replay,
              peer.answers, broken)
  {
    delivered := [];
    ghost var was, before, answers := peer.sent, table.rows, peer.answers;
    ghost var k := GoodRun(answers, |was|, |list|);
    NothingDelivered(was, before, list, replay, answers, broken);
    hide RequestOf, Requests, ValidRows, GoodRun, Marked, Recorded, Tried, Answered, DeliveredAll, DeliveredSoFar;
    for i := 0 to |list|
      invariant i <= k && table.Valid()
      invariant DeliveredSoFar(was, peer.sent, before, table.rows, delivered, list, replay, answers, broken, i)
    {
      var webhook := list[i];
      OneMoreDelivered(was, peer.sent, before, table.rows, delivered, list, replay, answers, broken, i);
      ghost var sent, rows := peer.sent, table.rows;
      var resp := peer.Send(RequestOf(webhook, replay));
      if resp.None? || resp.value.status == 0 {
        DeliveryEnds(was, sent, before, rows, delivered, list, replay, answers, broken, i);
        return;
      }
      GoodRunEnds(answers, |was|, |list|, i);
      webhook := Answered(webhook, resp);
      var ok := TryMark(table, webhook, broken);
      if ok { delivered := delivered + [webhook]; }
    }
    DeliveryEnds(was, peer.sent, before, table.rows, delivered, list, replay, answers, broken, |list|);
  }

  // ---- what a drain achieves ----

  ghost predicate NoneBroken(broken: string -> bool) {
    forall id :: !broken(id)
  }

  /** Without store errors the result is exactly a prefix of the list, with responses. */
  lemma {:induction false} RecordedIsPrefix(
      list: seq<Webhook>, answers: nat -> Option<Response>, next: nat, broken: string -> bool, k: nat)
    requires k <= |list| && NoneBroken(broken)
    ensures |Recorded(list, answers, next, broken, k)| == k
    ensures forall i | 0 <= i < k :: Recorded(list, answers, next, broken, k)[i] == Answered(list[i], answers(next + i))
  {
    if k > 0 { RecordedIsPrefix(list, answers, next, broken, k - 1); }
  }

  function PendingIds(rows: Rows, token: string): set<string> {
    set id | id in rows && rows[id].token == token && Pending(rows[id])
  }

  function Ids(list: seq<Webhook>): set<string> {
    set i | 0 <= i < |list| :: list[i].id
  }

  ghost predicate AllPending(rows: Rows, token: string, list: seq<Webhook>) {
    && ReplaySelection.DistinctIds(list)
    && forall i | 0 <= i < |list| :: list[i].id in rows && rows[list[i].id].token == token && Pending(rows[list[i].id])
  }

  lemma {:induction false} OneMoreId(list: seq<Webhook>, w: Webhook)
    ensures Ids(list + [w]) == Ids(list) + {w.id}
  {
    var both := list + [w];
    assert forall i | 0 <= i < |list| :: both[i] == list[i];
    assert both[|list|] == w;
    forall id | id in Ids(list) ensures id in Ids(both) {
      var i :| 0 <= i < |list| && list[i].id == id;
      assert both[i].id == id;
    }
  }

  lemma {:induction false} RecordedIds(
      list: seq<Webhook>, answers: nat -> Option<Response>, next: nat, broken: string -> bool, k: nat)
    requires k <= |list|
    ensures forall id | id in Ids(Recorded(list, answers, next, broken, k)) :: exists i ::
            0 <= i < k && list[i].id == id
  {
    if k > 0 {
      RecordedIds(list, answers, next, broken, k - 1);
      OneMoreId(Recorded(list, answers, next, broken, k - 1), Answered(list[k - 1], answers(next + k - 1)));
    }
  }

  lemma {:induction false} MarkTakesOne(rows: Rows, id: string, status: int, body: string, token: string)
    requires id in rows && status != 0
    ensures PendingIds(AfterMark(rows, id, status, body), token) == PendingIds(rows, token) - {id}
  {
  }

  lemma {:induction false} UnmarkedStay(
    rows: Rows, list: seq<Webhook>, answers: nat -> Option<Response>, next: nat, broken: string -> bool, k: nat,
    id: string)
    requires k <= |list| && forall i | 0 <= i < k :: list[i].id != id
    ensures var after := Marked(rows, list, answers, next, broken, k);
            after.Keys == rows.Keys && (id in rows ==> after[id] == rows[id])
  {
    if k > 0 { UnmarkedStay(rows, list, answers, next, broken, k - 1, id); }
  }

  /** One mark: it takes one pending id, or fails and takes none. */
  lemma {:induction false} OneMarkDrops(rows: Rows, token: string, w: Webhook, broken: string -> bool)
    requires w.id in rows && rows[w.id].token == token && Pending(rows[w.id]) && w.status != 0
    ensures var (before, after) := (PendingIds(rows, token), PendingIds(Tried(rows, w, broken), token));
            var taken := if broken(w.id) then {} else {w.id};
            after == before - taken && |after| == |before| - |taken|
  {
    if !broken(w.id) {
      MarkTakesOne(rows, w.id, w.status, w.responseBody, token);
      IsPending(rows, w.id, token);
      hide PendingIds, AfterMark;
      assert PendingIds(rows, token) == (PendingIds(rows, token) - {w.id}) + {w.id};
    }
  }

  /** The next webhook of the list is as it was when the list was read. */
  lemma {:induction false} NextIsPending(
      rows: Rows, token: string, list: seq<Webhook>, answers: nat -> Option<Response>, next: nat,
      broken: string -> bool, i: nat)
    requires AllPending(rows, token, list) && i < |list|
    ensures var before := Marked(rows, list, answers, next, broken, i);
            list[i].id in before && before[list[i].id].token == token && Pending(before[list[i].id])
  {
    UnmarkedStay(rows, list, answers, next, broken, i, list[i].id);
    hide Marked;
    assert list[i].id in Marked(rows, list, answers, next, broken, i).Keys;
  }

  /** The id the k-th mark takes from the pending ones, if any. */
  function TakenBy(list: seq<Webhook>, broken: string -> bool, k: nat): set<string>
    requires 1 <= k <= |list|
  {
    if broken(list[k - 1].id) then {} else {list[k - 1].id}
  }

  lemma {:induction false} StepDrops(
      rows: Rows, token: string, list: seq<Webhook>, answers: nat -> Option<Response>, next: nat,
      broken: string -> bool, k: nat)
    requires AllPending(rows, token, list) && 1 <= k <= GoodRun(answers, next, |list|)
    ensures var before := PendingIds(Marked(rows, list, answers, next, broken, k - 1), token);
            var after := PendingIds(Marked(rows, list, answers, next, broken, k), token);
            after == before - TakenBy(list, broken, k) && |after| == |before| - |TakenBy(list, broken, k)|
  {
    var w := Answered(list[k - 1], answers(next + k - 1));
    GoodRunEnds(answers, next, |list|, k - 1);
    NextIsPending(rows, token, list, answers, next, broken, k - 1);
    assert w.id == list[k - 1].id && w.status != 0;
    hide PendingIds, GoodRun, AllPending, Recorded, Tried, Answered;
    OneMarkDrops(Marked(rows, list, answers, next, broken, k - 1), token, w, broken);
  }

  lemma {:induction false} StepReports(list: seq<Webhook>, answers: nat -> Option<Response>, next: nat,
      broken: string -> bool, k: nat)
    requires 1 <= k <= |list|
    ensures var before := Recorded(list, answers, next, broken, k - 1);
            var after := Recorded(list, answers, next, broken, k);
            Ids(after) == Ids(before) + TakenBy(list, broken, k) && |after| == |before| + |TakenBy(list, broken, k)|
  {
    OneMoreId(Recorded(list, answers, next, broken, k - 1), Answered(list[k - 1], answers(next + k - 1)));
    hide Ids;
  }

  /** Exactly the reported webhooks stop being pending, and nothing else does; so the
      token's pending count drops by exactly the length of the report. */
  lemma {:induction false} PendingDrops(
      rows: Rows, token: string, list: seq<Webhook>, answers: nat -> Option<Response>, next: nat,
      broken: string -> bool, k: nat)
    requires AllPending(rows, token, list) && k <= GoodRun(answers, next, |list|)
    ensures var after := Marked(rows, list, answers, next, broken, k);
            var delivered := Recorded(list, answers, next, broken, k);
            && PendingIds(after, token) == PendingIds(rows, token) - Ids(delivered)
            && |PendingIds(after, token)| == |PendingIds(rows, token)| - |delivered|
  {
    hide PendingIds, Ids, GoodRun, AllPending, TakenBy, Marked, Recorded;
    if k == 0 {
      NothingMarked(rows, list, answers, next, broken);
      NoIds();
    } else {
      PendingDrops(rows, token, list, answers, next, broken, k - 1);
      StepDrops(rows, token, list, answers, next, broken, k);
      StepReports(list, answers, next, broken, k);
      LessBoth(PendingIds(rows, token), Ids(Recorded(list, answers, next, broken, k - 1)), TakenBy(list, broken, k));
    }
  }

  lemma {:induction false} NothingMarked(
      rows: Rows, list: seq<Webhook>, answers: nat -> Option<Response>, next: nat, broken: string -> bool)
    ensures Marked(rows, list, answers, next, broken, 0) == rows && Recorded(list, answers, next, broken, 0) == []
  {
  }

  lemma {:induction false} LessBoth(s: set<string>, t: set<string>, u: set<string>)
    ensures s - t - u == s - (t + u)
  {
  }

  lemma {:induction false} NoIds()
    ensures Ids([]) == {}
  {
  }

  lemma {:induction false} IsPending(rows: Rows, id: string, token: string)
    requires id in rows && rows[id].token == token && Pending(rows[id])
    ensures id in PendingIds(rows, token)
  {
  }

  lemma {:induction false} AnswerIsAllPending(rows: Rows, token: string, list: seq<Webhook>)
    requires PendingAnswer(rows, token, list)
    ensures AllPending(rows, token, list)
  {
    hide TextBefore;
  }

  // ---- drainOnConnect ----

  /** The table and the ids reported after the first phase; a failed query leaves both
      as they were. */
  function DrainedRows(
      rows: Rows, pending: Option<seq<Webhook>>, answers: nat -> Option<Response>, next: nat,
      broken: string -> bool): Rows {
    if pending.None? then rows
    else Marked(rows, pending.value, answers, next, broken, GoodRun(answers, next, |pending.value|))
  }

  function DrainedIds(
      pending: Option<seq<Webhook>>, answers: nat -> Option<Response>, next: nat, broken: string -> bool): set<string> {
    if pending.None? then {} else Ids(Recorded(pending.value, answers, next, broken,
        GoodRun(answers, next, |pending.value|)))
  }

  function FirstSent(pending: Option<seq<Webhook>>, answers: nat -> Option<Response>, next: nat): seq<Webhook> {
    if pending.None? then []
    else pending.value[..SentCount(pending.value, GoodRun(answers, next, |pending.value|))]
  }

  /** What the replay phase sets out to send. */
  function ToReplay(newest: Option<seq<Webhook>>, limit: Int64, drained: set<string>): (list: seq<Webhook>)
    ensures forall w | w in list :: w.id !in drained
  {
    if limit <= 0 || newest.None? then []
    else
      ReplaySelection.SelectedIsFromList(newest.value, limit, drained);
      ReplaySelection.Selected(newest.value, limit, drained)
  }

  /** What it sends: a prefix of that. */
  function ThenSent(
      newest: Option<seq<Webhook>>, limit: Int64, drained: set<string>, answers: nat -> Option<Response>,
      next: nat): (sent: seq<Webhook>)
    ensures forall w | w in sent :: w.id !in drained
  {
    var list := ToReplay(newest, limit, drained);
    list[..SentCount(list, GoodRun(answers, next, |list|))]
  }

  /** The table after the replay phase. */
  function ReplayedRows(
      rows: Rows, newest: Option<seq<Webhook>>, limit: Int64, drained: set<string>, answers: nat -> Option<Response>,
      next: nat, broken: string -> bool): Rows {
    var list := ToReplay(newest, limit, drained);
    Marked(rows, list, answers, next, broken, GoodRun(answers, next, |list|))
  }

  /** That is a prefix of the newest `limit` webhooks the drain did not report, or nothing
      at all when the limit and the number reported do not add up. */
  lemma {:induction false} ReplaysAreWanted(
      rows: Rows, token: string, newest: seq<Webhook>, limit: Int64, drained: set<string>,
      answers: nat -> Option<Response>, next: nat)
    requires NewestFirst(rows, token, newest) && limit > 0 && |drained| <= MAX_INT64
    ensures var wanted := ReplaySelection.Wanted(newest, limit, drained);
            ThenSent(Some(newest), limit, drained, answers, next)
            == if ReplaySelection.SumFits(limit, |drained|)
               then wanted[..SentCount(wanted, GoodRun(answers, next, |wanted|))] else []
  {
    hide GoodRun, ReplaySelection.Selected, ReplaySelection.Wanted, NewestFirst;
    if ReplaySelection.SumFits(limit, |drained|) {
      ReplaySelection.AnswersAreDistinct(rows, token, newest);
      ReplaySelection.SelectionIsWanted(newest, limit, drained);
    } else {
      ReplaySelection.WrappedSelectsNothing(newest, limit, drained);
    }
  }

  /** After the first phase every webhook that was pending and was answered in time shows its
      answer, and no other row has changed. */
  lemma {:induction false} DrainedShows(
    rows: Rows, token: string, pending: seq<Webhook>, answers: nat -> Option<Response>, next: nat,
    broken: string -> bool)
    requires PendingAnswer(rows, token, pending)
    ensures MarksShow(rows, DrainedRows(rows, Some(pending), answers, next, broken), pending, answers, next, broken,
              GoodRun(answers, next, |pending|))
  {
    AnswerIsAllPending(rows, token, pending);
    hide PendingAnswer, MarksShow, Marked, GoodRun;
    MarkedShows(rows, pending, answers, next, broken, GoodRun(answers, next, |pending|));
  }

  /** After the replay phase so does every webhook that was replayed. */
  lemma {:induction false} ReplayedShows(
    rows: Rows, token: string, newest: Option<seq<Webhook>>, limit: Int64, drained: set<string>,
    answers: nat -> Option<Response>, next: nat, broken: string -> bool)
    requires newest.Some? ==> NewestFirst(rows, token, newest.value)
    ensures var list := ToReplay(newest, limit, drained);
            MarksShow(rows, ReplayedRows(rows, newest, limit, drained, answers, next, broken), list, answers, next,
              broken, GoodRun(answers, next, |list|))
  {
    hide NewestFirst, MarksShow, Marked, GoodRun, ReplaySelection.Selected;
    var list := ToReplay(newest, limit, drained);
    if newest.Some? && limit > 0 {
      ReplaySelection.AnswersAreDistinct(rows, token, newest.value);
      ReplaySelection.SelectedIsDistinct(newest.value, limit, drained);
    }
    MarkedShows(rows, list, answers, next, broken, GoodRun(answers, next, |list|));
  }

  lemma {:induction false} NothingReplayed(
    rows: Rows, newest: Option<seq<Webhook>>, limit: Int64, drained: set<string>, answers: nat -> Option<Response>,
    next: nat, broken: string -> bool)
    requires limit <= 0 || newest.None?
    ensures ReplayedRows(rows, newest, limit, drained, answers, next, broken) == rows
    ensures Requests(ThenSent(newest, limit, drained, answers, next), true) == []
  {
  }

  method CollectIds(list: seq<Webhook>) returns (ids: set<string>)
    ensures ids == Ids(list)
  {
    ids := {};
    for i := 0 to |list|
      invariant ids == Ids(list[..i])
    {
      OneMoreId(list[..i], list[i]);
      assert list[..i + 1] == list[..i] + [list[i]];
      ids := ids + {list[i].id};
    }
    assert list[..|list|] == list;
  }

  /** Other tokens' rows are the same before and after. */
  ghost predicate OthersSame(rows: Rows, rows': Rows, token: string) {
    forall id | id in rows && rows[id].token != token :: id in rows' && rows'[id] == rows[id]
  }

  lemma {:induction false} OthersUntouched(
    rows: Rows, token: string, list: seq<Webhook>, answers: nat -> Option<Response>, next: nat, broken: string -> bool,
    k: nat)
    requires k <= |list| && forall w | w in list :: w.id in rows && rows[w.id].token == token
    ensures OthersSame(rows, Marked(rows, list, answers, next, broken, k), token)
  {
    forall id | id in rows && rows[id].token != token
      ensures id in Marked(rows, list, answers, next, broken, k).Keys
      ensures Marked(rows, list, answers, next, broken, k)[id] == rows[id]
    {
      assert forall i | 0 <= i < k :: list[i] in list;
      UnmarkedStay(rows, list, answers, next, broken, k, id);
    }
  }

  lemma {:induction false} AnswerIsOfToken(rows: Rows, token: string, list: seq<Webhook>)
    requires PendingAnswer(rows, token, list) || NewestFirst(rows, token, list)
    ensures forall w | w in list :: w.id in rows && rows[w.id].token == token
  {
    hide TextBefore;
  }

  lemma {:induction false} DrainDrops(
    rows: Rows, token: string, pending: seq<Webhook>, answers: nat -> Option<Response>, next: nat,
    broken: string -> bool)
    requires PendingAnswer(rows, token, pending)
    ensures PendingIds(DrainedRows(rows, Some(pending), answers, next, broken), token)
            == PendingIds(rows, token) - DrainedIds(Some(pending), answers, next, broken)
    ensures OthersSame(rows, DrainedRows(rows, Some(pending), answers, next, broken), token)
  {
    hide PendingIds, Ids, Marked, Recorded, PendingAnswer, AllPending, OthersSame;
    AnswerIsOfToken(rows, token, pending);
    OthersUntouched(rows, token, pending, answers, next, broken, GoodRun(answers, next, |pending|));
    AnswerIsAllPending(rows, token, pending);
    PendingDrops(rows, token, pending, answers, next, broken, GoodRun(answers, next, |pending|));
  }

  /** The first phase: whatever is pending, in order of receipt. */
  method DrainPending(table: Table, peer: Peer, token: string, pending: Option<seq<Webhook>>, broken: string -> bool)
    returns (delivered: set<string>)
    requires table.Valid()
    requires pending.Some? ==> PendingAnswer(table.rows, token, pending.value)
    modifies table, peer
    ensures table.Valid()
    ensures var next := |old(peer.sent)|;
            && peer.sent == old(peer.sent) + Requests(FirstSent(pending, peer.answers, next), false)
            && table.rows == DrainedRows(old(table.rows), pending, peer.answers, next, broken)
            && delivered == DrainedIds(pending, peer.answers, next, broken)
            && (pending.Some? ==> PendingIds(table.rows, token) == PendingIds(old(table.rows), token) - delivered)
    ensures OthersSame(old(table.rows), table.rows, token)
    ensures var list := if pending.Some? then pending.value else [];
            && RequestsCarry(old(peer.sent), peer.sent, list, false)
            && MarksShow(old(table.rows), table.rows, list, peer.answers, |old(peer.sent)|, broken,
                         GoodRun(peer.answers, |old(peer.sent)|, |list|))
  {
    delivered := {};
    if pending.Some? { AnswerIsAllPending(table.rows, token, pending.value); }
    hide GoodRun, Requests, Marked, Recorded, PendingAnswer, Ids, PendingIds, RequestsCarry, MarksShow;
    if pending.Some? {
      DrainDrops(table.rows, token, pending.value, peer.answers, |peer.sent|, broken);
      var reported := DeliverStored(table, peer, pending.value, false, broken);
      delivered := CollectIds(reported);
    } else {
      assert Requests([], false) == [];
    }
  }

  /** Then replays of the newest others; the second query sees the first phase's marks. */
  method DrainOnConnect(
    table: Table, peer: Peer, token: string, limit: Int64, pending: Option<seq<Webhook>>, newest: Option<seq<Webhook>>,
    broken: string -> bool)
    requires table.Valid()
    requires pending.Some? ==> PendingAnswer(table.rows, token, pending.value)
    requires newest.Some? ==> NewestFirst(DrainedRows(table.rows, pending, peer.answers, |peer.sent|, broken), token,
             newest.value)
    modifies table, peer
    ensures table.Valid()
    ensures var (next, drained) := (|old(peer.sent)|, DrainedIds(pending, peer.answers, |old(peer.sent)|, broken));
            var first := FirstSent(pending, peer.answers, next);
            peer.sent == old(peer.sent) + Requests(first, false)
                         + Requests(ThenSent(newest, limit, drained, peer.answers, next + |first|), true)
            && var rows := DrainedRows(old(table.rows), pending, peer.answers, next, broken);
               table.rows == ReplayedRows(rows, newest, limit, drained, peer.answers, next + |first|, broken)
    ensures var (next, drained) := (|old(peer.sent)|, DrainedIds(pending, peer.answers, |old(peer.sent)|, broken));
            var (list, later) := (ToReplay(newest, limit, drained), next + |FirstSent(pending, peer.answers, next)|);
            MarksShow(DrainedRows(old(table.rows), pending, peer.answers, next, broken), table.rows, list,
              peer.answers, later, broken, GoodRun(peer.answers, later, |list|))
    ensures OthersSame(old(table.rows), table.rows, token)
  {
    hide GoodRun, Marked, Recorded, PendingAnswer, NewestFirst, Ids, PendingIds, ReplaySelection.Selected, MarksShow,
      RequestsCarry, Requests;
    ghost var was, after := |peer.sent|, DrainedRows(table.rows, pending, peer.answers, |peer.sent|, broken);
    ReplayedShows(after, token, newest, limit, DrainedIds(pending, peer.answers, was, broken), peer.answers,
      was + |FirstSent(pending, peer.answers, was)|, broken);
    var delivered := DrainPending(table, peer, token, pending, broken);
    if limit > 0 && newest.Some? {
      var webhooks, n := ReplaySelection.LastWebhooksForTokenExcluding(table.rows, token, newest.value, limit,
          delivered);
      AnswerIsOfToken(table.rows, token, newest.value);
      ReplaySelection.SelectedIsFromList(newest.value, limit, delivered);
      OthersUntouched(table.rows, token, webhooks[..n], peer.answers, |peer.sent|, broken,
          GoodRun(peer.answers, |peer.sent|, n));
      var _ := DeliverStored(table, peer, webhooks[..n], true, broken);
    } else {
      NothingReplayed(table.rows, newest, limit, delivered, peer.answers, |peer.sent|, broken);
    }
  }

  // ---- drainLoop ----

  const PERIODIC_DRAIN_MIN_AGE := 60 * NANOS_PER_SECOND

  /** One tick: of what is pending, only what is old enough; a failed query does nothing. */
  method DrainTick(table: Table, peer: Peer, pending: Option<seq<Webhook>>, now: int, broken: string -> bool)
    requires table.Valid()
    modifies table, peer
    ensures table.Valid()
    ensures var (next, stale) := (|old(peer.sent)|, if pending.None? then []
            else OlderThan(pending.value, now - 60_000_000_000));
            var k := GoodRun(peer.answers, next, |stale|);
            && peer.sent == old(peer.sent) + Requests(stale[..SentCount(stale, k)], false)
            && table.rows == Marked(old(table.rows), stale, peer.answers, next, broken, k)
            && RequestsCarry(old(peer.sent), peer.sent, stale, false)
            && (pending.Some? && ReplaySelection.DistinctIds(pending.value) ==>
                  MarksShow(old(table.rows), table.rows, stale, peer.answers, next, broken, k))
  {
    hide Requests, Instant, MarksShow, ReplaySelection.DistinctIds;
    if pending.Some? { OlderIsDistinct(pending.value, now - PERIODIC_DRAIN_MIN_AGE); }
    if pending.Some? {
      var list := pending.value;
      var webhooks := new Webhook[|list|](i requires 0 <= i < |list| => list[i]);
      assert webhooks[..] == list;
      var n := PendingOlderThan(webhooks, now - PERIODIC_DRAIN_MIN_AGE);
      if n > 0 {
        var _ := DeliverStored(table, peer, webhooks[..n], false, broken);
        return;
      }
    }
    assert Requests([], false) == [] by { NoRequests(); }
    NoneShown(table.rows, [], peer.answers, |peer.sent|, broken);
  }
}
