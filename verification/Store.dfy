/** The webhooks table of internal/store/webhooks.go: rows by primary key, the partial
    unique index on (token, dedup key), and the statements the relay runs on it. Each
    method is one SQL statement, hence atomic. */
module Store {
  import opened Wrappers
  import opened Timestamps
  import opened Lexical
  import opened Message

  type Rows = map<string, Webhook>

  datatype SaveResult = Saved | Duplicate | Refused

  /** The index holds (token, key) pairs of rows that have a key. */
  predicate HoldsKey(rows: Rows, id: string, token: string, key: string) {
    id in rows && rows[id].token == token && rows[id].dedupKey == key && key != ""
  }

  predicate KeyTaken(rows: Rows, token: string, key: string) {
    exists id | id in rows :: HoldsKey(rows, id, token, key)
  }

  ghost predicate ValidRows(rows: Rows) {
    && (forall id | id in rows :: rows[id].id == id && id != "" && rows[id].token != "")
    && (forall i, j | i in rows && j in rows && i != j && rows[i].dedupKey != ""
        && rows[i].dedupKey == rows[j].dedupKey ::
          rows[i].token != rows[j].token)
  }

  /** INSERT: an empty id or token and a taken primary key are refused; a taken dedup
      key is reported as a duplicate. */
  function SaveOutcome(rows: Rows, w: Webhook): SaveResult {
    if w.id == "" || w.token == "" || w.id in rows then Refused
    else if KeyTaken(rows, w.token, w.dedupKey) then Duplicate
    else Saved
  }

  function AfterSave(rows: Rows, w: Webhook): Rows {
    if SaveOutcome(rows, w) == Saved then rows[w.id := w] else rows
  }

  /** UPDATE ... WHERE id = ?: no row, no effect. */
  function AfterMark(rows: Rows, id: string, status: int, body: string): Rows {
    if id in rows then rows[id := rows[id].(status := status, responseBody := body)] else rows
  }

  predicate Pending(w: Webhook) {
    w.status == 0
  }

  /** list is what SELECT ... WHERE token_id = ? AND status_code = 0 ORDER BY
      received_at ASC may return: ties come in any order. */
  ghost predicate PendingAnswer(rows: Rows, token: string, list: seq<Webhook>) {
    && (forall i | 0 <= i < |list| ::
        list[i].id in rows && rows[list[i].id] == list[i] && list[i].token == token && Pending(list[i]))
    && (forall i, j | 0 <= i < j < |list| :: list[i].id != list[j].id)
    && (forall id | id in rows && rows[id].token == token && Pending(rows[id]) :: rows[id] in list)
    && (forall i, j | 0 <= i < j < |list| :: !TextBefore(list[j], list[i]))
  }

  /** What ... WHERE token_id = ? ORDER BY received_at DESC may return without a limit. */
  ghost predicate NewestFirst(rows: Rows, token: string, list: seq<Webhook>) {
    && (forall i | 0 <= i < |list| :: list[i].id in rows && rows[list[i].id] == list[i] && list[i].token == token)
    && (forall i, j | 0 <= i < j < |list| :: list[i].id != list[j].id)
    && (forall id | id in rows && rows[id].token == token :: rows[id] in list)
    && (forall i, j | 0 <= i < j < |list| :: !TextBefore(list[i], list[j]))
  }

  /** received_at columns compared as text. */
  predicate TextBefore(a: Webhook, b: Webhook) {
    LexLess(FormatTime(a.receivedAt), FormatTime(b.receivedAt))
  }

  /** The order the database sorts by is the order of receipt. */
  lemma {:induction false} TextBeforeIsEarlier(a: Webhook, b: Webhook)
    ensures TextBefore(a, b) <==> Instant(a.receivedAt) < Instant(b.receivedAt)
  {
    TextOrderIsChronological(a.receivedAt, b.receivedAt);
  }

  /** Pending webhooks come oldest first, all of the token's and no others. */
  lemma {:induction false} PendingOldestFirst(rows: Rows, token: string, list: seq<Webhook>)
    requires PendingAnswer(rows, token, list) && ValidRows(rows)
    ensures forall i, j | 0 <= i < j < |list| :: Instant(list[i].receivedAt) <= Instant(list[j].receivedAt)
    ensures forall w :: w in list <==> w.id in rows && rows[w.id] == w && w.token == token && w.status == 0
  {
    hide Instant, TextBefore;
    forall i, j | 0 <= i < j < |list| ensures Instant(list[i].receivedAt) <= Instant(list[j].receivedAt) {
      TextBeforeIsEarlier(list[j], list[i]);
    }
  }

  /** The newest come first, all of the token's and no others. */
  lemma {:induction false} NewestComeFirst(rows: Rows, token: string, list: seq<Webhook>)
    requires NewestFirst(rows, token, list)
    ensures forall i, j | 0 <= i < j < |list| :: Instant(list[i].receivedAt) >= Instant(list[j].receivedAt)
    ensures forall w :: w in list <==> w.id in rows && rows[w.id] == w && w.token == token
  {
    hide Instant, TextBefore;
    forall i, j | 0 <= i < j < |list| ensures Instant(list[i].receivedAt) >= Instant(list[j].receivedAt) {
      TextBeforeIsEarlier(list[i], list[j]);
    }
  }

  class Table {
    var rows: Rows

    ghost predicate Valid()
      reads this
    {
      ValidRows(rows)
    }

    constructor ()
      ensures Valid() && rows == map[]
    {
      rows := map[];
    }

    method SaveWebhook(w: Webhook) returns (r: SaveResult)
      requires Valid()
      modifies this
      ensures Valid() && r == SaveOutcome(old(rows), w) && rows == AfterSave(old(rows), w)
      ensures r == Refused <==> w.id == "" || w.token == "" || w.id in old(rows)
      ensures r == Duplicate <==> w.id != "" && w.token != "" && w.id !in old(rows) && w.dedupKey != ""
                                  && exists id | id in old(rows) ::
                                    old(rows)[id].token == w.token && old(rows)[id].dedupKey == w.dedupKey
      ensures rows == if r == Saved then old(rows)[w.id := w] else old(rows)
    {
      r := SaveOutcome(rows, w);
      if r == Saved {
        forall id | id in rows && w.dedupKey != "" && rows[id].dedupKey == w.dedupKey
          ensures rows[id].token != w.token
        {
          assert !HoldsKey(rows, id, w.token, w.dedupKey);
        }
        rows := rows[w.id := w];
      }
    }

    method MarkDelivered(id: string, status: int, body: string)
      requires Valid()
      modifies this
      ensures Valid() && rows == AfterMark(old(rows), id, status, body)
      ensures rows.Keys == old(rows).Keys
      ensures id in rows ==> rows[id] == old(rows)[id].(status := status, responseBody := body)
      ensures forall other | other in rows && other != id :: rows[other] == old(rows)[other]
    {
      if id in rows {
        rows := rows[id := rows[id].(status := status, responseBody := body)];
      }
    }

    /** At most one row has the key, so "the earliest" is that row. The empty key is
        stored as NULL and found nowhere. */
    method WebhookByDedupKey(token: string, key: string) returns (r: Option<Webhook>)
      requires Valid()
      ensures r.None? <==> !KeyTaken(rows, token, key)
      ensures r.Some? ==> HoldsKey(rows, r.value.id, token, key) && rows[r.value.id] == r.value
      ensures r.Some? ==> key != "" && r.value.token == token && r.value.dedupKey == key
      ensures forall id | HoldsKey(rows, id, token, key) :: r == Some(rows[id])
    {
      if exists id | id in rows :: HoldsKey(rows, id, token, key) {
        var id :| id in rows && HoldsKey(rows, id, token, key);
        r := Some(rows[id]);
      } else {
        r := None;
      }
    }

    method GetWebhook(id: string) returns (r: Option<Webhook>)
      requires Valid()
      ensures r == if id in rows then Some(rows[id]) else None
      ensures r.Some? ==> r.value.id == id
    {
      r := if id in rows then Some(rows[id]) else None;
    }
  }
}
