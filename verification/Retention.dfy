/** The two retention deletes of internal/store/webhooks.go and their composition in
    cmd/holloway-server/main.go. */
module Retention {
  import opened Wrappers
  import opened Timestamps
  import opened Lexical
  import opened Message
  import opened Sets
  import opened Store

  // ---- by age ----

  /** DELETE ... WHERE received_at < ?, on the stored texts. */
  function AfterAgeSweep(rows: Rows, cutoff: UtcTime): Rows {
    map id | id in rows && !LexLess(FormatTime(rows[id].receivedAt), FormatTime(cutoff)) :: rows[id]
  }

  /** What goes is exactly what was received before the cutoff. */
  lemma {:induction false} AgeSweepIsChronological(rows: Rows, cutoff: UtcTime, id: string)
    requires id in rows
    ensures id in AfterAgeSweep(rows, cutoff) <==> Instant(rows[id].receivedAt) >= Instant(cutoff)
  {
    TextOrderIsChronological(rows[id].receivedAt, cutoff);
  }

  // ---- by count ----

  /** ORDER BY received_at DESC, id DESC puts a above b. */
  predicate Above(a: Webhook, b: Webhook) {
    TextBefore(b, a) || (FormatTime(a.receivedAt) == FormatTime(b.receivedAt) && LexLess(b.id, a.id))
  }

  /** ROW_NUMBER() OVER (PARTITION BY token_id ORDER BY received_at DESC, id DESC) */
  function RowNumber(rows: Rows, id: string): nat
    requires id in rows
  {
    1 + |set j | j in rows && rows[j].token == rows[id].token && Above(rows[j], rows[id])|
  }

  function AfterCountSweep(rows: Rows, max: int): Rows {
    if max <= 0 then rows else map id | id in rows && RowNumber(rows, id) <= max :: rows[id]
  }

  /** Newer, or received at the same instant with the greater id. */
  predicate Newer(a: Webhook, b: Webhook) {
    Instant(a.receivedAt) > Instant(b.receivedAt)
        || (Instant(a.receivedAt) == Instant(b.receivedAt) && LexLess(b.id, a.id))
  }

  lemma {:induction false} AboveIsNewer(a: Webhook, b: Webhook)
    ensures Above(a, b) <==> Newer(a, b)
  {
    TextBeforeIsEarlier(b, a);
    if FormatTime(a.receivedAt) == FormatTime(b.receivedAt) {
      ParseInvertsFormat(a.receivedAt);
      ParseInvertsFormat(b.receivedAt);
    }
    if Instant(a.receivedAt) == Instant(b.receivedAt) { InstantInjective(a.receivedAt, b.receivedAt); }
    hide Instant, FormatTime, TextBefore;
  }

  lemma {:induction false} NewerIsStrictOrder(a: Webhook, b: Webhook, c: Webhook)
    ensures !Newer(a, a)
    ensures Newer(a, b) && Newer(b, c) ==> Newer(a, c)
    ensures a.id != b.id ==> Newer(a, b) || Newer(b, a)
    ensures !(Newer(a, b) && Newer(b, a))
  {
    hide Instant;
    LexIrreflexive(a.id);
    LexTotal(a.id, b.id);
    if LexLess(b.id, a.id) { LexAsymmetric(b.id, a.id); }
    if LexLess(b.id, a.id) && LexLess(c.id, b.id) { LexTransitive(c.id, b.id, a.id); }
  }

  function TokenIds(rows: Rows, token: string): set<string> {
    set id | id in rows && rows[id].token == token
  }

  /** The place of an id within a set of ids, newest first, from 1. */
  function Place(rows: Rows, ids: set<string>, id: string): nat
    requires ids <= rows.Keys && id in rows
  {
    1 + |set j | j in ids && Newer(rows[j], rows[id])|
  }

  lemma {:induction false} RowNumberIsPlace(rows: Rows, id: string)
    requires id in rows
    ensures RowNumber(rows, id) == Place(rows, TokenIds(rows, rows[id].token), id)
  {
    hide Above, Newer;
    var a := set j | j in rows && rows[j].token == rows[id].token && Above(rows[j], rows[id]);
    var b := set j | j in TokenIds(rows, rows[id].token) && Newer(rows[j], rows[id]);
    forall j | j in rows ensures Above(rows[j], rows[id]) <==> Newer(rows[j], rows[id]) {
      AboveIsNewer(rows[j], rows[id]);
    }
    assert a == b;
  }

  ghost predicate RowIds(rows: Rows) {
    forall id | id in rows :: rows[id].id == id
  }

  /** Some id of a set is below all the others. */
  lemma {:induction false} Oldest(rows: Rows, ids: set<string>) returns (m: string)
    requires RowIds(rows) && ids <= rows.Keys && ids != {}
    ensures m in ids && forall j | j in ids && j != m :: Newer(rows[j], rows[m])
    decreases |ids|
  {
    hide Newer;
    m :| m in ids;
    if ids != {m} {
      var rest := ids - {m};
      assert ids == rest + {m};
      var n := Oldest(rows, rest);
      NewerIsStrictOrder(rows[m], rows[n], rows[n]);
      if Newer(rows[n], rows[m]) {
        forall j | j in ids && j != m ensures Newer(rows[j], rows[m]) {
          if j != n { NewerIsStrictOrder(rows[j], rows[n], rows[m]); }
        }
      } else {
        m := n;
      }
    }
  }

  lemma {:induction false} PlaceOfOldest(rows: Rows, ids: set<string>, m: string)
    requires ids <= rows.Keys && m in ids && forall j | j in ids && j != m :: Newer(rows[j], rows[m])
    ensures Place(rows, ids, m) == |ids|
  {
    hide Newer;
    NewerIsStrictOrder(rows[m], rows[m], rows[m]);
    assert (set j | j in ids && Newer(rows[j], rows[m])) == ids - {m};
  }

  lemma {:induction false} PlaceWithoutOldest(rows: Rows, ids: set<string>, m: string, id: string)
    requires ids <= rows.Keys && m in ids && forall j | j in ids && j != m :: Newer(rows[j], rows[m])
    requires id in ids && id != m
    ensures Place(rows, ids, id) == Place(rows, ids - {m}, id) < |ids|
  {
    hide Newer;
    NewerIsStrictOrder(rows[id], rows[m], rows[m]);
    var above := set j | j in ids && Newer(rows[j], rows[id]);
    assert above == set j | j in ids - {m} && Newer(rows[j], rows[id]);
    NewerIsStrictOrder(rows[id], rows[id], rows[id]);
    assert above <= ids - {m} - {id};
    assert ids == (ids - {m} - {id}) + {m} + {id};
    SubsetSize(above, ids - {m} - {id});
  }

  function FirstPlaced(rows: Rows, ids: set<string>, k: nat): set<string>
    requires ids <= rows.Keys
  {
    set id | id in ids && Place(rows, ids, id) <= k
  }

  /** The first k places of a set are taken by min(k, size) ids. */
  lemma {:induction false} FirstPlaces(rows: Rows, ids: set<string>, k: nat)
    requires RowIds(rows) && ids <= rows.Keys
    ensures |FirstPlaced(rows, ids, k)| == if k < |ids| then k else |ids|
    decreases |ids|
  {
    if ids == {} {
      assert FirstPlaced(rows, ids, k) == {};
    } else {
      var m := Oldest(rows, ids);
      var rest := ids - {m};
      FirstPlaces(rows, rest, k);
      PlaceOfOldest(rows, ids, m);
      forall id | id in rest ensures Place(rows, ids, id) == Place(rows, rest, id) < |ids| {
        PlaceWithoutOldest(rows, ids, m, id);
      }
      PlacesAndOldest(rows, ids, m, k);
      hide Place, Newer, FirstPlaced;
      if |ids| <= k { assert m !in FirstPlaced(rows, rest, k) by { NotPlaced(rows, rest, m, k); } }
    }
  }

  lemma {:induction false} NotPlaced(rows: Rows, ids: set<string>, m: string, k: nat)
    requires ids <= rows.Keys && m !in ids
    ensures m !in FirstPlaced(rows, ids, k)
  {
    hide Place;
  }

  /** The oldest id is placed when there is room for all. */
  lemma {:induction false} PlacesAndOldest(rows: Rows, ids: set<string>, m: string, k: nat)
    requires ids <= rows.Keys && m in ids && Place(rows, ids, m) == |ids|
    requires forall id | id in ids - {m} :: Place(rows, ids, id) == Place(rows, ids - {m}, id) < |ids|
    ensures FirstPlaced(rows, ids, k) == FirstPlaced(rows, ids - {m}, k) + (if |ids| <= k then {m} else {})
  {
    hide Place;
    forall id | id in ids && id != m ensures id in FirstPlaced(rows, ids, k) <==>
        id in FirstPlaced(rows, ids - {m}, k) {
      assert id in ids - {m};
    }
  }

  /** A newer row has a smaller place. */
  lemma {:induction false} PlaceOrder(rows: Rows, ids: set<string>, a: string, b: string)
    requires RowIds(rows) && ids <= rows.Keys && a in ids && b in ids && a != b
    ensures Place(rows, ids, a) < Place(rows, ids, b) <==> Newer(rows[a], rows[b])
  {
    if Newer(rows[a], rows[b]) {
      PlaceStrict(rows, ids, a, b);
    } else {
      NewerIsStrictOrder(rows[a], rows[b], rows[b]);
      PlaceStrict(rows, ids, b, a);
    }
  }

  lemma {:induction false} PlaceStrict(rows: Rows, ids: set<string>, a: string, b: string)
    requires RowIds(rows) && ids <= rows.Keys && a in ids && b in ids && Newer(rows[a], rows[b])
    ensures Place(rows, ids, a) < Place(rows, ids, b)
  {
    hide Newer;
    var s, t := set j | j in ids && Newer(rows[j], rows[a]), set j | j in ids && Newer(rows[j], rows[b]);
    forall j | j in s ensures j in t { NewerIsStrictOrder(rows[j], rows[a], rows[b]); }
    NewerIsStrictOrder(rows[a], rows[a], rows[a]);
    assert a in t && a !in s;
    ProperSubsetSize(s, t);
  }

  /** After the count sweep every token keeps its newest max rows, and all of them when
      it has fewer. */
  lemma {:induction false} CountSweepKeepsNewest(rows: Rows, max: int, token: string)
    requires RowIds(rows) && max > 0
    ensures var (before, kept) := (TokenIds(rows, token), TokenIds(AfterCountSweep(rows, max), token));
            && kept <= before && |kept| == (if max < |before| then max else |before|)
            && (forall a, b | a in kept && b in before - kept :: Newer(rows[a], rows[b]))
  {
    var ids := TokenIds(rows, token);
    var kept := TokenIds(AfterCountSweep(rows, max), token);
    forall id | id in ids ensures id in kept <==> Place(rows, ids, id) <= max { RowNumberIsPlace(rows, id); }
    assert kept <= ids;
    hide RowNumber;
    FirstPlaces(rows, ids, max);
    assert kept == FirstPlaced(rows, ids, max);
    forall a, b | a in kept && b in ids - kept ensures Newer(rows[a], rows[b]) {
      PlaceOrder(rows, ids, a, b);
    }
  }

  /** How many rows each of these tokens has beyond max, in all. */
  ghost function Excess(rows: Rows, max: nat, tokens: set<string>): nat
    decreases |tokens|
  {
    if tokens == {} then 0 else
      var t :| t in tokens;
      var n := |TokenIds(rows, t)|;
      (if n > max then n - max else 0) + Excess(rows, max, tokens - {t})
  }

  function OfTokens(rows: Rows, tokens: set<string>): set<string> {
    set id | id in rows && rows[id].token in tokens
  }

  lemma {:induction false} SweptOfTokens(rows: Rows, max: nat, tokens: set<string>)
    requires RowIds(rows) && max > 0
    ensures |OfTokens(rows, tokens)| - |OfTokens(AfterCountSweep(rows, max), tokens)| == Excess(rows, max, tokens)
    decreases |tokens|
  {
    var after := AfterCountSweep(rows, max);
    if tokens == {} {
      assert OfTokens(rows, tokens) == {} && OfTokens(after, tokens) == {};
    } else {
      var t :| t in tokens && Excess(rows, max, tokens)
                   == (if |TokenIds(rows, t)| > max then |TokenIds(rows, t)| - max else 0)
                       + Excess(rows, max, tokens - {t});
      SweptOfTokens(rows, max, tokens - {t});
      CountSweepKeepsNewest(rows, max, t);
      hide AfterCountSweep, Newer;
      SplitToken(rows, tokens, t);
      SplitToken(after, tokens, t);
    }
  }

  lemma {:induction false} SplitToken(rows: Rows, tokens: set<string>, t: string)
    requires t in tokens
    ensures |OfTokens(rows, tokens)| == |TokenIds(rows, t)| + |OfTokens(rows, tokens - {t})|
  {
    assert OfTokens(rows, tokens) == TokenIds(rows, t) + OfTokens(rows, tokens - {t});
    assert TokenIds(rows, t) !! OfTokens(rows, tokens - {t});
  }

  function Tokens(rows: Rows): set<string> {
    set id | id in rows :: rows[id].token
  }

  /** The number of rows deleted is the sum over tokens of what each has beyond max. */
  lemma {:induction false} CountSweepConserves(rows: Rows, max: nat)
    requires RowIds(rows) && max > 0
    ensures |rows| - |AfterCountSweep(rows, max)| == Excess(rows, max, Tokens(rows))
  {
    SweptOfTokens(rows, max, Tokens(rows));
    var after := AfterCountSweep(rows, max);
    hide RowNumber;
    assert OfTokens(rows, Tokens(rows)) == rows.Keys && OfTokens(after, Tokens(rows)) == after.Keys;
    assert |rows| == |rows.Keys| && |after| == |after.Keys|;
  }

  // ---- the sweep ----

  /** The rows received before the cutoff. */
  function OlderIds(rows: Rows, cutoff: UtcTime): set<string> {
    set id | id in rows && Instant(rows[id].receivedAt) < Instant(cutoff)
  }

  lemma {:induction false} RowsLess(rows: Rows, ids: set<string>)
    requires ids <= rows.Keys
    ensures |rows - ids| == |rows| - |ids|
  {
    assert (rows - ids).Keys == rows.Keys - ids;
    assert rows.Keys == (rows.Keys - ids) + ids;
    assert |rows| == |rows.Keys| && |rows - ids| == |(rows - ids).Keys|;
  }

  /** Comparing texts leaves the rows received at the cutoff or later. */
  lemma {:induction false} AgeSweepKeepsRest(rows: Rows, cutoff: UtcTime)
    ensures AfterAgeSweep(rows, cutoff) == rows - OlderIds(rows, cutoff)
    ensures |AfterAgeSweep(rows, cutoff)| == |rows| - |OlderIds(rows, cutoff)|
  {
    hide Instant, LexLess, FormatTime;
    YoungRows(rows, cutoff);
    assert OlderIds(rows, cutoff) <= rows.Keys;
    assert AfterAgeSweep(rows, cutoff) == rows - OlderIds(rows, cutoff);
    hide AfterAgeSweep, OlderIds;
    RowsLess(rows, OlderIds(rows, cutoff));
  }

  lemma {:induction false} SubtableValid(rows: Rows, ids: set<string>)
    requires ValidRows(rows)
    ensures ValidRows(rows - ids)
  {
  }

  /** DELETE ... WHERE received_at < ? on the stored texts, returning the rows affected:
      what goes, and is counted, is exactly what was received before the cutoff. */
  method DeleteWebhooksOlderThan(table: Table, cutoff: UtcTime) returns (removed: nat)
    requires table.Valid()
    modifies table
    ensures table.Valid()
    ensures table.rows == old(table.rows) - OlderIds(old(table.rows), cutoff)
    ensures removed == |OlderIds(old(table.rows), cutoff)|
  {
    hide Instant, LexLess, FormatTime, AfterAgeSweep, OlderIds, ValidRows;
    AgeSweepKeepsRest(table.rows, cutoff);
    SubtableValid(table.rows, OlderIds(table.rows, cutoff));
    var before := table.rows;
    table.rows := AfterAgeSweep(before, cutoff);
    removed := |before| - |table.rows|;
  }

  lemma {:induction false} SubmapSize(small: Rows, big: Rows)
    requires small.Keys <= big.Keys
    ensures |small| <= |big|
  {
    assert big.Keys == small.Keys + (big.Keys - small.Keys);
    assert |small| == |small.Keys| && |big| == |big.Keys|;
  }

  method DeleteWebhooksOverCountPerToken(table: Table, max: int) returns (removed: nat)
    requires table.Valid()
    modifies table
    ensures table.Valid() && table.rows == AfterCountSweep(old(table.rows), max)
    ensures removed == if max > 0 then Excess(old(table.rows), max, Tokens(old(table.rows))) else 0
  {
    if max <= 0 { return 0; }
    var before := table.rows;
    table.rows := AfterCountSweep(before, max);
    SubmapSize(table.rows, before);
    removed := |before| - |table.rows|;
    CountSweepConserves(before, max);
  }

  /** sweepRetention: age first when a maximum age is set, then count when a maximum
      number of rows is. A statement that fails is logged and the sweep goes on. */
  method SweepRetention(table: Table, cutoff: Option<UtcTime>, maxRows: int, ageFails: bool, countFails: bool)
    requires table.Valid()
    modifies table
    ensures table.Valid()
    ensures table.rows ==
              AfterSweep(old(table.rows), if ageFails then None else cutoff, if countFails then 0 else maxRows)
    ensures forall id :: id in table.rows <==>
              id in old(table.rows)
              && Survives(old(table.rows), if ageFails then None else cutoff, if countFails then 0 else maxRows, id)
  {
    SweepLeaves(table.rows, if ageFails then None else cutoff, if countFails then 0 else maxRows);
    hide Instant, LexLess, FormatTime, AfterAgeSweep, OlderIds, ValidRows, RowNumber, Survives;
    if cutoff.Some? && !ageFails {
      AgeSweepKeepsRest(table.rows, cutoff.value);
      var _ := DeleteWebhooksOlderThan(table, cutoff.value);
    }
    if maxRows > 0 && !countFails {
      var _ := DeleteWebhooksOverCountPerToken(table, maxRows);
    }
  }

  function AfterSweep(rows: Rows, cutoff: Option<UtcTime>, maxRows: int): Rows {
    AfterCountSweep(if cutoff.Some? then AfterAgeSweep(rows, cutoff.value) else rows, maxRows)
  }

  /** Not received before the cutoff, if there is one. */
  predicate Young(w: Webhook, cutoff: Option<UtcTime>) {
    cutoff.Some? ==> Instant(w.receivedAt) >= Instant(cutoff.value)
  }

  /** The rows of id's token that are not too old and newer than it. */
  function AheadOf(rows: Rows, cutoff: Option<UtcTime>, id: string): set<string>
    requires id in rows
  {
    set j | j in rows && rows[j].token == rows[id].token && Young(rows[j], cutoff) && Newer(rows[j], rows[id])
  }

  /** A row is to be left when it is not too old and, if rows are limited, fewer than that
      many such rows of its token are newer. */
  predicate Survives(rows: Rows, cutoff: Option<UtcTime>, maxRows: int, id: string)
    requires id in rows
  {
    Young(rows[id], cutoff) && (maxRows > 0 ==> |AheadOf(rows, cutoff, id)| < maxRows)
  }

  /** After both deletes, either of which may be switched off, exactly those rows are left,
      unchanged. */
  lemma {:induction false} SweepSurvivors(rows: Rows, cutoff: Option<UtcTime>, maxRows: int, id: string)
    requires RowIds(rows)
    ensures var left := AfterSweep(rows, cutoff, maxRows);
            (id in left <==> id in rows && Survives(rows, cutoff, maxRows, id)) && (id in left ==> left[id] == rows[id])
  {
    hide Instant, Newer, LexLess, FormatTime, AfterAgeSweep, RowNumber;
    var young := if cutoff.Some? then AfterAgeSweep(rows, cutoff.value) else rows;
    if cutoff.Some? { YoungRows(rows, cutoff.value); }
    if id in young {
      RowNumberIsPlace(young, id);
      assert AheadOf(rows, cutoff, id) == set j | j in TokenIds(young, young[id].token) && Newer(young[j], young[id]);
    }
  }

  lemma {:induction false} SweepLeaves(rows: Rows, cutoff: Option<UtcTime>, maxRows: int)
    requires ValidRows(rows)
    ensures forall id :: id in AfterSweep(rows, cutoff, maxRows)
              <==> id in rows && Survives(rows, cutoff, maxRows, id)
  {
    hide AfterSweep, Survives;
    forall id ensures id in AfterSweep(rows, cutoff, maxRows) <==> id in rows && Survives(rows, cutoff, maxRows, id) {
      SweepSurvivors(rows, cutoff, maxRows, id);
    }
  }

  lemma {:induction false} YoungRows(rows: Rows, cutoff: UtcTime)
    ensures var young := AfterAgeSweep(rows, cutoff);
            && (forall id | id in rows :: id in young <==> Instant(rows[id].receivedAt) >= Instant(cutoff))
            && (forall id | id in young :: id in rows && young[id] == rows[id])
  {
    hide Instant, LexLess, FormatTime;
    forall id | id in rows
      ensures id in AfterAgeSweep(rows, cutoff) <==> Instant(rows[id].receivedAt) >= Instant(cutoff)
    {
      AgeSweepIsChronological(rows, cutoff, id);
    }
  }
}
