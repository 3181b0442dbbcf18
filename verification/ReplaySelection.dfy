/** LastWebhooksForTokenExcluding (internal/store/webhooks.go): over-fetch, then filter
    the fetched slice in place and stop at the limit. */
module ReplaySelection {
  import opened Ints
  import opened Message
  import opened Sets
  import opened Store

  predicate DistinctIds(list: seq<Webhook>) {
    forall i, j | 0 <= i < j < |list| :: list[i].id != list[j].id
  }

  /** The rows whose id is not excluded, in order. */
  function Kept(list: seq<Webhook>, excluded: set<string>): (kept: seq<Webhook>)
    ensures |kept| <= |list|
  {
    if list == [] then []
    else
      var front := Kept(list[..|list| - 1], excluded);
      if list[|list| - 1].id in excluded then front else front + [list[|list| - 1]]
  }

  function Take(list: seq<Webhook>, n: int): (taken: seq<Webhook>)
    ensures |taken| <= |list| && (0 <= n ==> |taken| <= n)
  {
    if n <= 0 then [] else if n < |list| then list[..n] else list
  }

  /** SELECT ... ORDER BY received_at DESC LIMIT ?, given the order the database put the
      token's rows in; no query is made for a limit that is not positive. */
  method LastWebhooksForToken(newestFirst: seq<Webhook>, limit: int) returns (webhooks: array<Webhook>)
    ensures fresh(webhooks) && webhooks[..] == Take(newestFirst, limit)
  {
    var rows := Take(newestFirst, limit);
    webhooks := new Webhook[|rows|](i requires 0 <= i < |rows| => rows[i]);
    assert webhooks[..] == rows;
  }

  /** The break test compares with the limit only after an append, so a limit that is
      not positive never stops the loop. */
  function Stopped(kept: seq<Webhook>, limit: int): seq<Webhook> {
    if limit > 0 then Take(kept, limit) else kept
  }

  lemma {:induction false} OneMoreKept(all: seq<Webhook>, i: nat, excluded: set<string>)
    requires i < |all|
    ensures Kept(all[..i + 1], excluded) == Kept(all[..i], excluded) + (if all[i].id in excluded then [] else [all[i]])
  {
    assert all[..i + 1][..i] == all[..i];
  }

  lemma {:induction false} StoppedEarly(all: seq<Webhook>, n: nat, limit: int, excluded: set<string>)
    requires n <= |all| && |Kept(all[..n], excluded)| == limit > 0
    ensures Stopped(Kept(all, excluded), limit) == Kept(all[..n], excluded)
  {
    KeptExtends(all, n, excluded);
    hide Kept;
  }

  lemma {:induction false} NotStopped(kept: seq<Webhook>, limit: int)
    requires limit > 0 ==> |kept| < limit
    ensures Stopped(kept, limit) == kept
  {
  }

  /** kept := webhooks[:0]; the kept rows overwrite the slice they are read from. */
  method CompactExcluding(webhooks: array<Webhook>, limit: int, excluded: set<string>) returns (n: nat)
    modifies webhooks
    ensures n <= webhooks.Length
    ensures webhooks[..n] == Stopped(Kept(old(webhooks[..]), excluded), limit)
  {
    n := 0;
    ghost var all := webhooks[..];
    assert Kept(all[..0], excluded) == [];
    hide Kept, Stopped, Take;
    for read := 0 to webhooks.Length
      invariant n <= read
      invariant forall j | read <= j < webhooks.Length :: webhooks[j] == all[j]
      invariant webhooks[..n] == Kept(all[..read], excluded)
      invariant limit > 0 ==> n < limit
    {
      var webhook := webhooks[read];
      OneMoreKept(all, read, excluded);
      if webhook.id in excluded { continue; }
      ghost var before := webhooks[..n];
      webhooks[n] := webhook;
      n := n + 1;
      assert webhooks[..n] == before + [webhook];
      if n == limit {
        StoppedEarly(all, read + 1, limit, excluded);
        return;
      }
    }
    assert all[..webhooks.Length] == all;
    NotStopped(webhooks[..n], limit);
  }

  lemma {:induction false} KeptConcat(a: seq<Webhook>, b: seq<Webhook>, excluded: set<string>)
    ensures Kept(a + b, excluded) == Kept(a, excluded) + Kept(b, excluded)
    decreases |b|
  {
    if b == [] {
      assert a + b == a;
    } else {
      assert (a + b)[..|a + b| - 1] == a + b[..|b| - 1];
      KeptConcat(a, b[..|b| - 1], excluded);
    }
  }

  lemma {:induction false} KeptExtends(all: seq<Webhook>, n: int, excluded: set<string>)
    requires 0 <= n <= |all|
    ensures Kept(all[..n], excluded) <= Kept(all, excluded)
  {
    KeptConcat(all[..n], all[n..], excluded);
    assert all == all[..n] + all[n..];
  }

  function ExcludedIn(list: seq<Webhook>, excluded: set<string>): set<string> {
    set i | 0 <= i < |list| && list[i].id in excluded :: list[i].id
  }

  /** Pigeonhole: distinct rows lose at most one row per excluded id. */
  lemma {:induction false} FewAreExcluded(list: seq<Webhook>, excluded: set<string>)
    requires DistinctIds(list)
    ensures |list| == |Kept(list, excluded)| + |ExcludedIn(list, excluded)|
    ensures |ExcludedIn(list, excluded)| <= |excluded|
  {
    if list == [] {
      assert ExcludedIn(list, excluded) == {};
    } else {
      var (front, last) := (list[..|list| - 1], list[|list| - 1]);
      FewAreExcluded(front, excluded);
      if last.id in excluded {
        assert ExcludedIn(list, excluded) == ExcludedIn(front, excluded) + {last.id};
      } else {
        assert ExcludedIn(list, excluded) == ExcludedIn(front, excluded);
      }
    }
    assert ExcludedIn(list, excluded) <= excluded;
    SubsetSize(ExcludedIn(list, excluded), excluded);
  }

  /** What the code selects from the token's rows in the database's order: it fetches
      limit + len(excludedIDs) of them, a sum that can wrap. */
  function Selected(newestFirst: seq<Webhook>, limit: Int64, excluded: set<string>): seq<Webhook> {
    Stopped(Kept(Take(newestFirst, Wrap64(limit + |excluded|)), excluded), limit)
  }

  /** What is wanted: the newest `limit` rows that are not excluded. */
  function Wanted(newestFirst: seq<Webhook>, limit: int, excluded: set<string>): seq<Webhook> {
    Take(Kept(newestFirst, excluded), limit)
  }

  lemma {:induction false} KeptIsFromList(list: seq<Webhook>, excluded: set<string>)
    ensures forall w | w in Kept(list, excluded) :: w in list && w.id !in excluded
  {
    if list != [] { KeptIsFromList(list[..|list| - 1], excluded); }
  }

  lemma {:induction false} SelectedIsFromList(list: seq<Webhook>, limit: Int64, excluded: set<string>)
    ensures forall w | w in Selected(list, limit, excluded) :: w in list && w.id !in excluded
  {
    KeptIsFromList(Take(list, Wrap64(limit + |excluded|)), excluded);
  }

  lemma {:induction false} KeptIsDistinct(list: seq<Webhook>, excluded: set<string>)
    requires DistinctIds(list)
    ensures DistinctIds(Kept(list, excluded))
  {
    if list != [] {
      var front := list[..|list| - 1];
      KeptIsDistinct(front, excluded);
      KeptIsFromList(front, excluded);
      var kept := Kept(front, excluded);
      forall i | 0 <= i < |kept| ensures kept[i].id != list[|list| - 1].id {
        assert kept[i] in front;
      }
    }
  }

  lemma {:induction false} SelectedIsDistinct(list: seq<Webhook>, limit: Int64, excluded: set<string>)
    requires DistinctIds(list)
    ensures DistinctIds(Selected(list, limit, excluded))
  {
    KeptIsDistinct(Take(list, Wrap64(limit + |excluded|)), excluded);
    hide Kept, Wrap64;
  }

  /** The limit and the number of excluded ids can be added. */
  predicate SumFits(limit: Int64, excludedCount: nat) {
    limit + excludedCount <= MAX_INT64
  }

  lemma {:induction false} SelectionIsWanted(newestFirst: seq<Webhook>, limit: Int64, excluded: set<string>)
    requires DistinctIds(newestFirst) && SumFits(limit, |excluded|) && (limit > 0 || limit + |excluded| <= 0)
    ensures Selected(newestFirst, limit, excluded) == Wanted(newestFirst, limit, excluded)
  {
    var n := limit + |excluded|;
    assert Wrap64(n) == n;
    if limit > 0 && n < |newestFirst| {
      FewAreExcluded(newestFirst[..n], excluded);
      KeptExtends(newestFirst, n, excluded);
    }
  }

  /** When the sum wraps nothing is fetched, and nothing selected, whatever there is. */
  lemma {:induction false} WrappedSelectsNothing(newestFirst: seq<Webhook>, limit: Int64, excluded: set<string>)
    requires |excluded| <= MAX_INT64 && !SumFits(limit, |excluded|)
    ensures Selected(newestFirst, limit, excluded) == []
  {
    assert Wrap64(limit + |excluded|) == limit + |excluded| - 0x1_0000_0000_0000_0000;
  }

  /** As happens with the greatest limit a client can ask for, once one webhook has been
      delivered by the drain before. */
  lemma {:induction false} GreatestLimitSelectsNothing(row: Webhook, delivered: string)
    requires row.id != delivered
    ensures Selected([row], 9_223_372_036_854_775_807, {delivered}) == []
    ensures Wanted([row], 9_223_372_036_854_775_807, {delivered}) == [row]
  {
    WrappedSelectsNothing([row], MAX_INT64, {delivered});
    assert [row][..0] == [];
    assert Kept([row], {delivered}) == [row];
  }

  /** Whatever the rows and whatever the excluded ids, given only how many there are. */
  ghost predicate SelectionRight(limit: Int64, excludedCount: nat) {
    forall newestFirst, excluded | DistinctIds(newestFirst) && |excluded| == excludedCount ::
      Selected(newestFirst, limit, excluded) == Wanted(newestFirst, limit, excluded)
  }

  lemma {:induction false} SomeIds(n: nat) returns (ids: set<string>)
    ensures |ids| == n && forall id | id in ids :: |id| > 0 && |id| <= n
  {
    ids := {};
    var i := 0;
    while i < n
      invariant |ids| == i <= n && forall id | id in ids :: 0 < |id| <= i
    {
      i := i + 1;
      ids := ids + {seq(i, _ => 'x')};
    }
  }

  /** The over-fetching selection is right for every list exactly when the limit is
      positive and the sum fits, or so negative that nothing is fetched: with limit 0 and
      ids to exclude the loop is never stopped, and when the sum wraps nothing is fetched. */
  lemma {:induction false} SelectionLimit(limit: Int64, excludedCount: nat)
    requires excludedCount <= MAX_INT64
    ensures SelectionRight(limit, excludedCount)
            <==> (limit > 0 && SumFits(limit, excludedCount)) || limit + excludedCount <= 0
  {
    if (limit > 0 && SumFits(limit, excludedCount)) || limit + excludedCount <= 0 {
      forall newestFirst, excluded | DistinctIds(newestFirst) && |excluded| == excludedCount
        ensures Selected(newestFirst, limit, excluded) == Wanted(newestFirst, limit, excluded)
      {
        SelectionIsWanted(newestFirst, limit, excluded);
      }
    } else {
      var ids := SomeIds(excludedCount);
      var row := Webhook("", "t", "POST", "/", map[], "", "", Timestamps.Civil(2024, 1, 1, 0, 0, 0, 0), 0, "");
      assert [row][..0] == [];
      assert Kept([row], ids) == [row];
      if !SumFits(limit, excludedCount) {
        WrappedSelectsNothing([row], limit, ids);
      } else {
        assert Wrap64(limit + excludedCount) == limit + excludedCount;
      }
      assert Selected([row], limit, ids) != Wanted([row], limit, ids);
    }
  }

  // ---- what is wanted, by instants ----

  ghost predicate Descending(list: seq<Webhook>) {
    forall i, j | 0 <= i < j < |list| ::
      Timestamps.Instant(list[i].receivedAt) >= Timestamps.Instant(list[j].receivedAt)
  }

  function IdsOf(list: seq<Webhook>): set<string> {
    set i | 0 <= i < |list| :: list[i].id
  }

  lemma {:induction false} OneIdEach(list: seq<Webhook>)
    requires DistinctIds(list)
    ensures |IdsOf(list)| == |list|
  {
    if list == [] {
      assert IdsOf(list) == {};
    } else {
      var front := list[..|list| - 1];
      OneIdEach(front);
      assert IdsOf(list) == IdsOf(front) + {list[|list| - 1].id};
    }
  }

  lemma {:induction false} KeptHasRest(list: seq<Webhook>, excluded: set<string>)
    ensures forall w | w in list && w.id !in excluded :: w in Kept(list, excluded)
  {
    if list != [] {
      KeptHasRest(list[..|list| - 1], excluded);
      assert list == list[..|list| - 1] + [list[|list| - 1]];
    }
  }

  lemma {:induction false} KeptDescends(list: seq<Webhook>, excluded: set<string>)
    requires Descending(list)
    ensures Descending(Kept(list, excluded))
  {
    hide Timestamps.Instant;
    if list != [] {
      var (front, last) := (list[..|list| - 1], list[|list| - 1]);
      KeptDescends(front, excluded);
      KeptIsFromList(front, excluded);
      var kept := Kept(front, excluded);
      forall i | 0 <= i < |kept|
        ensures Timestamps.Instant(kept[i].receivedAt) >= Timestamps.Instant(last.receivedAt)
      {
        assert kept[i] in front;
      }
    }
  }

  /** The ids of the token's rows that are not excluded. */
  function Eligible(rows: Rows, token: string, excluded: set<string>): set<string> {
    set id | id in rows && rows[id].token == token && id !in excluded
  }

  lemma {:induction false} KeptIsEligible(
      rows: Rows, token: string, newestFirst: seq<Webhook>, excluded: set<string>)
    requires NewestFirst(rows, token, newestFirst) && ValidRows(rows)
    ensures var kept := Kept(newestFirst, excluded);
            && DistinctIds(kept) && Descending(kept) && |kept| == |Eligible(rows, token, excluded)|
            && (forall w | w in kept :: w.id in Eligible(rows, token, excluded) && rows[w.id] == w)
            && (forall id | id in Eligible(rows, token, excluded) :: rows[id] in kept)
  {
    var kept := Kept(newestFirst, excluded);
    hide Kept, Timestamps.Instant;
    NewestComeFirst(rows, token, newestFirst);
    AnswersAreDistinct(rows, token, newestFirst);
    assert forall id | id in rows :: rows[id].id == id;
    hide NewestFirst, ValidRows;
    KeptIsDistinct(newestFirst, excluded);
    KeptDescends(newestFirst, excluded);
    hide Descending, DistinctIds;
    KeptIsFromList(newestFirst, excluded);
    KeptHasRest(newestFirst, excluded);
    forall id | id in Eligible(rows, token, excluded) ensures rows[id] in kept {
      assert rows[id] in newestFirst;
    }
    OneIdEach(kept);
    EveryIdKept(rows, kept, Eligible(rows, token, excluded));
  }

  lemma {:induction false} EveryIdKept(rows: Rows, kept: seq<Webhook>, ids: set<string>)
    requires forall w | w in kept :: w.id in ids
    requires forall id | id in ids :: id in rows && rows[id] in kept && rows[id].id == id
    ensures IdsOf(kept) == ids
  {
    forall id | id in ids ensures id in IdsOf(kept) {
      var i :| 0 <= i < |kept| && kept[i] == rows[id];
    }
    forall id | id in IdsOf(kept) ensures id in ids {
      var i :| 0 <= i < |kept| && kept[i].id == id;
      assert kept[i] in kept;
    }
  }

  /** What is wanted are that many of the token's rows that are not excluded, or all when
      there are fewer, newest first, and none of the others was received later. */
  lemma {:induction false} WantedAreNewest(
      rows: Rows, token: string, newestFirst: seq<Webhook>, limit: nat, excluded: set<string>)
    requires NewestFirst(rows, token, newestFirst) && ValidRows(rows)
    ensures var (wanted, eligible) := (Wanted(newestFirst, limit, excluded), Eligible(rows, token, excluded));
            && |wanted| == (if limit < |eligible| then limit else |eligible|)
            && DistinctIds(wanted) && Descending(wanted)
            && (forall w | w in wanted :: w.id in eligible && rows[w.id] == w)
            && (forall w, id | w in wanted && id in eligible && rows[id] !in wanted ::
                  Timestamps.Instant(w.receivedAt) >= Timestamps.Instant(rows[id].receivedAt))
  {
    hide NewestFirst, Timestamps.Instant, Kept;
    KeptIsEligible(rows, token, newestFirst, excluded);
    var (kept, wanted) := (Kept(newestFirst, excluded), Wanted(newestFirst, limit, excluded));
    assert wanted == kept[..|wanted|];
    forall w, id | w in wanted && id in Eligible(rows, token, excluded) && rows[id] !in wanted
      ensures Timestamps.Instant(w.receivedAt) >= Timestamps.Instant(rows[id].receivedAt)
    {
      var i :| 0 <= i < |wanted| && wanted[i] == w;
      var j :| 0 <= j < |kept| && kept[j] == rows[id];
      assert j >= |wanted|;
    }
  }

  lemma {:induction false} AnswersAreDistinct(rows: Rows, token: string, newestFirst: seq<Webhook>)
    requires NewestFirst(rows, token, newestFirst)
    ensures DistinctIds(newestFirst)
  {
    hide TextBefore;
  }

  /** The method as called, on a table. */
  method LastWebhooksForTokenExcluding(
      ghost rows: Rows, token: string, newestFirst: seq<Webhook>, limit: Int64, excluded: set<string>)
    returns (webhooks: array<Webhook>, n: nat)
    requires NewestFirst(rows, token, newestFirst)
    ensures fresh(webhooks) && n <= webhooks.Length
    ensures webhooks[..n] == Selected(newestFirst, limit, excluded)
    ensures limit > 0 && SumFits(limit, |excluded|) ==> webhooks[..n] == Wanted(newestFirst, limit, excluded)
    ensures |excluded| <= MAX_INT64 && !SumFits(limit, |excluded|) ==> n == 0
  {
    hide NewestFirst, Wanted, Kept, Stopped, Wrap64;
    webhooks := LastWebhooksForToken(newestFirst, Wrap64(limit + |excluded|));
    n := CompactExcluding(webhooks, limit, excluded);
    if limit > 0 && SumFits(limit, |excluded|) {
      AnswersAreDistinct(rows, token, newestFirst);
      SelectionIsWanted(newestFirst, limit, excluded);
    } else if |excluded| <= MAX_INT64 && !SumFits(limit, |excluded|) {
      WrappedSelectsNothing(newestFirst, limit, excluded);
    }
  }
}
