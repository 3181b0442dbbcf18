/** Dedup counts distinct deliveries: over every run of the relay, exactly when no two
    deliveries of one token share a key. */
module DedupTheorems {
  import opened Timestamps
  import opened Message
  import opened Store
  import opened Dedup
  import opened Relay
  import opened RelayProofs
  import opened RelayTheorems

  /** No two of these deliveries for the same token have the same key. */
  ghost predicate Separate(c: Config, deliveries: iset<Delivery>) {
    forall d, e | d in deliveries && e in deliveries && d.token == e.token && KeyOf(c, d) == KeyOf(c, e) :: d == e
  }

  /** Rows and received deliveries, one to one. */
  ghost predicate OneRowEach(rows: Rows, received: set<Delivery>) {
    && (forall id | id in rows :: DeliveryOf(rows[id]) in received)
    && (forall d | d in received :: exists id :: id in rows && DeliveryOf(rows[id]) == d)
    && (forall i, j | i in rows && j in rows && DeliveryOf(rows[i]) == DeliveryOf(rows[j]) :: i == j)
  }

  ghost predicate ReceivedOnly(sh: Shared, deliveries: iset<Delivery>) {
    forall d | d in sh.received :: d in deliveries
  }

  function PreimageOf(d: Delivery): string {
    Preimage(d.httpMethod, d.path, d.body)
  }

  /** The hash has no collision among these deliveries of any one token. */
  ghost predicate NoCollision(c: Config, deliveries: iset<Delivery>) {
    forall d, e | d in deliveries && e in deliveries && d.token == e.token
        && c.hash(PreimageOf(d)) == c.hash(PreimageOf(e)) ::
      PreimageOf(d) == PreimageOf(e)
  }

  /** When no method and no path has a NUL, deliveries are kept apart exactly when the
      hash does not collide on them. */
  lemma {:induction false} NulFreeIsSeparate(c: Config, deliveries: iset<Delivery>)
    requires c.dedup && forall d | d in deliveries :: NulFree(d.httpMethod) && NulFree(d.path)
    ensures Separate(c, deliveries) <==> NoCollision(c, deliveries)
  {
    forall d, e | d in deliveries && e in deliveries ensures PreimageOf(d) == PreimageOf(e) && d.token == e.token <==>
        d == e {
      PreimageInjective(d.httpMethod, d.path, d.body, e.httpMethod, e.path, e.body);
    }
    assert forall d :: KeyOf(c, d) == c.hash(PreimageOf(d));
  }

  lemma {:induction false} RowKeys(c: Config, sh: Shared, id: string)
    requires SharedInv(c, sh) && id in sh.rows
    ensures sh.rows[id].dedupKey == KeyOf(c, DeliveryOf(sh.rows[id])) && DeliveryOf(sh.rows[id]) in sh.received
  {
    assert RowsInv(sh.rows, sh.inserted, sh.removed) && ReceivedInv(c, sh.rows, sh.inserted, sh.removed, sh.received);
    hide SharedInv, KeyOf;
    assert id in sh.rows.Keys && id in sh.inserted && SameRequest(sh.rows[id], sh.inserted[id]);
    assert DeliveryOf(sh.rows[id]) == DeliveryOf(sh.inserted[id]);
  }

  lemma {:induction false} ReceivedHasRow(c: Config, sh: Shared, deliveries: iset<Delivery>, d: Delivery)
    requires SharedInv(c, sh) && c.dedup && sh.removed == {} && Separate(c, deliveries) && ReceivedOnly(sh, deliveries)
    requires d in sh.received
    ensures exists id :: id in sh.rows && DeliveryOf(sh.rows[id]) == d
  {
    assert ReceivedInv(c, sh.rows, sh.inserted, sh.removed, sh.received);
    hide SharedInv, KeyOf;
    assert KeyTaken(sh.rows, d.token, KeyOf(c, d));
    var id :| id in sh.rows && HoldsKey(sh.rows, id, d.token, KeyOf(c, d));
    RowKeys(c, sh, id);
    assert DeliveryOf(sh.rows[id]) == d;
  }

  lemma {:induction false} RowsDiffer(c: Config, sh: Shared, i: string, j: string)
    requires SharedInv(c, sh) && c.dedup && i in sh.rows && j in sh.rows && i != j
    ensures DeliveryOf(sh.rows[i]) != DeliveryOf(sh.rows[j])
  {
    RowKeys(c, sh, i);
    RowKeys(c, sh, j);
    assert ValidRows(sh.rows);
    hide SharedInv;
  }

  lemma {:induction false} SeparateGivesOneRowEach(c: Config, deliveries: iset<Delivery>, s: State)
    requires c.dedup && Separate(c, deliveries)
    requires Reached(c, s) && s.sh.removed == {} && ReceivedOnly(s.sh, deliveries)
    ensures OneRowEach(s.sh.rows, s.sh.received)
  {
    hide Reached, Separate, ReceivedOnly, SharedInv, DeliveryOf;
    ReachedInv(c, s);
    var sh := s.sh;
    forall id | id in sh.rows ensures DeliveryOf(sh.rows[id]) in sh.received { RowKeys(c, sh, id); }
    forall d | d in sh.received ensures exists id :: id in sh.rows && DeliveryOf(sh.rows[id]) == d {
      ReceivedHasRow(c, sh, deliveries, d);
    }
    forall i, j | i in sh.rows && j in sh.rows && DeliveryOf(sh.rows[i]) == DeliveryOf(sh.rows[j]) ensures i == j {
      if i != j { RowsDiffer(c, sh, i, j); }
    }
  }

  // ---- what a shared key does ----

  const SOME_TIME := Civil(2024, 1, 1, 0, 0, 0, 0)

  function ArrivalOf(d: Delivery): Arrival {
    Arrival(d.token, d.httpMethod, d.path, map[], d.body, SOME_TIME)
  }

  /** After a first delivery was stored as row "1". */
  function FirstStored(c: Config, d: Delivery): State {
    var row := NewRow(c, ArrivalOf(d), "1");
    State(
      Shared(map["1" := row], {d.token}, map[], map[], {}, map["1" := row], map["1" := 1], {}, map["1" := []], [], {},
          {d}, map[]),
      map[1 := HookProc(HookSaved(row))])
  }

  /** Its token made, and its request past the checks. */
  function FirstArrived(d: Delivery): State {
    INITIAL.(sh := INITIAL.sh.(tokens := {d.token}), procs := map[1 := HookProc(HookChecked(ArrivalOf(d)))])
  }

  lemma {:induction false} FirstArrivedReached(c: Config, d: Delivery)
    requires d.token != ""
    ensures Reached(c, FirstArrived(d))
  {
    assert ValidRun(c, INITIAL, []) && Run(INITIAL, []) == INITIAL;
    ReachedOn(c, INITIAL, Environment(CreateToken(d.token)));
    var s := Apply(INITIAL, Environment(CreateToken(d.token)));
    hide Reached;
    ReachedOn(c, s, Spawn(1, HookProc(HookChecked(ArrivalOf(d)))));
    assert Apply(s, Spawn(1, HookProc(HookChecked(ArrivalOf(d))))) == FirstArrived(d);
  }

  lemma {:induction false} FirstStoredReached(c: Config, d: Delivery)
    requires c.dedup && d.token != ""
    ensures Reached(c, FirstStored(c, d))
  {
    hide Reached, KeyOf;
    FirstArrivedReached(c, d);
    var s := FirstArrived(d);
    var row := NewRow(c, ArrivalOf(d), "1");
    assert SaveOutcome(s.sh.rows, row) == Saved;
    assert HookStep(c, s.sh, HookChecked(ArrivalOf(d)), HookSaved(row), Insert(row));
    var step := Act(1, HookProc(HookSaved(row)), Insert(row));
    ReachedOn(c, s, step);
    assert Apply(s, step) == FirstStored(c, d);
  }

  /** And a second one with the same key arrived, and was found to be a duplicate. */
  function SecondLost(c: Config, d: Delivery, e: Delivery): State {
    var s := FirstStored(c, d);
    State(s.sh.(received := {d, e}), s.procs[2 := HookProc(HookDuplicate(e, "1"))])
  }

  lemma {:induction false} SecondLostReached(c: Config, d: Delivery, e: Delivery)
    requires c.dedup && d.token == e.token != "" && KeyOf(c, d) == KeyOf(c, e)
    ensures Reached(c, SecondLost(c, d, e))
  {
    FirstStoredReached(c, d);
    var s := FirstStored(c, d);
    var begin := Spawn(2, HookProc(HookChecked(ArrivalOf(e))));
    hide Reached;
    ReachedOn(c, s, begin);
    var s1 := Apply(s, begin);
    assert HoldsKey(s1.sh.rows, "1", e.token, KeyOf(c, e));
    hide KeyOf;
    var dup := Act(2, HookProc(HookDuplicate(e, "1")), Receive(e));
    ReachedOn(c, s1, dup);
    assert Apply(s1, dup).procs == SecondLost(c, d, e).procs;
  }

  /** A second, different delivery with the same key is answered as a duplicate and
      stored nowhere. */
  lemma {:induction false} SharedKeyLosesDelivery(c: Config, d: Delivery, e: Delivery)
    requires c.dedup && d.token == e.token != "" && d != e && KeyOf(c, d) == KeyOf(c, e)
    ensures exists s ::
              && Reached(c, s) && s.sh.removed == {} && s.sh.received == {d, e} && !OneRowEach(s.sh.rows, s.sh.received)
              && 2 in s.procs && s.procs[2] == HookProc(HookAnswered(e, Accepted, "1", ""))
  {
    SecondLostReached(c, d, e);
    hide Reached, KeyOf;
    var s := SecondLost(c, d, e);
    var answer := Act(2, HookProc(HookAnswered(e, Accepted, "1", "")), Nothing);
    ReachedOn(c, s, answer);
    var last := Apply(s, answer);
    assert e in last.sh.received && forall id | id in last.sh.rows :: DeliveryOf(last.sh.rows[id]) == d;
  }

  /** Such deliveries exist whatever the hash: /a%00b with an empty body is lost after /a
      with the body "b" and a NUL. */
  lemma {:induction false} NulLosesDelivery(c: Config, token: string)
    requires c.dedup && token != ""
    ensures var (d, e) := (Delivery(token, "POST", "/a", "b" + [NUL]), Delivery(token, "POST", "/a" + [NUL] + "b", ""));
            exists s ::
              && Reached(c, s) && s.sh.removed == {} && s.sh.received == {d, e} && !OneRowEach(s.sh.rows, s.sh.received)
              && 2 in s.procs && s.procs[2] == HookProc(HookAnswered(e, Accepted, "1", ""))
  {
    var (d, e) := (Delivery(token, "POST", "/a", "b" + [NUL]), Delivery(token, "POST", "/a" + [NUL] + "b", ""));
    assert "b" + [NUL] == "b" + [NUL] + "";
    assert Continues(d.path, d.body, e.path, e.body, "b");
    DeliveriesCollide("POST", d.path, d.body, e.path, e.body);
    assert |d.path| < |e.path|;
    hide Reached;
    SharedKeyLosesDelivery(c, d, e);
  }

  /** With dedup on and nothing removed, rows and received deliveries are one to one in
      every run that receives only these deliveries, exactly when no two of them for one
      token share a key. */
  lemma {:induction false} DedupCountsDeliveries(c: Config, deliveries: iset<Delivery>)
    requires c.dedup && forall d | d in deliveries :: d.token != ""
    ensures Separate(c, deliveries)
            <==> forall s | Reached(c, s) && s.sh.removed == {} && ReceivedOnly(s.sh, deliveries) ::
                OneRowEach(s.sh.rows, s.sh.received)
  {
    hide Reached, OneRowEach, KeyOf;
    if Separate(c, deliveries) {
      forall s | Reached(c, s) && s.sh.removed == {} && ReceivedOnly(s.sh, deliveries)
          ensures OneRowEach(s.sh.rows, s.sh.received) {
        SeparateGivesOneRowEach(c, deliveries, s);
      }
    } else {
      var d, e :| d in deliveries && e in deliveries && d.token == e.token && KeyOf(c, d) == KeyOf(c, e) && d != e;
      SharedKeyLosesDelivery(c, d, e);
      var s :| Reached(c, s) && s.sh.removed == {} && s.sh.received == {d, e} && !OneRowEach(s.sh.rows, s.sh.received);
      assert ReceivedOnly(s.sh, deliveries);
    }
  }

  lemma {:induction false} StoredIsThere(rows: Rows, inserted: Rows, id: string)
    requires RowsInv(rows, inserted, {}) && id in inserted
    ensures id in rows && DeliveryOf(rows[id]) == DeliveryOf(inserted[id])
  {
    assert id in inserted.Keys - {};
    assert id in rows.Keys && SameRequest(rows[id], inserted[id]);
  }

  lemma {:induction false} StoredDiffer(c: Config, sh: Shared, a: string, b: string)
    requires SharedInv(c, sh) && c.dedup && sh.removed == {}
    requires a in sh.inserted && b in sh.inserted && a != b
    ensures DeliveryOf(sh.inserted[a]) != DeliveryOf(sh.inserted[b])
  {
    assert RowsInv(sh.rows, sh.inserted, {});
    hide SharedInv, RowsInv, DeliveryOf;
    StoredIsThere(sh.rows, sh.inserted, a);
    StoredIsThere(sh.rows, sh.inserted, b);
    RowsDiffer(c, sh, a, b);
  }

  /** The ingress forwards no webhook live twice; under dedup no delivery either. */
  lemma {:induction false} ForwardedLiveOnce(c: Config, s: State, i: nat, j: nat)
    requires Reached(c, s)
    requires i < j < |s.sh.sends| && s.sh.sends[i].live && s.sh.sends[j].live
    ensures var (a, b) := (s.sh.sends[i].id, s.sh.sends[j].id);
            && a != b && a in s.sh.inserted && b in s.sh.inserted
            && (c.dedup && s.sh.removed == {} ==> DeliveryOf(s.sh.inserted[a]) != DeliveryOf(s.sh.inserted[b]))
  {
    hide Reached, DeliveryOf;
    ReachedInv(c, s);
    SendsAreFaithful(c, s, i);
    SendsAreFaithful(c, s, j);
    assert LiveInv(s.sh.sends);
    hide SharedInv, RequestOf;
    if c.dedup && s.sh.removed == {} { StoredDiffer(c, s.sh, s.sh.sends[i].id, s.sh.sends[j].id); }
  }
}
