/** The batch job refines the single one: reconcile_hung_tickets does in one transaction what
    release_unpaid_ticket does ticket by ticket, in any order, with repeats. */
module Batching {
  import opened Stores
  import opened Protocol
  import opened Refunds
  import opened Operations
  import L = Ledger

  function ReleaseAll(w: World, ids: seq<nat>): World {
    if ids == [] then w else Release(ReleaseAll(w, ids[..|ids| - 1]), ids[|ids| - 1], NoFault).0
  }

  function SetOf(ids: seq<nat>): set<nat> {
    set id | id in ids
  }

  lemma SetOfSnoc(ids: seq<nat>)
    requires ids != []
    ensures SetOf(ids) == SetOf(ids[..|ids| - 1]) + {ids[|ids| - 1]}
  {
    assert ids == ids[..|ids| - 1] + [ids[|ids| - 1]];
  }

  lemma CreditsHaveOneType(types: map<nat, nat>)
    ensures OneType(CreditsOf(types))
  {
  }

  lemma OfTypeSnoc(locked: map<nat, nat>, id: nat, t: nat, u: nat)
    requires id !in locked
    ensures |OfType(locked[id := t], u)| == |OfType(locked, u)| + if u == t then 1 else 0
  {
    assert OfType(locked[id := t], u) == OfType(locked, u) + if u == t then {id} else {};
  }

  lemma SmallerBatch(db: Db, locked: map<nat, nat>, id: nat, t: nat)
    requires id !in locked && !BatchRefused(db, locked[id := t])
    ensures !BatchRefused(db, locked) && CanSubtract(db, t, |OfType(locked, t)| + 1)
  {
    OfTypeSnoc(locked, id, t, t);
    assert id in locked[id := t];
    forall x | x in locked ensures CanSubtract(db, locked[x], |OfType(locked, locked[x])|) {
      OfTypeSnoc(locked, id, t, locked[x]);
      assert x in locked[id := t];
    }
  }

  lemma SubtractSnoc(types: map<nat, TypeRow>, locked: map<nat, nat>, id: nat, t: nat)
    requires id !in locked
    ensures SubtractBatch(types, locked[id := t]) == AddSold(SubtractBatch(types, locked), t, -1)
  {
    forall u | u in types
      ensures |OfType(locked[id := t], u)| == |OfType(locked, u)| + if u == t then 1 else 0
    {
      OfTypeSnoc(locked, id, t, u);
    }
  }

  lemma CreditsSnoc(r: Redis, locked: map<nat, nat>, id: nat, t: nat)
    requires id !in locked
    ensures RefundSet(r, CreditsOf(locked[id := t])) == RefundSet(r, CreditsOf(locked)).Refund(t, id)
  {
    var locked' := locked[id := t];
    forall k | k in CreditsOf(locked) + {Credit(t, id)} ensures k in CreditsOf(locked') {
      assert k.id in locked' && locked'[k.id] == k.t;
    }
    assert CreditsOf(locked') == CreditsOf(locked) + {Credit(t, id)};
    CreditsHaveOneType(locked[id := t]);
    RefundSetSnoc(r, CreditsOf(locked), Credit(t, id));
  }

  /** Releasing one more reserved ticket after a batch is the larger batch. */
  lemma BatchSnoc(w: World, ids: set<nat>, id: nat)
    requires IsReserved(w.db, id) && id !in ids && !BatchRefused(w.db, TypesOf(w.db, ids + {id}))
    ensures !BatchRefused(w.db, TypesOf(w.db, ids))
    ensures Release(Batch(w, ids, Runs).0, id, NoFault).0 == Batch(w, ids + {id}, Runs).0
  {
    var locked, t := TypesOf(w.db, ids), w.db.tickets[id].typeId;
    assert TypesOf(w.db, ids + {id}) == locked[id := t];
    SmallerBatch(w.db, locked, id, t);
    SubtractSnoc(w.db.types, locked, id, t);
    CreditsSnoc(w.redis, locked, id, t);
    CancelSnoc(w.db.tickets, locked, id, t);
    var b := Batch(w, ids, Runs).0;
    assert IsReserved(b.db, id) && b.db.tickets[id] == w.db.tickets[id];
    assert CanSubtract(b.db, t, 1);
  }

  lemma CancelSnoc(tickets: map<nat, Stores.Ticket>, locked: map<nat, nat>, id: nat, t: nat)
    requires id in tickets && id !in locked
    ensures var b := CancelBatch(tickets, locked);
      CancelBatch(tickets, locked[id := t]) == b[id := b[id].(status := CANCELED)]
  {
  }

  lemma EmptyBatch(w: World)
    ensures Batch(w, {}, Runs) == (w, Completed)
  {
    var locked := TypesOf(w.db, {});
    assert locked == map[] && CreditsOf(locked) == {};
    RefundsAreASet(w.redis, []);
    assert CallSet([]) == {};
    forall t | t in w.db.types ensures OfType(locked, t) == {} { }
    assert SubtractBatch(w.db.types, locked) == w.db.types;
    assert CancelBatch(w.db.tickets, locked) == w.db.tickets;
    assert !BatchRefused(w.db, locked);
  }

  /** A batch the CHECK allows leaves exactly the state of its releases one by one, whatever their
      order, however often repeated, and whatever other ids are thrown in. */
  lemma {:induction false} BatchIsReleases(w: World, ids: seq<nat>)
    requires !BatchRefused(w.db, TypesOf(w.db, SetOf(ids)))
    ensures ReleaseAll(w, ids) == Batch(w, SetOf(ids), Runs).0
  {
    if ids == [] {
      EmptyBatch(w);
    } else {
      var n := |ids| - 1;
      var id, before := ids[n], SetOf(ids[..n]);
      SetOfSnoc(ids);
      if IsReserved(w.db, id) && id !in before {
        BatchSnoc(w, before, id);
        BatchIsReleases(w, ids[..n]);
      } else {
        assert TypesOf(w.db, SetOf(ids)) == TypesOf(w.db, before);
        BatchIsReleases(w, ids[..n]);
        assert !IsReserved(Batch(w, before, Runs).0.db, id);
      }
    }
  }

  lemma SubsetSize(a: set<nat>, b: set<nat>)
    requires a <= b
    ensures |a| <= |b|
  {
    assert b == a + (b - a);
  }

  /** Under an exact ledger the CHECK allows any batch of reserved tickets. */
  lemma LedgerAllowsBatch(db: Db, ids: set<nat>)
    requires forall t :: t in db.types ==> L.Gap(db, t) == 0
    ensures !BatchRefused(db, TypesOf(db, ids))
  {
    var locked := TypesOf(db, ids);
    forall id | id in locked ensures CanSubtract(db, locked[id], |OfType(locked, locked[id])|) {
      var t := locked[id];
      L.BatchLive(db, locked, t);
      SubsetSize(OfType(locked, t), LiveOf(db, t));
    }
  }

  /** The batch job, under an exact ledger: the state of releasing the hung tickets in any order. No
      ticket is left that is RESERVED and was created at or before the threshold, and no other ticket is touched. */
  lemma HungBatchIsReleases(w: World, now: nat, seconds: nat, ids: seq<nat>)
    requires forall t :: t in w.db.types ==> L.Gap(w.db, t) == 0
    requires forall id :: id in ids <==>
      id in w.db.tickets && w.db.tickets[id].status == RESERVED && w.db.tickets[id].createdAt <= now - seconds
    ensures var w' := ReconcileHung(w, now, seconds, Runs).0;
      w' == ReleaseAll(w, ids) &&
      w'.db.tickets.Keys == w.db.tickets.Keys &&
      (forall id :: id in w'.db.tickets ==> w'.db.tickets[id].status != RESERVED || w'.db.tickets[id].createdAt > now - seconds) &&
      forall id :: id in w.db.tickets ==>
        w'.db.tickets[id] == if id in ids then w.db.tickets[id].(status := CANCELED) else w.db.tickets[id]
  {
    assert SetOf(ids) == HungIds(w.db, now - seconds);
    LedgerAllowsBatch(w.db, SetOf(ids));
    BatchIsReleases(w, ids);
    if SetOf(ids) == {} { EmptyBatch(w); }
    forall id | id in w.db.tickets ensures id in TypesOf(w.db, SetOf(ids)) <==> id in ids { }
    assert ReconcileHung(w, now, seconds, Runs).0.db.tickets == CancelBatch(w.db.tickets, TypesOf(w.db, SetOf(ids)));
  }

  /** Exactly the tickets that were RESERVED and created at or before the threshold are CANCELED. */
  ghost predicate CanceledUpTo(threshold: int, tickets: map<nat, Ticket>, tickets': map<nat, Ticket>) {
    tickets'.Keys == tickets.Keys &&
    forall id :: id in tickets ==>
      tickets'[id] == if tickets[id].status == RESERVED && tickets[id].createdAt <= threshold
                      then tickets[id].(status := CANCELED) else tickets[id]
  }

  /** A batch job that completes, ledger exact or not, has cancelled just these. */
  lemma CompletedCancels(w: World, now: nat, seconds: nat, stop: Stop)
    requires ReconcileHung(w, now, seconds, stop).1 == Completed
    ensures CanceledUpTo(now - seconds, w.db.tickets, ReconcileHung(w, now, seconds, stop).0.db.tickets)
  {
    var ids := HungIds(w.db, now - seconds);
    assert TypesOf(w.db, ids).Keys == ids;
    assert forall id :: id in w.db.tickets ==>
      (id in ids <==> w.db.tickets[id].status == RESERVED && w.db.tickets[id].createdAt <= now - seconds);
  }

  /** The release of a ticket that would take tickets_sold below zero is refused. */
  predicate Stuck(db: Db, id: nat) {
    IsReserved(db, id) ==> !CanSubtract(db, db.tickets[id].typeId, 1)
  }

  ghost predicate SomeCanceled(w: World, w': World) {
    exists id :: IsReserved(w.db, id) && id in w'.db.tickets && w'.db.tickets[id].status == CANCELED
  }

  /** Releases one by one change nothing exactly when each of them is refused. */
  lemma {:induction false} ReleasesChange(w: World, ids: seq<nat>)
    ensures ReleaseAll(w, ids) == w || SomeCanceled(w, ReleaseAll(w, ids))
    ensures ReleaseAll(w, ids) == w <==> forall id :: id in ids ==> Stuck(w.db, id)
  {
    if ids != [] {
      var n := |ids| - 1;
      var id := ids[n];
      assert ids == ids[..n] + [id];
      ReleasesChange(w, ids[..n]);
      var v, v' := ReleaseAll(w, ids[..n]), ReleaseAll(w, ids);
      if v != w {
        var x :| IsReserved(w.db, x) && x in v.db.tickets && v.db.tickets[x].status == CANCELED;
        assert v'.db.tickets[x].status == CANCELED;
        var y :| y in ids[..n] && !Stuck(w.db, y);
        assert y in ids;
      } else if !Stuck(w.db, id) {
        assert v'.db.tickets[id].status == CANCELED;
      }
    }
  }

  /** Exactly when the two agree: the CHECK allows the batch, or refuses every release on its own. */
  lemma BatchIsReleasesExactly(w: World, ids: seq<nat>)
    ensures ReleaseAll(w, ids) == Batch(w, SetOf(ids), Runs).0 <==>
      (!BatchRefused(w.db, TypesOf(w.db, SetOf(ids))) || forall id :: id in ids ==> Stuck(w.db, id))
  {
    if !BatchRefused(w.db, TypesOf(w.db, SetOf(ids))) {
      BatchIsReleases(w, ids);
    } else {
      ReleasesChange(w, ids);
    }
  }

  /** After a delete of a ticket that was not live the CHECK can refuse the batch as a whole, where
      single releases would still cancel all but one ticket. */
  lemma DriftStopsTheBatch()
    ensures exists w, now: nat :: ReconcileHung(w, now, 0, Runs) == (w, DatabaseError) && ReleaseAll(w, [1, 2]) != w
  {
    var k := Ticket(1, 1, RESERVED, 0);
    var db := Db(map[], map[1 := TypeRow(1, "VIP", 0, 5, 1)], map[1 := k, 2 := k], 2, 2, 3);
    var w := World(db, EmptyRedis, Cache(map[], map[], None));
    var locked := TypesOf(db, HungIds(db, 0));
    assert HungIds(db, 0) == {1, 2};
    assert OfType(locked, 1) == {1, 2};
    assert |{1, 2}| == 2;
    assert 1 in locked && !CanSubtract(db, locked[1], |OfType(locked, 1)|);
    assert ReconcileHung(w, 0, 0, Runs) == (w, DatabaseError);
    assert [1, 2][..1] == [1] && [1][..0] == [];
    assert ReleaseAll(w, []) == w;
    var one := ReleaseAll(w, [1]);
    assert one == Release(w, 1, NoFault).0;
    assert CanSubtract(db, 1, 1) && IsReserved(db, 1);
    assert one.db.tickets[1].status == CANCELED;
    var two := ReleaseAll(w, [1, 2]);
    assert two == Release(one, 2, NoFault).0;
    assert two.db.tickets[1].status == CANCELED;
    assert two != w;
  }
}
