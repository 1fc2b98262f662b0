/** After failures and deaths: what the orphan collector mends, what it credits twice, and what it
    never gives back. */
module Recovery {
  import opened Stores
  import opened Protocol
  import opened Operations
  import opened Consistency

  /** Every orphaned entry has passed its grace period. */
  ghost predicate AllDue(w: World, now: nat) {
    forall id :: id in w.redis.reservations && id !in w.db.tickets ==> Overdue(now, w.redis.reservations[id])
  }

  /** After any harmless history, however many creates and deletes died in it, one pass after the grace
      period brings the stores back to agreement: each orphan is credited once, and later passes, stopped
      or not, find nothing. */
  lemma RecoveryConverges(worlds: seq<World>, ops: seq<Op>, now: nat, later: nat, stop: Stop)
    requires History(worlds, ops) && Sound(worlds[0])
    requires forall k :: 0 <= k < |ops| ==> Harmless(worlds[k], ops[k])
    requires AllDue(worlds[|ops|], now)
    ensures var w := worlds[|ops|]; var w' := Collect(w, now, Runs).0;
      Consistent(w') && w'.db == w.db && Collect(w', later, stop).0 == w' &&
      forall t :: t in w.redis.counters ==> w'.redis.counters[t] == w.redis.counters[t] + |OrphansOf(w, t)|
  {
    HistorySound(worlds, ops);
    PassMends(worlds[|ops|], now);
    NothingToCollect(Collect(worlds[|ops|], now, Runs).0, later, stop);
  }

  lemma PassMends(w: World, now: nat)
    requires Sound(w) && AllDue(w, now)
    ensures var w' := Collect(w, now, Runs).0;
      Consistent(w') && forall t :: t in w.redis.counters ==> w'.redis.counters[t] == w.redis.counters[t] + |OrphansOf(w, t)|
  {
    var w' := Collect(w, now, Runs).0;
    CollectSound(w, now, Runs);
    CollectEffect(w, now, Runs);
    OnlyOrphansAreCollected(w, now, Runs);
    forall t | t in w.redis.counters ensures DueOf(w, now, Runs, t) == OrphansOf(w, t) { }
    forall id | id in w'.redis.reservations ensures id in w'.db.tickets { }
  }

  // ---------- units credited twice ----------

  lemma FailedCommitHash(w: World, owner: nat, t: nat, now: nat, later: nat)
    requires Consistent(w) && Seen(w, t) > 0 && later > now + GRACE_PERIOD_SECONDS
    ensures var w1 := Create(w, owner, t, now, AtCommit).0;
      HashOk(w1) && DueOf(w1, later, Runs, t) == {w.db.nextTicket} && w1.db.types == w.db.types && t in w.db.types &&
      t in w1.redis.counters && w1.redis.counters[t] == Seen(w, t)
  {
    var s, w1 := Stamped(w, t, now), Create(w, owner, t, now, AtCommit).0;
    SeenIsRoom(w, t);
    CreateEnds(w, owner, t, now, AtCommit);
    AdmittedEnds(w, owner, t, now, AtCommit);
    StampedSound(w, t, now);
    forall x | x in w1.redis.reservations ensures EntryOk(w1, x, w1.redis.reservations[x]) {
      assert EntryOk(s, x, s.redis.reservations[x]);
    }
  }

  /** A commit that fails after the hash write is credited twice: at once by the handler's plain INCR,
      and again by the collector. The gate then admits one request more than there is room. */
  lemma FailedCommitIsCreditedTwice(w: World, owner: nat, t: nat, now: nat, later: nat)
    requires Consistent(w) && Seen(w, t) > 0 && later > now + GRACE_PERIOD_SECONDS
    ensures var w' := Collect(Create(w, owner, t, now, AtCommit).0, later, Runs).0;
      t in w'.db.types && t in w'.redis.counters &&
      w'.redis.counters[t] == w'.db.types[t].quantity - w'.db.types[t].sold + 1
  {
    FailedCommitHash(w, owner, t, now, later);
    CollectEffect(Create(w, owner, t, now, AtCommit).0, later, Runs);
    assert OrphansOf(w, t) == {};
  }

  lemma CreditedDeleteHash(w: World, owner: nat, id: nat, later: nat)
    requires Consistent(w) && Deletes(w, owner, id, DiesAfterCounter) && IsReserved(w.db, id)
    requires w.db.tickets[id].typeId in w.redis.counters
    requires id in w.redis.reservations ==> Overdue(later, w.redis.reservations[id])
    ensures var w1 := Delete(w, owner, id, DiesAfterCounter).0;
      HashOk(w1) && DueOf(w1, later, Runs, w.db.tickets[id].typeId) == {id}
  {
    var w1 := Delete(w, owner, id, DiesAfterCounter).0;
    EntryOfTicket(w, id);
    forall x | x in w1.redis.reservations ensures EntryOk(w1, x, w1.redis.reservations[x]) {
      assert EntryOk(w, x, w.redis.reservations[x]);
    }
    forall x | IsReserved(w1.db, x) ensures x in w1.redis.reservations { assert IsReserved(w.db, x); }
  }

  /** A delete of a RESERVED ticket that dies between its INCR and its HDEL is credited twice: its entry
      is an orphan whose unit is back already. */
  lemma DeadDeleteIsCreditedTwice(w: World, owner: nat, id: nat, later: nat)
    requires Consistent(w) && Deletes(w, owner, id, DiesAfterCounter) && IsReserved(w.db, id)
    requires w.db.tickets[id].typeId in w.redis.counters
    requires id in w.redis.reservations ==> Overdue(later, w.redis.reservations[id])
    ensures var w', t := Collect(Delete(w, owner, id, DiesAfterCounter).0, later, Runs).0, w.db.tickets[id].typeId;
      t in w'.db.types && t in w'.redis.counters &&
      w'.redis.counters[t] == w'.db.types[t].quantity - w'.db.types[t].sold + 1
  {
    var t := w.db.tickets[id].typeId;
    CreditedDeleteHash(w, owner, id, later);
    CollectEffect(Delete(w, owner, id, DiesAfterCounter).0, later, Runs);
    assert OrphansOf(w, t) == {};
  }

  // ---------- units lost ----------

  /** A create that ends after the gate and before its hash write has told nobody about its unit: no
      collector pass at any time, stopped or not, gives it back. */
  lemma LostUnitStaysLost(w: World, owner: nat, t: nat, now: nat, fault: Fault, later: nat, stop: Stop)
    requires Consistent(w) && Seen(w, t) > 0 && fault in {DiesAtGate, DiesBeforeHash}
    ensures var w' := Create(w, owner, t, now, fault).0;
      Collect(w', later, stop).0 == w' && t in w'.db.types && t in w'.redis.counters &&
      w'.redis.counters[t] == w'.db.types[t].quantity - w'.db.types[t].sold - 1
  {
    var w', warm := Create(w, owner, t, now, fault).0, Consistency.Warm(w, t);
    SeenIsRoom(w, t);
    CreateEnds(w, owner, t, now, fault);
    AdmittedEnds(w, owner, t, now, fault);
    WarmSound(w, t);
    forall x | x in w'.redis.reservations ensures EntryOk(w', x, w'.redis.reservations[x]) {
      assert EntryOk(warm, x, warm.redis.reservations[x]);
    }
    NothingToCollect(w', later, stop);
    assert OrphansOf(warm, t) == {};
  }

  /** The delete of a SOLD ticket that dies before its credit loses the unit for good too: a SOLD ticket
      has no entry for the collector to find. */
  lemma DeadDeleteOfSoldStaysLost(w: World, owner: nat, id: nat, later: nat, stop: Stop)
    requires Consistent(w) && Deletes(w, owner, id, DiesAfterCommit) && w.db.tickets[id].status == SOLD
    requires w.db.tickets[id].typeId in w.redis.counters
    ensures var w', t := Delete(w, owner, id, DiesAfterCommit).0, w.db.tickets[id].typeId;
      Collect(w', later, stop).0 == w' && t in w'.db.types && t in w'.redis.counters &&
      w'.redis.counters[t] == w'.db.types[t].quantity - w'.db.types[t].sold - 1
  {
    var w', t := Delete(w, owner, id, DiesAfterCommit).0, w.db.tickets[id].typeId;
    EntryOfTicket(w, id);
    forall x | x in w'.redis.reservations ensures EntryOk(w', x, w'.redis.reservations[x]) {
      assert EntryOk(w, x, w.redis.reservations[x]);
    }
    forall x | IsReserved(w'.db, x) ensures x in w'.redis.reservations { assert IsReserved(w.db, x); }
    NothingToCollect(w', later, stop);
    assert OrphansOf(w, t) == {};
  }
}
