/** The worker's two cron jobs by themselves: each end of the complete operation can be reached, with
    the refunds of any part of the ids done before a failure or a death. */
module JobsAlone {
  import opened Stores
  import opened Protocol
  import opened Alone
  import O = Operations
  import R = Refunds
  import B = Batching

  lemma CreditsFirst(r: Redis, types: map<nat, nat>, id: nat)
    requires id in types
    ensures R.RefundSet(r.Refund(types[id], id), O.CreditsOf(types - {id})) == R.RefundSet(r, O.CreditsOf(types))
  {
    var rest, k := types - {id}, R.Credit(types[id], id);
    forall x | x in O.CreditsOf(types) ensures x in O.CreditsOf(rest) + {k} {
      if x.id != id { assert x.id in rest && rest[x.id] == x.t; }
    }
    assert k in O.CreditsOf(types);
    forall x | x in O.CreditsOf(rest) ensures x in O.CreditsOf(types) { assert x.id in types && types[x.id] == x.t; }
    assert O.CreditsOf(types) == O.CreditsOf(rest) + {k};
    B.CreditsHaveOneType(types);
    R.RefundFirst(r, k, O.CreditsOf(rest));
  }

  lemma NoCredits(r: Redis, types: map<nat, nat>)
    requires types == map[]
    ensures R.RefundSet(r, O.CreditsOf(types)) == r
  {
    assert O.CreditsOf(types) == {} == R.CallSet([]);
    R.RefundsAreASet(r, []);
  }

  // ---------- the collector ----------

  function TypesIn(entries: map<nat, Reservation>): map<nat, nat> {
    map id | id in entries :: entries[id].typeId
  }

  lemma CollectsOne(c: Config, s: State, i: nat, entries: map<nat, Reservation>, id: nat, end: State)
    requires c.shared && i < |s.procs| && id in entries
    requires Gets(c, s.(api := s.api.Refund(entries[id].typeId, id)).Put(i, GcRefunding(entries - {id})), i, end)
    ensures Gets(c, s.Put(i, GcRefunding(entries)), i, end)
  {
    var m := s.(api := s.api.Refund(entries[id].typeId, id));
    Move(c, s, i, GcRefunding(entries), Action.Refund(id), m, GcRefunding(entries - {id}), end);
  }

  lemma PartWithout(types: map<nat, nat>, part: set<nat>, id: nat)
    requires id in part && id in types
    ensures O.Part(types, part - {id}) == O.Part(types, part) - {id} == O.Part(types - {id}, part - {id})
  {
  }

  /** The entries of `part` are refunded first, one by one. */
  lemma {:induction false} CollectsSome(c: Config, s: State, i: nat, entries: map<nat, Reservation>, part: set<nat>, end: State)
    requires c.shared && i < |s.procs| && part <= entries.Keys
    requires Gets(c, s.(api := R.RefundSet(s.api, O.CreditsOf(O.Part(TypesIn(entries), part)))).Put(i, GcRefunding(entries - part)), i, end)
    ensures Gets(c, s.Put(i, GcRefunding(entries)), i, end)
    decreases |part|
  {
    hide Gets;
    if part == {} {
      NoCredits(s.api, O.Part(TypesIn(entries), part));
      assert entries - part == entries;
    } else {
      var id :| id in part;
      var m := s.(api := s.api.Refund(entries[id].typeId, id));
      PartWithout(TypesIn(entries), part, id);
      CreditsFirst(s.api, O.Part(TypesIn(entries), part), id);
      assert TypesIn(entries - {id}) == TypesIn(entries) - {id};
      assert entries - {id} - (part - {id}) == entries - part;
      CollectsSome(c, m, i, entries - {id}, part - {id}, end);
      CollectsOne(c, s, i, entries, id, end);
    }
  }

  lemma PassEnds(c: Config, s: State, i: nat, entries: map<nat, Reservation>, stop: O.Stop)
    requires i < |s.procs| && (stop.Runs? ==> entries == map[])
    ensures Gets(c, s.Put(i, GcRefunding(entries)), i, s.Put(i, Done(OutcomeOf(O.StopReply(stop)))))
  {
    match stop
    case Runs =>
      Stays(c, s.Put(i, Done(Finished)), i);
      Move(c, s, i, GcRefunding(entries), Finish, s, Done(Finished), s.Put(i, Done(Finished)));
    case Fails(_) =>
      Stays(c, s.Put(i, Done(Failed)), i);
      Move(c, s, i, GcRefunding(entries), Abort, s, Done(Failed), s.Put(i, Done(Failed)));
    case Dies(_) => Dies(c, s, i, GcRefunding(entries));
  }

  function LateEntries(s: State): map<nat, Reservation> {
    map id | id in s.api.reservations && Overdue(s.now, s.api.reservations[id]) :: s.api.reservations[id]
  }

  function OrphansAmong(s: State, entries: map<nat, Reservation>): map<nat, Reservation> {
    map id | id in entries && Orphan(s.db, id) :: entries[id]
  }

  lemma QueriesAlone(c: Config, s: State, i: nat, end: State)
    requires c.shared && i < |s.procs| && Gets(c, s.Put(i, GcRefunding(OrphansAmong(s, LateEntries(s)))), i, end)
    ensures Gets(c, s.Put(i, GcStart), i, end)
  {
    Move(c, s, i, GcSuspicious(LateEntries(s)), Query, s, GcRefunding(OrphansAmong(s, LateEntries(s))), end);
    Move(c, s, i, GcSnapshot(s.api.reservations), Filter, s, GcSuspicious(LateEntries(s)), end);
    Move(c, s, i, GcStart, Snapshot, s, GcSnapshot(s.api.reservations), end);
  }

  function CollectEnd(s: State, i: nat, stop: O.Stop): State
    requires i < |s.procs|
  {
    var types := O.Reached(TypesIn(OrphansAmong(s, LateEntries(s))), stop);
    s.(api := R.RefundSet(s.api, O.CreditsOf(types))).Put(i, Done(OutcomeOf(O.StopReply(stop))))
  }

  lemma CollectCases(s: State, i: nat, stop: O.Stop, cache: O.Cache)
    requires i < |s.procs|
    ensures var (w', reply) := O.Collect(WorldIn(s, cache), s.now, stop); Ended(s, i, w', reply) == CollectEnd(s, i, stop)
  {
    assert TypesIn(OrphansAmong(s, LateEntries(s))) == O.OrphanEntries(WorldIn(s, cache), s.now);
  }

  lemma Collects(c: Config, s: State, i: nat, stop: O.Stop)
    requires c.shared && i < |s.procs|
    ensures Gets(c, s.Put(i, GcStart), i, CollectEnd(s, i, stop))
  {
    hide Gets;
    var orphans := OrphansAmong(s, LateEntries(s));
    var part := if stop.Runs? then orphans.Keys else orphans.Keys * stop.done;
    assert O.Part(TypesIn(orphans), part) == O.Reached(TypesIn(orphans), stop);
    var end := CollectEnd(s, i, stop);
    PassEnds(c, s.(api := end.api), i, orphans - part, stop);
    CollectsSome(c, s, i, orphans, part, end);
    QueriesAlone(c, s, i, end);
  }

  /** Each end of a complete pass can be reached. */
  lemma CollectAlone(c: Config, s: State, i: nat, stop: O.Stop, cache: O.Cache)
    requires c.shared && i < |s.procs|
    ensures var (w', reply) := O.Collect(WorldIn(s, cache), s.now, stop);
      Gets(c, s.Put(i, GcStart), i, Ended(s, i, w', reply))
  {
    hide Gets, O.Collect, CollectEnd;
    CollectCases(s, i, stop, cache);
    Collects(c, s, i, stop);
  }

  // ---------- the batch ----------

  lemma RefundsOne(c: Config, s: State, i: nat, locked: map<nat, nat>, todo: set<nat>, id: nat, end: State)
    requires c.shared && i < |s.procs| && id in todo && id in locked
    requires Gets(c, s.(api := s.api.Refund(locked[id], id)).Put(i, HungRefunding(locked, todo - {id})), i, end)
    ensures Gets(c, s.Put(i, HungRefunding(locked, todo)), i, end)
  {
    var m := s.(api := s.api.Refund(locked[id], id));
    Move(c, s, i, HungRefunding(locked, todo), Action.Refund(id), m, HungRefunding(locked, todo - {id}), end);
  }

  lemma {:induction false} RefundsBatch(c: Config, s: State, i: nat, locked: map<nat, nat>, todo: set<nat>, part: set<nat>, end: State)
    requires c.shared && i < |s.procs| && part <= todo <= locked.Keys
    requires Gets(c, s.(api := R.RefundSet(s.api, O.CreditsOf(O.Part(locked, part)))).Put(i, HungRefunding(locked, todo - part)), i, end)
    ensures Gets(c, s.Put(i, HungRefunding(locked, todo)), i, end)
    decreases |part|
  {
    if part == {} {
      NoCredits(s.api, O.Part(locked, part));
      assert todo - part == todo;
    } else {
      var id :| id in part;
      var m := s.(api := s.api.Refund(locked[id], id));
      PartWithout(locked, part, id);
      CreditsFirst(s.api, O.Part(locked, part), id);
      assert todo - {id} - (part - {id}) == todo - part;
      RefundsBatch(c, m, i, locked, todo - {id}, part - {id}, end);
      RefundsOne(c, s, i, locked, todo, id, end);
    }
  }

  lemma {:induction false} UpdatesBatch(c: Config, s: State, i: nat, locked: map<nat, nat>, todo: set<nat>, end: State)
    requires ByItself(s, i) && Gets(c, s.Put(i, HungUpdating(locked, {})), i, end)
    requires forall t :: t in todo ==> CanSubtract(s.db, t, |OfType(locked, t)|)
    ensures Gets(c, s.Put(i, HungUpdating(locked, todo)), i, end)
    decreases |todo|
  {
    if todo != {} {
      var t :| t in todo;
      UpdatesBatch(c, s, i, locked, todo - {t}, end);
      NobodyHolds(s, i, HungUpdating(locked, todo));
      Move(c, s, i, HungUpdating(locked, todo), Action.UpdateType(t), s, HungUpdating(locked, todo - {t}), end);
    }
  }

  lemma ScansOne(c: Config, s: State, i: nat, threshold: int, rest: set<nat>, locked: map<nat, nat>, id: nat, end: State)
    requires ByItself(s, i) && id in rest && Hung(s.db, threshold, id)
    requires Gets(c, s.Put(i, HungScanning(threshold, rest - {id}, locked[id := s.db.tickets[id].typeId])), i, end)
    ensures Gets(c, s.Put(i, HungScanning(threshold, rest, locked)), i, end)
  {
    NobodyHolds(s, i, HungScanning(threshold, rest, locked));
    Move(c, s, i, HungScanning(threshold, rest, locked), LockTicket(id), s,
         HungScanning(threshold, rest - {id}, locked[id := s.db.tickets[id].typeId]), end);
  }

  lemma {:induction false} ScansBatch(c: Config, s: State, i: nat, threshold: int, rest: set<nat>, locked: map<nat, nat>, end: State)
    requires ByItself(s, i) && (forall id :: id in rest ==> Hung(s.db, threshold, id))
    requires Gets(c, s.Put(i, HungScanning(threshold, {}, locked + O.TypesOf(s.db, rest))), i, end)
    ensures Gets(c, s.Put(i, HungScanning(threshold, rest, locked)), i, end)
    decreases |rest|
  {
    if rest == {} {
      assert locked + O.TypesOf(s.db, rest) == locked;
    } else {
      var id :| id in rest;
      assert Hung(s.db, threshold, id);
      var t := s.db.tickets[id].typeId;
      assert locked[id := t] + O.TypesOf(s.db, rest - {id}) == locked + O.TypesOf(s.db, rest);
      ScansBatch(c, s, i, threshold, rest - {id}, locked[id := t], end);
      ScansOne(c, s, i, threshold, rest, locked, id, end);
    }
  }

  function BatchDb(db: Db, locked: map<nat, nat>): Db {
    db.(types := SubtractBatch(db.types, locked), tickets := CancelBatch(db.tickets, locked))
  }

  function BatchEnd(s: State, i: nat, locked: map<nat, nat>, stop: O.Stop): State
    requires i < |s.procs|
  {
    (if stop.Runs? then s.(db := BatchDb(s.db, locked)) else s).Put(i, Done(OutcomeOf(O.StopReply(stop))))
  }

  lemma BatchEnds(c: Config, s: State, i: nat, locked: map<nat, nat>, todo: set<nat>, stop: O.Stop)
    requires i < |s.procs| && (stop.Runs? ==> todo == {})
    ensures Gets(c, s.Put(i, HungRefunding(locked, todo)), i, BatchEnd(s, i, locked, stop))
  {
    match stop
    case Runs =>
      var end := s.(db := BatchDb(s.db, locked));
      Stays(c, end.Put(i, Done(Finished)), i);
      Move(c, s, i, HungRefunding(locked, todo), Action.Commit, end, Done(Finished), end.Put(i, Done(Finished)));
    case Fails(_) =>
      Stays(c, s.Put(i, Done(Failed)), i);
      Move(c, s, i, HungRefunding(locked, todo), Abort, s, Done(Failed), s.Put(i, Done(Failed)));
    case Dies(_) => Dies(c, s, i, HungRefunding(locked, todo));
  }

  /** Every type of the batch allows it: the statements run through, and then the refunds. */
  lemma BatchRuns(c: Config, s: State, i: nat, locked: map<nat, nat>, stop: O.Stop, end: State)
    requires c.shared && ByItself(s, i) && !O.BatchRefused(s.db, locked)
    requires end == BatchEnd(s.(api := R.RefundSet(s.api, O.CreditsOf(O.Reached(locked, stop)))), i, locked, stop)
    ensures Gets(c, s.Put(i, HungUpdating(locked, locked.Values)), i, end)
  {
    hide Gets;
    var part := if stop.Runs? then locked.Keys else locked.Keys * stop.done;
    assert O.Part(locked, part) == O.Reached(locked, stop);
    BatchEnds(c, s.(api := R.RefundSet(s.api, O.CreditsOf(O.Reached(locked, stop)))), i, locked, locked.Keys - part, stop);
    RefundsBatch(c, s, i, locked, locked.Keys, part, end);
    Move(c, s, i, HungUpdating(locked, {}), Finish, s, HungRefunding(locked, locked.Keys), end);
    forall t | t in locked.Values ensures CanSubtract(s.db, t, |OfType(locked, t)|) {
      var id :| id in locked && locked[id] == t;
    }
    UpdatesBatch(c, s, i, locked, locked.Values, end);
  }

  /** Some type refuses: the job dies before that, or fails there. */
  lemma BatchStops(c: Config, s: State, i: nat, locked: map<nat, nat>, dies: bool)
    requires ByItself(s, i) && O.BatchRefused(s.db, locked)
    ensures Gets(c, s.Put(i, HungUpdating(locked, locked.Values)), i, s.Put(i, Done(if dies then Crashed else Failed)))
  {
    if dies {
      Dies(c, s, i, HungUpdating(locked, locked.Values));
    } else {
      var id :| id in locked && !CanSubtract(s.db, locked[id], |OfType(locked, locked[id])|);
      NobodyHolds(s, i, HungUpdating(locked, locked.Values));
      Stays(c, s.Put(i, Done(Failed)), i);
      Move(c, s, i, HungUpdating(locked, locked.Values), Action.UpdateType(locked[id]), s, Done(Failed), s.Put(i, Done(Failed)));
    }
  }

  lemma ScanStarts(c: Config, s: State, i: nat, end: State)
    requires i < |s.procs|
    requires var threshold := s.now - c.reservationSeconds;
      Gets(c, s.Put(i, HungScanning(threshold, O.HungIds(s.db, threshold), map[])), i, end)
    ensures Gets(c, s.Put(i, HungStart), i, end)
  {
    var threshold := s.now - c.reservationSeconds;
    Move(c, s, i, HungTimed(threshold), Scan, s, HungScanning(threshold, O.HungIds(s.db, threshold), map[]), end);
    Move(c, s, i, HungStart, ReadClock, s, HungTimed(threshold), end);
  }

  /** With nothing to cancel the job ends after its scan. */
  lemma NothingHung(c: Config, s: State, i: nat, threshold: int, stop: O.Stop)
    requires i < |s.procs|
    ensures Gets(c, s.Put(i, HungScanning(threshold, {}, map[])), i, s.Put(i, Done(OutcomeOf(O.StopReply(stop)))))
  {
    match stop
    case Runs =>
      Stays(c, s.Put(i, Done(Finished)), i);
      Move(c, s, i, HungScanning(threshold, {}, map[]), Finish, s, Done(Finished), s.Put(i, Done(Finished)));
    case Fails(_) =>
      Stays(c, s.Put(i, Done(Failed)), i);
      Move(c, s, i, HungScanning(threshold, {}, map[]), Abort, s, Done(Failed), s.Put(i, Done(Failed)));
    case Dies(_) => Dies(c, s, i, HungScanning(threshold, {}, map[]));
  }

  lemma ScannedAlone(c: Config, s: State, i: nat, locked: map<nat, nat>, end: State)
    requires ByItself(s, i) && locked == O.TypesOf(s.db, O.HungIds(s.db, s.now - c.reservationSeconds)) != map[]
    requires Gets(c, s.Put(i, HungUpdating(locked, locked.Values)), i, end)
    ensures Gets(c, s.Put(i, HungStart), i, end)
  {
    hide Gets;
    var threshold := s.now - c.reservationSeconds;
    Move(c, s, i, HungScanning(threshold, {}, locked), Finish, s, HungUpdating(locked, locked.Values), end);
    assert map[] + locked == locked;
    ScansBatch(c, s, i, threshold, O.HungIds(s.db, threshold), map[], end);
    ScanStarts(c, s, i, end);
  }

  function HungTypes(c: Config, s: State): map<nat, nat> {
    O.TypesOf(s.db, O.HungIds(s.db, s.now - c.reservationSeconds))
  }

  function HungEnd(c: Config, s: State, i: nat, stop: O.Stop): State
    requires i < |s.procs|
  {
    var all := HungTypes(c, s);
    if all == map[] then s.Put(i, Done(OutcomeOf(O.StopReply(stop))))
    else if O.BatchRefused(s.db, all) then s.Put(i, Done(if stop.Dies? then Crashed else Failed))
    else BatchEnd(s.(api := R.RefundSet(s.api, O.CreditsOf(O.Reached(all, stop)))), i, all, stop)
  }

  lemma BatchCases(s: State, i: nat, ids: set<nat>, stop: O.Stop, cache: O.Cache)
    requires i < |s.procs|
    ensures var (all, (w', reply)) := (O.TypesOf(s.db, ids), O.Batch(WorldIn(s, cache), ids, stop));
      Ended(s, i, w', reply) ==
        if O.BatchRefused(s.db, all) then s.Put(i, Done(if stop.Dies? then Crashed else Failed))
        else BatchEnd(s.(api := R.RefundSet(s.api, O.CreditsOf(O.Reached(all, stop)))), i, all, stop)
  {
  }

  lemma HungCases(c: Config, s: State, i: nat, stop: O.Stop, cache: O.Cache)
    requires i < |s.procs|
    ensures var (w', reply) := O.ReconcileHung(WorldIn(s, cache), s.now, c.reservationSeconds, stop);
      Ended(s, i, w', reply) == HungEnd(c, s, i, stop)
  {
    hide O.Batch, BatchEnd, O.BatchRefused;
    var ids := O.HungIds(s.db, s.now - c.reservationSeconds);
    assert HungTypes(c, s).Keys == ids;
    BatchCases(s, i, ids, stop, cache);
  }

  lemma StartsHung(c: Config, s: State, i: nat, stop: O.Stop)
    requires c.shared && ByItself(s, i)
    ensures Gets(c, s.Put(i, HungStart), i, HungEnd(c, s, i, stop))
  {
    hide Gets, BatchEnd;
    var all, end := HungTypes(c, s), HungEnd(c, s, i, stop);
    if all == map[] {
      assert O.HungIds(s.db, s.now - c.reservationSeconds) == all.Keys == {};
      NothingHung(c, s, i, s.now - c.reservationSeconds, stop);
      ScanStarts(c, s, i, end);
    } else {
      if O.BatchRefused(s.db, all) { BatchStops(c, s, i, all, stop.Dies?); } else { BatchRuns(c, s, i, all, stop, end); }
      ScannedAlone(c, s, i, all, end);
    }
  }

  /** Each end of a complete batch job can be reached. */
  lemma HungAlone(c: Config, s: State, i: nat, stop: O.Stop, cache: O.Cache)
    requires c.shared && ByItself(s, i)
    ensures var (w', reply) := O.ReconcileHung(WorldIn(s, cache), s.now, c.reservationSeconds, stop);
      Gets(c, s.Put(i, HungStart), i, Ended(s, i, w', reply))
  {
    hide Gets, O.ReconcileHung, HungEnd;
    HungCases(c, s, i, stop, cache);
    StartsHung(c, s, i, stop);
  }

  // ---------- a create slower than the grace period ----------

  /** The collector's soundness needs creates to be timely: one whose entry goes over-age before its
      commit is refunded by a pass, and then commits a RESERVED ticket whose unit is back in the counter. */
  lemma LateCommitIsRefunded(c: Config, s: State, i: nat, j: nat, id: nat) returns (mid: State, end: State)
    requires c.shared && i < |s.procs| && j < |s.procs| && i != j && s.procs[i].CreateHashed? && s.procs[i].id == id
    requires id in s.api.reservations && Overdue(s.now, s.api.reservations[id])
    requires id !in s.db.tickets && id !in s.api.processed
    ensures Gets(c, s.Put(j, GcStart), j, mid) && Step(c, mid, Label(i, Action.Commit)) == Some(end)
    ensures IsReserved(end.db, id) && id in end.api.processed
  {
    var orphans := OrphansAmong(s, LateEntries(s));
    assert id in orphans;
    var m := s.(api := s.api.Refund(orphans[id].typeId, id));
    mid := m.Put(j, GcRefunding(orphans - {id}));
    Stays(c, mid, j);
    CollectsOne(c, s, j, orphans, id, mid);
    QueriesAlone(c, s, j, mid);
    end := Step(c, mid, Label(i, Action.Commit)).value;
  }

  // ---------- a counter that comes back ----------

  /** The compensation of a create is a plain INCR: one that fails while its type is deleted writes the
      counter of a type that is no longer there. */
  lemma CompensationRevivesCounter(c: Config, s: State, i: nat, j: nat, t: nat) returns (end: State)
    requires i < |s.procs| && j < |s.procs| && i != j && t !in s.db.types
    requires s.procs[i].CreateFailed? && s.procs[i].t == t && s.procs[j] == DropCommitted(t)
    ensures var mid := Step(c, s, Label(j, Action.DeleteKey));
      mid.Some? && Step(c, mid.value, Label(i, Compensate)) == Some(end)
    ensures t !in end.db.types && t in end.api.counters && end.api.counters[t] == 1
  {
    var mid := Step(c, s, Label(j, Action.DeleteKey)).value;
    end := Step(c, mid, Label(i, Compensate)).value;
  }
}
