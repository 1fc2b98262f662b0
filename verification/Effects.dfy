/** What each complete operation does for its caller, said in rows, counters, hash entries and cached
    values themselves: when it succeeds, what it leaves behind, and how one operation answers another. */
module Effects {
  import opened Stores
  import opened Operations
  import B = Batching
  import C = Consistency
  import R = Refunds
  import V = Coherence
  import L = Ledger
  import P = Protocol

  // ---------- the Redis commands ----------

  /** Each command and script on the values of the keys it names. */
  lemma CommandsDo(r: Redis, t: nat, id: nat, v: int, x: Reservation)
    ensures r.SetCounter(t, v) == r.(counters := r.counters[t := v]) && r.DeleteCounter(t) == r.(counters := r.counters - {t})
    ensures r.Incr(t) == r.(counters := r.counters[t := if t in r.counters then r.counters[t] + 1 else 1])
    ensures r.SafeIncr(t) == if t in r.counters then r.(counters := r.counters[t := r.counters[t] + 1]) else r
    ensures r.Hset(id, x) == r.(reservations := r.reservations[id := x]) && r.Hdel(id) == r.(reservations := r.reservations - {id})
    ensures (r.ReserveResult(t) == -1 <==> t !in r.counters) && (r.ReserveResult(t) == 1 <==> t in r.counters && r.counters[t] > 0)
    ensures r.ReserveResult(t) in {-1, 0, 1}
    ensures r.Reserve(t) == if t in r.counters && r.counters[t] > 0 then r.(counters := r.counters[t := r.counters[t] - 1]) else r
    ensures r.Refund(t, id) == if id in r.processed then r else
      Redis(if t in r.counters then r.counters[t := r.counters[t] + 1] else r.counters, r.reservations - {id}, r.processed + {id})
  {
  }

  // ---------- a ticket's way through the operations ----------

  /** Past the gate, with n units left in the counter. */
  lemma AdmittedTakes(w: World, owner: nat, t: nat, now: nat, n: int)
    requires t in w.redis.counters && w.redis.counters[t] == n
    ensures var (w', reply) := Admitted(w, owner, t, now, NoFault);
      var id, known := w.db.nextTicket, t in w.db.types;
      var free := known && w.db.types[t].sold < w.db.types[t].quantity;
      reply == (if free then TicketId(id) else if known then TicketsSoldOut else DatabaseError) &&
      w'.cache == w.cache && w'.redis.processed == w.redis.processed &&
      if free then
        w'.db == w.db.(nextTicket := id + 1, types := w.db.types[t := w.db.types[t].(sold := w.db.types[t].sold + 1)],
                       tickets := w.db.tickets[id := Ticket(t, owner, RESERVED, now)]) &&
        w'.redis == w.redis.(reservations := w.redis.reservations[id := Reservation(t, now)])
      else
        w'.db.types == w.db.types && w'.db.tickets == w.db.tickets && w'.redis == w.redis.(counters := w.redis.counters[t := n + 1])
  {
  }

  /** What the gate goes by: the counter, or the free places of the row when there is none. */
  lemma CreateTakes(w: World, owner: nat, t: nat, now: nat)
    ensures var (w', reply) := Create(w, owner, t, now, NoFault);
      var counted, known, id := t in w.redis.counters, t in w.db.types, w.db.nextTicket;
      var seen := if counted then w.redis.counters[t] else if known then w.db.types[t].quantity - w.db.types[t].sold else 0;
      var free := known && w.db.types[t].sold < w.db.types[t].quantity;
      (reply == TypeNotFound <==> !counted && !known) &&
      (reply == TicketsSoldOut <==> (counted || known) && (seen <= 0 || (known && !free))) &&
      (reply == DatabaseError <==> counted && !known && seen > 0) &&
      (reply == TicketId(id) <==> seen > 0 && free) &&
      w'.cache == w.cache && w'.redis.processed == w.redis.processed &&
      if seen > 0 && free then
        w'.db == w.db.(nextTicket := id + 1,
                       types := w.db.types[t := w.db.types[t].(sold := w.db.types[t].sold + 1)],
                       tickets := w.db.tickets[id := Ticket(t, owner, RESERVED, now)]) &&
        w'.redis.counters == w.redis.counters[t := seen - 1] &&
        w'.redis.reservations == w.redis.reservations[id := Reservation(t, now)]
      else
        w'.db.types == w.db.types && w'.db.tickets == w.db.tickets && w'.redis.reservations == w.redis.reservations &&
        w'.redis.counters == if counted || known then w.redis.counters[t := seen] else w.redis.counters
  {
    hide Admitted;
    var seen := Seen(w, t);
    AdmittedTakes(w.(redis := w.redis.SetCounter(t, seen - 1)), owner, t, now, seen - 1);
    assert w.redis.counters[t := seen - 1][t := seen] == w.redis.counters[t := seen];
    if t in w.redis.counters { assert w.redis.counters[t := w.redis.counters[t]] == w.redis.counters; }
  }

  lemma StoppedEnds(w: World, owner: nat, t: nat, now: nat, fault: Fault)
    requires Create(w, owner, t, now, NoFault).1.TicketId? && fault != DiesAtOnce && fault != DiesCold
    ensures t in w.db.types && Seen(w, t) > 0 && w.db.types[t].sold < w.db.types[t].quantity
    ensures Create(w, owner, t, now, fault) == Admitted(w.(redis := w.redis.SetCounter(t, Seen(w, t) - 1)), owner, t, now, fault)
  {
    hide Write;
  }

  lemma StoppedReply(w: World, owner: nat, t: nat, now: nat, fault: Fault)
    requires t in w.db.types && w.db.types[t].sold < w.db.types[t].quantity
    requires fault != NoFault && fault != DiesAtOnce && fault != DiesCold && fault != DiesAfterCounter && fault != DiesAfterDrop
    ensures Admitted(w, owner, t, now, fault).1 ==
      if fault == DiesAtGate || fault == DiesBeforeHash || fault == DiesAfterHash || fault == DiesAfterCommit then ProcessDied
      else DatabaseError
  {
  }

  /** A death before any effect leaves everything; one after the warming of a cold counter leaves that. */
  lemma DiesEarly(w: World, owner: nat, t: nat, id: nat, now: nat)
    ensures Create(w, owner, t, now, DiesAtOnce) == (w, ProcessDied) && Delete(w, owner, id, DiesAtOnce) == (w, ProcessDied)
    ensures Pay(w, owner, id, DiesAtOnce) == (w, ProcessDied) && Release(w, id, DiesAtOnce) == (w, ProcessDied)
    ensures t in w.db.types && t !in w.redis.counters ==>
      Create(w, owner, t, now, DiesCold) ==
        (w.(redis := w.redis.(counters := w.redis.counters[t := w.db.types[t].quantity - w.db.types[t].sold])), ProcessDied)
  {
  }

  /** A create that would have succeeded, stopped past the gate: whether the unit is back in the counter,
      the entry in the hash, the ticket in the table. */
  lemma CreateStopped(w: World, owner: nat, t: nat, now: nat, fault: Fault)
    requires Create(w, owner, t, now, NoFault).1.TicketId?
    requires fault != NoFault && fault != DiesAtOnce && fault != DiesCold && fault != DiesAfterCounter && fault != DiesAfterDrop
    ensures var (w', reply) := Create(w, owner, t, now, fault);
      var id := w.db.nextTicket;
      var seen := if t in w.redis.counters then w.redis.counters[t] else w.db.types[t].quantity - w.db.types[t].sold;
      var gone := fault == DiesAtGate || fault == DiesBeforeHash || fault == DiesAfterHash || fault == DiesAfterCommit;
      var stored := fault == AtRefresh || fault == DiesAfterCommit;
      var hashed := stored || fault == DiesAfterHash || fault == AtCommit;
      reply == (if gone then ProcessDied else DatabaseError) && w'.redis.processed == w.redis.processed &&
      w'.redis.counters == w.redis.counters[t := if gone then seen - 1 else seen] &&
      w'.redis.reservations == (if hashed then w.redis.reservations[id := Reservation(t, now)] else w.redis.reservations) &&
      w'.db.tickets == (if stored then w.db.tickets[id := Ticket(t, owner, RESERVED, now)] else w.db.tickets) &&
      w'.db.types == (if stored then w.db.types[t := w.db.types[t].(sold := w.db.types[t].sold + 1)] else w.db.types)
  {
    StoppedEnds(w, owner, t, now, fault);
    StoppedReply(w.(redis := w.redis.SetCounter(t, Seen(w, t) - 1)), owner, t, now, fault);
    C.AdmittedEnds(w, owner, t, now, fault);
    hide Create, Admitted;
    assert w.redis.counters[t := Seen(w, t) - 1][t := Seen(w, t)] == w.redis.counters[t := Seen(w, t)];
    match fault
    case AtUpdate =>
    case AtFlush =>
    case AtCommit =>
    case AtRefresh =>
    case DiesAtGate =>
    case DiesBeforeHash =>
    case DiesAfterHash =>
    case DiesAfterCommit =>
  }

  lemma DeleteRemoves(w: World, owner: nat, id: nat, fault: Fault)
    ensures var (w', reply) := Delete(w, owner, id, fault);
      var mine := id in w.db.tickets && w.db.tickets[id].owner == owner;
      var t := if mine then w.db.tickets[id].typeId else 0;
      var allowed := mine && (t in w.db.types ==> w.db.types[t].sold >= 1);
      var removed := allowed && fault !in {DiesAtOnce, AtUpdate, AtCommit};
      var credited, cleared := removed && fault != DiesAfterCommit, removed && fault !in {DiesAfterCommit, DiesAfterCounter};
      (reply == Completed <==> cleared) && (fault != DiesAtOnce ==> (reply == TicketNotFound <==> !mine)) &&
      w'.db.tickets == (if removed then w.db.tickets - {id} else w.db.tickets) &&
      w'.db.types == (if removed && t in w.db.types then w.db.types[t := w.db.types[t].(sold := w.db.types[t].sold - 1)] else w.db.types) &&
      w'.redis.counters == (if credited && t in w.redis.counters then w.redis.counters[t := w.redis.counters[t] + 1] else w.redis.counters) &&
      w'.redis.reservations == (if cleared then w.redis.reservations - {id} else w.redis.reservations) &&
      w'.db == w.db.(types := w'.db.types, tickets := w'.db.tickets) && w'.redis.processed == w.redis.processed && w'.cache == w.cache
  {
  }

  lemma PaySells(w: World, owner: nat, id: nat, fault: Fault)
    requires fault != DiesAtOnce
    ensures var (w', reply) := Pay(w, owner, id, fault);
      var mine := id in w.db.tickets && w.db.tickets[id].owner == owner;
      var open := mine && w.db.tickets[id].status == RESERVED;
      var sold := open && fault != AtCommit;
      var cleared := sold && fault !in {AtRefresh, DiesAfterCommit};
      (reply == TicketNotFound <==> !mine) &&
      (reply == AlreadyPaid <==> mine && w.db.tickets[id].status == SOLD) &&
      (reply == ReservationExpired <==> mine && w.db.tickets[id].status == CANCELED) &&
      (reply == TicketId(id) <==> cleared) &&
      w'.db == (if sold then w.db.(tickets := w.db.tickets[id := w.db.tickets[id].(status := SOLD)]) else w.db) &&
      w'.redis == (if cleared then w.redis.(reservations := w.redis.reservations - {id}) else w.redis) && w'.cache == w.cache
  {
  }

  lemma ReleaseCancels(w: World, id: nat, fault: Fault)
    ensures var (w', reply) := Release(w, id, fault);
      var open := id in w.db.tickets && w.db.tickets[id].status == RESERVED;
      var t := if open then w.db.tickets[id].typeId else 0;
      var refunded := open && (t in w.db.types ==> w.db.types[t].sold >= 1) && fault !in {DiesAtOnce, AtUpdate};
      var isNew, canceled := refunded && id !in w.redis.processed, refunded && fault !in {AtCommit, DiesAfterCounter};
      w'.db.tickets == (if canceled then w.db.tickets[id := w.db.tickets[id].(status := CANCELED)] else w.db.tickets) &&
      w'.db.types == (if canceled && t in w.db.types then w.db.types[t := w.db.types[t].(sold := w.db.types[t].sold - 1)] else w.db.types) &&
      w'.redis.counters == (if isNew && t in w.redis.counters then w.redis.counters[t := w.redis.counters[t] + 1] else w.redis.counters) &&
      w'.redis.reservations == (if isNew then w.redis.reservations - {id} else w.redis.reservations) &&
      w'.redis.processed == (if isNew then w.redis.processed + {id} else w.redis.processed)
  {
  }

  /** The id that comes next is known to nobody. */
  predicate NextIsNew(w: World) {
    w.db.nextTicket !in w.db.tickets && w.db.nextTicket !in w.redis.reservations && w.db.nextTicket !in w.redis.processed
  }

  /** Deleting what was just created undoes it: only the sequence has moved, and a cold counter is warm. */
  lemma DeleteUndoesCreate(w: World, owner: nat, t: nat, now: nat)
    requires NextIsNew(w) && Create(w, owner, t, now, NoFault).1.TicketId? && w.db.types[t].sold >= 0
    ensures var (w1, created) := Create(w, owner, t, now, NoFault);
      var (w2, reply) := Delete(w1, owner, created.id, NoFault);
      var seen := if t in w.redis.counters then w.redis.counters[t] else w.db.types[t].quantity - w.db.types[t].sold;
      reply == Completed && w2.db == w.db.(nextTicket := w.db.nextTicket + 1) && w2.redis == w.redis.(counters := w.redis.counters[t := seen])
  {
    var id := w.db.nextTicket;
    var w1 := Create(w, owner, t, now, NoFault).0;
    CreateTakes(w, owner, t, now);
    DeleteRemoves(w1, owner, id, NoFault);
    hide Create, Delete;
    var w2 := Delete(w1, owner, id, NoFault).0;
    assert w2.db.tickets == w.db.tickets && w2.redis.reservations == w.redis.reservations && w2.db.types == w.db.types;
    assert w2.db == w.db.(nextTicket := id + 1);
  }

  /** A reservation that is released gives everything back but its row and its place among the processed. */
  lemma ReleaseUndoesCreate(w: World, owner: nat, t: nat, now: nat)
    requires NextIsNew(w) && Create(w, owner, t, now, NoFault).1.TicketId? && w.db.types[t].sold >= 0
    ensures var id := w.db.nextTicket;
      var w2 := Release(Create(w, owner, t, now, NoFault).0, id, NoFault).0;
      var seen := if t in w.redis.counters then w.redis.counters[t] else w.db.types[t].quantity - w.db.types[t].sold;
      w2.db.types == w.db.types && w2.db.tickets == w.db.tickets[id := Ticket(t, owner, CANCELED, now)] &&
      w2.redis.counters == w.redis.counters[t := seen] && w2.redis.reservations == w.redis.reservations &&
      w2.redis.processed == w.redis.processed + {id}
  {
    var id := w.db.nextTicket;
    var w1 := Create(w, owner, t, now, NoFault).0;
    CreateTakes(w, owner, t, now);
    ReleaseCancels(w1, id, NoFault);
    hide Create, Release;
    assert w1.redis.reservations - {id} == w.redis.reservations;
  }

  /** A ticket is paid once; a paid one is out of a release's reach, and a released one cannot be paid. */
  lemma PaidOrReleased(w: World, owner: nat, id: nat)
    requires id in w.db.tickets && w.db.tickets[id].owner == owner && w.db.tickets[id].status == RESERVED
    requires w.db.tickets[id].typeId in w.db.types ==> w.db.types[w.db.tickets[id].typeId].sold >= 1
    ensures var paid := Pay(w, owner, id, NoFault).0;
      Pay(paid, owner, id, NoFault) == (paid, AlreadyPaid) && Release(paid, id, NoFault) == (paid, Completed)
    ensures var released := Release(w, id, NoFault).0;
      Pay(released, owner, id, NoFault) == (released, ReservationExpired) && Release(released, id, NoFault) == (released, Completed)
  {
    PaySells(w, owner, id, NoFault);
    ReleaseCancels(w, id, NoFault);
  }

  // ---------- the batch job ----------

  function LiveTickets(db: Db, t: nat): set<nat> {
    set id | id in db.tickets && db.tickets[id].typeId == t && (db.tickets[id].status == RESERVED || db.tickets[id].status == SOLD)
  }

  /** tickets_sold of every type counts its tickets that are RESERVED or SOLD. */
  ghost predicate Counted(db: Db) {
    forall t :: t in db.types ==> db.types[t].sold == |LiveTickets(db, t)|
  }

  lemma CountedAllows(db: Db, ids: set<nat>)
    requires Counted(db)
    ensures !BatchRefused(db, TypesOf(db, ids))
  {
    forall t | t in db.types ensures L.Gap(db, t) == 0 {
      assert LiveOf(db, t) == LiveTickets(db, t);
    }
    B.LedgerAllowsBatch(db, ids);
  }

  /** Ids with their types, refunded: each existing counter grows by the number of ids of its type that
      were not processed before; those leave the hash, and all of them are processed. */
  ghost predicate Credited(r: Redis, r': Redis, types: map<nat, nat>) {
    r'.processed == r.processed + types.Keys && r'.reservations == r.reservations - (types.Keys - r.processed) &&
    r'.counters.Keys == r.counters.Keys &&
    forall t :: t in r.counters ==> r'.counters[t] == r.counters[t] + |set id | id in types && types[id] == t && id !in r.processed|
  }

  lemma CreditedOnce(r: Redis, types: map<nat, nat>)
    ensures Credited(r, R.RefundSet(r, CreditsOf(types)), types)
  {
    var calls := CreditsOf(types);
    forall id | id in types ensures id in R.Ids(calls) { assert R.Credit(types[id], id) in calls; }
    assert R.Ids(calls) == types.Keys;
    forall t | t in r.counters
      ensures R.NewIds(calls, r.processed, t) == set id | id in types && types[id] == t && id !in r.processed
    {
      forall id | id in types && types[id] == t && id !in r.processed ensures id in R.NewIds(calls, r.processed, t) {
        assert R.Credit(types[id], id) in calls;
      }
    }
  }

  lemma NothingCredited(r: Redis)
    ensures R.RefundSet(r, CreditsOf(map[])) == r
  {
    assert CreditsOf(map[]) == {} == R.CallSet([]);
    R.RefundsAreASet(r, []);
  }

  /** reconcile_hung_tickets: exactly the tickets that are RESERVED and at least `seconds` old are
      cancelled; each takes one off tickets_sold of its type and is refunded, unless it was before. */
  lemma HungCancelsOverdue(w: World, now: nat, seconds: nat, overdue: map<nat, nat>)
    requires Counted(w.db)
    requires forall id :: id in overdue <==>
      id in w.db.tickets && w.db.tickets[id].status == RESERVED && w.db.tickets[id].createdAt <= now - seconds
    requires forall id :: id in overdue ==> overdue[id] == w.db.tickets[id].typeId
    ensures var w' := ReconcileHung(w, now, seconds, Runs).0;
      w'.db.tickets.Keys == w.db.tickets.Keys && w'.db.types.Keys == w.db.types.Keys && w'.db.events == w.db.events &&
      (forall id :: id in overdue ==> w'.db.tickets[id] == w.db.tickets[id].(status := CANCELED)) &&
      (forall id :: id in w.db.tickets && id !in overdue ==> w'.db.tickets[id] == w.db.tickets[id]) &&
      (forall t :: t in w.db.types ==>
        w'.db.types[t] == w.db.types[t].(sold := w.db.types[t].sold - |set id | id in overdue && overdue[id] == t|)) &&
      Credited(w.redis, w'.redis, overdue) && w'.cache == w.cache
  {
    var hung := HungIds(w.db, now - seconds);
    assert overdue == TypesOf(w.db, hung);
    CountedAllows(w.db, hung);
    CreditedOnce(w.redis, overdue);
    hide Credited;
    if hung == {} { B.EmptyBatch(w); }
    assert ReconcileHung(w, now, seconds, Runs).0 == Batch(w, hung, Runs).0;
    forall t ensures P.OfType(overdue, t) == set id | id in overdue && overdue[id] == t { }
  }

  /** A job that stops after the refunds of some ids has refunded those among its tickets, and cancelled none. */
  lemma HungStopped(w: World, now: nat, seconds: nat, stop: Stop, reached: map<nat, nat>)
    requires Counted(w.db) && !stop.Runs?
    requires forall id :: id in reached <==>
      id in w.db.tickets && w.db.tickets[id].status == RESERVED && w.db.tickets[id].createdAt <= now - seconds && id in stop.done
    requires forall id :: id in reached ==> reached[id] == w.db.tickets[id].typeId
    ensures var w' := ReconcileHung(w, now, seconds, stop).0;
      w' == w.(redis := w'.redis) && Credited(w.redis, w'.redis, reached)
  {
    var hung := HungIds(w.db, now - seconds);
    assert reached == Reached(TypesOf(w.db, hung), stop);
    CountedAllows(w.db, hung);
    CreditedOnce(w.redis, reached);
    if hung == {} { NothingCredited(w.redis); }
    hide Credited, CreditsOf, R.RefundSet, TypesOf, HungIds, BatchRefused;
    assert ReconcileHung(w, now, seconds, stop).0 == w.(redis := R.RefundSet(w.redis, CreditsOf(reached)));
  }

  /** A reservation lives for `seconds`: the job of a later moment cancels it if and only if they are over. */
  lemma ReservationDeadline(w: World, owner: nat, t: nat, now: nat, later: nat, seconds: nat)
    requires Counted(w.db) && NextIsNew(w) && Create(w, owner, t, now, NoFault).1.TicketId?
    ensures var id := w.db.nextTicket;
      var w' := ReconcileHung(Create(w, owner, t, now, NoFault).0, later, seconds, Runs).0;
      id in w'.db.tickets && w'.db.tickets[id] == Ticket(t, owner, if later - now >= seconds then CANCELED else RESERVED, now)
  {
    CreateTakes(w, owner, t, now);
    var w1 := Create(w, owner, t, now, NoFault).0;
    hide Create, ReconcileHung;
    CreatedCounted(w.db, w1.db, t, w.db.nextTicket, Ticket(t, owner, RESERVED, now));
    HungCancelsOverdue(w1, later, seconds, map id | id in w1.db.tickets && w1.db.tickets[id].status == RESERVED
      && w1.db.tickets[id].createdAt <= later - seconds :: w1.db.tickets[id].typeId);
  }

  lemma CreatedCounted(db: Db, db': Db, t: nat, id: nat, k: Ticket)
    requires Counted(db) && t in db.types && id !in db.tickets && k.typeId == t && k.status == RESERVED
    requires db'.types == db.types[t := db.types[t].(sold := db.types[t].sold + 1)] && db'.tickets == db.tickets[id := k]
    ensures Counted(db')
  {
    forall u | u in db'.types ensures db'.types[u].sold == |LiveTickets(db', u)| {
      CreatedLive(db, db', id, k, u);
      assert db.types[u].sold == |LiveTickets(db, u)|;
    }
  }

  lemma CreatedLive(db: Db, db': Db, id: nat, k: Ticket, u: nat)
    requires id !in db.tickets && k.status == RESERVED && db'.tickets == db.tickets[id := k]
    ensures |LiveTickets(db', u)| == |LiveTickets(db, u)| + if u == k.typeId then 1 else 0
  {
    var before, after := LiveTickets(db, u), LiveTickets(db', u);
    forall x | x != id ensures x in after <==> x in before { }
    assert after - {id} == before - {id};
    SwapOne(before, after, id);
  }

  // ---------- the collector ----------

  /** reconcile_redis_orphans: exactly the entries older than a minute whose ticket is absent or CANCELED
      are refunded; with a stop, those of them it got to. */
  lemma CollectorTakesOrphans(w: World, now: nat, stop: Stop, gone: map<nat, nat>)
    requires forall id :: id in gone <==>
      id in w.redis.reservations && now - w.redis.reservations[id].timestamp > 60 &&
      (id in w.db.tickets ==> w.db.tickets[id].status == CANCELED) && (stop.Runs? || id in stop.done)
    requires forall id :: id in gone ==> gone[id] == w.redis.reservations[id].typeId
    ensures var w' := Collect(w, now, stop).0; w' == w.(redis := w'.redis) && Credited(w.redis, w'.redis, gone)
  {
    assert gone == Reached(OrphanEntries(w, now), stop);
    CreditedOnce(w.redis, gone);
  }

  /** A create that dies with its entry written: a pass at a later moment gives its unit back if and only
      if more than a minute has passed. */
  lemma GracePeriod(w: World, owner: nat, t: nat, now: nat, later: nat)
    requires NextIsNew(w) && Create(w, owner, t, now, NoFault).1.TicketId?
    ensures var id := w.db.nextTicket;
      var w' := Collect(Create(w, owner, t, now, DiesAfterHash).0, later, Runs).0;
      if later - now > 60 then id in w'.redis.processed && id !in w'.redis.reservations
      else id !in w'.redis.processed && id in w'.redis.reservations
  {
    CreateStopped(w, owner, t, now, DiesAfterHash);
    var w1 := Create(w, owner, t, now, DiesAfterHash).0;
    CollectorTakesOrphans(w1, later, Runs, map x | x in w1.redis.reservations && later - w1.redis.reservations[x].timestamp > 60
      && (x in w1.db.tickets ==> w1.db.tickets[x].status == CANCELED) :: w1.redis.reservations[x].typeId);
    C.AdmittedEnds(w, owner, t, now, DiesAfterHash);
  }

  // ---------- ticket types ----------

  /** How far the commands after a commit get: the counter, the deletion of the cached detail, the bump. */
  datatype Reach = Reach(counted: bool, dropped: bool, bumped: bool)

  function ReachOf(fault: Fault): Reach {
    var counted := fault != AtRefresh && fault != DiesAfterCommit;
    var dropped := counted && fault != DiesAfterCounter;
    Reach(counted, dropped, dropped && fault != DiesAfterDrop)
  }

  /** The cache after a change to event e that got that far: the version goes up by one, from zero when
      it is missing, and no page is touched. */
  predicate Invalidated(before: Cache, after: Cache, e: nat, reach: Reach) {
    after.details == (if reach.dropped then before.details - {e} else before.details) && after.pages == before.pages &&
    after.version == if reach.bumped then Some(1 + if before.version.Some? then before.version.value else 0) else before.version
  }

  /** A creation is accepted if and only if the event exists, the price is not negative and the quantity
      is positive; the row then has the given fields and nothing sold, and the counter is the quantity. */
  lemma CreateTypeStores(w: World, e: nat, name: string, price: int, quantity: int, fault: Fault)
    requires fault != DiesAtOnce
    ensures var (w', reply) := CreateType(w, e, name, price, quantity, fault);
      var t, ok, reach := w.db.nextType, e in w.db.events && price >= 0 && quantity > 0 && fault != AtCommit, ReachOf(fault);
      (reply == TypeId(t) <==> ok && reach.bumped) && (!ok ==> reply == DatabaseError) &&
      w'.db == w.db.(nextType := t + 1, types := if ok then w.db.types[t := TypeRow(e, name, price, quantity, 0)] else w.db.types) &&
      w'.redis == (if ok && reach.counted then w.redis.(counters := w.redis.counters[t := quantity]) else w.redis) &&
      if ok then Invalidated(w.cache, w'.cache, e, reach) else w'.cache == w.cache
  {
  }

  lemma SavedStores(w: World, t: nat, row: TypeRow, setsQuantity: bool, fault: Fault)
    requires row.Ok() && fault != AtCommit && fault != DiesAtOnce
    ensures var (w', reply) := SaveType(w, t, row, setsQuantity, fault);
      var reach := ReachOf(fault);
      (reply == TypeId(t) <==> reach.bumped) && w'.db == w.db.(types := w.db.types[t := row]) &&
      w'.redis == (if setsQuantity && reach.counted then w.redis.(counters := w.redis.counters[t := row.quantity - row.sold]) else w.redis) &&
      Invalidated(w.cache, w'.cache, row.eventId, reach)
  {
  }

  /** An update is accepted if and only if, with the fields it names in place, the price is not negative,
      the quantity is positive and nothing more is sold; the counter is set when a quantity is named. */
  lemma UpdateTypeStores(w: World, t: nat, u: TypeUpdate, fault: Fault)
    requires t in w.db.types && fault != DiesAtOnce
    ensures var (w', reply) := UpdateType(w, t, u, fault);
      var row, reach := w.db.types[t], ReachOf(fault);
      var name := match u.name { case Some(x) => x case None => row.name };
      var price := match u.price { case Some(x) => x case None => row.price };
      var quantity := match u.quantity { case Some(x) => x case None => row.quantity };
      var empty := u.name == None && u.price == None && u.quantity == None;
      var tooSmall := u.quantity.Some? && quantity < row.sold;
      var ok := price >= 0 && quantity > 0 && 0 <= row.sold <= quantity && fault != AtCommit;
      (reply == TypeId(t) <==> empty || (ok && reach.bumped)) &&
      (reply == QuantityTooSmall <==> !empty && tooSmall) && (!empty && !tooSmall && !ok ==> reply == DatabaseError) &&
      if !empty && ok then
        w'.db == w.db.(types := w.db.types[t := TypeRow(row.eventId, name, price, quantity, row.sold)]) &&
        w'.redis == (if u.quantity.Some? && reach.counted then w.redis.(counters := w.redis.counters[t := quantity - row.sold]) else w.redis) &&
        Invalidated(w.cache, w'.cache, row.eventId, reach)
      else w' == w
  {
    var row := Merge(w.db.types[t], u);
    if row.Ok() && fault != AtCommit {
      SavedStores(w, t, row, u.quantity.Some?, fault);
      hide SaveType, Invalidated;
    }
  }

  /** A deletion is accepted if and only if no ticket refers to the type. */
  lemma DeleteTypeRemoves(w: World, t: nat, fault: Fault)
    requires fault != DiesAtOnce && fault != AtFlush && fault != AtCommit && fault != AtRefresh
    ensures var (w', reply) := DeleteType(w, t, fault);
      var used, reach := exists id :: id in w.db.tickets && w.db.tickets[id].typeId == t, ReachOf(fault);
      (reply == TypeNotFound <==> t !in w.db.types) && (reply == DeleteRefused <==> t in w.db.types && used) &&
      (reply == Completed <==> t in w.db.types && !used && reach.bumped) &&
      if t in w.db.types && !used then
        w'.db == w.db.(types := w.db.types - {t}) &&
        w'.redis == (if reach.counted then w.redis.(counters := w.redis.counters - {t}) else w.redis) &&
        Invalidated(w.cache, w'.cache, w.db.types[t].eventId, reach)
      else w' == w
  {
  }

  /** A type that was just created sells exactly its quantity before any ticket comes back: the next
      create gets a ticket, and leaves quantity - 1 in the counter. */
  lemma NewTypeSells(w: World, e: nat, name: string, price: int, quantity: int, owner: nat, now: nat)
    requires e in w.db.events && price >= 0 && quantity > 0
    ensures var t := w.db.nextType;
      var (w', reply) := Create(CreateType(w, e, name, price, quantity, NoFault).0, owner, t, now, NoFault);
      reply == TicketId(w.db.nextTicket) && t in w'.db.types && w'.db.types[t] == TypeRow(e, name, price, quantity, 1) &&
      t in w'.redis.counters && w'.redis.counters[t] == quantity - 1
  {
    CreateTypeStores(w, e, name, price, quantity, NoFault);
    CreateTakes(CreateType(w, e, name, price, quantity, NoFault).0, owner, w.db.nextType, now);
  }

  // ---------- events ----------

  /** The row of a created event is new and has the given attributes, and the next read answers them. */
  lemma CreateEventStores(w: World, attrs: map<string, string>, fault: Fault)
    requires V.Coherent(w) && fault != DiesAtOnce && fault != AtCommit
    ensures var (w', reply) := CreateEvent(w, attrs, fault);
      var e, reach := w.db.nextEvent, Reach(true, fault != DiesAfterCommit, fault != DiesAfterCommit && fault != DiesAfterDrop);
      (reply == EventId(e) <==> reach.bumped) && e !in w.db.events && e in w'.db.events && w'.db.events[e].attrs == attrs &&
      w'.db == w.db.(events := w'.db.events, nextEvent := e + 1) && w'.db.events - {e} == w.db.events && w'.redis == w.redis &&
      Invalidated(w.cache, w'.cache, e, reach) && GetEvent(w', e).1.EventDetail? && GetEvent(w', e).1.detail.attrs == attrs
  {
    var e, w' := w.db.nextEvent, CreateEvent(w, attrs, fault).0;
    assert e !in w.cache.details;
    assert w'.db.events - {e} == w.db.events;
  }

  /** An update sets the attributes it names and keeps the others, in the row and in the next read. */
  lemma UpdateEventStores(w: World, e: nat, u: map<string, string>)
    requires V.Coherent(w) && e in w.db.events
    ensures var (w', reply) := UpdateEvent(w, e, u, NoFault);
      reply == EventId(e) && w'.db == w.db.(events := w'.db.events) && w'.db.events - {e} == w.db.events - {e} && w'.redis == w.redis &&
      (forall k :: k in w'.db.events[e].attrs <==> k in u || k in w.db.events[e].attrs) &&
      (forall k :: k in w'.db.events[e].attrs ==> w'.db.events[e].attrs[k] == if k in u then u[k] else w.db.events[e].attrs[k]) &&
      (u != map[] ==> Invalidated(w.cache, w'.cache, e, Reach(true, true, true))) && SaysRows(w'.db, e, GetEvent(w', e).1)
  {
    var w' := UpdateEvent(w, e, u, NoFault).0;
    assert w'.db.events - {e} == w.db.events - {e};
    if u == map[] { V.ReadsSayRows(w, e, 0, 0); }
  }

  /** A deletion is accepted if and only if no ticket type refers to the event; the next read finds nothing. */
  lemma DeleteEventRemoves(w: World, e: nat)
    ensures var (w', reply) := DeleteEvent(w, e, NoFault);
      var used := exists t :: t in w.db.types && w.db.types[t].eventId == e;
      reply == (if e !in w.db.events then EventNotFound else if used then DeleteRefused else Completed) &&
      if reply == Completed then
        w'.db == w.db.(events := w.db.events - {e}) && w'.redis == w.redis && Invalidated(w.cache, w'.cache, e, Reach(true, true, true)) &&
        GetEvent(w', e) == (w', EventNotFound)
      else w' == w
  {
  }

  /** An event change that ends after its commit and before its invalidation has changed the row all the same. */
  lemma EventChangeStopped(w: World, e: nat, u: map<string, string>, fault: Fault)
    requires fault == DiesAfterCommit || fault == DiesAfterDrop
    ensures var reach := Reach(true, fault == DiesAfterDrop, false);
      (e in w.db.events && u != map[] ==>
        UpdateEvent(w, e, u, fault).1 == ProcessDied && UpdateEvent(w, e, u, fault).0.db == UpdateEvent(w, e, u, NoFault).0.db &&
        Invalidated(w.cache, UpdateEvent(w, e, u, fault).0.cache, e, reach)) &&
      (DeleteEvent(w, e, NoFault).1 == Completed ==>
        DeleteEvent(w, e, fault).1 == ProcessDied && DeleteEvent(w, e, fault).0.db == DeleteEvent(w, e, NoFault).0.db &&
        Invalidated(w.cache, DeleteEvent(w, e, fault).0.cache, e, reach))
  {
  }

  /** A statement or commit that fails leaves no trace but a drawn id. */
  lemma EventChangeFails(w: World, e: nat, u: map<string, string>, attrs: map<string, string>)
    ensures CreateEvent(w, attrs, AtCommit) == (w.(db := w.db.(nextEvent := w.db.nextEvent + 1)), DatabaseError)
    ensures e in w.db.events && u != map[] ==> UpdateEvent(w, e, u, AtCommit) == (w, DatabaseError)
    ensures DeleteEvent(w, e, NoFault).1 == Completed ==>
      DeleteEvent(w, e, AtFlush) == (w, DatabaseError) && DeleteEvent(w, e, AtCommit) == (w, DatabaseError)
  {
  }
}
