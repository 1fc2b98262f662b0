/** What every operation keeps, and exactly when it does not: counters, ledger, hash and processed set
    against the database, for every place where an operation can fail or die. */
module Consistency {
  import opened Stores
  import opened Protocol
  import opened Refunds
  import opened Operations
  import opened Batching
  import I = Invariants
  import L = Ledger

  // ---------- the invariant ----------

  ghost predicate TablesOk(db: Db) {
    I.DbOk(db) &&
    (forall t :: t in db.types ==> db.types[t].eventId in db.events) &&
    (forall e :: e in db.events ==> e < db.nextEvent)
  }

  /** tickets_sold of each type is its number of RESERVED or SOLD tickets. */
  ghost predicate LedgerOk(db: Db) {
    forall t :: t in db.types ==> L.Gap(db, t) == 0
  }

  /** Entries without a ticket: of creates that died between the hash write and the commit, and of
      reserved tickets whose delete died after its commit. */
  function OrphansOf(w: World, t: nat): set<nat> {
    set id | id in w.redis.reservations && w.redis.reservations[id].typeId == t && id !in w.db.tickets
  }

  /** A counter misses only the units held by orphaned entries. */
  ghost predicate CountersOk(w: World) {
    forall t :: t in w.redis.counters ==>
      t in w.db.types && w.redis.counters[t] + |OrphansOf(w, t)| == w.db.types[t].quantity - w.db.types[t].sold
  }

  /** An entry belongs to a reserved ticket, or to an orphan not refunded yet. */
  ghost predicate EntryOk(w: World, id: nat, r: Reservation) {
    id < w.db.nextTicket && r.typeId < w.db.nextType &&
    if id in w.db.tickets then I.Reserved(w.db, id, r.typeId)
    else id !in w.redis.processed && (r.typeId in w.db.types ==> r.typeId in w.redis.counters)
  }

  ghost predicate HashOk(w: World) {
    (forall id :: id in w.redis.reservations ==> EntryOk(w, id, w.redis.reservations[id])) &&
    (forall id :: IsReserved(w.db, id) ==> id in w.redis.reservations)
  }

  ghost predicate ProcessedOk(w: World) {
    forall id :: id in w.redis.processed ==> id < w.db.nextTicket && !(id in w.db.tickets && w.db.tickets[id].Live())
  }

  ghost predicate Sound(w: World) {
    TablesOk(w.db) && LedgerOk(w.db) && CountersOk(w) && HashOk(w) && ProcessedOk(w)
  }

  /** No orphans either: the two stores agree. */
  ghost predicate Consistent(w: World) {
    Sound(w) && Covered(w)
  }

  ghost predicate Covered(w: World) {
    w.redis.reservations.Keys <= w.db.tickets.Keys
  }

  // ---------- the faults that matter ----------

  predicate Harmless(w: World, op: Op) {
    match op
    case DoCreate(_, t, _, fault) => !(Seen(w, t) > 0 && fault in {AtCommit, AtRefresh, DiesAtGate, DiesBeforeHash})
    case DoDelete(owner, id, fault) => Deletes(w, owner, id, fault) ==> HarmlessDelete(w, id, fault)
    case DoPay(owner, id, fault) =>
      !(fault in {AtRefresh, DiesAfterCommit} && Owns(w, owner, id) && IsReserved(w.db, id))
    case DoRelease(id, fault) => !(fault in {AtCommit, DiesAfterCounter} && IsReserved(w.db, id))
    case DoReconcileHung(now, seconds, stop) => stop.Runs? || stop.done * HungIds(w.db, now - seconds) == {}
    case DoUpdateType(t, u, fault) => HarmlessUpdate(w, t, u, fault)
    case DoDeleteType(t, fault) => !(fault == DiesAfterCommit && Drops(w, t) && t in w.redis.counters)
    case _ => true
  }

  /** The delete reaches its commit, and the commit stands. */
  predicate Deletes(w: World, owner: nat, id: nat, fault: Fault) {
    Owns(w, owner, id) && fault !in {DiesAtOnce, AtUpdate, AtCommit} && CanSubtract(w.db, w.db.tickets[id].typeId, 1)
  }

  /** A CANCELED ticket must not be deleted at all. A death before the credit is mended by the collector
      when the entry of a RESERVED ticket is left, and by nobody for a SOLD one; a death before the HDEL
      leaves an entry whose unit is back already. */
  predicate HarmlessDelete(w: World, id: nat, fault: Fault)
    requires id in w.db.tickets
  {
    match w.db.tickets[id].status
    case CANCELED => false
    case RESERVED => if fault == DiesAfterCommit then w.db.tickets[id].typeId in w.redis.counters else fault != DiesAfterCounter
    case SOLD => fault == DiesAfterCommit ==> w.db.tickets[id].typeId !in w.redis.counters
  }

  /** A SET of the counter forgets orphans; an end between the commit and the SET leaves it stale. */
  predicate HarmlessUpdate(w: World, t: nat, u: TypeUpdate, fault: Fault) {
    Updates(w, t, u, fault) && u.quantity.Some? ==>
      if Unsynced(fault) then u.quantity.value == w.db.types[t].quantity || t !in w.redis.counters
      else OrphansOf(w, t) == {}
  }

  /** The update reaches its commit, and the commit stands. */
  predicate Updates(w: World, t: nat, u: TypeUpdate, fault: Fault) {
    t in w.db.types && !u.Empty() && (u.quantity.Some? ==> w.db.types[t].sold <= u.quantity.value)
    && Merge(w.db.types[t], u).Ok() && fault != AtCommit && fault != DiesAtOnce
  }

  predicate Unsynced(fault: Fault) {
    fault == AtRefresh || fault == DiesAfterCommit
  }

  predicate Drops(w: World, t: nat) {
    t in w.db.types && forall id :: id in w.db.tickets ==> w.db.tickets[id].typeId != t
  }

  // ---------- one ticket at a time ----------

  predicate LiveIn(w: World, id: nat) {
    id in w.db.tickets && w.db.tickets[id].Live()
  }

  predicate OrphanIn(w: World, id: nat) {
    id in w.redis.reservations && id !in w.db.tickets
  }

  /** Only the ticket `id` and tickets_sold of its type t differ. */
  ghost predicate DbMoved(db: Db, db': Db, id: nat, t: nat) {
    t in db.types && db'.types.Keys == db.types.Keys && db'.types == db.types[t := db.types[t].(sold := db'.types[t].sold)] &&
    db'.events == db.events && db'.nextEvent == db.nextEvent && db'.nextType == db.nextType && db'.nextTicket >= db.nextTicket &&
    (forall x :: x != id ==> (x in db'.tickets <==> x in db.tickets)) &&
    (forall x :: x != id && x in db.tickets ==> db'.tickets[x] == db.tickets[x]) &&
    (id in db.tickets ==> db.tickets[id].typeId == t) && (id in db'.tickets ==> db'.tickets[id].typeId == t)
  }

  /** Only the entries of `id` and the counter of t differ. */
  ghost predicate RedisMoved(r: Redis, r': Redis, id: nat, t: nat) {
    r'.counters.Keys == r.counters.Keys && (forall u :: u != t && u in r.counters ==> r'.counters[u] == r.counters[u]) &&
    (forall x :: x != id ==> (x in r'.reservations <==> x in r.reservations) && (x in r'.processed <==> x in r.processed)) &&
    (forall x :: x != id && x in r.reservations ==> r'.reservations[x] == r.reservations[x]) &&
    (id in r.reservations ==> r.reservations[id].typeId == t) && (id in r'.reservations ==> r'.reservations[id].typeId == t)
  }

  lemma MovedTables(db: Db, db': Db, id: nat, t: nat)
    requires TablesOk(db) && DbMoved(db, db', id, t) && db'.types[t].Ok() && id < db'.nextTicket
    ensures TablesOk(db')
  {
  }

  lemma MovedLedger(w: World, w': World, id: nat, t: nat)
    requires LedgerOk(w.db) && DbMoved(w.db, w'.db, id, t)
    requires w'.db.types[t].sold - w.db.types[t].sold == Bit(LiveIn(w', id)) - Bit(LiveIn(w, id))
    ensures LedgerOk(w'.db)
  {
    forall u | u in w'.db.types ensures L.Gap(w'.db, u) == 0 {
      assert L.Gap(w.db, u) == 0;
      assert LiveOf(w'.db, u) - {id} == LiveOf(w.db, u) - {id};
      assert id in LiveOf(w.db, u) <==> u == t && LiveIn(w, id);
      assert id in LiveOf(w'.db, u) <==> u == t && LiveIn(w', id);
      SwapOne(LiveOf(w.db, u), LiveOf(w'.db, u), id);
    }
  }

  lemma MovedCounters(w: World, w': World, id: nat, t: nat)
    requires CountersOk(w) && DbMoved(w.db, w'.db, id, t) && RedisMoved(w.redis, w'.redis, id, t)
    requires t in w.redis.counters ==>
      w'.redis.counters[t] - w.redis.counters[t] + Bit(OrphanIn(w', id)) - Bit(OrphanIn(w, id))
        == w.db.types[t].sold - w'.db.types[t].sold
    ensures CountersOk(w')
  {
    forall u | u in w'.redis.counters
      ensures u in w'.db.types
      ensures w'.redis.counters[u] + |OrphansOf(w', u)| == w'.db.types[u].quantity - w'.db.types[u].sold
    {
      assert OrphansOf(w', u) - {id} == OrphansOf(w, u) - {id};
      assert id in OrphansOf(w, u) <==> u == t && OrphanIn(w, id);
      assert id in OrphansOf(w', u) <==> u == t && OrphanIn(w', id);
      SwapOne(OrphansOf(w, u), OrphansOf(w', u), id);
    }
  }

  lemma MovedHash(w: World, w': World, id: nat, t: nat)
    requires HashOk(w) && ProcessedOk(w) && DbMoved(w.db, w'.db, id, t) && RedisMoved(w.redis, w'.redis, id, t)
    requires id in w'.redis.reservations ==> EntryOk(w', id, w'.redis.reservations[id])
    requires IsReserved(w'.db, id) ==> id in w'.redis.reservations
    requires id in w'.redis.processed ==> id < w'.db.nextTicket && !LiveIn(w', id)
    ensures HashOk(w') && ProcessedOk(w')
  {
    forall x | x in w'.redis.reservations ensures EntryOk(w', x, w'.redis.reservations[x]) {
      if x != id { assert EntryOk(w, x, w.redis.reservations[x]); }
    }
    forall x | IsReserved(w'.db, x) ensures x in w'.redis.reservations {
      if x != id { assert IsReserved(w.db, x); }
    }
  }

  /** What a move of one ticket must satisfy, at that ticket and its type alone. */
  lemma MovedSound(w: World, w': World, id: nat, t: nat)
    requires Sound(w) && DbMoved(w.db, w'.db, id, t) && RedisMoved(w.redis, w'.redis, id, t)
    requires w'.db.types[t].Ok() && id < w'.db.nextTicket
    requires w'.db.types[t].sold - w.db.types[t].sold == Bit(LiveIn(w', id)) - Bit(LiveIn(w, id))
    requires t in w.redis.counters ==>
      w'.redis.counters[t] - w.redis.counters[t] + Bit(OrphanIn(w', id)) - Bit(OrphanIn(w, id))
        == w.db.types[t].sold - w'.db.types[t].sold
    requires id in w'.redis.reservations ==> EntryOk(w', id, w'.redis.reservations[id])
    requires IsReserved(w'.db, id) ==> id in w'.redis.reservations
    requires id in w'.redis.processed ==> !LiveIn(w', id)
    ensures Sound(w')
  {
    MovedTables(w.db, w'.db, id, t);
    MovedLedger(w, w', id, t);
    MovedCounters(w, w', id, t);
    MovedHash(w, w', id, t);
  }

  // ---------- create ----------

  function Warm(w: World, t: nat): World {
    w.(redis := w.redis.SetCounter(t, Seen(w, t)))
  }

  lemma ColdHasNoOrphans(w: World, t: nat)
    requires HashOk(w) && t in w.db.types && t !in w.redis.counters
    ensures OrphansOf(w, t) == {}
  {
    assert forall id :: id in w.redis.reservations ==> EntryOk(w, id, w.redis.reservations[id]);
  }

  lemma WarmSound(w: World, t: nat)
    requires Sound(w) && t in w.db.types
    ensures Sound(Warm(w, t)) && OrphansOf(Warm(w, t), t) == OrphansOf(w, t)
  {
    var w' := Warm(w, t);
    if t !in w.redis.counters { ColdHasNoOrphans(w, t); }
    assert forall u :: OrphansOf(w', u) == OrphansOf(w, u);
    forall id | id in w.redis.reservations ensures EntryOk(w', id, w.redis.reservations[id]) {
      assert EntryOk(w, id, w.redis.reservations[id]);
    }
  }

  lemma NewIdIsFresh(w: World)
    requires Sound(w)
    ensures var id := w.db.nextTicket;
      id !in w.db.tickets && id !in w.redis.reservations && id !in w.redis.processed
  {
    var id := w.db.nextTicket;
    assert id in w.redis.reservations ==> EntryOk(w, id, w.redis.reservations[id]);
  }

  /** A create after its hash write, its transaction still open. */
  function Stamped(w: World, t: nat, now: nat): World {
    w.(db := w.db.(nextTicket := w.db.nextTicket + 1),
       redis := w.redis.SetCounter(t, Seen(w, t) - 1).Hset(w.db.nextTicket, Reservation(t, now)))
  }

  function Stored(w: World, owner: nat, t: nat, now: nat): World {
    Stamped(w, t, now).(db := w.db.(nextTicket := w.db.nextTicket + 1, types := AddSold(w.db.types, t, 1),
                                    tickets := w.db.tickets[w.db.nextTicket := Ticket(t, owner, RESERVED, now)]))
  }

  /** A create that dies there leaves an orphan and nothing else. */
  lemma StampedSound(w: World, t: nat, now: nat)
    requires Sound(w) && t in w.db.types
    ensures Sound(Stamped(w, t, now)) && w.db.nextTicket in OrphansOf(Stamped(w, t, now), t)
  {
    WarmSound(w, t);
    NewIdIsFresh(w);
    MovedSound(Warm(w, t), Stamped(w, t, now), w.db.nextTicket, t);
  }

  lemma StoredSound(w: World, owner: nat, t: nat, now: nat)
    requires Sound(w) && t in w.db.types && w.db.types[t].sold < w.db.types[t].quantity
    ensures Sound(Stored(w, owner, t, now))
  {
    WarmSound(w, t);
    NewIdIsFresh(w);
    MovedSound(Warm(w, t), Stored(w, owner, t, now), w.db.nextTicket, t);
  }

  /** A counter that is off by anything, with tables and entries of a type as they were. */
  lemma WrongCounter(w: World, w': World, t: nat)
    requires CountersOk(w) && t in w.redis.counters && t in w'.redis.counters
    requires w'.redis.counters[t] != w.redis.counters[t] && w'.redis.reservations == w.redis.reservations
    requires w'.db.tickets == w.db.tickets && w'.db.types == w.db.types
    ensures !CountersOk(w')
  {
    assert OrphansOf(w', t) == OrphansOf(w, t);
  }

  lemma SeenIsRoom(w: World, t: nat)
    requires Sound(w) && Seen(w, t) > 0
    ensures t in w.db.types && w.db.types[t].sold < w.db.types[t].quantity
  {
  }

  /** A create after the gate, and after the flush of its INSERT: nothing tells the stores about it. */
  function Taken(w: World, t: nat, drawn: bool): World {
    w.(db := w.db.(nextTicket := w.db.nextTicket + if drawn then 1 else 0), redis := w.redis.SetCounter(t, Seen(w, t) - 1))
  }

  lemma AdmittedEnds(w: World, owner: nat, t: nat, now: nat, fault: Fault)
    requires t in w.db.types && Seen(w, t) > 0 && w.db.types[t].sold < w.db.types[t].quantity
    ensures var w' := Admitted(w.(redis := w.redis.SetCounter(t, Seen(w, t) - 1)), owner, t, now, fault).0;
      var s, d := Stamped(w, t, now), Stored(w, owner, t, now);
      match fault
      case AtUpdate => w' == Warm(w, t)
      case AtFlush => w' == Warm(w, t)
      case DiesAtGate => w' == Taken(w, t, false)
      case DiesBeforeHash => w' == Taken(w, t, true)
      case DiesAfterHash => w' == s
      case AtCommit => w' == s.(redis := s.redis.Incr(t))
      case AtRefresh => w' == d.(redis := s.redis.Incr(t))
      case _ => w' == d
  {
    assert w.redis.SetCounter(t, Seen(w, t) - 1).Incr(t) == w.redis.SetCounter(t, Seen(w, t));
  }

  /** Where a create can end. */
  lemma CreateEnds(w: World, owner: nat, t: nat, now: nat, fault: Fault)
    requires Sound(w)
    ensures var p := Create(w, owner, t, now, fault);
      if t !in w.db.types || fault == DiesAtOnce then p.0 == w
      else if Seen(w, t) <= 0 || (fault == DiesCold && t !in w.redis.counters) then p.0 == Warm(w, t)
      else p == Admitted(w.(redis := w.redis.SetCounter(t, Seen(w, t) - 1)), owner, t, now, fault)
  {
  }

  lemma LostUnits(w: World, t: nat, drawn: bool)
    requires Sound(w) && t in w.db.types
    ensures !Sound(Taken(w, t, drawn))
  {
    WarmSound(w, t);
    WrongCounter(Warm(w, t), Taken(w, t, drawn), t);
  }

  lemma DoubleCredits(w: World, owner: nat, t: nat, now: nat)
    requires Sound(w) && t in w.db.types && Seen(w, t) > 0
    ensures !Sound(Stamped(w, t, now).(redis := Stamped(w, t, now).redis.Incr(t)))
    ensures !Sound(Stored(w, owner, t, now).(redis := Stamped(w, t, now).redis.Incr(t)))
  {
    var s, d := Stamped(w, t, now), Stored(w, owner, t, now);
    StampedSound(w, t, now);
    StoredSound(w, owner, t, now);
    WrongCounter(s, s.(redis := s.redis.Incr(t)), t);
    WrongCounter(d, d.(redis := s.redis.Incr(t)), t);
  }

  lemma AdmittedExactly(w: World, owner: nat, t: nat, now: nat, fault: Fault)
    requires Sound(w) && t in w.db.types && Seen(w, t) > 0
    ensures Sound(Create(w, owner, t, now, fault).0) <==> fault !in {AtCommit, AtRefresh, DiesAtGate, DiesBeforeHash}
  {
    SeenIsRoom(w, t);
    CreateEnds(w, owner, t, now, fault);
    AdmittedEnds(w, owner, t, now, fault);
    WarmSound(w, t);
    match fault
    case DiesAtGate => LostUnits(w, t, false);
    case DiesBeforeHash => LostUnits(w, t, true);
    case DiesAfterHash => StampedSound(w, t, now);
    case AtCommit => DoubleCredits(w, owner, t, now);
    case AtRefresh => DoubleCredits(w, owner, t, now);
    case _ => StoredSound(w, owner, t, now);
  }

  lemma CreateExactly(w: World, op: Op)
    requires Sound(w) && op.DoCreate?
    ensures Sound(Apply(w, op).0) <==> Harmless(w, op)
  {
    if op.t in w.db.types && Seen(w, op.t) > 0 {
      AdmittedExactly(w, op.owner, op.t, op.now, op.fault);
    } else {
      CreateEnds(w, op.owner, op.t, op.now, op.fault);
      if op.t in w.db.types { WarmSound(w, op.t); }
    }
  }

  // ---------- delete, pay, release ----------

  lemma LiveIsCounted(db: Db, id: nat)
    requires LedgerOk(db) && I.DbOk(db) && id in db.tickets && db.tickets[id].Live()
    ensures db.tickets[id].typeId in db.types && db.types[db.tickets[id].typeId].sold >= 1
  {
    var t := db.tickets[id].typeId;
    assert id in LiveOf(db, t);
    assert L.Gap(db, t) == 0;
  }

  lemma EntryOfTicket(w: World, id: nat)
    requires HashOk(w) && id in w.db.tickets
    ensures id in w.redis.reservations <==> IsReserved(w.db, id)
    ensures id in w.redis.reservations ==> w.redis.reservations[id].typeId == w.db.tickets[id].typeId
  {
    if id in w.redis.reservations { assert EntryOk(w, id, w.redis.reservations[id]); }
  }

  lemma DeleteFrame(w: World, owner: nat, id: nat, fault: Fault)
    requires Deletes(w, owner, id, fault)
    ensures var t, w' := w.db.tickets[id].typeId, Delete(w, owner, id, fault).0;
      w'.db == w.db.(types := AddSold(w.db.types, t, -1), tickets := w.db.tickets - {id}) &&
      w'.redis == if fault == DiesAfterCommit then w.redis
                  else if fault == DiesAfterCounter then w.redis.SafeIncr(t) else w.redis.SafeIncr(t).Hdel(id)
  {
  }

  lemma RemovedMoves(db: Db, id: nat)
    requires id in db.tickets && db.tickets[id].typeId in db.types
    ensures var t := db.tickets[id].typeId;
      DbMoved(db, db.(types := AddSold(db.types, t, -1), tickets := db.tickets - {id}), id, t)
  {
  }

  lemma CreditedMoves(r: Redis, id: nat, t: nat)
    requires id in r.reservations ==> r.reservations[id].typeId == t
    ensures RedisMoved(r, r, id, t) && RedisMoved(r, r.SafeIncr(t), id, t) && RedisMoved(r, r.SafeIncr(t).Hdel(id), id, t)
  {
  }

  /** What the delete of a live ticket moves, wherever it ends. */
  lemma DeleteMoves(w: World, owner: nat, id: nat, fault: Fault)
    requires Sound(w) && Deletes(w, owner, id, fault) && w.db.tickets[id].Live()
    ensures var t, w' := w.db.tickets[id].typeId, Delete(w, owner, id, fault).0;
      DbMoved(w.db, w'.db, id, t) && RedisMoved(w.redis, w'.redis, id, t) &&
      id !in w'.db.tickets && w'.db.types[t].sold == w.db.types[t].sold - 1 && w'.redis.processed == w.redis.processed &&
      (id in w'.redis.reservations <==> IsReserved(w.db, id) && fault in {DiesAfterCommit, DiesAfterCounter}) &&
      (t in w.redis.counters ==> w'.redis.counters[t] == w.redis.counters[t] + Bit(fault != DiesAfterCommit))
  {
    var t := w.db.tickets[id].typeId;
    DeleteFrame(w, owner, id, fault);
    LiveIsCounted(w.db, id);
    EntryOfTicket(w, id);
    hide Delete, Sound, DbMoved, RedisMoved;
    RemovedMoves(w.db, id);
    CreditedMoves(w.redis, id, t);
  }

  /** The delete of a live ticket, ended wherever the counter and the entry still account for it. */
  lemma DeletedSound(w: World, owner: nat, id: nat, fault: Fault)
    requires Sound(w) && Deletes(w, owner, id, fault) && HarmlessDelete(w, id, fault)
    ensures Sound(Delete(w, owner, id, fault).0)
  {
    DeleteMoves(w, owner, id, fault);
    LiveIsCounted(w.db, id);
    EntryOfTicket(w, id);
    MovedSound(w, Delete(w, owner, id, fault).0, id, w.db.tickets[id].typeId);
  }

  lemma CanceledDeleteUnsound(w: World, owner: nat, id: nat, fault: Fault)
    requires Sound(w) && Deletes(w, owner, id, fault) && w.db.tickets[id].status == CANCELED
    ensures !LedgerOk(Delete(w, owner, id, fault).0.db)
  {
    var t, w' := w.db.tickets[id].typeId, Delete(w, owner, id, fault).0;
    assert LiveOf(w'.db, t) == LiveOf(w.db, t);
    assert L.Gap(w.db, t) == 0;
    assert L.Gap(w'.db, t) == 1;
  }

  /** A live ticket is gone, and counter and entry do not account for its unit exactly once. */
  lemma BadDeleteUnsound(w: World, owner: nat, id: nat, fault: Fault)
    requires Sound(w) && Deletes(w, owner, id, fault) && !HarmlessDelete(w, id, fault) && w.db.tickets[id].Live()
    ensures !(CountersOk(Delete(w, owner, id, fault).0) && HashOk(Delete(w, owner, id, fault).0))
  {
    var t, w' := w.db.tickets[id].typeId, Delete(w, owner, id, fault).0;
    EntryOfTicket(w, id);
    if t in w.redis.counters {
      assert OrphansOf(w', t) - {id} == OrphansOf(w, t) - {id};
      SwapOne(OrphansOf(w, t), OrphansOf(w', t), id);
    } else {
      assert !EntryOk(w', id, w'.redis.reservations[id]);
    }
  }

  lemma DeleteExactly(w: World, op: Op)
    requires Sound(w) && op.DoDelete?
    ensures Sound(Apply(w, op).0) <==> Harmless(w, op)
  {
    if Deletes(w, op.owner, op.id, op.fault) {
      if HarmlessDelete(w, op.id, op.fault) { DeletedSound(w, op.owner, op.id, op.fault); }
      else if w.db.tickets[op.id].Live() { BadDeleteUnsound(w, op.owner, op.id, op.fault); }
      else { CanceledDeleteUnsound(w, op.owner, op.id, op.fault); }
    }
  }

  lemma PaidExactly(w: World, owner: nat, id: nat, fault: Fault)
    requires Sound(w) && Owns(w, owner, id) && IsReserved(w.db, id) && fault !in {DiesAtOnce, AtCommit}
    ensures Sound(Pay(w, owner, id, fault).0) <==> fault !in {AtRefresh, DiesAfterCommit}
  {
    var w' := Pay(w, owner, id, fault).0;
    EntryOfTicket(w, id);
    if fault in {AtRefresh, DiesAfterCommit} {
      assert !EntryOk(w', id, w'.redis.reservations[id]);
    } else {
      MovedSound(w, w', id, w.db.tickets[id].typeId);
    }
  }

  lemma PayExactly(w: World, op: Op)
    requires Sound(w) && op.DoPay?
    ensures Sound(Apply(w, op).0) <==> Harmless(w, op)
  {
    if Owns(w, op.owner, op.id) && IsReserved(w.db, op.id) && op.fault !in {DiesAtOnce, AtCommit} {
      PaidExactly(w, op.owner, op.id, op.fault);
    } else {
      assert Apply(w, op).0 == w;
    }
  }

  lemma ReleasedSound(w: World, id: nat)
    requires Sound(w) && IsReserved(w.db, id)
    ensures CanSubtract(w.db, w.db.tickets[id].typeId, 1)
    ensures Sound(Release(w, id, NoFault).0)
  {
    LiveIsCounted(w.db, id);
    EntryOfTicket(w, id);
    assert id !in w.redis.processed;
    MovedSound(w, Release(w, id, NoFault).0, id, w.db.tickets[id].typeId);
  }

  lemma ReleaseFaults(w: World, id: nat, fault: Fault)
    requires IsReserved(w.db, id) && CanSubtract(w.db, w.db.tickets[id].typeId, 1)
    ensures var w' := Release(w, id, fault).0;
      if fault in {AtCommit, DiesAfterCounter} then id in w'.redis.processed && LiveIn(w', id)
      else w' == w || w' == Release(w, id, NoFault).0
  {
  }

  lemma ReleaseExactly(w: World, op: Op)
    requires Sound(w) && op.DoRelease?
    ensures Sound(Apply(w, op).0) <==> Harmless(w, op)
  {
    if IsReserved(w.db, op.id) {
      ReleasedSound(w, op.id);
      ReleaseFaults(w, op.id, op.fault);
    }
  }

  // ---------- the worker's jobs ----------

  lemma {:induction false} ReleasesSound(w: World, ids: seq<nat>)
    requires Sound(w)
    ensures Sound(ReleaseAll(w, ids))
  {
    if ids != [] {
      ReleasesSound(w, ids[..|ids| - 1]);
      ReleaseExactly(ReleaseAll(w, ids[..|ids| - 1]), DoRelease(ids[|ids| - 1], NoFault));
    }
  }

  lemma BatchSound(w: World, ids: set<nat>)
    requires Sound(w)
    ensures Sound(Batch(w, ids, Runs).0)
  {
    var list := Enumerate(ids);
    assert SetOf(list) == ids;
    LedgerAllowsBatch(w.db, ids);
    BatchIsReleases(w, list);
    ReleasesSound(w, list);
  }

  /** A batch that stops after a refund leaves a processed id that is still live. */
  lemma RefundedBatchUnsound(w: World, ids: set<nat>, stop: Stop, id: nat)
    requires !stop.Runs? && id in ids && id in stop.done && IsReserved(w.db, id) && !BatchRefused(w.db, TypesOf(w.db, ids))
    ensures !ProcessedOk(Batch(w, ids, stop).0)
  {
    var w', reached := Batch(w, ids, stop).0, Reached(TypesOf(w.db, ids), stop);
    assert Credit(reached[id], id) in CreditsOf(reached);
    assert id in w'.redis.processed;
  }

  /** One that stops before its first refund changes nothing. */
  lemma UnstartedBatch(w: World, ids: set<nat>, stop: Stop)
    requires !stop.Runs? && stop.done * ids == {}
    ensures Batch(w, ids, stop).0 == w
  {
    var reached := Reached(TypesOf(w.db, ids), stop);
    assert forall id :: id in reached ==> id in stop.done * ids;
    assert reached == map[] && CreditsOf(reached) == {} == CallSet([]);
    RefundsAreASet(w.redis, []);
  }

  lemma BatchExactly(w: World, ids: set<nat>, stop: Stop)
    requires Sound(w) && forall id :: id in ids ==> IsReserved(w.db, id)
    ensures Sound(Batch(w, ids, stop).0) <==> stop.Runs? || stop.done * ids == {}
  {
    if stop.Runs? { BatchSound(w, ids); }
    else if stop.done * ids == {} { UnstartedBatch(w, ids, stop); }
    else {
      var id :| id in stop.done * ids;
      LedgerAllowsBatch(w.db, ids);
      RefundedBatchUnsound(w, ids, stop, id);
    }
  }

  lemma HungIsBatch(w: World, op: Op)
    requires op.DoReconcileHung?
    ensures var hung := HungIds(w.db, op.now - op.seconds);
      Apply(w, op).0 == if hung == {} then w else Batch(w, hung, op.stop).0
  {
    hide Batch;
  }

  lemma HungExactly(w: World, op: Op)
    requires Sound(w) && op.DoReconcileHung?
    ensures Sound(Apply(w, op).0) <==> Harmless(w, op)
  {
    var hung := HungIds(w.db, op.now - op.seconds);
    HungIsBatch(w, op);
    if hung != {} { BatchExactly(w, hung, op.stop); }
  }

  // ---------- the collector ----------

  /** Over-age orphans of a type that a pass gets to: what it credits. */
  function DueOf(w: World, now: nat, stop: Stop, t: nat): set<nat> {
    set id | id in OrphansOf(w, t) && Overdue(now, w.redis.reservations[id]) && (stop.Runs? || id in stop.done)
  }

  function GoneBy(w: World, now: nat, stop: Stop): map<nat, nat> {
    Reached(OrphanEntries(w, now), stop)
  }

  lemma OnlyOrphansAreCollected(w: World, now: nat, stop: Stop)
    requires HashOk(w)
    ensures forall id :: id in GoneBy(w, now, stop) <==> (id in w.redis.reservations && id !in w.db.tickets
      && Overdue(now, w.redis.reservations[id]) && (stop.Runs? || id in stop.done))
    ensures forall id :: id in GoneBy(w, now, stop) ==>
      (GoneBy(w, now, stop)[id] == w.redis.reservations[id].typeId && id !in w.redis.processed && id < w.db.nextTicket)
  {
    forall id | id in w.redis.reservations
      ensures id < w.db.nextTicket && (Orphan(w.db, id) ==> id !in w.db.tickets && id !in w.redis.processed)
    {
      assert EntryOk(w, id, w.redis.reservations[id]);
    }
  }

  /** What a pass does when every collected entry is a fresh orphan. */
  lemma CollectEffect(w: World, now: nat, stop: Stop)
    requires HashOk(w)
    ensures var gone, r, r' := GoneBy(w, now, stop).Keys, w.redis, Collect(w, now, stop).0.redis;
      r'.processed == r.processed + gone && r'.reservations == r.reservations - gone && r'.counters.Keys == r.counters.Keys &&
      forall t :: t in r.counters ==> r'.counters[t] == r.counters[t] + |DueOf(w, now, stop, t)|
  {
    var entries := GoneBy(w, now, stop);
    var calls := CreditsOf(entries);
    OnlyOrphansAreCollected(w, now, stop);
    forall id | id in entries ensures Credit(entries[id], id) in calls && id in Ids(calls) {
      assert Credit(entries[id], id) in calls;
    }
    assert Ids(calls) == entries.Keys;
    assert Ids(calls) - w.redis.processed == entries.Keys;
    forall t | t in w.redis.counters ensures NewIds(calls, w.redis.processed, t) == DueOf(w, now, stop, t) {
      forall id | id in DueOf(w, now, stop, t) ensures id in NewIds(calls, w.redis.processed, t) {
        assert Credit(entries[id], id) in calls;
      }
    }
  }

  lemma DueIsGone(w: World, w': World, gone: set<nat>, now: nat, stop: Stop, t: nat)
    requires w'.db == w.db && w'.redis.reservations == w.redis.reservations - gone
    requires forall id :: id in gone <==> (id in w.redis.reservations && id !in w.db.tickets
      && Overdue(now, w.redis.reservations[id]) && (stop.Runs? || id in stop.done))
    ensures |OrphansOf(w, t)| == |OrphansOf(w', t)| + |DueOf(w, now, stop, t)|
  {
    assert OrphansOf(w, t) == OrphansOf(w', t) + DueOf(w, now, stop, t);
    assert OrphansOf(w', t) !! DueOf(w, now, stop, t);
  }

  lemma CollectCounters(w: World, now: nat, stop: Stop)
    requires HashOk(w) && CountersOk(w)
    ensures CountersOk(Collect(w, now, stop).0)
  {
    CollectEffect(w, now, stop);
    OnlyOrphansAreCollected(w, now, stop);
    var w', gone := Collect(w, now, stop).0, GoneBy(w, now, stop).Keys;
    forall t | t in w'.redis.counters
      ensures t in w'.db.types
      ensures w'.redis.counters[t] + |OrphansOf(w', t)| == w'.db.types[t].quantity - w'.db.types[t].sold
    {
      DueIsGone(w, w', gone, now, stop, t);
    }
  }

  /** A pass keeps the agreement wherever it stops. */
  lemma CollectSound(w: World, now: nat, stop: Stop)
    requires Sound(w)
    ensures Sound(Collect(w, now, stop).0)
  {
    var w' := Collect(w, now, stop).0;
    CollectCounters(w, now, stop);
    CollectEffect(w, now, stop);
    OnlyOrphansAreCollected(w, now, stop);
    forall id | id in w.redis.reservations ensures id in w'.redis.reservations ==> EntryOk(w', id, w'.redis.reservations[id]) {
      assert EntryOk(w, id, w.redis.reservations[id]);
    }
  }

  // ---------- ticket types and events ----------

  /** Tickets and hash stay; types may come, go or change their fields, but not tickets_sold. */
  ghost predicate TicketsKept(w: World, w': World) {
    w'.db.tickets == w.db.tickets && w'.db.nextTicket == w.db.nextTicket && w'.db.nextType >= w.db.nextType &&
    w'.redis.reservations == w.redis.reservations && w'.redis.processed == w.redis.processed &&
    forall t :: t in w'.db.types ==>
      if t in w.db.types then
        w'.db.types[t].sold == w.db.types[t].sold && (t in w.redis.counters ==> t in w'.redis.counters)
      else t >= w.db.nextType && w'.db.types[t].sold == 0
  }

  lemma KeptLedger(w: World, w': World)
    requires I.DbOk(w.db) && LedgerOk(w.db) && TicketsKept(w, w')
    ensures LedgerOk(w'.db)
  {
    forall t | t in w'.db.types ensures L.Gap(w'.db, t) == 0 {
      assert LiveOf(w'.db, t) == LiveOf(w.db, t);
      if t in w.db.types { assert L.Gap(w.db, t) == 0; } else { assert LiveOf(w.db, t) == {}; }
    }
  }

  lemma KeptHash(w: World, w': World)
    requires HashOk(w) && ProcessedOk(w) && TicketsKept(w, w')
    ensures HashOk(w') && ProcessedOk(w')
    ensures forall t :: OrphansOf(w', t) == OrphansOf(w, t)
    ensures forall t :: t >= w.db.nextType ==> OrphansOf(w, t) == {}
  {
    forall id | id in w.redis.reservations ensures EntryOk(w', id, w.redis.reservations[id]) && w.redis.reservations[id].typeId < w.db.nextType {
      assert EntryOk(w, id, w.redis.reservations[id]);
    }
    forall id | IsReserved(w'.db, id) ensures id in w'.redis.reservations { assert IsReserved(w.db, id); }
  }

  /** For such a change only the counters are left to check. */
  lemma KeptSound(w: World, w': World)
    requires Sound(w) && TablesOk(w'.db) && TicketsKept(w, w')
    ensures Sound(w') <==> CountersOk(w')
  {
    KeptLedger(w, w');
    KeptHash(w, w');
  }

  /** After its commit a ticket-type change touches no table, and one counter at most. */
  lemma SyncedStores(w: World, redis: Redis, e: nat, fault: Fault, reply: Reply)
    ensures var w' := Synced(w, redis, e, fault, reply).0;
      w'.db == w.db && w'.redis == if fault == DiesAfterCommit then w.redis else redis
  {
  }

  lemma NewTypeFrame(w: World, e: nat, name: string, price: int, quantity: int, fault: Fault)
    ensures var w', t := CreateType(w, e, name, price, quantity, fault).0, w.db.nextType;
      var row := TypeRow(e, name, price, quantity, 0);
      if fault != DiesAtOnce && fault != AtCommit && e in w.db.events && row.Ok() then
        w'.db == w.db.(nextType := t + 1, types := w.db.types[t := row]) &&
        w'.redis == if Unsynced(fault) then w.redis else w.redis.SetCounter(t, quantity)
      else (w'.db == w.db || w'.db == w.db.(nextType := t + 1)) && w'.redis == w.redis
  {
    var t, row := w.db.nextType, TypeRow(e, name, price, quantity, 0);
    SyncedStores(w.(db := w.db.(nextType := t + 1, types := w.db.types[t := row])), w.redis.SetCounter(t, quantity), e, fault, TypeId(t));
  }

  lemma NewTypeSound(w: World, e: nat, name: string, price: int, quantity: int, fault: Fault)
    requires Sound(w)
    ensures Sound(CreateType(w, e, name, price, quantity, fault).0)
  {
    var w' := CreateType(w, e, name, price, quantity, fault).0;
    NewTypeFrame(w, e, name, price, quantity, fault);
    KeptSound(w, w');
    KeptHash(w, w');
  }

  lemma DropFrame(w: World, t: nat, fault: Fault)
    requires TablesOk(w.db)
    ensures var w' := DeleteType(w, t, fault).0;
      if Drops(w, t) && fault !in {DiesAtOnce, AtFlush, AtCommit} then
        TablesOk(w'.db) && w'.db == w.db.(types := w.db.types - {t}) &&
        w'.redis == if fault == DiesAfterCommit then w.redis else w.redis.DeleteCounter(t)
      else w' == w
  {
  }

  lemma DroppedTypeExactly(w: World, op: Op)
    requires Sound(w) && op.DoDeleteType?
    ensures Sound(Apply(w, op).0) <==> Harmless(w, op)
  {
    var w', t := Apply(w, op).0, op.t;
    DropFrame(w, t, op.fault);
    if Drops(w, t) && op.fault !in {DiesAtOnce, AtFlush, AtCommit} {
      assert TicketsKept(w, w');
      KeptSound(w, w');
      KeptHash(w, w');
    }
  }

  lemma UpdatedCounters(w: World, w': World, t: nat, u: TypeUpdate)
    requires CountersOk(w) && t in w.db.types && w'.db.types == w.db.types[t := Merge(w.db.types[t], u)]
    requires forall x :: OrphansOf(w', x) == OrphansOf(w, x)
    requires w'.redis.counters - {t} == w.redis.counters - {t}
    ensures CountersOk(w') <==> (t in w'.redis.counters ==>
      w'.redis.counters[t] + |OrphansOf(w, t)| == w'.db.types[t].quantity - w'.db.types[t].sold)
  {
    forall x | x in w'.redis.counters && x != t
      ensures x in w'.db.types
      ensures w'.redis.counters[x] + |OrphansOf(w', x)| == w'.db.types[x].quantity - w'.db.types[x].sold
    {
      assert x in w'.redis.counters - {t} && x in w.redis.counters;
      assert (w'.redis.counters - {t})[x] == (w.redis.counters - {t})[x];
    }
  }

  lemma SaveFrame(w: World, t: nat, row: TypeRow, setsQuantity: bool, fault: Fault)
    requires row.Ok() && fault != AtCommit
    ensures var w' := SaveType(w, t, row, setsQuantity, fault).0;
      w'.db == w.db.(types := w.db.types[t := row]) &&
      w'.redis == if Unsynced(fault) || !setsQuantity then w.redis else w.redis.SetCounter(t, row.quantity - row.sold)
  {
    var redis := if setsQuantity then w.redis.SetCounter(t, row.quantity - row.sold) else w.redis;
    SyncedStores(w.(db := w.db.(types := w.db.types[t := row])), redis, row.eventId, fault, TypeId(t));
  }

  lemma UpdateFrame(w: World, t: nat, u: TypeUpdate, fault: Fault)
    ensures var w' := Operations.UpdateType(w, t, u, fault).0;
      if Updates(w, t, u, fault) then w' == SaveType(w, t, Merge(w.db.types[t], u), u.quantity.Some?, fault).0 else w' == w
  {
  }

  lemma UpdatedCounterValue(w: World, w': World, t: nat, u: TypeUpdate, fault: Fault)
    requires HashOk(w) && CountersOk(w) && Updates(w, t, u, fault)
    requires w'.db.types == w.db.types[t := Merge(w.db.types[t], u)]
    requires w'.redis.counters == if Unsynced(fault) || u.quantity == None then w.redis.counters
                                  else w.redis.counters[t := u.quantity.value - w.db.types[t].sold]
    ensures (t in w'.redis.counters ==>
      w'.redis.counters[t] + |OrphansOf(w, t)| == w'.db.types[t].quantity - w'.db.types[t].sold)
      <==> HarmlessUpdate(w, t, u, fault)
  {
    if t !in w.redis.counters { ColdHasNoOrphans(w, t); }
  }

  lemma UpdatedCountersExactly(w: World, w': World, t: nat, u: TypeUpdate, fault: Fault)
    requires HashOk(w) && CountersOk(w) && Updates(w, t, u, fault)
    requires w'.db.types == w.db.types[t := Merge(w.db.types[t], u)]
    requires forall x :: OrphansOf(w', x) == OrphansOf(w, x)
    requires w'.redis.counters == if Unsynced(fault) || u.quantity == None then w.redis.counters
                                  else w.redis.counters[t := u.quantity.value - w.db.types[t].sold]
    ensures CountersOk(w') <==> HarmlessUpdate(w, t, u, fault)
  {
    UpdatedCounters(w, w', t, u);
    UpdatedCounterValue(w, w', t, u, fault);
  }

  lemma UpdateApplied(w: World, w': World, t: nat, u: TypeUpdate, fault: Fault)
    requires Sound(w) && Updates(w, t, u, fault) && TablesOk(w'.db) && TicketsKept(w, w')
    requires w'.db.types == w.db.types[t := Merge(w.db.types[t], u)]
    requires w'.redis.counters == if Unsynced(fault) || u.quantity == None then w.redis.counters
                                  else w.redis.counters[t := u.quantity.value - w.db.types[t].sold]
    ensures Sound(w') <==> HarmlessUpdate(w, t, u, fault)
  {
    KeptSound(w, w');
    KeptHash(w, w');
    UpdatedCountersExactly(w, w', t, u, fault);
  }

  lemma UpdateExactly(w: World, op: Op)
    requires Sound(w) && op.DoUpdateType?
    ensures Sound(Apply(w, op).0) <==> Harmless(w, op)
  {
    hide SaveType, LedgerOk, HashOk, ProcessedOk, CountersOk;
    UpdateFrame(w, op.t, op.update, op.fault);
    if Updates(w, op.t, op.update, op.fault) {
      SaveFrame(w, op.t, Merge(w.db.types[op.t], op.update), op.update.quantity.Some?, op.fault);
      UpdateApplied(w, Apply(w, op).0, op.t, op.update, op.fault);
    }
  }

  lemma EventsSound(w: World, w': World)
    requires Sound(w) && w'.redis == w.redis
    requires w'.db == w.db.(events := w'.db.events, nextEvent := w'.db.nextEvent)
    requires forall t :: t in w.db.types ==> w.db.types[t].eventId in w'.db.events
    requires forall e :: e in w'.db.events ==> e < w'.db.nextEvent
    ensures Sound(w')
  {
    KeptSound(w, w');
    KeptHash(w, w');
  }

  lemma EventOpsSound(w: World, op: Op)
    requires Sound(w)
    requires op.DoCreateEvent? || op.DoUpdateEvent? || op.DoDeleteEvent? || op.DoGetEvent? || op.DoGetAllEvents?
      || op.ExpireDetail? || op.ExpirePage?
    ensures Sound(Apply(w, op).0)
  {
    EventsSound(w, Apply(w, op).0);
  }

  // ---------- the theorems ----------

  /** Exactly which operations, ended where, break the agreement of the stores. */
  lemma SoundExactly(w: World, op: Op)
    requires Sound(w)
    ensures Sound(Apply(w, op).0) <==> Harmless(w, op)
  {
    match op
    case DoCreate(_, _, _, _) => CreateExactly(w, op);
    case DoDelete(_, _, _) => DeleteExactly(w, op);
    case DoPay(_, _, _) => PayExactly(w, op);
    case DoRelease(_, _) => ReleaseExactly(w, op);
    case DoReconcileHung(_, _, _) => HungExactly(w, op);
    case DoCollect(now, stop) => CollectSound(w, now, stop);
    case DoCreateType(e, name, price, quantity, fault) => NewTypeSound(w, e, name, price, quantity, fault);
    case DoUpdateType(_, _, _) => UpdateExactly(w, op);
    case DoDeleteType(_, _) => DroppedTypeExactly(w, op);
    case _ => EventOpsSound(w, op);
  }

  /** A create that dies after its hash write leaves an orphan, and so does the delete of a RESERVED
      ticket that dies after its commit. */
  predicate LeavesOrphan(w: World, op: Op) {
    match op
    case DoCreate(_, t, _, fault) => fault == DiesAfterHash && Seen(w, t) > 0
    case DoDelete(owner, id, fault) => fault == DiesAfterCommit && Deletes(w, owner, id, fault) && IsReserved(w.db, id)
    case _ => false
  }

  lemma CreateCovered(w: World, op: Op)
    requires Consistent(w) && op.DoCreate? && Harmless(w, op)
    ensures Covered(Apply(w, op).0) <==> !LeavesOrphan(w, op)
  {
    CreateEnds(w, op.owner, op.t, op.now, op.fault);
    NewIdIsFresh(w);
    if Seen(w, op.t) > 0 { SeenIsRoom(w, op.t); AdmittedEnds(w, op.owner, op.t, op.now, op.fault); }
    if LeavesOrphan(w, op) { assert w.db.nextTicket in Apply(w, op).0.redis.reservations; }
  }

  lemma DeleteCovered(w: World, op: Op)
    requires Consistent(w) && op.DoDelete? && Harmless(w, op)
    ensures Covered(Apply(w, op).0) <==> !LeavesOrphan(w, op)
  {
    if op.id in w.db.tickets { EntryOfTicket(w, op.id); }
    if LeavesOrphan(w, op) { assert op.id in Apply(w, op).0.redis.reservations; }
  }

  lemma JobsCovered(w: World, op: Op)
    requires Covered(w) && (op.DoPay? || op.DoRelease? || op.DoReconcileHung? || op.DoCollect?)
    ensures Covered(Apply(w, op).0)
  {
  }

  lemma OthersCovered(w: World, op: Op)
    requires Covered(w) && !op.DoCreate? && !op.DoDelete? && !op.DoPay? && !op.DoRelease? && !op.DoReconcileHung? && !op.DoCollect?
    ensures Covered(Apply(w, op).0)
  {
  }

  /** Exactly which operations, ended where, make the two stores disagree. */
  lemma ConsistentExactly(w: World, op: Op)
    requires Consistent(w)
    ensures Consistent(Apply(w, op).0) <==> Harmless(w, op) && !LeavesOrphan(w, op)
  {
    SoundExactly(w, op);
    if Harmless(w, op) {
      if op.DoCreate? { CreateCovered(w, op); } else if op.DoDelete? { DeleteCovered(w, op); }
      else if op.DoPay? || op.DoRelease? || op.DoReconcileHung? || op.DoCollect? { JobsCovered(w, op); }
      else { OthersCovered(w, op); }
    }
  }

  lemma NothingToCollect(w: World, now: nat, stop: Stop)
    requires HashOk(w) && Covered(w)
    ensures Collect(w, now, stop).0 == w
  {
    CollectEffect(w, now, stop);
    OnlyOrphansAreCollected(w, now, stop);
    assert GoneBy(w, now, stop) == map[];
    forall t | t in w.redis.counters ensures DueOf(w, now, stop, t) == {} { }
    assert Collect(w, now, stop).0.redis.counters == w.redis.counters;
  }

  /** What agreement says, store by store; a collector pass then changes nothing. */
  lemma ConsistentMeans(w: World, now: nat, stop: Stop)
    requires Consistent(w)
    ensures forall t :: t in w.redis.counters ==>
      (t in w.db.types && w.redis.counters[t] == w.db.types[t].quantity - w.db.types[t].sold)
    ensures forall t :: t in w.db.types ==> w.db.types[t].sold == |LiveOf(w.db, t)|
    ensures forall id :: id in w.redis.reservations <==> IsReserved(w.db, id)
    ensures forall id :: id in w.redis.processed ==> !LiveIn(w, id)
    ensures Collect(w, now, stop).0 == w
  {
    forall id | id in w.redis.reservations ensures IsReserved(w.db, id) {
      assert EntryOk(w, id, w.redis.reservations[id]);
    }
    forall t | t in w.redis.counters ensures OrphansOf(w, t) == {} { }
    forall t | t in w.db.types ensures w.db.types[t].sold == |LiveOf(w.db, t)| { assert L.Gap(w.db, t) == 0; }
    NothingToCollect(w, now, stop);
  }

  /** Histories of complete operations whose faults are harmless, crashed creates among them. */
  lemma {:induction false} HistorySound(worlds: seq<World>, ops: seq<Op>)
    requires History(worlds, ops) && Sound(worlds[0])
    requires forall k :: 0 <= k < |ops| ==> Harmless(worlds[k], ops[k])
    ensures Sound(worlds[|ops|])
  {
    if ops != [] {
      var n := |ops| - 1;
      HistorySound(worlds[..n + 1], ops[..n]);
      SoundExactly(worlds[n], ops[n]);
      assert Apply(worlds[n], ops[n]).0 == worlds[n + 1];
    }
  }

  predicate FailureFree(op: Op) {
    match op
    case DoReconcileHung(_, _, stop) => stop.Runs?
    case DoCollect(_, stop) => stop.Runs?
    case DoGetEvent(_) => true
    case DoGetAllEvents(_, _) => true
    case ExpireDetail(_) => true
    case ExpirePage(_) => true
    case _ => op.fault == NoFault
  }

  predicate DeletesCanceled(w: World, op: Op) {
    op.DoDelete? && op.id in w.db.tickets && w.db.tickets[op.id].status == CANCELED
  }

  lemma FailureFreeStep(w: World, op: Op)
    requires Consistent(w) && FailureFree(op) && !DeletesCanceled(w, op)
    ensures Consistent(Apply(w, op).0)
  {
    ConsistentExactly(w, op);
    if op.DoUpdateType? { assert OrphansOf(w, op.t) == {}; }
  }

  /** The sequential invariant: over any sequence of complete, failure-free operations that deletes no
      CANCELED ticket, the stores agree after every operation. */
  lemma {:induction false} SequentialInvariant(worlds: seq<World>, ops: seq<Op>)
    requires History(worlds, ops) && Consistent(worlds[0])
    requires forall k :: 0 <= k < |ops| ==> FailureFree(ops[k]) && !DeletesCanceled(worlds[k], ops[k])
    ensures Consistent(worlds[|ops|])
  {
    if ops != [] {
      var n := |ops| - 1;
      SequentialInvariant(worlds[..n + 1], ops[..n]);
      FailureFreeStep(worlds[n], ops[n]);
      assert Apply(worlds[n], ops[n]).0 == worlds[n + 1];
    }
  }
}
