/** The base invariant of the reservation protocol: lock exclusion, validity of what each process
    believes about the stores, and where a ticket id can occur. It holds in every run, with
    crashes and aborts anywhere, orphan collection on or off, shared or split Redis. */
module Invariants {
  import opened Stores
  import opened Protocol

  /** The process has drawn this id from the sequence and has not committed it yet. */
  predicate CreatesId(p: Proc, id: nat) {
    match p
    case CreateInserted(_, _, _, _, x) => x == id
    case CreateStamped(_, _, _, _, x, _) => x == id
    case CreateHashed(_, _, _, _, x, _) => x == id
    case _ => false
  }

  /** ... and has not written it to the reservations hash either. */
  predicate PendingHash(p: Proc, id: nat) {
    CreatesId(p, id) && !p.CreateHashed?
  }

  ghost predicate InFlight(s: State, id: nat) {
    exists j :: 0 <= j < |s.procs| && CreatesId(s.procs[j], id)
  }

  /** The id was drawn, and its transaction has ended one way or the other. */
  ghost predicate Born(s: State, id: nat) {
    id < s.db.nextTicket && !InFlight(s, id)
  }

  predicate Reserved(db: Db, id: nat, t: nat) {
    IsReserved(db, id) && db.tickets[id].typeId == t
  }

  ghost predicate DbOk(db: Db) {
    (forall t :: t in db.types ==> t < db.nextType && db.types[t].Ok()) &&
    (forall id :: id in db.tickets ==> id < db.nextTicket && db.tickets[id].typeId in db.types)
  }

  /** What a hash entry, or a copy of one in a collector's memory, says about its id. */
  ghost predicate EntryOk(s: State, id: nat, r: Reservation) {
    id < s.db.nextTicket &&
    (id in s.db.tickets ==> s.db.tickets[id].typeId == r.typeId) &&
    forall j :: 0 <= j < |s.procs| && CreatesId(s.procs[j], id) ==>
      s.procs[j].CreateHashed? && s.procs[j].t == r.typeId && s.procs[j].ts == r.timestamp
  }

  ghost predicate EntriesOk(s: State, entries: map<nat, Reservation>) {
    forall id :: id in entries ==> EntryOk(s, id, entries[id])
  }

  predicate Room(db: Db, t: nat) {
    t in db.types && db.types[t].sold < db.types[t].quantity
  }

  ghost predicate BatchOk(db: Db, locked: map<nat, nat>) {
    forall id :: id in locked ==> Reserved(db, id, locked[id])
  }

  /** What one process knows, and keeps knowing while it holds its locks. */
  ghost predicate ProcOk(c: Config, s: State, p: Proc) {
    match p
    case CreateUpdated(t, _, _, _) => Room(s.db, t)
    case CreateInserted(t, _, _, _, id) => Room(s.db, t) && Undrawn(s, id)
    case CreateStamped(t, _, _, _, id, ts) => Room(s.db, t) && Undrawn(s, id) && ts <= s.now
    case CreateHashed(t, _, _, _, id, ts) =>
      Room(s.db, t) && id < s.db.nextTicket && id !in s.db.tickets && ts <= s.now
    case DeleteFound(id, t) => TypeKnown(s, id, t)
    case DeleteUpdated(id, t) => TypeKnown(s, id, t) && CanSubtract(s.db, t, 1)
    case DeleteRemoved(id, t) => TypeKnown(s, id, t) && CanSubtract(s.db, t, 1)
    case PayLocked(id) => id in s.db.tickets && s.db.tickets[id].status == RESERVED
    case ReleaseLocked(id, t) => Reserved(s.db, id, t)
    case ReleaseUpdated(id, t) => Reserved(s.db, id, t) && CanSubtract(s.db, t, 1)
    case ReleaseRefunded(id, t) =>
      Reserved(s.db, id, t) && CanSubtract(s.db, t, 1) && id in WorkerRedis(c, s).processed
    case HungScanning(_, _, locked) => BatchOk(s.db, locked)
    case HungUpdating(locked, todo) =>
      BatchOk(s.db, locked) && todo <= locked.Values &&
      forall t :: t in locked.Values && t !in todo ==> CanSubtract(s.db, t, |OfType(locked, t)|)
    case HungRefunding(locked, todo) =>
      BatchOk(s.db, locked) && todo <= locked.Keys &&
      (forall t :: t in locked.Values ==> CanSubtract(s.db, t, |OfType(locked, t)|)) &&
      forall id :: id in locked && id !in todo ==> id in WorkerRedis(c, s).processed
    case GcSnapshot(entries) => EntriesOk(s, entries)
    case GcSuspicious(entries) => EntriesOk(s, entries)
    case GcRefunding(entries) => EntriesOk(s, entries)
    case _ => true
  }

  /** Drawn from the sequence by a transaction that has told neither store about it yet. */
  predicate Undrawn(s: State, id: nat) {
    id < s.db.nextTicket && id !in s.db.tickets && id !in s.api.processed && id !in s.wrk.processed
  }

  ghost predicate TypeKnown(s: State, id: nat, t: nat) {
    Born(s, id) && t < s.db.nextType && (id in s.db.tickets ==> s.db.tickets[id].typeId == t)
  }

  /** Two processes share no lock and no uncommitted id. */
  ghost predicate Apart(p: Proc, q: Proc) {
    (forall t :: !(HoldsType(p, t) && HoldsType(q, t))) &&
    (forall id :: !(HoldsTicket(p, id) && HoldsTicket(q, id))) &&
    (forall id :: !(CreatesId(p, id) && CreatesId(q, id)))
  }

  ghost predicate Exclusive(procs: seq<Proc>) {
    forall i, j :: 0 <= i < |procs| && 0 <= j < |procs| && i != j ==> Apart(procs[i], procs[j])
  }

  ghost predicate RedisOk(c: Config, s: State) {
    EntriesOk(s, s.api.reservations) &&
    (forall id :: id in s.api.processed ==> id < s.db.nextTicket && id !in s.api.reservations) &&
    (forall id :: id in s.wrk.processed ==> id < s.db.nextTicket) &&
    s.wrk.counters == map[] && s.wrk.reservations == map[]
  }

  ghost predicate Inv(c: Config, s: State) {
    DbOk(s.db) && Exclusive(s.procs) && RedisOk(c, s) &&
    forall j :: 0 <= j < |s.procs| ==> ProcOk(c, s, s.procs[j])
  }

  /** What a step of another process may do to the stores, seen by a process p. */
  ghost predicate Rely(c: Config, s: State, s': State, p: Proc) {
    s.now <= s'.now && s.db.nextTicket <= s'.db.nextTicket && s.db.nextType <= s'.db.nextType &&
    (forall t :: HoldsType(p, t) ==>
      (t in s.db.types <==> t in s'.db.types) && (t in s.db.types ==> s'.db.types[t] == s.db.types[t])) &&
    (forall id :: HoldsTicket(p, id) && id in s.db.tickets ==>
      id in s'.db.tickets && s'.db.tickets[id] == s.db.tickets[id]) &&
    (forall id :: CreatesId(p, id) ==> id !in s'.db.tickets) &&
    (forall id :: PendingHash(p, id) && id !in s.api.processed && id !in s.wrk.processed ==>
      id !in s'.api.processed && id !in s'.wrk.processed) &&
    s.api.processed <= s'.api.processed && s.wrk.processed <= s'.wrk.processed
  }

  /** What every step does about ids: nothing drawn is drawn again, types of tickets never change. */
  ghost predicate IdsKept(s: State, s': State) {
    (forall id :: Born(s, id) ==> Born(s', id)) &&
    (forall id :: Born(s, id) && id in s'.db.tickets ==>
      id in s.db.tickets && s'.db.tickets[id].typeId == s.db.tickets[id].typeId) &&
    (forall id, r :: EntryOk(s, id, r) ==> EntryOk(s', id, r))
  }

  lemma RelyKeepsBatch(c: Config, s: State, s': State, p: Proc, locked: map<nat, nat>)
    requires BatchOk(s.db, locked) && Rely(c, s, s', p) && forall id :: id in locked ==> HoldsTicket(p, id)
    ensures BatchOk(s'.db, locked)
  {
    forall id | id in locked ensures Reserved(s'.db, id, locked[id]) { assert HoldsTicket(p, id); }
  }

  lemma RelyKeepsUpdating(c: Config, s: State, s': State, p: Proc)
    requires p.HungUpdating? && ProcOk(c, s, p) && Rely(c, s, s', p)
    ensures ProcOk(c, s', p)
  {
    RelyKeepsBatch(c, s, s', p, p.locked);
    forall t | t in p.locked.Values && t !in p.todoTypes
      ensures CanSubtract(s'.db, t, |OfType(p.locked, t)|) { assert HoldsType(p, t); }
  }

  lemma RelyKeepsRefunding(c: Config, s: State, s': State, p: Proc)
    requires p.HungRefunding? && ProcOk(c, s, p) && Rely(c, s, s', p)
    ensures ProcOk(c, s', p)
  {
    RelyKeepsBatch(c, s, s', p, p.locked);
    forall t | t in p.locked.Values
      ensures CanSubtract(s'.db, t, |OfType(p.locked, t)|) { assert HoldsType(p, t); }
  }

  lemma RelyKeepsCreate(c: Config, s: State, s': State, p: Proc)
    requires p.CreateUpdated? || p.CreateInserted? || p.CreateStamped? || p.CreateHashed?
    requires ProcOk(c, s, p) && Rely(c, s, s', p)
    ensures ProcOk(c, s', p)
  {
    assert HoldsType(p, p.t);
    if !p.CreateUpdated? { assert CreatesId(p, p.id) && (!p.CreateHashed? ==> PendingHash(p, p.id)); }
  }

  lemma RelyKeepsProc(c: Config, s: State, s': State, p: Proc)
    requires ProcOk(c, s, p) && Rely(c, s, s', p) && IdsKept(s, s')
    ensures ProcOk(c, s', p)
  {
    match p
    case HungUpdating(_, _) => RelyKeepsUpdating(c, s, s', p);
    case HungRefunding(_, _) => RelyKeepsRefunding(c, s, s', p);
    case HungScanning(_, _, locked) => RelyKeepsBatch(c, s, s', p, locked);
    case CreateUpdated(_, _, _, _) => RelyKeepsCreate(c, s, s', p);
    case CreateInserted(_, _, _, _, _) => RelyKeepsCreate(c, s, s', p);
    case CreateStamped(_, _, _, _, _, _) => RelyKeepsCreate(c, s, s', p);
    case CreateHashed(_, _, _, _, _, _) => RelyKeepsCreate(c, s, s', p);
    case DeleteUpdated(_, t) => assert HoldsType(p, t);
    case DeleteRemoved(_, t) => assert HoldsType(p, t);
    case PayLocked(id) => assert HoldsTicket(p, id);
    case ReleaseLocked(id, _) => assert HoldsTicket(p, id);
    case ReleaseUpdated(id, t) => assert HoldsTicket(p, id) && HoldsType(p, t);
    case ReleaseRefunded(id, t) => assert HoldsTicket(p, id) && HoldsType(p, t);
    case _ =>
  }

  ghost predicate OnlyProc(s: State, s': State, i: nat) {
    i < |s.procs| == |s'.procs| && s'.procs == s.procs[i := s'.procs[i]]
  }

  /** Locks and ids that process i holds after its step clash with nobody else's. */
  ghost predicate NoClash(s: State, s': State, i: nat) {
    i < |s.procs| && |s'.procs| == |s.procs| &&
    forall j :: 0 <= j < |s.procs| && j != i ==> Apart(s'.procs[i], s.procs[j])
  }

  ghost predicate Guarantee(c: Config, s: State, s': State, i: nat) {
    OnlyProc(s, s', i) && NoClash(s, s', i) && IdsKept(s, s') &&
    forall j :: 0 <= j < |s.procs| && j != i ==> Rely(c, s, s', s.procs[j])
  }

  lemma GuaranteeKeepsInv(c: Config, s: State, s': State, i: nat)
    requires Inv(c, s) && Guarantee(c, s, s', i)
    requires DbOk(s'.db) && RedisOk(c, s') && ProcOk(c, s', s'.procs[i])
    ensures Inv(c, s')
  {
    forall j | 0 <= j < |s'.procs| ensures ProcOk(c, s', s'.procs[j]) {
      if j != i { RelyKeepsProc(c, s, s', s.procs[j]); }
    }
  }

  /** The same promise in terms of the one process that moves: rows it changes are free for it,
      ids it holds are its own or new, ids it refunds have been written to the hash. */
  ghost predicate Local(s: State, s': State, i: nat) {
    OnlyProc(s, s', i) && NoClash(s, s', i) && OwnIds(s, s', i) &&
    s.now <= s'.now && s.db.nextTicket <= s'.db.nextTicket && s.db.nextType <= s'.db.nextType &&
    s.api.processed <= s'.api.processed && s.wrk.processed <= s'.wrk.processed &&
    (forall t :: t in s.db.types || t in s'.db.types ==> SameType(s, s', t) || TypeFree(s, i, t)) &&
    (forall id :: id in s.db.tickets ==>
      (id in s'.db.tickets && s'.db.tickets[id] == s.db.tickets[id]) || TicketFree(s, i, id)) &&
    (forall id :: id in s'.db.tickets ==>
      (id in s.db.tickets && s'.db.tickets[id].typeId == s.db.tickets[id].typeId) ||
      (CreatesId(s.procs[i], id) && s'.db.tickets[id].typeId == s.procs[i].t)) &&
    (forall id :: Processed(s', id) && !Processed(s, id) ==> Hashed(s, id))
  }

  predicate SameType(s: State, s': State, t: nat) {
    t in s.db.types && t in s'.db.types && s'.db.types[t] == s.db.types[t]
  }

  predicate Processed(s: State, id: nat) {
    id in s.api.processed || id in s.wrk.processed
  }

  /** No process has drawn the id without writing it to the hash. */
  ghost predicate Hashed(s: State, id: nat) {
    forall j :: 0 <= j < |s.procs| ==> !PendingHash(s.procs[j], id)
  }

  /** An id a process holds after its step is new, or was its own with the same type and timestamp. */
  ghost predicate OwnIds(s: State, s': State, i: nat)
    requires OnlyProc(s, s', i)
  {
    forall id: nat :: CreatesId(s'.procs[i], id) ==>
      id >= s.db.nextTicket ||
      (CreatesId(s.procs[i], id) && s'.procs[i].t == s.procs[i].t &&
       (s.procs[i].CreateHashed? ==> s'.procs[i].CreateHashed? && s'.procs[i].ts == s.procs[i].ts))
  }

  lemma LocalKeepsIds(c: Config, s: State, s': State, i: nat)
    requires Inv(c, s) && Local(s, s', i)
    ensures IdsKept(s, s')
  {
    forall id | Born(s, id) ensures Born(s', id) {
      forall j | 0 <= j < |s'.procs| ensures !CreatesId(s'.procs[j], id) {
        assert !CreatesId(s.procs[j], id);
      }
    }
    forall id | Born(s, id) && id in s'.db.tickets
      ensures id in s.db.tickets && s'.db.tickets[id].typeId == s.db.tickets[id].typeId
    {
      assert !CreatesId(s.procs[i], id);
    }
  }

  lemma LocalGuarantee(c: Config, s: State, s': State, i: nat)
    requires Inv(c, s) && Local(s, s', i)
    ensures Guarantee(c, s, s', i)
  {
    LocalKeepsIds(c, s, s', i);
    forall j | 0 <= j < |s.procs| && j != i ensures Rely(c, s, s', s.procs[j]) {
      var p := s.procs[j];
      forall id | CreatesId(p, id) ensures id !in s'.db.tickets {
        assert id !in s.db.tickets;
      }
      forall id | PendingHash(p, id) && !Processed(s, id) ensures !Processed(s', id) {
        assert !Hashed(s, id);
      }
    }
  }

  /** A step that writes no table row and refunds nothing. */
  ghost predicate Calm(s: State, s': State, i: nat) {
    OnlyProc(s, s', i) && NoClash(s, s', i) && OwnIds(s, s', i) &&
    s'.now == s.now && s'.db == s.db && s'.wrk == s.wrk &&
    s'.api.processed == s.api.processed &&
    s'.api.reservations.Keys <= s.api.reservations.Keys &&
    forall id :: id in s'.api.reservations ==> s'.api.reservations[id] == s.api.reservations[id]
  }

  lemma CalmKeepsInv(c: Config, s: State, s': State, i: nat)
    requires Inv(c, s) && Calm(s, s', i) && ProcOk(c, s', s'.procs[i])
    ensures Inv(c, s')
  {
    LocalGuarantee(c, s, s', i);
    assert RedisOk(c, s');
    GuaranteeKeepsInv(c, s, s', i);
  }

  /** No locks, no uncommitted id, no copy of a row or entry. */
  predicate Unbound(p: Proc) {
    match p
    case CreateUpdated(_, _, _, _) => false
    case CreateInserted(_, _, _, _, _) => false
    case CreateStamped(_, _, _, _, _, _) => false
    case CreateHashed(_, _, _, _, _, _) => false
    case DeleteFound(_, _) => false
    case DeleteUpdated(_, _) => false
    case DeleteRemoved(_, _) => false
    case PayLocked(_) => false
    case ReleaseLocked(_, _) => false
    case ReleaseUpdated(_, _) => false
    case ReleaseRefunded(_, _) => false
    case HungScanning(_, _, _) => false
    case HungUpdating(_, _) => false
    case HungRefunding(_, _) => false
    case GcSnapshot(_) => false
    case GcSuspicious(_) => false
    case GcRefunding(_) => false
    case _ => true
  }

  lemma UnboundKeepsInv(c: Config, s: State, s': State, i: nat)
    requires Inv(c, s) && OnlyProc(s, s', i) && Unbound(s'.procs[i])
    requires s' == s.(api := s'.api, procs := s'.procs)
    requires s'.api.processed == s.api.processed
    requires s'.api.reservations.Keys <= s.api.reservations.Keys
    requires forall id :: id in s'.api.reservations ==> s'.api.reservations[id] == s.api.reservations[id]
    ensures Inv(c, s')
  {
    CalmKeepsInv(c, s, s', i);
  }

  /** The locks that process i holds after its step are free for it, or were its own. */
  ghost predicate LocksFree(s: State, i: nat, q: Proc)
    requires i < |s.procs|
  {
    (forall t :: HoldsType(q, t) ==> HoldsType(s.procs[i], t) || TypeFree(s, i, t)) &&
    (forall id :: HoldsTicket(q, id) ==> HoldsTicket(s.procs[i], id) || TicketFree(s, i, id)) &&
    (forall id :: CreatesId(q, id) ==> CreatesId(s.procs[i], id) && q.t == s.procs[i].t && !s.procs[i].CreateHashed?)
  }

  lemma FreeLocksDoNotClash(s: State, i: nat, q: Proc)
    requires i < |s.procs| && Exclusive(s.procs) && LocksFree(s, i, q)
    ensures NoClash(s, s.Put(i, q), i)
  {
    forall j | 0 <= j < |s.procs| && j != i ensures Apart(q, s.procs[j]) {
      assert Apart(s.procs[i], s.procs[j]);
    }
  }

  /** A statement that takes a lock, or only moves on. */
  lemma LockKeepsInv(c: Config, s: State, i: nat, q: Proc)
    requires Inv(c, s) && i < |s.procs| && LocksFree(s, i, q) && ProcOk(c, s.Put(i, q), q)
    ensures Inv(c, s.Put(i, q))
  {
    FreeLocksDoNotClash(s, i, q);
    CalmKeepsInv(c, s, s.Put(i, q), i);
  }

  lemma LocalKeepsInv(c: Config, s: State, s': State, i: nat)
    requires Inv(c, s) && Local(s, s', i)
    requires DbOk(s'.db) && ProcOk(c, s', s'.procs[i])
    requires IdsKept(s, s') ==> RedisOk(c, s')
    ensures Inv(c, s')
  {
    LocalGuarantee(c, s, s', i);
    GuaranteeKeepsInv(c, s, s', i);
  }

  /** Drawing an id from the sequence touches nothing else. */
  lemma DrawKeepsInv(c: Config, s: State, s': State, i: nat)
    requires Inv(c, s) && i < |s.procs| && s' == s.(db := s.db.(nextTicket := s.db.nextTicket + 1), procs := s'.procs)
    requires OnlyProc(s, s', i) && NoClash(s, s', i) && ProcOk(c, s', s'.procs[i])
    requires forall id: nat :: CreatesId(s'.procs[i], id) ==> id == s.db.nextTicket
    ensures Inv(c, s')
  {
    LocalKeepsInv(c, s, s', i);
  }

  lemma HsetKeepsInv(c: Config, s: State, i: nat, s': State)
    requires Inv(c, s) && i < |s.procs| && s.procs[i].CreateStamped? && CreateStep(s, i, Action.Hset) == Some(s')
    ensures Inv(c, s')
  {
    var id := s.procs[i].id;
    assert PendingHash(s.procs[i], id);
    if IdsKept(s, s') {
      assert EntryOk(s', id, s'.api.reservations[id]);
    }
    LocalKeepsInv(c, s, s', i);
  }

  lemma CreateCommitKeepsInv(c: Config, s: State, i: nat, s': State)
    requires Inv(c, s) && i < |s.procs| && s.procs[i].CreateHashed? && CreateStep(s, i, Commit) == Some(s')
    ensures Inv(c, s')
  {
    var p := s.procs[i];
    assert ProcOk(c, s, p);
    assert HoldsType(p, p.t) && CreatesId(p, p.id);
    assert TypeFree(s, i, p.t);
    hide Exclusive;
    LocalKeepsInv(c, s, s', i);
  }

  lemma CreateDrawKeepsInv(c: Config, s: State, i: nat, a: Action, s': State)
    requires Inv(c, s) && i < |s.procs| && CreateStep(s, i, a) == Some(s')
    requires (s.procs[i].CreateUpdated? && a.Flush?) ||
      (s.procs[i].CreateHolding? && a.UpdateSold? && s.procs[i].t !in s.db.types)
    ensures Inv(c, s')
  {
    assert forall j, id: nat :: 0 <= j < |s.procs| && CreatesId(s.procs[j], id) ==> id < s.db.nextTicket;
    DrawKeepsInv(c, s, s', i);
  }

  lemma CreateLockKeepsInv(c: Config, s: State, i: nat, a: Action, s': State)
    requires Inv(c, s) && i < |s.procs| && CreateStep(s, i, a) == Some(s')
    requires s'.procs[i].CreateUpdated? || s'.procs[i].CreateStamped?
    ensures Inv(c, s')
  {
    hide Exclusive, RedisOk;
    assert ProcOk(c, s, s.procs[i]);
    LockKeepsInv(c, s, i, s'.procs[i]);
  }

  /** What is left of a create when no table, lock or id is concerned. */
  lemma CreateIsQuiet(s: State, i: nat, a: Action, s': State)
    requires i < |s.procs| && CreateStep(s, i, a) == Some(s')
    requires !(s.procs[i].CreateHashed? && a.Commit?) && !s.procs[i].CreateStamped? && !(s.procs[i].CreateUpdated? && a.Flush?)
    requires !(s.procs[i].CreateHolding? && a.UpdateSold? && s.procs[i].t !in s.db.types)
    requires !s'.procs[i].CreateUpdated? && !s'.procs[i].CreateStamped?
    ensures OnlyProc(s, s', i) && Unbound(s'.procs[i]) && s' == s.(api := s'.api, procs := s'.procs)
    ensures s'.api.processed == s.api.processed && s'.api.reservations == s.api.reservations
  {
  }

  lemma CreateKeepsInv(c: Config, s: State, i: nat, a: Action, s': State)
    requires Inv(c, s) && i < |s.procs| && CreateStep(s, i, a) == Some(s')
    ensures Inv(c, s')
  {
    var p := s.procs[i];
    if p.CreateHashed? && a.Commit? {
      CreateCommitKeepsInv(c, s, i, s');
    } else if p.CreateStamped? {
      HsetKeepsInv(c, s, i, s');
    } else if (p.CreateUpdated? && a.Flush?) || (p.CreateHolding? && a.UpdateSold? && p.t !in s.db.types) {
      CreateDrawKeepsInv(c, s, i, a, s');
    } else if s'.procs[i].CreateUpdated? || s'.procs[i].CreateStamped? {
      CreateLockKeepsInv(c, s, i, a, s');
    } else {
      CreateIsQuiet(s, i, a, s');
      UnboundKeepsInv(c, s, s', i);
    }
  }

  lemma DeleteCommitKeepsInv(c: Config, s: State, i: nat, s': State)
    requires Inv(c, s) && i < |s.procs| && s.procs[i].DeleteRemoved? && DeleteStep(s, i, Commit) == Some(s')
    ensures Inv(c, s')
  {
    var p := s.procs[i];
    assert ProcOk(c, s, p);
    assert HoldsType(p, p.t) && HoldsTicket(p, p.id);
    assert TypeFree(s, i, p.t) && TicketFree(s, i, p.id);
    hide Exclusive;
    LocalKeepsInv(c, s, s', i);
  }

  lemma DeleteLocks(s: State, i: nat, a: Action, s': State)
    requires i < |s.procs| && DeleteStep(s, i, a) == Some(s') && !Unbound(s'.procs[i])
    ensures s' == s.Put(i, s'.procs[i]) && LocksFree(s, i, s'.procs[i])
  {
  }

  lemma DeleteLearns(c: Config, s: State, i: nat, a: Action, s': State)
    requires Inv(c, s) && i < |s.procs| && DeleteStep(s, i, a) == Some(s') && !Unbound(s'.procs[i])
    ensures ProcOk(c, s', s'.procs[i])
  {
    hide Exclusive, RedisOk;
    assert ProcOk(c, s, s.procs[i]);
  }

  lemma DeleteLockKeepsInv(c: Config, s: State, i: nat, a: Action, s': State)
    requires Inv(c, s) && i < |s.procs| && DeleteStep(s, i, a) == Some(s') && !Unbound(s'.procs[i])
    ensures Inv(c, s')
  {
    DeleteLocks(s, i, a, s');
    DeleteLearns(c, s, i, a, s');
    hide Inv, DeleteStep, ProcOk, LocksFree;
    LockKeepsInv(c, s, i, s'.procs[i]);
  }

  lemma DeleteKeepsInv(c: Config, s: State, i: nat, a: Action, s': State)
    requires Inv(c, s) && i < |s.procs| && DeleteStep(s, i, a) == Some(s')
    ensures Inv(c, s')
  {
    if s.procs[i].DeleteRemoved? && a.Commit? {
      DeleteCommitKeepsInv(c, s, i, s');
    } else if Unbound(s'.procs[i]) {
      UnboundKeepsInv(c, s, s', i);
    } else {
      DeleteLockKeepsInv(c, s, i, a, s');
    }
  }

  lemma PayCommitKeepsInv(c: Config, s: State, i: nat, s': State)
    requires Inv(c, s) && i < |s.procs| && s.procs[i].PayLocked? && PayStep(s, i, Commit) == Some(s')
    ensures Inv(c, s')
  {
    var p := s.procs[i];
    assert HoldsTicket(p, p.id);
    assert TicketFree(s, i, p.id);
    hide Exclusive;
    LocalKeepsInv(c, s, s', i);
  }

  lemma PayKeepsInv(c: Config, s: State, i: nat, a: Action, s': State)
    requires Inv(c, s) && i < |s.procs| && PayStep(s, i, a) == Some(s')
    ensures Inv(c, s')
  {
    if s.procs[i].PayLocked? && a.Commit? {
      PayCommitKeepsInv(c, s, i, s');
    } else if Unbound(s'.procs[i]) {
      UnboundKeepsInv(c, s, s', i);
    } else {
      LockKeepsInv(c, s, i, s'.procs[i]);
    }
  }

  /** A worker's refund of an id whose ticket or hash entry it has seen. */
  lemma RefundKeepsInv(c: Config, s: State, s': State, i: nat, t: nat, id: nat)
    requires Inv(c, s) && OnlyProc(s, s', i) && NoClash(s, s', i) && OwnIds(s, s', i)
    requires s' == SetWorkerRedis(c, s, WorkerRedis(c, s).Refund(t, id)).(procs := s'.procs)
    requires id < s.db.nextTicket && Hashed(s, id) && ProcOk(c, s', s'.procs[i])
    ensures Inv(c, s')
  {
    LocalKeepsInv(c, s, s', i);
  }

  lemma ReleaseCommitKeepsInv(c: Config, s: State, i: nat, s': State)
    requires Inv(c, s) && i < |s.procs| && s.procs[i].ReleaseRefunded? && ReleaseStep(c, s, i, Commit) == Some(s')
    ensures Inv(c, s')
  {
    var p := s.procs[i];
    assert ProcOk(c, s, p);
    assert HoldsType(p, p.t) && HoldsTicket(p, p.id);
    assert TypeFree(s, i, p.t) && TicketFree(s, i, p.id);
    hide Exclusive;
    LocalKeepsInv(c, s, s', i);
  }

  lemma ReleaseRefundKeepsInv(c: Config, s: State, i: nat, s': State)
    requires Inv(c, s) && i < |s.procs| && s.procs[i].ReleaseUpdated?
    requires ReleaseStep(c, s, i, Action.Refund(s.procs[i].id)) == Some(s')
    ensures Inv(c, s')
  {
    var p := s.procs[i];
    assert ProcOk(c, s, p);
    TicketHashed(c, s, p.id);
    RefundKeepsInv(c, s, s', i, p.t, p.id);
  }

  lemma TicketHashed(c: Config, s: State, id: nat)
    requires Inv(c, s) && id in s.db.tickets
    ensures id < s.db.nextTicket && Hashed(s, id)
  {
  }

  lemma ReleaseLockKeepsInv(c: Config, s: State, i: nat, a: Action, s': State)
    requires Inv(c, s) && i < |s.procs| && ReleaseStep(c, s, i, a) == Some(s')
    requires s'.procs[i].ReleaseLocked? || s'.procs[i].ReleaseUpdated?
    ensures Inv(c, s')
  {
    hide Exclusive, RedisOk;
    assert ProcOk(c, s, s.procs[i]);
    LockKeepsInv(c, s, i, s'.procs[i]);
  }

  lemma ReleaseKeepsInv(c: Config, s: State, i: nat, a: Action, s': State)
    requires Inv(c, s) && i < |s.procs| && ReleaseStep(c, s, i, a) == Some(s')
    ensures Inv(c, s')
  {
    var p := s.procs[i];
    if p.ReleaseRefunded? && a.Commit? {
      ReleaseCommitKeepsInv(c, s, i, s');
    } else if p.ReleaseUpdated? && a.Refund? {
      ReleaseRefundKeepsInv(c, s, i, s');
    } else if Unbound(s'.procs[i]) {
      UnboundKeepsInv(c, s, s', i);
    } else {
      ReleaseLockKeepsInv(c, s, i, a, s');
    }
  }

  /** The types of a batch exist; other types have no part in it. */
  lemma BatchTypes(db: Db, locked: map<nat, nat>)
    requires DbOk(db) && BatchOk(db, locked)
    ensures forall t :: t in locked.Values ==> t in db.types
    ensures forall t :: t !in locked.Values ==> OfType(locked, t) == {}
  {
    forall t | t in locked.Values ensures t in db.types {
      var id :| id in locked && locked[id] == t;
      assert Reserved(db, id, t);
    }
  }

  lemma HungCommitTables(c: Config, s: State, i: nat, s': State)
    requires Inv(c, s) && i < |s.procs| && s.procs[i].HungRefunding? && HungStep(c, s, i, Commit) == Some(s')
    ensures DbOk(s'.db)
    ensures forall t :: t in s.db.types ==> SameType(s, s', t) || TypeFree(s, i, t)
    ensures forall id :: id in s.db.tickets ==>
      (id in s'.db.tickets && s'.db.tickets[id] == s.db.tickets[id]) || TicketFree(s, i, id)
  {
    var p := s.procs[i];
    assert ProcOk(c, s, p);
    BatchTypes(s.db, p.locked);
    forall t | t in s.db.types ensures (SameType(s, s', t) || TypeFree(s, i, t)) && s'.db.types[t].Ok() {
      if t in p.locked.Values { assert HoldsType(p, t) && CanSubtract(s.db, t, |OfType(p.locked, t)|); }
    }
    forall id | id in s.db.tickets
      ensures (id in s'.db.tickets && s'.db.tickets[id] == s.db.tickets[id]) || TicketFree(s, i, id)
    {
      if id in p.locked { assert HoldsTicket(p, id); }
    }
  }

  lemma HungCommitIsLocal(c: Config, s: State, i: nat, s': State)
    requires Inv(c, s) && i < |s.procs| && s.procs[i].HungRefunding? && HungStep(c, s, i, Commit) == Some(s')
    ensures Local(s, s', i) && s'.procs[i] == Done(Finished) && s'.api == s.api && s'.wrk == s.wrk
  {
    HungCommitTables(c, s, i, s');
  }

  lemma HungCommitKeepsInv(c: Config, s: State, i: nat, s': State)
    requires Inv(c, s) && i < |s.procs| && s.procs[i].HungRefunding? && HungStep(c, s, i, Commit) == Some(s')
    ensures Inv(c, s')
  {
    HungCommitTables(c, s, i, s');
    HungCommitIsLocal(c, s, i, s');
    LocalKeepsInv(c, s, s', i);
  }

  lemma HungRefundIsLocal(c: Config, s: State, i: nat, id: nat, s': State)
    requires Inv(c, s) && i < |s.procs| && s.procs[i].HungRefunding?
    requires HungStep(c, s, i, Action.Refund(id)) == Some(s')
    ensures OnlyProc(s, s', i) && NoClash(s, s', i) && OwnIds(s, s', i) && ProcOk(c, s', s'.procs[i])
    ensures s' == SetWorkerRedis(c, s, WorkerRedis(c, s).Refund(s.procs[i].locked[id], id)).(procs := s'.procs)
  {
    assert ProcOk(c, s, s.procs[i]);
  }

  lemma HungRefundKeepsInv(c: Config, s: State, i: nat, id: nat, s': State)
    requires Inv(c, s) && i < |s.procs| && s.procs[i].HungRefunding?
    requires HungStep(c, s, i, Action.Refund(id)) == Some(s')
    ensures Inv(c, s')
  {
    var p := s.procs[i];
    assert ProcOk(c, s, p);
    assert Reserved(s.db, id, p.locked[id]);
    TicketHashed(c, s, id);
    HungRefundIsLocal(c, s, i, id, s');
    RefundKeepsInv(c, s, s', i, p.locked[id], id);
  }

  lemma HungScanKeepsInv(c: Config, s: State, i: nat, a: Action, s': State)
    requires Inv(c, s) && i < |s.procs| && HungStep(c, s, i, a) == Some(s') && s.procs[i].HungScanning?
    ensures Inv(c, s')
  {
    if Unbound(s'.procs[i]) {
      UnboundKeepsInv(c, s, s', i);
    } else {
      hide Exclusive, RedisOk;
      assert ProcOk(c, s, s.procs[i]);
      LockKeepsInv(c, s, i, s'.procs[i]);
    }
  }

  lemma HungUpdateKeepsInv(c: Config, s: State, i: nat, a: Action, s': State)
    requires Inv(c, s) && i < |s.procs| && HungStep(c, s, i, a) == Some(s') && s.procs[i].HungUpdating?
    ensures Inv(c, s')
  {
    assert ProcOk(c, s, s.procs[i]);
    if Unbound(s'.procs[i]) { UnboundKeepsInv(c, s, s', i); } else { LockKeepsInv(c, s, i, s'.procs[i]); }
  }

  lemma HungKeepsInv(c: Config, s: State, i: nat, a: Action, s': State)
    requires Inv(c, s) && i < |s.procs| && HungStep(c, s, i, a) == Some(s')
    ensures Inv(c, s')
  {
    var p := s.procs[i];
    if p.HungScanning? {
      HungScanKeepsInv(c, s, i, a, s');
    } else if p.HungUpdating? {
      HungUpdateKeepsInv(c, s, i, a, s');
    } else if p.HungStart? {
      UnboundKeepsInv(c, s, s', i);
    } else if p.HungTimed? {
      CalmKeepsInv(c, s, s', i);
    } else if a.Commit? {
      HungCommitKeepsInv(c, s, i, s');
    } else if a.Refund? {
      HungRefundKeepsInv(c, s, i, a.id, s');
    } else {
      UnboundKeepsInv(c, s, s', i);
    }
  }

  lemma EntriesKept(s: State, s': State, entries: map<nat, Reservation>, kept: map<nat, Reservation>)
    requires EntriesOk(s, entries) && IdsKept(s, s')
    requires forall id :: id in kept ==> id in entries && kept[id] == entries[id]
    ensures EntriesOk(s', kept)
  {
    forall id | id in kept ensures EntryOk(s', id, kept[id]) {
      assert EntryOk(s, id, entries[id]);
    }
  }

  lemma EntryHashed(s: State, id: nat, r: Reservation)
    requires EntryOk(s, id, r)
    ensures id < s.db.nextTicket && Hashed(s, id)
  {
  }

  /** A collector that moves on with part of the entries it had. */
  lemma GcMoveKeepsInv(c: Config, s: State, s': State, i: nat, entries: map<nat, Reservation>, kept: map<nat, Reservation>)
    requires Inv(c, s) && EntriesOk(s, entries) && i < |s.procs|
    requires forall id :: id in kept ==> id in entries && kept[id] == entries[id]
    requires s' in [s.Put(i, GcSnapshot(kept)), s.Put(i, GcSuspicious(kept)), s.Put(i, GcRefunding(kept))]
    ensures Inv(c, s')
  {
    LocalKeepsIds(c, s, s', i);
    EntriesKept(s, s', entries, kept);
    CalmKeepsInv(c, s, s', i);
  }

  /** What a collector's refund does, apart from the collector. */
  lemma GcRefundIsLocal(c: Config, s: State, s': State, i: nat, t: nat, id: nat, entries: map<nat, Reservation>)
    requires Inv(c, s) && i < |s.procs| && id < s.db.nextTicket && Hashed(s, id)
    requires s' == SetWorkerRedis(c, s, WorkerRedis(c, s).Refund(t, id)).Put(i, GcRefunding(entries))
    ensures NoClash(s, s', i) && OwnIds(s, s', i) && IdsKept(s, s')
  {
    hide ProcOk, RedisOk, DbOk;
    LocalKeepsIds(c, s, s', i);
  }

  lemma GcRefundKeepsInv(c: Config, s: State, s': State, i: nat, entries: map<nat, Reservation>, id: nat)
    requires Inv(c, s) && i < |s.procs| && s.procs[i] == GcRefunding(entries) && id in entries
    requires s' == SetWorkerRedis(c, s, WorkerRedis(c, s).Refund(entries[id].typeId, id)).Put(i, GcRefunding(entries - {id}))
    ensures Inv(c, s')
  {
    assert ProcOk(c, s, s.procs[i]);
    EntryHashed(s, id, entries[id]);
    GcRefundIsLocal(c, s, s', i, entries[id].typeId, id, entries - {id});
    EntriesKept(s, s', entries, entries - {id});
    RefundKeepsInv(c, s, s', i, entries[id].typeId, id);
  }

  lemma GcKeepsInv(c: Config, s: State, i: nat, a: Action, s': State)
    requires Inv(c, s) && i < |s.procs| && GcStep(c, s, i, a) == Some(s')
    ensures Inv(c, s')
  {
    var p := s.procs[i];
    assert ProcOk(c, s, p);
    if a.Abort? || a.Finish? {
      UnboundKeepsInv(c, s, s', i);
    } else {
      match p
      case GcStart => GcMoveKeepsInv(c, s, s', i, WorkerRedis(c, s).reservations, s'.procs[i].entries);
      case GcSnapshot(entries) => GcMoveKeepsInv(c, s, s', i, entries, s'.procs[i].entries);
      case GcSuspicious(entries) => GcMoveKeepsInv(c, s, s', i, entries, s'.procs[i].entries);
      case GcRefunding(entries) => GcRefundKeepsInv(c, s, s', i, entries, a.id);
    }
  }

  /** A write to a type row that nobody else has locked. */
  lemma TypeWriteKeepsInv(c: Config, s: State, s': State, i: nat, t: nat)
    requires Inv(c, s) && i < |s.procs| && TypeFree(s, i, t) && s.db.nextType <= s'.db.nextType
    requires s' == s.(db := s.db.(types := s'.db.types, nextType := s'.db.nextType), procs := s'.procs)
    requires OnlyProc(s, s', i) && Unbound(s'.procs[i]) && DbOk(s'.db)
    requires forall u :: u != t ==> (u in s.db.types <==> u in s'.db.types) && (u in s.db.types ==> SameType(s, s', u))
    ensures Inv(c, s')
  {
    LocalKeepsInv(c, s, s', i);
  }

  lemma LockedTypeKnown(c: Config, s: State, p: Proc, t: nat)
    requires DbOk(s.db) && ProcOk(c, s, p) && HoldsType(p, t)
    ensures t < s.db.nextType
  {
    if p.HungUpdating? || p.HungRefunding? { BatchTypes(s.db, p.locked); }
  }

  lemma NewTypeFree(c: Config, s: State, i: nat)
    requires Inv(c, s) && i < |s.procs|
    ensures TypeFree(s, i, s.db.nextType)
  {
    forall j | 0 <= j < |s.procs| ensures !HoldsType(s.procs[j], s.db.nextType) {
      if HoldsType(s.procs[j], s.db.nextType) { LockedTypeKnown(c, s, s.procs[j], s.db.nextType); }
    }
  }

  lemma NewTypeKeepsInv(c: Config, s: State, i: nat, a: Action, s': State)
    requires Inv(c, s) && i < |s.procs| && s.procs[i].NewTypeStart? && AdminStep(s, i, a) == Some(s')
    ensures Inv(c, s')
  {
    NewTypeFree(c, s, i);
    TypeWriteKeepsInv(c, s, s', i, s.db.nextType);
  }

  lemma SavedTypeKeepsInv(c: Config, s: State, i: nat, s': State)
    requires Inv(c, s) && i < |s.procs| && s.procs[i].UpdateReady? && AdminStep(s, i, Commit) == Some(s')
    ensures Inv(c, s')
  {
    TypeWriteKeepsInv(c, s, s', i, s.procs[i].t);
  }

  lemma DroppedTypeKeepsInv(c: Config, s: State, i: nat, s': State)
    requires Inv(c, s) && i < |s.procs| && s.procs[i].DropReady? && AdminStep(s, i, Commit) == Some(s')
    ensures Inv(c, s')
  {
    TypeWriteKeepsInv(c, s, s', i, s.procs[i].t);
  }

  lemma AdminIsQuiet(s: State, i: nat, a: Action, s': State)
    requires i < |s.procs| && AdminStep(s, i, a) == Some(s')
    requires !s.procs[i].NewTypeStart? && !((s.procs[i].UpdateReady? || s.procs[i].DropReady?) && a.Commit?)
    ensures OnlyProc(s, s', i) && Unbound(s'.procs[i]) && s' == s.(api := s'.api, procs := s'.procs)
    ensures s'.api.processed == s.api.processed && s'.api.reservations == s.api.reservations
  {
  }

  lemma AdminKeepsInv(c: Config, s: State, i: nat, a: Action, s': State)
    requires Inv(c, s) && i < |s.procs| && AdminStep(s, i, a) == Some(s')
    ensures Inv(c, s')
  {
    var p := s.procs[i];
    if p.NewTypeStart? { NewTypeKeepsInv(c, s, i, a, s'); }
    else if p.UpdateReady? && a.Commit? { SavedTypeKeepsInv(c, s, i, s'); }
    else if p.DropReady? && a.Commit? { DroppedTypeKeepsInv(c, s, i, s'); }
    else {
      AdminIsQuiet(s, i, a, s');
      UnboundKeepsInv(c, s, s', i);
    }
  }

  lemma LifeKeepsInv(c: Config, s: State, i: nat, a: Action, s': State)
    requires Inv(c, s) && i < |s.procs| && LifeStep(s, i, a) == Some(s')
    ensures Inv(c, s')
  {
    UnboundKeepsInv(c, s, s', i);
  }

  lemma TickKeepsInv(c: Config, s: State)
    requires Inv(c, s)
    ensures Inv(c, s.(now := s.now + 1))
  {
    var s' := s.(now := s.now + 1);
    forall id, r | EntryOk(s, id, r) ensures EntryOk(s', id, r) { }
    forall j | 0 <= j < |s.procs| ensures ProcOk(c, s', s.procs[j]) {
      RelyKeepsProc(c, s, s', s.procs[j]);
    }
  }

  /** The base invariant is inductive. */
  lemma StepKeepsInv(c: Config, s: State, l: Label, s': State)
    requires Inv(c, s) && Step(c, s, l) == Some(s')
    ensures Inv(c, s')
  {
    if l.act.Tick? { TickKeepsInv(c, s); }
    else if l.act.Spawn? || l.act.Die? { LifeKeepsInv(c, s, l.i, l.act, s'); }
    else if CreateStep(s, l.i, l.act).Some? { CreateKeepsInv(c, s, l.i, l.act, s'); }
    else if DeleteStep(s, l.i, l.act).Some? { DeleteKeepsInv(c, s, l.i, l.act, s'); }
    else if PayStep(s, l.i, l.act).Some? { PayKeepsInv(c, s, l.i, l.act, s'); }
    else if ReleaseStep(c, s, l.i, l.act).Some? { ReleaseKeepsInv(c, s, l.i, l.act, s'); }
    else if HungStep(c, s, l.i, l.act).Some? { HungKeepsInv(c, s, l.i, l.act, s'); }
    else if GcStep(c, s, l.i, l.act).Some? { GcKeepsInv(c, s, l.i, l.act, s'); }
    else { AdminKeepsInv(c, s, l.i, l.act, s'); }
  }

  lemma RunStep(c: Config, states: seq<State>, labels: seq<Label>, k: nat)
    requires Run(c, states, labels) && k < |labels|
    ensures Step(c, states[k], labels[k]) == Some(states[k + 1])
  {
  }

  /** What every good step keeps holds in every state of a run of good steps. */
  lemma {:induction false} RunInduction(c: Config, states: seq<State>, labels: seq<Label>, ok: State -> bool, good: (State, Label) -> bool, k: nat)
    requires Run(c, states, labels) && k < |states| && ok(states[0])
    requires forall m {:trigger labels[m]} :: 0 <= m < |labels| ==> good(states[m], labels[m])
    requires forall s, l, s' {:trigger ok(s), good(s, l), ok(s')} :: ok(s) && good(s, l) && Step(c, s, l) == Some(s') ==> ok(s')
    ensures ok(states[k])
  {
    if k > 0 {
      RunInduction(c, states, labels, ok, good, k - 1);
      assert ok(states[k - 1]) && good(states[k - 1], labels[k - 1]);
    }
  }

  /** Every state of a run that starts in the invariant satisfies it. */
  lemma {:induction false} RunKeepsInv(c: Config, states: seq<State>, labels: seq<Label>, k: nat)
    requires Run(c, states, labels) && Inv(c, states[0]) && k < |states|
    ensures Inv(c, states[k])
  {
    if k > 0 {
      RunKeepsInv(c, states, labels, k - 1);
      StepKeepsInv(c, states[k - 1], labels[k - 1], states[k]);
    }
  }
}
