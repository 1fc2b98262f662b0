/** The worker's jobs over the inventory database it is given, loop by loop. */
module Worker {
  import opened Stores
  import P = Protocol
  import opened Refunds
  import opened Operations
  import opened Clients
  import RedisKeys

  // ---------- the Counter of a batch ----------

  /** How many rows there are of each type. */
  method CountTypes(rows: seq<CanceledRow>) returns (count: map<nat, nat>)
    ensures count == CountsOf(rows)
  {
    count := map[];
    for i := 0 to |rows|
      invariant count == CountsOf(rows[..i])
    {
      var t := rows[i].typeId;
      assert rows[..i + 1] == rows[..i] + [rows[i]];
      CountSnoc(rows[..i], rows[i]);
      count := count[t := (if t in count then count[t] else 0) + 1];
    }
    assert rows[..|rows|] == rows;
  }

  function IndicesOf(rows: seq<CanceledRow>, t: nat): set<nat> {
    set i: nat | i < |rows| && rows[i].typeId == t
  }

  function TypeSet(rows: seq<CanceledRow>): set<nat> {
    set i | 0 <= i < |rows| :: rows[i].typeId
  }

  function CountsOf(rows: seq<CanceledRow>): map<nat, nat> {
    map t | t in TypeSet(rows) :: |IndicesOf(rows, t)|
  }

  lemma TypeSetSnoc(rows: seq<CanceledRow>, row: CanceledRow)
    ensures TypeSet(rows + [row]) == TypeSet(rows) + {row.typeId}
  {
    var rows' := rows + [row];
    forall t | t in TypeSet(rows) + {row.typeId} ensures t in TypeSet(rows') {
      if t in TypeSet(rows) { var i :| 0 <= i < |rows| && rows[i].typeId == t; assert rows'[i].typeId == t; }
      else { assert rows'[|rows|].typeId == t; }
    }
  }

  lemma IndicesSnoc(rows: seq<CanceledRow>, row: CanceledRow, t: nat)
    ensures |IndicesOf(rows + [row], t)| == |IndicesOf(rows, t)| + if t == row.typeId then 1 else 0
    ensures t !in TypeSet(rows) ==> IndicesOf(rows, t) == {}
  {
    assert IndicesOf(rows + [row], t) == IndicesOf(rows, t) + if t == row.typeId then {|rows|} else {};
    assert forall i :: 0 <= i < |rows| ==> rows[i].typeId in TypeSet(rows);
  }

  lemma CountSnoc(rows: seq<CanceledRow>, row: CanceledRow)
    ensures var c := CountsOf(rows);
      CountsOf(rows + [row]) == c[row.typeId := (if row.typeId in c then c[row.typeId] else 0) + 1]
  {
    TypeSetSnoc(rows, row);
    forall t ensures |IndicesOf(rows + [row], t)| == |IndicesOf(rows, t)| + (if t == row.typeId then 1 else 0)
      && (t !in TypeSet(rows) ==> IndicesOf(rows, t) == {})
    {
      IndicesSnoc(rows, row, t);
    }
  }

  /** Rows that list a batch count its ids by type. */
  lemma CountIsOfType(rows: seq<CanceledRow>, locked: map<nat, nat>, t: nat)
    requires RowsOf(rows, locked)
    ensures |IndicesOf(rows, t)| == |P.OfType(locked, t)|
    ensures t in TypeSet(rows) <==> exists id :: id in locked && locked[id] == t
  {
    var ids := map i | i in IndicesOf(rows, t) :: rows[i].ticketId;
    assert ids.Keys == IndicesOf(rows, t);
    forall id | id in P.OfType(locked, t) ensures id in ids.Values {
      var i :| 0 <= i < |rows| && rows[i].ticketId == id;
      assert i in ids && ids[i] == id;
    }
    assert ids.Values == P.OfType(locked, t);
    InjectiveSize(ids);
    forall id | id in locked && locked[id] == t ensures t in TypeSet(rows) {
      var i :| 0 <= i < |rows| && rows[i].ticketId == id;
      assert rows[i].typeId == t;
    }
    forall i | 0 <= i < |rows| && rows[i].typeId == t ensures exists id :: id in locked && locked[id] == t {
      assert rows[i].ticketId in locked;
    }
  }

  lemma {:induction false} InjectiveSize(m: map<nat, nat>)
    requires forall a, b :: a in m && b in m && m[a] == m[b] ==> a == b
    ensures |m.Keys| == |m.Values|
    decreases |m|
  {
    if m != map[] {
      var a :| a in m;
      var rest := m - {a};
      InjectiveSize(rest);
      assert m.Keys == rest.Keys + {a};
      forall v | v in m.Values && v != m[a] ensures v in rest.Values {
        var b :| b in m && m[b] == v;
        assert b in rest && rest[b] == v;
      }
      forall v | v in rest.Values ensures v in m.Values && v != m[a] {
        var b :| b in rest && rest[b] == v;
        assert b in m && m[b] == v;
      }
      assert m.Values == rest.Values + {m[a]};
    }
  }

  // ---------- lemmas about the batch ----------

  /** tickets_sold less the counts of the types already done. */
  function Subtracted(types: map<nat, TypeRow>, count: map<nat, nat>, done: set<nat>): map<nat, TypeRow> {
    map t | t in types :: types[t].(sold := types[t].sold - if t in count && t in done then count[t] else 0)
  }

  lemma SubtractedNone(types: map<nat, TypeRow>, count: map<nat, nat>)
    ensures Subtracted(types, count, count.Keys - count.Keys) == types
  {
  }

  lemma SubtractedOne(types: map<nat, TypeRow>, count: map<nat, nat>, rest: set<nat>, t: nat)
    requires rest <= count.Keys && t in rest
    ensures Subtracted(types, count, count.Keys - (rest - {t})) == AddSold(Subtracted(types, count, count.Keys - rest), t, -(count[t] as int))
    ensures t in types ==> Subtracted(types, count, count.Keys - rest)[t] == types[t]
  {
  }

  /** The refund calls of a loop over rows or locks. */
  function Calls<T>(xs: seq<T>, call: T -> Credit): seq<Credit> {
    seq(|xs|, i requires 0 <= i < |xs| => call(xs[i]))
  }

  function RowCall(row: CanceledRow): Credit {
    Credit(row.typeId, row.ticketId)
  }

  function LockCall(lock: RedisKeys.Lock): Credit {
    Credit(lock.typeId, lock.ticketId)
  }

  lemma OneMoreCall<T>(r: Redis, xs: seq<T>, call: T -> Credit, i: nat)
    requires i < |xs|
    ensures RefundAll(r, Calls(xs[..i + 1], call)) == RefundAll(r, Calls(xs[..i], call)).Refund(call(xs[i]).t, call(xs[i]).id)
  {
    var calls, k := Calls(xs[..i], call), call(xs[i]);
    assert Calls(xs[..i + 1], call) == calls + [k];
    assert (calls + [k])[..|calls|] == calls;
  }

  lemma RowCalls(rows: seq<CanceledRow>, locked: map<nat, nat>)
    requires RowsOf(rows, locked)
    ensures CallSet(Calls(rows, RowCall)) == CreditsOf(locked) && OneType(CreditsOf(locked))
  {
    var calls := Calls(rows, RowCall);
    forall k | k in CreditsOf(locked) ensures k in calls {
      var i :| 0 <= i < |rows| && rows[i].ticketId == k.id;
      assert calls[i] == k;
    }
    forall k | k in calls ensures k in CreditsOf(locked) {
      var i :| 0 <= i < |calls| && calls[i] == k;
      assert rows[i].ticketId in locked;
    }
  }

  // ---------- where a job stops ----------

  /** A job runs to its end, or fails or dies after so many refunds. */
  datatype Halt = Never | FailsAfter(refunds: nat) | DiesAfter(refunds: nat)

  function Reach(halt: Halt, n: nat): nat {
    if halt.Never? || n < halt.refunds then n else halt.refunds
  }

  function StopAt(halt: Halt, done: set<nat>): Stop {
    match halt
    case Never => Runs
    case FailsAfter(_) => Fails(done)
    case DiesAfter(_) => Dies(done)
  }

  function RowIds(rows: seq<CanceledRow>): set<nat> {
    set i | 0 <= i < |rows| :: rows[i].ticketId
  }

  lemma RowIdsSnoc(rows: seq<CanceledRow>, k: nat)
    requires 0 < k <= |rows|
    ensures RowIds(rows[..k]) == RowIds(rows[..k - 1]) + {rows[k - 1].ticketId}
  {
    var id := rows[k - 1].ticketId;
    forall x | x in RowIds(rows[..k]) ensures x in RowIds(rows[..k - 1]) + {id} {
      var i :| 0 <= i < k && rows[..k][i].ticketId == x;
      if i < k - 1 { assert rows[..k - 1][i].ticketId == x; }
    }
    forall x | x in RowIds(rows[..k - 1]) + {id} ensures x in RowIds(rows[..k]) {
      if x == id { assert rows[..k][k - 1].ticketId == x; }
      else { var i :| 0 <= i < k - 1 && rows[..k - 1][i].ticketId == x; assert rows[..k][i].ticketId == x; }
    }
  }

  lemma {:induction false} FirstIds(rows: seq<CanceledRow>, locked: map<nat, nat>, k: nat)
    requires RowsOf(rows, locked) && k <= |rows|
    ensures |RowIds(rows[..k])| == k && RowIds(rows[..k]) <= locked.Keys
  {
    if k > 0 {
      FirstIds(rows, locked, k - 1);
      RowIdsSnoc(rows, k);
      assert forall i :: 0 <= i < k - 1 ==> rows[..k - 1][i] == rows[i];
      assert rows[k - 1].ticketId !in RowIds(rows[..k - 1]);
    }
  }

  /** The first k rows list k ids of the batch. */
  lemma FirstRows(rows: seq<CanceledRow>, locked: map<nat, nat>, k: nat)
    requires RowsOf(rows, locked) && k <= |rows|
    ensures |RowIds(rows[..k])| == k && RowIds(rows[..k]) <= locked.Keys
    ensures RowsOf(rows[..k], Reached(locked, Fails(RowIds(rows[..k]))))
  {
    FirstIds(rows, locked, k);
    var first := rows[..k];
    forall i | 0 <= i < k ensures first[i].ticketId in RowIds(first) && first[i] == rows[i] { }
    forall id | id in RowIds(first) ensures exists i :: 0 <= i < k && first[i].ticketId == id { }
  }

  lemma AllRows(rows: seq<CanceledRow>, locked: map<nat, nat>)
    requires RowsOf(rows, locked)
    ensures |rows| == |locked.Keys|
  {
    FirstRows(rows, locked, |rows|);
    assert rows[..|rows|] == rows;
    forall id | id in locked ensures id in RowIds(rows) {
      var i :| 0 <= i < |rows| && rows[i].ticketId == id;
    }
    assert RowIds(rows) == locked.Keys;
  }

  /** Refunding the first rows refunds the part of the batch that the stop reaches. */
  lemma RefundsReach(r: Redis, rows: seq<CanceledRow>, locked: map<nat, nat>, halt: Halt)
    requires RowsOf(rows, locked)
    ensures var k := Reach(halt, |rows|); var done := RowIds(rows[..k]);
      |done| == k && done <= locked.Keys &&
      RefundAll(r, Calls(rows[..k], RowCall)) == RefundSet(r, CreditsOf(Reached(locked, StopAt(halt, done))))
  {
    var k := Reach(halt, |rows|);
    FirstRows(rows, locked, k);
    if halt.Never? {
      assert rows[..k] == rows;
      RowCalls(rows, locked);
    } else {
      RowCalls(rows[..k], Reached(locked, Fails(RowIds(rows[..k]))));
    }
    RefundsAreASet(r, Calls(rows[..k], RowCall));
  }

  /** No row is returned exactly when nothing hangs, and then nothing is cancelled. */
  lemma NoRows(db: Db, threshold: int, rows: seq<CanceledRow>)
    requires RowsOf(rows, TypesOf(db, HungIds(db, threshold)))
    ensures rows == [] <==> HungIds(db, threshold) == {}
    ensures rows == [] ==> CancelBatchOf(db, threshold) == db.tickets
  {
    var hung, locked := HungIds(db, threshold), TypesOf(db, HungIds(db, threshold));
    if rows == [] {
      assert locked == map[];
      forall id | id in hung ensures id in locked { }
    } else {
      assert rows[0].ticketId in locked;
      assert rows[0].ticketId in hung;
    }
  }

  function CancelBatchOf(db: Db, threshold: int): map<nat, Stores.Ticket> {
    P.CancelBatch(db.tickets, TypesOf(db, HungIds(db, threshold)))
  }

  lemma CountAt(rows: seq<CanceledRow>, locked: map<nat, nat>, t: nat)
    requires RowsOf(rows, locked)
    ensures var count := CountsOf(rows);
      (t in count <==> exists id :: id in locked && locked[id] == t) &&
      (t in count ==> count[t] >= 1) && |P.OfType(locked, t)| == if t in count then count[t] else 0
  {
    CountIsOfType(rows, locked, t);
    IndicesSnoc(rows, CanceledRow(0, 0), t);
    if t in CountsOf(rows) {
      var i :| 0 <= i < |rows| && rows[i].typeId == t;
      assert i in IndicesOf(rows, t);
    }
  }

  lemma CountedSubtract(types: map<nat, TypeRow>, rows: seq<CanceledRow>, locked: map<nat, nat>)
    requires RowsOf(rows, locked)
    ensures Subtracted(types, CountsOf(rows), CountsOf(rows).Keys) == P.SubtractBatch(types, locked)
  {
    forall t | t in types
      ensures |P.OfType(locked, t)| == if t in CountsOf(rows) then CountsOf(rows)[t] else 0
    {
      CountAt(rows, locked, t);
    }
  }

  /** The counts are refused exactly when the batch is. */
  lemma CountedRefusal(db: Db, rows: seq<CanceledRow>, locked: map<nat, nat>)
    requires RowsOf(rows, locked)
    ensures (exists t :: t in CountsOf(rows) && !CanSubtract(db, t, CountsOf(rows)[t])) <==> BatchRefused(db, locked)
  {
    var count := CountsOf(rows);
    if BatchRefused(db, locked) {
      var id :| id in locked && !CanSubtract(db, locked[id], |P.OfType(locked, locked[id])|);
      CountAt(rows, locked, locked[id]);
      assert !CanSubtract(db, locked[id], count[locked[id]]);
    }
    if t :| t in count && !CanSubtract(db, t, count[t]) {
      CountAt(rows, locked, t);
      var id :| id in locked && locked[id] == t;
      assert !CanSubtract(db, locked[id], |P.OfType(locked, locked[id])|);
    }
  }

  // ---------- lemmas about the collector ----------

  /** The hash entry that a lock was read from. */
  function EntryOf(lock: RedisKeys.Lock): Reservation {
    Reservation(lock.typeId, lock.timestamp)
  }

  function LockIds(locks: seq<RedisKeys.Lock>): set<nat> {
    set i | 0 <= i < |locks| :: locks[i].ticketId
  }

  lemma LockInSeq(locks: seq<RedisKeys.Lock>, j: nat)
    requires j < |locks|
    ensures locks[j].ticketId in LockIds(locks)
  {
  }

  /** Locks of some entries call for exactly the credits of the entries with their ids. */
  lemma LockCalls(locks: seq<RedisKeys.Lock>, entries: map<nat, nat>)
    requires forall j :: 0 <= j < |locks| ==> locks[j].ticketId in entries && entries[locks[j].ticketId] == locks[j].typeId
    ensures CallSet(Calls(locks, LockCall)) == CreditsOf(Reached(entries, Fails(LockIds(locks))))
  {
    var calls, reached := Calls(locks, LockCall), Reached(entries, Fails(LockIds(locks)));
    forall k | k in CreditsOf(reached) ensures k in calls {
      assert k.id in reached && reached[k.id] == entries[k.id] == k.t;
      var j :| 0 <= j < |locks| && locks[j].ticketId == k.id;
      assert calls[j] == LockCall(locks[j]) == k;
    }
    forall k | k in calls ensures k in CreditsOf(reached) {
      var j: nat :| j < |calls| && calls[j] == k;
      LockInSeq(locks, j);
      assert k == LockCall(locks[j]) && locks[j].ticketId in reached;
      assert Credit(reached[k.id], k.id) == k;
    }
  }

  /** Late locks of orphans belong to orphaned entries. */
  lemma OrphanCalls(w: World, now: nat, locks: seq<RedisKeys.Lock>, orphaned: seq<RedisKeys.Lock>)
    requires RedisKeys.Lists(locks, w.redis.reservations)
    requires forall x :: x in orphaned ==> x in locks && P.Overdue(now, EntryOf(x)) && P.Orphan(w.db, x.ticketId)
    ensures CallSet(Calls(orphaned, LockCall)) == CreditsOf(Reached(OrphanEntries(w, now), Fails(LockIds(orphaned))))
    ensures LockIds(orphaned) <= OrphanEntries(w, now).Keys
  {
    var entries := OrphanEntries(w, now);
    forall j | 0 <= j < |orphaned| ensures orphaned[j].ticketId in entries && entries[orphaned[j].ticketId] == orphaned[j].typeId {
      assert orphaned[j] in orphaned;
      var i :| 0 <= i < |locks| && locks[i] == orphaned[j];
    }
    LockCalls(orphaned, entries);
  }

  /** The loops leave out no orphan: all of them is what a pass that runs reaches. */
  lemma EveryOrphan(w: World, now: nat, locks: seq<RedisKeys.Lock>, orphaned: seq<RedisKeys.Lock>)
    requires RedisKeys.Lists(locks, w.redis.reservations)
    requires forall x :: x in orphaned <==> x in locks && P.Overdue(now, EntryOf(x)) && P.Orphan(w.db, x.ticketId)
    ensures Reached(OrphanEntries(w, now), Fails(LockIds(orphaned))) == OrphanEntries(w, now)
  {
    forall id | id in OrphanEntries(w, now) ensures id in LockIds(orphaned) {
      var i :| 0 <= i < |locks| && locks[i].ticketId == id;
      assert locks[i] in orphaned;
      var j :| 0 <= j < |orphaned| && orphaned[j] == locks[i];
    }
  }

  /** A pass that gets through the first k orphaned locks. */
  lemma CollectsReach(w: World, now: nat, locks: seq<RedisKeys.Lock>, orphaned: seq<RedisKeys.Lock>, halt: Halt)
    requires RedisKeys.Lists(locks, w.redis.reservations)
    requires forall x :: x in orphaned <==> x in locks && P.Overdue(now, EntryOf(x)) && P.Orphan(w.db, x.ticketId)
    ensures var k := Reach(halt, |orphaned|); var done := LockIds(orphaned[..k]);
      done <= OrphanEntries(w, now).Keys &&
      RefundAll(w.redis, Calls(orphaned[..k], LockCall)) == Collect(w, now, StopAt(halt, done)).0.redis
  {
    var k := Reach(halt, |orphaned|);
    forall x | x in orphaned[..k] ensures x in orphaned { }
    OrphanCalls(w, now, locks, orphaned[..k]);
    if halt.Never? {
      assert orphaned[..k] == orphaned;
      EveryOrphan(w, now, locks, orphaned);
    }
    RefundsAreASet(w.redis, Calls(orphaned[..k], LockCall));
  }

  class Jobs {
    const db: Database
    const redis: RedisClient
    const reservationSeconds: nat

    constructor (db: Database, redis: RedisClient, reservationSeconds: nat)
      ensures this.db == db && this.redis == redis && this.reservationSeconds == reservationSeconds
    {
      this.db, this.redis, this.reservationSeconds := db, redis, reservationSeconds;
    }

    method ReleaseUnpaidTicket(id: nat, fault: Fault) returns (reply: Reply)
      requires Ready(db, redis)
      modifies db, redis`counters, redis`hash, redis`reservations, redis`processed
      ensures Ready(db, redis)
      ensures (WorldOf(db, redis), reply) == Operations.Release(old(WorldOf(db, redis)), id, fault)
    {
      if fault == DiesAtOnce {
        return ProcessDied;
      }
      if id !in db.session.tickets || db.session.tickets[id].status != RESERVED {
        return Completed;
      }
      var t := db.session.tickets[id].typeId;
      var err := db.UpdateSold(t, -1, fault == AtUpdate);
      if err.Some? {
        db.Rollback();
        return DatabaseError;
      }
      reply := RefundAndCancel(id, t, fault);
    }

    /** The early refund, then the commit of the cancelled row. */
    method RefundAndCancel(id: nat, t: nat, fault: Fault) returns (reply: Reply)
      requires redis.Valid() && id in db.committed.tickets
      requires db.session == db.committed.(types := AddSold(db.committed.types, t, -1))
      modifies db, redis`counters, redis`hash, redis`reservations, redis`processed
      ensures Ready(db, redis) && redis.Inventory() == old(redis.Inventory()).Refund(t, id)
      ensures db.committed == if fault == AtCommit || fault == DiesAfterCounter then old(db.committed)
        else SetStatus(old(db.committed), id, CANCELED).(types := AddSold(old(db.committed).types, t, -1))
      ensures reply == if fault == AtCommit then DatabaseError else if fault == DiesAfterCounter then ProcessDied else Completed
    {
      var _ := redis.RefundInventoryIdempotent(t, id);
      if fault == DiesAfterCounter {
        db.Rollback();
        return ProcessDied;
      }
      db.SetTicketStatus(id, CANCELED);
      var err := db.Commit(fault == AtCommit);
      if err.Some? {
        db.Rollback();
        return DatabaseError;
      }
      return Completed;
    }

    /** UPDATE of each counted type; the first refusal stops the job. */
    method SubtractCounts(count: map<nat, nat>) returns (err: Option<DbError>)
      requires forall t :: t in count ==> count[t] >= 1
      modifies db`session
      ensures err.Some? <==> exists t :: t in count && !CanSubtract(old(db.session), t, count[t])
      ensures err == None ==> db.session == old(db.session).(types := Subtracted(old(db.session).types, count, count.Keys))
    {
      ghost var before := db.session;
      var rest := count.Keys;
      SubtractedNone(before.types, count);
      while rest != {}
        invariant rest <= count.Keys
        invariant db.session == before.(types := Subtracted(before.types, count, count.Keys - rest))
        invariant forall t :: t in count && t !in rest ==> CanSubtract(before, t, count[t])
        decreases |rest|
      {
        var t :| t in rest;
        SubtractedOne(before.types, count, rest, t);
        err := db.UpdateSold(t, -(count[t] as int), false);
        if err.Some? {
          assert !CanSubtract(before, t, count[t]);
        return;
        }
        rest := rest - {t};
      }
      assert count.Keys - rest == count.Keys;
      err := None;
    }

    method RefundRows(rows: seq<CanceledRow>)
      requires redis.Valid()
      modifies redis`counters, redis`hash, redis`reservations, redis`processed
      ensures redis.Valid() && redis.Inventory() == RefundAll(old(redis.Inventory()), Calls(rows, RowCall))
    {
      for i := 0 to |rows|
        invariant redis.Valid() && redis.Inventory() == RefundAll(old(redis.Inventory()), Calls(rows[..i], RowCall))
      {
        OneMoreCall(old(redis.Inventory()), rows, RowCall, i);
        var _ := redis.RefundInventoryIdempotent(rows[i].typeId, rows[i].ticketId);
      }
      assert rows[..|rows|] == rows;
    }

    /** `halt` says after how many refunds the job ends, if it does; `stop` says which ids they were. */
    method ReconcileHungTickets(now: nat, halt: Halt) returns (reply: Reply, ghost stop: Stop)
      requires Ready(db, redis)
      modifies db, redis`counters, redis`hash, redis`reservations, redis`processed
      ensures Ready(db, redis)
      ensures (WorldOf(db, redis), reply) == Operations.ReconcileHung(old(WorldOf(db, redis)), now, reservationSeconds, stop)
      ensures var hung := HungIds(old(db.committed), now - reservationSeconds);
        exists done :: done <= hung && |done| == Reach(halt, |hung|) && stop == StopAt(halt, done)
    {
      var rows := db.CancelHung(now - reservationSeconds);
      reply, stop := CancelAll(rows, now, halt);
    }

    /** The job once its UPDATE has returned the rows. */
    method CancelAll(rows: seq<CanceledRow>, now: nat, halt: Halt) returns (reply: Reply, ghost stop: Stop)
      requires redis.Valid() && RowsOf(rows, TypesOf(db.committed, HungIds(db.committed, now - reservationSeconds)))
      requires db.session == db.committed.(tickets := CancelBatchOf(db.committed, now - reservationSeconds))
      modifies db, redis`counters, redis`hash, redis`reservations, redis`processed
      ensures Ready(db, redis)
      ensures (WorldOf(db, redis), reply) == Operations.ReconcileHung(old(WorldOf(db, redis)), now, reservationSeconds, stop)
      ensures var hung := HungIds(old(db.committed), now - reservationSeconds);
        exists done :: done <= hung && |done| == Reach(halt, |hung|) && stop == StopAt(halt, done)
    {
      ghost var hung := HungIds(db.committed, now - reservationSeconds);
      NoRows(db.committed, now - reservationSeconds, rows);
      if rows == [] {
        stop := StopAt(halt, {});
        reply := if halt.Never? then Completed else if halt.FailsAfter? then DatabaseError else ProcessDied;
        return;
      }
      AllRows(rows, TypesOf(db.committed, hung));
      assert TypesOf(db.committed, hung).Keys == hung;
      RefundsReach(redis.Inventory(), rows, TypesOf(db.committed, hung), halt);
      stop := StopAt(halt, RowIds(rows[..Reach(halt, |rows|)]));
      reply := CancelRows(rows, halt, hung);
    }

    /** The Counter and the first loop. */
    method SubtractRows(rows: seq<CanceledRow>, ghost locked: map<nat, nat>) returns (err: Option<DbError>)
      requires RowsOf(rows, locked) && db.session.types == db.committed.types
      modifies db`session
      ensures err.Some? <==> BatchRefused(db.committed, locked)
      ensures err == None ==> db.session == old(db.session).(types := P.SubtractBatch(old(db.session).types, locked))
    {
      var typeCount := CountTypes(rows);
      forall t ensures t in typeCount ==> typeCount[t] >= 1 { CountAt(rows, locked, t); }
      CountedRefusal(db.committed, rows, locked);
      CountedSubtract(db.session.types, rows, locked);
      assert forall t :: t in typeCount ==>
        (!CanSubtract(db.session, t, typeCount[t]) <==> !CanSubtract(db.committed, t, typeCount[t]));
      err := SubtractCounts(typeCount);
    }

    /** The rest of the job: subtract, refund, commit. */
    method CancelRows(rows: seq<CanceledRow>, halt: Halt, ghost ids: set<nat>) returns (reply: Reply)
      requires redis.Valid() && RowsOf(rows, TypesOf(db.committed, ids))
      requires db.session == db.committed.(tickets := P.CancelBatch(db.committed.tickets, TypesOf(db.committed, ids)))
      modifies db, redis`counters, redis`hash, redis`reservations, redis`processed
      ensures Ready(db, redis)
      ensures (WorldOf(db, redis), reply) ==
        Batch(old(WorldOf(db, redis)), ids, StopAt(halt, RowIds(rows[..Reach(halt, |rows|)])))
    {
      var err := SubtractRows(rows, TypesOf(db.committed, ids));
      if err.Some? {
        db.Rollback();
        return if halt.DiesAfter? then ProcessDied else DatabaseError;
      }
      reply := RefundAndCommit(rows, halt, TypesOf(db.committed, ids));
    }

    method RefundAndCommit(rows: seq<CanceledRow>, halt: Halt, ghost locked: map<nat, nat>) returns (reply: Reply)
      requires redis.Valid() && RowsOf(rows, locked)
      modifies db, redis`counters, redis`hash, redis`reservations, redis`processed
      ensures Ready(db, redis) && db.committed == if halt.Never? then old(db.session) else old(db.committed)
      ensures var stop := StopAt(halt, RowIds(rows[..Reach(halt, |rows|)]));
        redis.Inventory() == RefundSet(old(redis.Inventory()), CreditsOf(Reached(locked, stop))) && reply == StopReply(stop)
    {
      RefundsReach(redis.Inventory(), rows, locked, halt);
      RefundRows(rows[..Reach(halt, |rows|)]);
      if !halt.Never? {
        db.Rollback();
        return if halt.DiesAfter? then ProcessDied else DatabaseError;
      }
      var _ := db.Commit(false);
      return Completed;
    }

    method RefundLocks(locks: seq<RedisKeys.Lock>)
      requires redis.Valid()
      modifies redis`counters, redis`hash, redis`reservations, redis`processed
      ensures redis.Valid() && redis.Inventory() == RefundAll(old(redis.Inventory()), Calls(locks, LockCall))
    {
      for i := 0 to |locks|
        invariant redis.Valid() && redis.Inventory() == RefundAll(old(redis.Inventory()), Calls(locks[..i], LockCall))
      {
        OneMoreCall(old(redis.Inventory()), locks, LockCall, i);
        var _ := redis.RefundInventoryIdempotent(locks[i].typeId, locks[i].ticketId);
      }
      assert locks[..|locks|] == locks;
    }

    /** The list comprehension over the active locks. */
    method Suspicious(locks: seq<RedisKeys.Lock>, now: nat) returns (late: seq<RedisKeys.Lock>)
      ensures forall x :: x in late <==> x in locks && P.Overdue(now, EntryOf(x))
    {
      late := [];
      for i := 0 to |locks|
        invariant forall x :: x in late <==> x in locks[..i] && P.Overdue(now, EntryOf(x))
      {
        assert locks[..i + 1] == locks[..i] + [locks[i]];
        if now - locks[i].timestamp > P.GRACE_PERIOD_SECONDS {
          late := late + [locks[i]];
        }
      }
      assert locks[..|locks|] == locks;
    }

    /** The query of the suspicious ids, and the loop that keeps the locks of absent or CANCELED tickets. */
    method Orphaned(locks: seq<RedisKeys.Lock>) returns (orphaned: seq<RedisKeys.Lock>)
      ensures forall x :: x in orphaned <==> x in locks && P.Orphan(db.session, x.ticketId)
    {
      var ids := set i | 0 <= i < |locks| :: locks[i].ticketId;
      var statuses := map id | id in ids && id in db.session.tickets :: db.session.tickets[id].status;
      orphaned := [];
      for i := 0 to |locks|
        invariant forall x :: x in orphaned <==> x in locks[..i] && P.Orphan(db.session, x.ticketId)
      {
        assert locks[..i + 1] == locks[..i] + [locks[i]];
        assert locks[i].ticketId in ids;
        if locks[i].ticketId !in statuses || statuses[locks[i].ticketId] == CANCELED {
          orphaned := orphaned + [locks[i]];
        }
      }
      assert locks[..|locks|] == locks;
    }

    method ActiveLocks() returns (locks: seq<RedisKeys.Lock>)
      requires redis.Valid()
      ensures RedisKeys.Lists(locks, redis.Inventory().reservations)
    {
      var active := RedisKeys.GetAllActiveReservations(redis.hash);
      return active.value;
    }

    method ReconcileRedisOrphans(now: nat, halt: Halt) returns (reply: Reply, ghost stop: Stop)
      requires Ready(db, redis)
      modifies redis`counters, redis`hash, redis`reservations, redis`processed
      ensures Ready(db, redis)
      ensures (WorldOf(db, redis), reply) == Collect(old(WorldOf(db, redis)), now, stop)
      ensures exists done :: done <= OrphanEntries(old(WorldOf(db, redis)), now).Keys && stop == StopAt(halt, done)
    {
      ghost var w := WorldOf(db, redis);
      var active := ActiveLocks();
      reply := if halt.Never? then Completed else if halt.FailsAfter? then DatabaseError else ProcessDied;
      if active == [] {
        stop := NothingOrphaned(w, now, active, halt);
        return;
      }
      var suspicious := Suspicious(active, now);
      if suspicious == [] {
        stop := NothingOrphaned(w, now, active, halt);
        return;
      }
      var orphaned := Orphaned(suspicious);
      if orphaned == [] {
        stop := NothingOrphaned(w, now, active, halt);
        return;
      }
      CollectsReach(w, now, active, orphaned, halt);
      var reach := Reach(halt, |orphaned|);
      stop := StopAt(halt, LockIds(orphaned[..reach]));
      RefundLocks(orphaned[..reach]);
    }
  }

  /** A pass that finds no orphaned lock changes nothing, wherever it stops. */
  lemma NothingOrphaned(w: World, now: nat, locks: seq<RedisKeys.Lock>, halt: Halt) returns (stop: Stop)
    requires RedisKeys.Lists(locks, w.redis.reservations)
    requires forall x :: x in locks ==> !(P.Overdue(now, EntryOf(x)) && P.Orphan(w.db, x.ticketId))
    ensures stop == StopAt(halt, {}) && Collect(w, now, stop).0 == w
  {
    CollectsReach(w, now, locks, [], halt);
    var done := LockIds([]);
    assert done == {};
    stop := StopAt(halt, {});
    assert Reach(halt, 0) == 0;
    assert Calls([], LockCall) == [];
  }
}
