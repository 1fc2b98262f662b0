/** The two stores as objects that the services change step by step: a Redis connection, and a
    database with one open session over its committed tables. */
module Clients {
  import opened Stores
  import opened Protocol
  import opened Refunds
  import opened Operations
  import B = Batching
  import RedisKeys

  /** One Redis database. The reservations hash holds text; `reservations` is what it means. */
  class RedisClient {
    var counters: map<nat, int>
    var hash: map<string, string>
    ghost var reservations: map<nat, Reservation>
    var processed: set<nat>
    var details: map<nat, Detail>
    var pages: map<PageKey, Page>
    var version: Option<nat>

    ghost predicate Valid()
      reads this`hash, this`reservations
    {
      RedisKeys.Encodes(hash, reservations)
    }

    ghost function Inventory(): Redis
      reads this`counters, this`reservations, this`processed
    {
      Redis(counters, reservations, processed)
    }

    function EventCache(): Cache
      reads this`details, this`pages, this`version
    {
      Cache(details, pages, version)
    }

    constructor ()
      ensures Valid() && Inventory() == EmptyRedis && EventCache() == Cache(map[], map[], None)
    {
      counters, hash, reservations, processed := map[], map[], map[], {};
      details, pages, version := map[], map[], None;
    }

    // ---------- inventory ----------

    /** The reserve script. */
    method EvalReserve(t: nat) returns (result: int)
      modifies this`counters
      ensures result == old(Inventory()).ReserveResult(t)
      ensures Inventory() == old(Inventory()).Reserve(t)
    {
      if t !in counters {
        return -1;
      }
      if counters[t] > 0 {
        counters := counters[t := counters[t] - 1];
        return 1;
      }
      return 0;
    }

    method SetCounter(t: nat, v: int)
      modifies this`counters
      ensures Inventory() == old(Inventory()).SetCounter(t, v)
    {
      counters := counters[t := v];
    }

    method DeleteCounter(t: nat)
      modifies this`counters
      ensures Inventory() == old(Inventory()).DeleteCounter(t)
    {
      counters := counters - {t};
    }

    method Incr(t: nat)
      modifies this`counters
      ensures Inventory() == old(Inventory()).Incr(t)
    {
      counters := counters[t := (if t in counters then counters[t] else 0) + 1];
    }

    /** The safe-increment script. */
    method EvalSafeIncr(t: nat)
      modifies this`counters
      ensures Inventory() == old(Inventory()).SafeIncr(t)
    {
      if t in counters {
        counters := counters[t := counters[t] + 1];
      }
    }

    method Hset(id: nat, t: nat, now: nat)
      requires Valid()
      modifies this`hash, this`reservations
      ensures Valid() && Inventory() == old(Inventory()).Hset(id, Reservation(t, now))
    {
      RedisKeys.DecIsInjective();
      RedisKeys.PrintedHset(RedisKeys.Dec, RedisKeys.Print, hash, reservations, id, Reservation(t, now));
      hash := hash[RedisKeys.Dec(id) := RedisKeys.Print(Reservation(t, now))];
      reservations := reservations[id := Reservation(t, now)];
    }

    method Hdel(id: nat)
      requires Valid()
      modifies this`hash, this`reservations
      ensures Valid() && Inventory() == old(Inventory()).Hdel(id)
    {
      RedisKeys.DecIsInjective();
      RedisKeys.PrintedHdel(RedisKeys.Dec, RedisKeys.Print, hash, reservations, id);
      hash := hash - {RedisKeys.Dec(id)};
      reservations := reservations - {id};
    }

    /** The idempotent refund script. */
    method RefundInventoryIdempotent(t: nat, id: nat) returns (result: int)
      requires Valid()
      modifies this`counters, this`hash, this`reservations, this`processed
      ensures Valid() && Inventory() == old(Inventory()).Refund(t, id)
      ensures result == if id in old(processed) then 0 else 1
    {
      if id !in processed {
        processed := processed + {id};
        EvalSafeIncr(t);
        Hdel(id);
        return 1;
      }
      return 0;
    }

    // ---------- event cache ----------

    method DeleteEventStatic(e: nat)
      modifies this`details
      ensures EventCache() == old(EventCache()).Drop(e)
    {
      details := details - {e};
    }

    method BumpEventListVersion()
      modifies this`version
      ensures EventCache() == old(EventCache()).Bump()
    {
      version := Some(if version.Some? then version.value + 1 else 1);
    }

    /** The versioned key of a page; a missing version is set to 1 first. */
    method EventList(offset: nat, limit: nat) returns (key: PageKey)
      modifies this`version
      ensures EventCache() == old(EventCache()).Versioned()
      ensures version.Some? && key == PageKey(version.value, offset, limit)
    {
      if version == None {
        version := Some(1);
      }
      return PageKey(version.value, offset, limit);
    }
  }

  datatype DbError = SoldLimitViolated | IntegrityViolated | OtherError

  /** A row returned by the cancelling UPDATE. */
  datatype CanceledRow = CanceledRow(ticketId: nat, typeId: nat)

  /** Rows list the entries of a map from ids to types, each once. */
  ghost predicate RowsOf(rows: seq<CanceledRow>, locked: map<nat, nat>) {
    (forall i :: 0 <= i < |rows| ==> rows[i].ticketId in locked && locked[rows[i].ticketId] == rows[i].typeId) &&
    (forall id :: id in locked ==> exists i :: 0 <= i < |rows| && rows[i].ticketId == id) &&
    (forall i, j :: 0 <= i < j < |rows| ==> rows[i].ticketId != rows[j].ticketId)
  }

  lemma RowsSnoc(rows: seq<CanceledRow>, locked: map<nat, nat>, id: nat, t: nat)
    requires RowsOf(rows, locked) && id !in locked
    ensures RowsOf(rows + [CanceledRow(id, t)], locked[id := t])
  {
    var rows', locked' := rows + [CanceledRow(id, t)], locked[id := t];
    forall x | x in locked' ensures exists i :: 0 <= i < |rows'| && rows'[i].ticketId == x {
      if x == id { assert rows'[|rows|].ticketId == x; }
      else { var i :| 0 <= i < |rows| && rows[i].ticketId == x; assert rows'[i].ticketId == x; }
    }
  }

  lemma CancelOne(db: Db, hung: set<nat>, rest: set<nat>, id: nat)
    requires rest <= hung && id in rest && IsReserved(db, id)
    ensures var locked := TypesOf(db, hung - rest);
      var t := db.tickets[id].typeId;
      id !in locked && TypesOf(db, hung - (rest - {id})) == locked[id := t] &&
      CancelBatch(db.tickets, locked)[id] == db.tickets[id] &&
      CancelBatch(db.tickets, locked[id := t]) ==
        CancelBatch(db.tickets, locked)[id := db.tickets[id].(status := CANCELED)]
  {
    B.CancelSnoc(db.tickets, TypesOf(db, hung - rest), id, db.tickets[id].typeId);
  }

  /** The rows name, with their types and once each, exactly the tickets that are RESERVED and created at
      or before the threshold. */
  ghost predicate RowsUpTo(threshold: int, tickets: map<nat, Ticket>, rows: seq<CanceledRow>) {
    (forall i :: 0 <= i < |rows| ==>
      var id := rows[i].ticketId;
      id in tickets && tickets[id].status == RESERVED && tickets[id].createdAt <= threshold && tickets[id].typeId == rows[i].typeId) &&
    (forall id :: id in tickets && tickets[id].status == RESERVED && tickets[id].createdAt <= threshold ==>
      exists i :: 0 <= i < |rows| && rows[i].ticketId == id) &&
    (forall i, j :: 0 <= i < j < |rows| ==> rows[i].ticketId != rows[j].ticketId)
  }

  lemma RowsOfHung(db: Db, threshold: int, rows: seq<CanceledRow>, locked: map<nat, nat>)
    requires locked == TypesOf(db, HungIds(db, threshold)) && RowsOf(rows, locked)
    ensures RowsUpTo(threshold, db.tickets, rows) && B.CanceledUpTo(threshold, db.tickets, CancelBatch(db.tickets, locked))
  {
    forall id | id in db.tickets && db.tickets[id].status == RESERVED && db.tickets[id].createdAt <= threshold
      ensures exists i :: 0 <= i < |rows| && rows[i].ticketId == id
    {
      assert id in locked;
    }
  }

  /** Statements work on the session's view; commit publishes it, rollback forgets it. Ids drawn from a
      sequence stay drawn. A statement told to fail changes nothing. */
  class Database {
    var committed: Db
    var session: Db

    constructor (db: Db)
      ensures committed == db && session == db
    {
      committed, session := db, db;
    }

    method Commit(fails: bool) returns (err: Option<DbError>)
      modifies this
      ensures err.Some? <==> fails
      ensures fails ==> committed == old(committed) && session == old(session) && err.value == OtherError
      ensures !fails ==> committed == session == old(session)
    {
      if fails {
        return Some(OtherError);
      }
      committed := session;
      return None;
    }

    /** A rolled-back session sees the committed tables. */
    method Rollback()
      modifies this`session
      ensures session == committed
    {
      session := committed;
    }

    /** UPDATE ticket_types SET tickets_sold = tickets_sold + delta, with its CHECK constraints. A stored
        row satisfies them, so only the limit that the change moves towards can break. */
    method UpdateSold(t: nat, delta: int, fails: bool) returns (err: Option<DbError>)
      modifies this`session
      ensures var types := old(session).types;
        err == (if fails then Some(OtherError)
                else if t in types && delta > 0 && types[t].sold + delta > types[t].quantity then Some(SoldLimitViolated)
                else if t in types && delta < 0 && types[t].sold + delta < 0 then Some(IntegrityViolated)
                else None)
      ensures session == if err == None then old(session).(types := AddSold(old(session).types, t, delta)) else old(session)
    {
      if fails {
        return Some(OtherError);
      }
      if t in session.types {
        var row := session.types[t];
        if delta > 0 && row.sold + delta > row.quantity {
          return Some(SoldLimitViolated);
        }
        if delta < 0 && row.sold + delta < 0 {
          return Some(IntegrityViolated);
        }
        session := session.(types := session.types[t := row.(sold := row.sold + delta)]);
      }
      return None;
    }

    /** INSERT of a RESERVED ticket: the id is drawn first, then the foreign key is checked. */
    method InsertTicket(owner: nat, t: nat, now: nat, fails: bool) returns (id: nat, err: Option<DbError>)
      requires session.nextTicket == committed.nextTicket
      modifies this
      ensures id == old(session).nextTicket
      ensures committed == if fails then old(committed) else old(committed).(nextTicket := id + 1)
      ensures err == if fails then Some(OtherError) else if t !in old(session).types then Some(IntegrityViolated) else None
      ensures session == if fails then old(session)
        else if t !in old(session).types then old(session).(nextTicket := id + 1)
        else old(session).(nextTicket := id + 1, tickets := old(session).tickets[id := Ticket(t, owner, RESERVED, now)])
    {
      id := session.nextTicket;
      if fails {
        return id, Some(OtherError);
      }
      committed := committed.(nextTicket := id + 1);
      session := session.(nextTicket := id + 1);
      if t !in session.types {
        return id, Some(IntegrityViolated);
      }
      session := session.(tickets := session.tickets[id := Ticket(t, owner, RESERVED, now)]);
      return id, None;
    }

    method DeleteTicket(id: nat)
      modifies this`session
      ensures session == old(session).(tickets := old(session).tickets - {id})
    {
      session := session.(tickets := session.tickets - {id});
    }

    method SetTicketStatus(id: nat, status: Status)
      requires id in session.tickets
      modifies this`session
      ensures session == SetStatus(old(session), id, status)
    {
      session := SetStatus(session, id, status);
    }

    /** UPDATE tickets SET status = CANCELED WHERE status = RESERVED AND created_at <= threshold RETURNING. */
    method CancelHung(threshold: int) returns (rows: seq<CanceledRow>)
      modifies this`session
      ensures B.CanceledUpTo(threshold, old(session).tickets, session.tickets)
      ensures RowsUpTo(threshold, old(session).tickets, rows)
      ensures var locked := TypesOf(old(session), HungIds(old(session), threshold));
        RowsOf(rows, locked) && session == old(session).(tickets := CancelBatch(old(session).tickets, locked))
    {
      ghost var before := session;
      var rest := set id | id in session.tickets && session.tickets[id].status == RESERVED && session.tickets[id].createdAt <= threshold;
      ghost var hung := rest;
      assert hung == HungIds(before, threshold);
      rows := [];
      ghost var locked: map<nat, nat> := map[];
      assert CancelBatch(before.tickets, locked) == before.tickets;
      while rest != {}
        invariant rest <= hung && hung == HungIds(before, threshold)
        invariant locked == TypesOf(before, hung - rest)
        invariant RowsOf(rows, locked)
        invariant session == before.(tickets := CancelBatch(before.tickets, locked))
        decreases |rest|
      {
        var id :| id in rest;
        CancelOne(before, hung, rest, id);
        var t := session.tickets[id].typeId;
        RowsSnoc(rows, locked, id, t);
        rows := rows + [CanceledRow(id, t)];
        session := SetStatus(session, id, CANCELED);
        locked := locked[id := t];
        rest := rest - {id};
      }
      assert hung - rest == hung;
      RowsOfHung(before, threshold, rows, locked);
    }

    method InsertType(row: TypeRow, fails: bool) returns (t: nat, err: Option<DbError>)
      requires session.nextType == committed.nextType
      modifies this
      ensures t == old(session).nextType && committed == old(committed).(nextType := t + 1)
      ensures err == if fails then Some(OtherError)
        else if row.eventId in old(session).events && row.price >= 0 && row.quantity > 0 && 0 <= row.sold <= row.quantity then None
        else Some(IntegrityViolated)
      ensures session == old(session).(nextType := t + 1, types := if err == None then old(session).types[t := row] else old(session).types)
    {
      t := session.nextType;
      committed := committed.(nextType := t + 1);
      session := session.(nextType := t + 1);
      if fails {
        return t, Some(OtherError);
      }
      if row.eventId !in session.events || !row.Ok() {
        return t, Some(IntegrityViolated);
      }
      session := session.(types := session.types[t := row]);
      return t, None;
    }

    /** The UPDATE of changed columns that a commit flushes, with its CHECK constraints. */
    method FlushType(t: nat, row: TypeRow) returns (err: Option<DbError>)
      requires t in session.types
      modifies this`session
      ensures err == if row.price >= 0 && row.quantity > 0 && 0 <= row.sold <= row.quantity then None else Some(IntegrityViolated)
      ensures session == if err == None then old(session).(types := old(session).types[t := row]) else old(session)
    {
      if !row.Ok() {
        return Some(IntegrityViolated);
      }
      session := session.(types := session.types[t := row]);
      return None;
    }

    /** DELETE of a ticket type: refused while a ticket refers to it. */
    method DeleteType(t: nat, fails: bool) returns (err: Option<DbError>)
      modifies this`session
      ensures var refused := exists id :: id in old(session).tickets && old(session).tickets[id].typeId == t;
        err == (if fails then Some(OtherError) else if refused then Some(IntegrityViolated) else None) &&
        session == if err.Some? then old(session) else old(session).(types := old(session).types - {t})
    {
      if fails {
        return Some(OtherError);
      }
      var children := set id | id in session.tickets && session.tickets[id].typeId == t;
      if children != {} {
        var id :| id in children;
        return Some(IntegrityViolated);
      }
      assert forall id :: id in session.tickets && session.tickets[id].typeId == t ==> id in children;
      session := session.(types := session.types - {t});
      return None;
    }

    method InsertEvent(attrs: map<string, string>) returns (e: nat)
      requires session.nextEvent == committed.nextEvent
      modifies this
      ensures e == old(session).nextEvent && committed == old(committed).(nextEvent := e + 1)
      ensures session == old(session).(nextEvent := e + 1, events := old(session).events[e := EventRow(attrs)])
    {
      e := session.nextEvent;
      committed := committed.(nextEvent := e + 1);
      session := session.(nextEvent := e + 1, events := session.events[e := EventRow(attrs)]);
    }

    method FlushEvent(e: nat, attrs: map<string, string>)
      modifies this`session
      ensures session == old(session).(events := old(session).events[e := EventRow(attrs)])
    {
      session := session.(events := session.events[e := EventRow(attrs)]);
    }

    /** DELETE of an event: refused while a ticket type refers to it. */
    method DeleteEvent(e: nat, fails: bool) returns (err: Option<DbError>)
      modifies this`session
      ensures var refused := exists t :: t in old(session).types && old(session).types[t].eventId == e;
        err == (if fails then Some(OtherError) else if refused then Some(IntegrityViolated) else None) &&
        session == if err.Some? then old(session) else old(session).(events := old(session).events - {e})
    {
      if fails {
        return Some(OtherError);
      }
      var children := set t | t in session.types && session.types[t].eventId == e;
      if children != {} {
        var t :| t in children;
        return Some(IntegrityViolated);
      }
      assert forall t :: t in session.types && session.types[t].eventId == e ==> t in children;
      session := session.(events := session.events - {e});
      return None;
    }
  }

  /** Between operations: no transaction is open, and the hash is readable. */
  ghost predicate Ready(db: Database, redis: RedisClient)
    reads db, redis
  {
    db.session == db.committed && redis.Valid()
  }

  ghost function WorldOf(db: Database, redis: RedisClient): World
    reads db, redis
  {
    World(db.committed, redis.Inventory(), redis.EventCache())
  }
}
