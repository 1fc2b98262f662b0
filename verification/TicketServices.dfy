/** TicketService and PaymentService, statement by statement, against what each operation is to do. */
module TicketServices {
  import opened Stores
  import opened Operations
  import opened Clients

  class TicketService {
    const db: Database
    const redis: RedisClient

    constructor (db: Database, redis: RedisClient)
      ensures this.db == db && this.redis == redis
    {
      this.db, this.redis := db, redis;
    }

    method Create(owner: nat, t: nat, now: nat, fault: Fault) returns (reply: Reply)
      requires Ready(db, redis)
      modifies db, redis
      ensures Ready(db, redis)
      ensures (WorldOf(db, redis), reply) == Operations.Create(old(WorldOf(db, redis)), owner, t, now, fault)
    {
      if fault == DiesAtOnce {
        return ProcessDied;
      }
      var refusal := Reserve(t, fault);
      if refusal.Some? {
        return refusal.value;
      }
      reply := Write(owner, t, now, fault);
    }

    /** The gate: the reserve script, once more after warming a missing counter from the database. */
    method Reserve(t: nat, fault: Fault) returns (refusal: Option<Reply>)
      requires Ready(db, redis)
      modifies redis`counters
      ensures Ready(db, redis) && redis.EventCache() == old(redis.EventCache())
      ensures var w := old(WorldOf(db, redis)); var warm := w.redis.SetCounter(t, Seen(w, t));
        if t !in w.redis.counters && t !in w.db.types then redis.Inventory() == w.redis && refusal == Some(TypeNotFound)
        else if t !in w.redis.counters && fault == DiesCold then redis.Inventory() == warm && refusal == Some(ProcessDied)
        else if Seen(w, t) <= 0 then redis.Inventory() == warm && refusal == Some(TicketsSoldOut)
        else redis.Inventory() == w.redis.SetCounter(t, Seen(w, t) - 1) && refusal == None
    {
      var result := redis.EvalReserve(t);
      if result == -1 {
        if t !in db.session.types {
          return Some(TypeNotFound);
        }
        var row := db.session.types[t];
        redis.SetCounter(t, row.quantity - row.sold);
        if fault == DiesCold {
          return Some(ProcessDied);
        }
        result := redis.EvalReserve(t);
      }
      if result == 0 {
        return Some(TicketsSoldOut);
      }
      return None;
    }

    /** The try block of create up to the flush of the INSERT. */
    method Write(owner: nat, t: nat, now: nat, fault: Fault) returns (reply: Reply)
      requires Ready(db, redis)
      modifies db, redis`counters, redis`hash, redis`reservations
      ensures Ready(db, redis)
      ensures (WorldOf(db, redis), reply) == Admitted(old(WorldOf(db, redis)), owner, t, now, fault)
    {
      hide Operations.Write;
      if fault == DiesAtGate {
        return ProcessDied;
      }
      var err := db.UpdateSold(t, 1, fault == AtUpdate);
      if err.Some? {
        reply := Fail(t, err.value);
        return;
      }
      var id;
      id, err := db.InsertTicket(owner, t, now, fault == AtFlush);
      if fault == DiesBeforeHash {
        db.Rollback();
        return ProcessDied;
      }
      if err.Some? {
        reply := Fail(t, err.value);
        return;
      }
      reply := Record(owner, t, id, now, fault);
    }

    /** The rest of the try block: hash entry, commit, refresh. */
    method Record(owner: nat, t: nat, id: nat, now: nat, fault: Fault) returns (reply: Reply)
      requires redis.Valid() && db.session == db.committed.(types := AddSold(db.committed.types, t, 1),
        tickets := db.committed.tickets[id := Ticket(t, owner, RESERVED, now)])
      modifies db, redis`counters, redis`hash, redis`reservations
      ensures Ready(db, redis)
      ensures (WorldOf(db, redis), reply) == Operations.Write(old(WorldOf(db, redis)), owner, t, id, now, fault)
    {
      redis.Hset(id, t, now);
      if fault == DiesAfterHash {
        db.Rollback();
        return ProcessDied;
      }
      var err := db.Commit(fault == AtCommit);
      if err.Some? || fault == AtRefresh {
        reply := Fail(t, if err.Some? then err.value else OtherError);
        return;
      }
      return if fault == DiesAfterCommit then ProcessDied else TicketId(id);
    }

    /** The handlers of create: roll back, give the unit back, and say why. */
    method Fail(t: nat, err: DbError) returns (reply: Reply)
      modifies db`session, redis`counters
      ensures db.session == db.committed
      ensures redis.Inventory() == old(redis.Inventory()).Incr(t)
      ensures reply == if err == SoldLimitViolated then TicketsSoldOut else DatabaseError
    {
      db.Rollback();
      redis.Incr(t);
      return if err == SoldLimitViolated then TicketsSoldOut else DatabaseError;
    }

    method Delete(owner: nat, id: nat, fault: Fault) returns (reply: Reply)
      requires Ready(db, redis)
      modifies db, redis`counters, redis`hash, redis`reservations
      ensures Ready(db, redis)
      ensures (WorldOf(db, redis), reply) == Operations.Delete(old(WorldOf(db, redis)), owner, id, fault)
    {
      if fault == DiesAtOnce {
        return ProcessDied;
      }
      if !(id in db.session.tickets && db.session.tickets[id].owner == owner) {
        return TicketNotFound;
      }
      var t := db.session.tickets[id].typeId;
      var removed := Remove(id, t, fault);
      if !removed {
        return DatabaseError;
      }
      reply := Restore(id, t, fault);
    }

    /** The transaction of a delete: the ticket goes, and tickets_sold goes down with it. */
    method Remove(id: nat, t: nat, fault: Fault) returns (removed: bool)
      requires Ready(db, redis)
      modifies db
      ensures db.session == db.committed
      ensures removed <==> fault != AtUpdate && fault != AtCommit && CanSubtract(old(db.committed), t, 1)
      ensures db.committed == if !removed then old(db.committed) else
        old(db.committed).(types := AddSold(old(db.committed).types, t, -1), tickets := old(db.committed).tickets - {id})
    {
      var err := db.UpdateSold(t, -1, fault == AtUpdate);
      if err == None {
        db.DeleteTicket(id);
        err := db.Commit(fault == AtCommit);
        if err == None {
          return true;
        }
      }
      db.Rollback();
      return false;
    }

    /** What follows the commit of a delete: the credit, then the removal of the entry. */
    method Restore(id: nat, t: nat, fault: Fault) returns (reply: Reply)
      requires redis.Valid()
      modifies redis`counters, redis`hash, redis`reservations
      ensures redis.Valid()
      ensures redis.Inventory() == if fault == DiesAfterCommit then old(redis.Inventory())
        else if fault == DiesAfterCounter then old(redis.Inventory()).SafeIncr(t)
        else old(redis.Inventory()).SafeIncr(t).Hdel(id)
      ensures reply == if fault == DiesAfterCommit || fault == DiesAfterCounter then ProcessDied else Completed
    {
      if fault == DiesAfterCommit {
        return ProcessDied;
      }
      redis.EvalSafeIncr(t);
      if fault == DiesAfterCounter {
        return ProcessDied;
      }
      redis.Hdel(id);
      return Completed;
    }
  }

  class PaymentService {
    const db: Database
    const redis: RedisClient

    constructor (db: Database, redis: RedisClient)
      ensures this.db == db && this.redis == redis
    {
      this.db, this.redis := db, redis;
    }

    method PayForTicket(id: nat, owner: nat, fault: Fault) returns (reply: Reply)
      requires Ready(db, redis)
      modifies db, redis
      ensures Ready(db, redis)
      ensures (WorldOf(db, redis), reply) == Operations.Pay(old(WorldOf(db, redis)), owner, id, fault)
    {
      if fault == DiesAtOnce {
        return ProcessDied;
      }
      if !(id in db.session.tickets && db.session.tickets[id].owner == owner) {
        return TicketNotFound;
      }
      var status := db.session.tickets[id].status;
      if status == SOLD {
        return AlreadyPaid;
      }
      if status == CANCELED {
        return ReservationExpired;
      }
      db.SetTicketStatus(id, SOLD);
      var err := db.Commit(fault == AtCommit);
      if err == None && fault == DiesAfterCommit {
        return ProcessDied;
      }
      if err == None && fault != AtRefresh {
        redis.Hdel(id);
        return TicketId(id);
      }
      db.Rollback();
      return DatabaseError;
    }
  }
}
