/** Ticket types and events: the services that change them, and the cached reads. Each mutator
    commits first and then invalidates the cache. */
module Catalog {
  import opened Stores
  import opened Operations
  import opened Clients

  // ---------- ticket types ----------

  /** One item of an update dictionary. */
  datatype Setting = Name(name: string) | Price(price: int) | Quantity(quantity: int)

  /** The fields that were set, in the order of the schema. */
  function Items(u: TypeUpdate): seq<Setting> {
    (if u.name.Some? then [Name(u.name.value)] else []) +
    (if u.price.Some? then [Price(u.price.value)] else []) +
    (if u.quantity.Some? then [Quantity(u.quantity.value)] else [])
  }

  function SetAttr(row: TypeRow, x: Setting): TypeRow {
    match x
    case Name(n) => row.(name := n)
    case Price(p) => row.(price := p)
    case Quantity(q) => row.(quantity := q)
  }

  function SetAll(row: TypeRow, items: seq<Setting>): TypeRow {
    if items == [] then row else SetAttr(SetAll(row, items[..|items| - 1]), items[|items| - 1])
  }

  lemma {:induction false} SetAllAppend(row: TypeRow, a: seq<Setting>, b: seq<Setting>)
    ensures SetAll(row, a + b) == SetAll(SetAll(row, a), b)
  {
    if b == [] {
      assert a + b == a;
    } else {
      SetAllAppend(row, a, b[..|b| - 1]);
      assert (a + b)[..|a + b| - 1] == a + b[..|b| - 1];
    }
  }

  lemma SetAllOne(row: TypeRow, x: Setting)
    ensures SetAll(row, [x]) == SetAttr(row, x)
  {
    assert SetAll(row, [x][..0]) == row;
  }

  /** Setting the attributes one by one changes the fields that are set, and no others. */
  lemma SetAllIsMerge(row: TypeRow, u: TypeUpdate)
    ensures SetAll(row, Items(u)) == Merge(row, u)
    ensures Items(u) == [] <==> u.Empty()
  {
    var a := if u.name.Some? then [Name(u.name.value)] else [];
    var b := if u.price.Some? then [Price(u.price.value)] else [];
    var c := if u.quantity.Some? then [Quantity(u.quantity.value)] else [];
    SetAllAppend(row, a + b, c);
    SetAllAppend(row, a, b);
    if u.name.Some? { SetAllOne(row, a[0]); }
    if u.price.Some? { SetAllOne(SetAll(row, a), b[0]); }
    if u.quantity.Some? { SetAllOne(SetAll(row, a + b), c[0]); }
  }

  /** The setattr loop of an update. */
  method SetFields(row: TypeRow, items: seq<Setting>) returns (changed: TypeRow)
    ensures changed == SetAll(row, items)
  {
    changed := row;
    for i := 0 to |items|
      invariant changed == SetAll(row, items[..i])
    {
      assert items[..i + 1][..i] == items[..i];
      changed := SetAttr(changed, items[i]);
    }
    assert items[..|items|] == items;
  }

  class TicketTypeService {
    const db: Database
    const redis: RedisClient

    constructor (db: Database, redis: RedisClient)
      ensures this.db == db && this.redis == redis
    {
      this.db, this.redis := db, redis;
    }

    method Create(e: nat, name: string, price: int, quantity: int, fault: Fault) returns (reply: Reply)
      requires Ready(db, redis)
      modifies db, redis`counters, redis`details, redis`version
      ensures Ready(db, redis)
      ensures (WorldOf(db, redis), reply) == Operations.CreateType(old(WorldOf(db, redis)), e, name, price, quantity, fault)
    {
      if fault == DiesAtOnce {
        return ProcessDied;
      }
      var t, err := db.InsertType(TypeRow(e, name, price, quantity, 0), fault == AtCommit);
      if err == None {
        err := db.Commit(false);
        if err == None && fault != AtRefresh {
          reply := Sync(t, e, Some(db.session.types[t].quantity), fault);
          return;
        }
      }
      db.Rollback();
      return DatabaseError;
    }

    /** What follows the commit of a new or changed type: the counter if it is to be set, the cached
        detail of the event, the version of the lists. */
    method Sync(t: nat, e: nat, available: Option<int>, fault: Fault) returns (reply: Reply)
      requires Ready(db, redis)
      modifies redis`counters, redis`details, redis`version
      ensures Ready(db, redis)
      ensures var w := old(WorldOf(db, redis));
        var r := if available.Some? then w.redis.SetCounter(t, available.value) else w.redis;
        (WorldOf(db, redis), reply) == Synced(w, r, e, fault, TypeId(t))
    {
      if fault == DiesAfterCommit {
        return ProcessDied;
      }
      if available.Some? {
        redis.SetCounter(t, available.value);
      }
      reply := Invalidate(e, TypeId(t), fault);
    }

    method Invalidate(e: nat, done: Reply, fault: Fault) returns (reply: Reply)
      modifies redis`details, redis`version
      ensures redis.EventCache() == if fault == DiesAfterCounter then old(redis.EventCache())
        else if fault == DiesAfterDrop then old(redis.EventCache()).Drop(e) else old(redis.EventCache()).Invalidate(e)
      ensures reply == if fault == DiesAfterCounter || fault == DiesAfterDrop then ProcessDied else done
    {
      if fault == DiesAfterCounter {
        return ProcessDied;
      }
      redis.DeleteEventStatic(e);
      if fault == DiesAfterDrop {
        return ProcessDied;
      }
      redis.BumpEventListVersion();
      return done;
    }

    method Update(t: nat, u: TypeUpdate, fault: Fault) returns (reply: Reply)
      requires Ready(db, redis)
      modifies db, redis`counters, redis`details, redis`version
      ensures Ready(db, redis)
      ensures (WorldOf(db, redis), reply) == Operations.UpdateType(old(WorldOf(db, redis)), t, u, fault)
    {
      if fault == DiesAtOnce {
        return ProcessDied;
      }
      if t !in db.session.types {
        return TypeNotFound;
      }
      var row := db.session.types[t];
      var items := Items(u);
      SetAllIsMerge(row, u);
      if items == [] {
        return TypeId(t);
      }
      if u.quantity.Some? && u.quantity.value < row.sold {
        return QuantityTooSmall;
      }
      row := SetFields(row, items);
      reply := Save(t, row, u.quantity.Some?, fault);
    }

    /** The try block of update: commit, refresh, synchronise the counter, invalidate. */
    method Save(t: nat, row: TypeRow, setsQuantity: bool, fault: Fault) returns (reply: Reply)
      requires Ready(db, redis) && t in db.session.types
      modifies db, redis`counters, redis`details, redis`version
      ensures Ready(db, redis)
      ensures (WorldOf(db, redis), reply) == SaveType(old(WorldOf(db, redis)), t, row, setsQuantity, fault)
    {
      hide Synced;
      var err := db.FlushType(t, row);
      if err == None {
        err := db.Commit(fault == AtCommit);
        if err == None && fault != AtRefresh {
          var now := db.session.types[t];
          reply := Sync(t, now.eventId, if setsQuantity then Some(now.quantity - now.sold) else None, fault);
          return;
        }
      }
      db.Rollback();
      return DatabaseError;
    }

    method Delete(t: nat, fault: Fault) returns (reply: Reply)
      requires Ready(db, redis)
      modifies db, redis`counters, redis`details, redis`version
      ensures Ready(db, redis)
      ensures (WorldOf(db, redis), reply) == Operations.DeleteType(old(WorldOf(db, redis)), t, fault)
    {
      if fault == DiesAtOnce {
        return ProcessDied;
      }
      if t !in db.session.types {
        return TypeNotFound;
      }
      var e := db.session.types[t].eventId;
      var err := db.DeleteType(t, fault == AtFlush);
      if err == Some(IntegrityViolated) {
        db.Rollback();
        return DeleteRefused;
      }
      if err == None {
        err := db.Commit(fault == AtCommit);
      }
      if err.Some? {
        db.Rollback();
        return DatabaseError;
      }
      if fault == DiesAfterCommit {
        return ProcessDied;
      }
      redis.DeleteCounter(t);
      reply := Invalidate(e, Completed, fault);
    }
  }

  // ---------- events ----------

  /** The cached repository over the base queries. */
  class CachedEventRepository {
    const db: Database
    const redis: RedisClient

    constructor (db: Database, redis: RedisClient)
      ensures this.db == db && this.redis == redis
    {
      this.db, this.redis := db, redis;
    }

    method Get(e: nat) returns (reply: Reply)
      requires Ready(db, redis)
      modifies redis`details
      ensures Ready(db, redis)
      ensures (WorldOf(db, redis), reply) == GetEvent(old(WorldOf(db, redis)), e)
      ensures e in old(redis.details) ==> reply == EventDetail(old(redis.details)[e])
      ensures e !in old(redis.details) ==> if e in db.committed.events then SaysRows(db.committed, e, reply) else reply == EventNotFound
    {
      if e in redis.details {
        return EventDetail(redis.details[e]);
      }
      if e !in db.session.events {
        return EventNotFound;
      }
      var dto := DetailOf(db.session, e);
      redis.details := redis.details[e := dto];
      return EventDetail(dto);
    }

    method GetAll(offset: nat, limit: nat) returns (reply: Reply)
      requires Ready(db, redis)
      modifies redis`pages, redis`version
      ensures Ready(db, redis)
      ensures (WorldOf(db, redis), reply) == GetAllEvents(old(WorldOf(db, redis)), offset, limit)
    {
      var key := redis.EventList(offset, limit);
      if key in redis.pages {
        return EventPage(redis.pages[key]);
      }
      var page := Page(db.session.events, offset, limit);
      redis.pages := redis.pages[key := page];
      return EventPage(page);
    }

    method InvalidateEvent(e: nat, fault: Fault) returns (ends: bool)
      modifies redis`details, redis`version
      ensures ends <==> fault == DiesAfterCommit || fault == DiesAfterDrop
      ensures redis.EventCache() == if fault == DiesAfterCommit then old(redis.EventCache())
        else if fault == DiesAfterDrop then old(redis.EventCache()).Drop(e) else old(redis.EventCache()).Invalidate(e)
    {
      if fault == DiesAfterCommit {
        return true;
      }
      redis.DeleteEventStatic(e);
      if fault == DiesAfterDrop {
        return true;
      }
      redis.BumpEventListVersion();
      return false;
    }
  }

  class EventService {
    const db: Database
    const redis: RedisClient
    const cached: CachedEventRepository

    constructor (db: Database, redis: RedisClient, cached: CachedEventRepository)
      requires cached.db == db && cached.redis == redis
      ensures this.db == db && this.redis == redis && this.cached == cached
    {
      this.db, this.redis, this.cached := db, redis, cached;
    }

    method Create(attrs: map<string, string>, fault: Fault) returns (reply: Reply)
      requires Ready(db, redis) && cached.redis == redis
      modifies db, redis`details, redis`version
      ensures Ready(db, redis)
      ensures (WorldOf(db, redis), reply) == Operations.CreateEvent(old(WorldOf(db, redis)), attrs, fault)
      ensures reply.EventId? ==> reply.e in db.committed.events && db.committed.events[reply.e].attrs == attrs
    {
      if fault == DiesAtOnce {
        return ProcessDied;
      }
      var e := db.InsertEvent(attrs);
      var err := db.Commit(fault == AtCommit);
      if err.Some? {
        db.Rollback();
        return DatabaseError;
      }
      var ends := cached.InvalidateEvent(e, fault);
      return if ends then ProcessDied else EventId(e);
    }

    method Delete(e: nat, fault: Fault) returns (reply: Reply)
      requires Ready(db, redis) && cached.redis == redis
      modifies db, redis`details, redis`version
      ensures Ready(db, redis)
      ensures (WorldOf(db, redis), reply) == Operations.DeleteEvent(old(WorldOf(db, redis)), e, fault)
    {
      if fault == DiesAtOnce {
        return ProcessDied;
      }
      if e !in db.session.events {
        return EventNotFound;
      }
      var err := db.DeleteEvent(e, fault == AtFlush);
      if err == Some(IntegrityViolated) {
        db.Rollback();
        return DeleteRefused;
      }
      if err == None {
        err := db.Commit(fault == AtCommit);
      }
      if err.Some? {
        db.Rollback();
        return DatabaseError;
      }
      var ends := cached.InvalidateEvent(e, fault);
      return if ends then ProcessDied else Completed;
    }

    method Update(e: nat, u: map<string, string>, fault: Fault) returns (reply: Reply)
      requires Ready(db, redis) && cached.redis == redis
      modifies db, redis`details, redis`version
      ensures Ready(db, redis)
      ensures (WorldOf(db, redis), reply) == Operations.UpdateEvent(old(WorldOf(db, redis)), e, u, fault)
    {
      if fault == DiesAtOnce {
        return ProcessDied;
      }
      if e !in db.session.events {
        return EventNotFound;
      }
      if u == map[] {
        return EventId(e);
      }
      var attrs := SetAttrs(db.session.events[e].attrs, u);
      db.FlushEvent(e, attrs);
      var err := db.Commit(fault == AtCommit);
      if err.Some? {
        db.Rollback();
        return DatabaseError;
      }
      var ends := cached.InvalidateEvent(e, fault);
      return if ends then ProcessDied else EventId(e);
    }
  }

  /** The setattr loop of the repository's update: the items of a dictionary, in any order. */
  method SetAttrs(attrs: map<string, string>, u: map<string, string>) returns (merged: map<string, string>)
    ensures merged == attrs + u
  {
    merged := attrs;
    var rest := u.Keys;
    while rest != {}
      invariant rest <= u.Keys
      invariant merged.Keys == attrs.Keys + (u.Keys - rest)
      invariant forall k :: k in merged ==> merged[k] == if k in u && k !in rest then u[k] else attrs[k]
      decreases |rest|
    {
      var key :| key in rest;
      merged := merged[key := u[key]];
      rest := rest - {key};
    }
  }
}
