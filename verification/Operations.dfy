/** The whole system between operations: database, Redis inventory and event cache, and what each
    operation does to it. A fault names the place where the operation fails, or where it ends for
    good: a process that dies and a Redis error that no handler catches both end it there. */
module Operations {
  import opened Stores
  import opened Protocol
  import opened Refunds

  // ---------- the event cache ----------

  /** The cached view of a ticket type: it has no tickets_sold. */
  datatype TypeView = TypeView(name: string, price: int, quantity: int)

  datatype Detail = Detail(attrs: map<string, string>, types: map<nat, TypeView>)

  /** One page of a list of events. The query has no ORDER BY: which events it picks is an
      uninterpreted function of the table, the offset and the limit. */
  datatype Page = Page(events: map<nat, EventRow>, offset: nat, limit: nat)

  datatype PageKey = PageKey(version: nat, offset: nat, limit: nat)

  datatype Cache = Cache(details: map<nat, Detail>, pages: map<PageKey, Page>, version: Option<nat>)
  {
    function Drop(e: nat): Cache {
      this.(details := details - {e})
    }

    /** INCR starts a missing version at zero. */
    function Bump(): Cache {
      this.(version := Some(if version.Some? then version.value + 1 else 1))
    }

    function Invalidate(e: nat): Cache {
      Drop(e).Bump()
    }

    /** The version a reader works with: a missing one is set to 1. */
    function Versioned(): Cache {
      this.(version := Some(if version.Some? then version.value else 1))
    }
  }

  function ViewOf(row: TypeRow): TypeView {
    TypeView(row.name, row.price, row.quantity)
  }

  function ViewsOf(db: Db, e: nat): map<nat, TypeView> {
    map t | t in db.types && db.types[t].eventId == e :: ViewOf(db.types[t])
  }

  function DetailOf(db: Db, e: nat): Detail
    requires e in db.events
  {
    Detail(db.events[e].attrs, ViewsOf(db, e))
  }

  // ---------- operations ----------

  datatype World = World(db: Db, redis: Redis, cache: Cache)

  /** Failures of a database statement are answered by the handlers; a death is answered by nobody.
      A fault that names a place the operation does not come to leaves it as it is. */
  datatype Fault =
    | NoFault
      // the first UPDATE, the flush of the INSERT or DELETE, the commit, or the refresh after it fails
    | AtUpdate | AtFlush | AtCommit | AtRefresh
      // before any effect; in create: after warming a cold counter, after the gate, after the flush,
      // after the hash write
    | DiesAtOnce | DiesCold | DiesAtGate | DiesBeforeHash | DiesAfterHash
      // after the commit; after the counter command that follows or precedes it; after the deletion
      // of the cached detail
    | DiesAfterCommit | DiesAfterCounter | DiesAfterDrop

  /** How far the refunds of a worker's job get: all of them, or a failure or death after those of some
      ids, with its transaction rolled back. */
  datatype Stop = Runs | Fails(done: set<nat>) | Dies(done: set<nat>)

  function StopReply(stop: Stop): Reply {
    match stop
    case Runs => Completed
    case Fails(_) => DatabaseError
    case Dies(_) => ProcessDied
  }

  datatype Reply =
    | TicketId(id: nat) | TypeId(t: nat) | EventId(e: nat) | Completed
    | TicketNotFound | TypeNotFound | EventNotFound | TicketsSoldOut | AlreadyPaid | ReservationExpired
    | QuantityTooSmall | DeleteRefused | DatabaseError | ProcessDied
    | EventDetail(detail: Detail) | EventPage(page: Page)

  /** Slots the gate sees for a type: its counter, or what a cold start writes there. */
  function Seen(w: World, t: nat): int {
    if t in w.redis.counters then w.redis.counters[t]
    else if t in w.db.types then w.db.types[t].quantity - w.db.types[t].sold
    else 0
  }

  function Create(w: World, owner: nat, t: nat, now: nat, fault: Fault): (World, Reply) {
    var warm := w.(redis := w.redis.SetCounter(t, Seen(w, t)));
    if fault == DiesAtOnce then (w, ProcessDied)
    else if t !in w.redis.counters && t !in w.db.types then (w, TypeNotFound)
    else if fault == DiesCold && t !in w.redis.counters then (warm, ProcessDied)
    else if Seen(w, t) <= 0 then (warm, TicketsSoldOut)
    else Admitted(w.(redis := w.redis.SetCounter(t, Seen(w, t) - 1)), owner, t, now, fault)
  }

  /** The part of a create after the gate has taken a unit. Every failure that is handled gives the
      unit back; a death keeps it. */
  function Admitted(w: World, owner: nat, t: nat, now: nat, fault: Fault): (World, Reply) {
    var freed := w.(redis := w.redis.Incr(t));
    var drawn := w.db.(nextTicket := w.db.nextTicket + 1);
    if fault == DiesAtGate then (w, ProcessDied)
    else if fault == AtUpdate || (fault == AtFlush && !SoldLimit(w, t)) then (freed, DatabaseError)
    else if SoldLimit(w, t) then (freed, TicketsSoldOut)
    else if fault == DiesBeforeHash then (w.(db := drawn), ProcessDied)
    else if t !in w.db.types then (freed.(db := drawn), DatabaseError)
    else Write(w.(db := drawn), owner, t, w.db.nextTicket, now, fault)
  }

  /** The sold-limit CHECK refuses one more ticket. */
  predicate SoldLimit(w: World, t: nat) {
    t in w.db.types && w.db.types[t].quantity < w.db.types[t].sold + 1
  }

  /** The part of a create after the INSERT: hash entry, commit, refresh. */
  function Write(w: World, owner: nat, t: nat, id: nat, now: nat, fault: Fault): (World, Reply) {
    var hashed := w.(redis := w.redis.Hset(id, Reservation(t, now)));
    var row := Ticket(t, owner, RESERVED, now);
    var stored := w.db.(types := AddSold(w.db.types, t, 1), tickets := w.db.tickets[id := row]);
    if fault == DiesAfterHash then (hashed, ProcessDied)
    else if fault == AtCommit then (hashed.(redis := hashed.redis.Incr(t)), DatabaseError)
    else if fault == AtRefresh then (hashed.(db := stored, redis := hashed.redis.Incr(t)), DatabaseError)
    else if fault == DiesAfterCommit then (hashed.(db := stored), ProcessDied)
    else (hashed.(db := stored), TicketId(id))
  }

  predicate Owns(w: World, owner: nat, id: nat) {
    id in w.db.tickets && w.db.tickets[id].owner == owner
  }

  function Delete(w: World, owner: nat, id: nat, fault: Fault): (World, Reply) {
    if fault == DiesAtOnce then (w, ProcessDied)
    else if !Owns(w, owner, id) then (w, TicketNotFound)
    else
      var t := w.db.tickets[id].typeId;
      var removed := w.(db := w.db.(types := AddSold(w.db.types, t, -1), tickets := w.db.tickets - {id}));
      if fault == AtUpdate || fault == AtCommit || !CanSubtract(w.db, t, 1) then (w, DatabaseError)
      else if fault == DiesAfterCommit then (removed, ProcessDied)
      else if fault == DiesAfterCounter then (removed.(redis := w.redis.SafeIncr(t)), ProcessDied)
      else (removed.(redis := w.redis.SafeIncr(t).Hdel(id)), Completed)
  }

  function SetStatus(db: Db, id: nat, status: Status): Db
    requires id in db.tickets
  {
    db.(tickets := db.tickets[id := db.tickets[id].(status := status)])
  }

  function Pay(w: World, owner: nat, id: nat, fault: Fault): (World, Reply) {
    if fault == DiesAtOnce then (w, ProcessDied)
    else if !Owns(w, owner, id) then (w, TicketNotFound)
    else if w.db.tickets[id].status == SOLD then (w, AlreadyPaid)
    else if w.db.tickets[id].status == CANCELED then (w, ReservationExpired)
    else if fault == AtCommit then (w, DatabaseError)
    else if fault == AtRefresh then (w.(db := SetStatus(w.db, id, SOLD)), DatabaseError)
    else if fault == DiesAfterCommit then (w.(db := SetStatus(w.db, id, SOLD)), ProcessDied)
    else (w.(db := SetStatus(w.db, id, SOLD), redis := w.redis.Hdel(id)), TicketId(id))
  }

  /** A release refunds before it commits: DiesAfterCounter falls between the two. */
  function Release(w: World, id: nat, fault: Fault): (World, Reply) {
    if fault == DiesAtOnce then (w, ProcessDied)
    else if !IsReserved(w.db, id) then (w, Completed)
    else
      var t := w.db.tickets[id].typeId;
      if fault == AtUpdate || !CanSubtract(w.db, t, 1) then (w, DatabaseError)
      else if fault == AtCommit then (w.(redis := w.redis.Refund(t, id)), DatabaseError)
      else if fault == DiesAfterCounter then (w.(redis := w.redis.Refund(t, id)), ProcessDied)
      else (w.(db := SetStatus(w.db, id, CANCELED).(types := AddSold(w.db.types, t, -1)),
               redis := w.redis.Refund(t, id)), Completed)
  }

  /** Types of the reserved tickets in a set of ids. */
  function TypesOf(db: Db, ids: set<nat>): map<nat, nat> {
    map id | id in ids && IsReserved(db, id) :: db.tickets[id].typeId
  }

  function HungIds(db: Db, threshold: int): set<nat> {
    set id | id in db.tickets && Hung(db, threshold, id)
  }

  /** One refund call for each ticket of a batch. */
  function CreditsOf(types: map<nat, nat>): set<Credit> {
    set id | id in types :: Credit(types[id], id)
  }

  predicate BatchRefused(db: Db, locked: map<nat, nat>) {
    exists id :: id in locked && !CanSubtract(db, locked[id], |OfType(locked, locked[id])|)
  }

  function Part(types: map<nat, nat>, ids: set<nat>): map<nat, nat> {
    map id | id in types && id in ids :: types[id]
  }

  /** The part of a job's ids whose refunds it gets to. */
  function Reached(types: map<nat, nat>, stop: Stop): map<nat, nat> {
    if stop.Runs? then types else Part(types, stop.done)
  }

  /** Cancels the reserved tickets among `ids` in one transaction, refunding them before the commit. */
  function Batch(w: World, ids: set<nat>, stop: Stop): (World, Reply) {
    var locked := TypesOf(w.db, ids);
    if BatchRefused(w.db, locked) then (w, if stop.Dies? then ProcessDied else DatabaseError)
    else
      var refunded := w.(redis := RefundSet(w.redis, CreditsOf(Reached(locked, stop))));
      if !stop.Runs? then (refunded, StopReply(stop))
      else (refunded.(db := w.db.(types := SubtractBatch(w.db.types, locked),
                                  tickets := CancelBatch(w.db.tickets, locked))), Completed)
  }

  function ReconcileHung(w: World, now: nat, seconds: nat, stop: Stop): (World, Reply) {
    var ids := HungIds(w.db, now - seconds);
    if ids == {} then (w, StopReply(stop)) else Batch(w, ids, stop)
  }

  /** Hash entries the collector refunds: over-age, and absent or CANCELED in the database. */
  function OrphanEntries(w: World, now: nat): map<nat, nat> {
    map id | id in w.redis.reservations && Overdue(now, w.redis.reservations[id]) && Orphan(w.db, id)
      :: w.redis.reservations[id].typeId
  }

  function Collect(w: World, now: nat, stop: Stop): (World, Reply) {
    (w.(redis := RefundSet(w.redis, CreditsOf(Reached(OrphanEntries(w, now), stop)))), StopReply(stop))
  }

  /** The commands after the commit of a ticket-type change: the counter, the detail entry, the version. */
  function Synced(w: World, redis: Redis, e: nat, fault: Fault, reply: Reply): (World, Reply) {
    if fault == DiesAfterCommit then (w, ProcessDied)
    else if fault == DiesAfterCounter then (w.(redis := redis), ProcessDied)
    else if fault == DiesAfterDrop then (w.(redis := redis, cache := w.cache.Drop(e)), ProcessDied)
    else (w.(redis := redis, cache := w.cache.Invalidate(e)), reply)
  }

  function CreateType(w: World, e: nat, name: string, price: int, quantity: int, fault: Fault): (World, Reply) {
    var t := w.db.nextType;
    var row := TypeRow(e, name, price, quantity, 0);
    var drawn := w.db.(nextType := t + 1);
    var stored := w.(db := drawn.(types := drawn.types[t := row]));
    if fault == DiesAtOnce then (w, ProcessDied)
    else if fault == AtCommit || e !in w.db.events || !row.Ok() then (w.(db := drawn), DatabaseError)
    else if fault == AtRefresh then (stored, DatabaseError)
    else Synced(stored, w.redis.SetCounter(t, quantity), e, fault, TypeId(t))
  }

  function UpdateType(w: World, t: nat, u: TypeUpdate, fault: Fault): (World, Reply) {
    if fault == DiesAtOnce then (w, ProcessDied)
    else if t !in w.db.types then (w, TypeNotFound)
    else if u.Empty() then (w, TypeId(t))
    else if u.quantity.Some? && u.quantity.value < w.db.types[t].sold then (w, QuantityTooSmall)
    else SaveType(w, t, Merge(w.db.types[t], u), u.quantity.Some?, fault)
  }

  /** Commit of a changed row; the counter is set again only when the update names a quantity. */
  function SaveType(w: World, t: nat, row: TypeRow, setsQuantity: bool, fault: Fault): (World, Reply) {
    var stored := w.(db := w.db.(types := w.db.types[t := row]));
    if fault == AtCommit || !row.Ok() then (w, DatabaseError)
    else if fault == AtRefresh then (stored, DatabaseError)
    else
      var redis := if setsQuantity then w.redis.SetCounter(t, row.quantity - row.sold) else w.redis;
      Synced(stored, redis, row.eventId, fault, TypeId(t))
  }

  function DeleteType(w: World, t: nat, fault: Fault): (World, Reply) {
    if fault == DiesAtOnce then (w, ProcessDied)
    else if t !in w.db.types then (w, TypeNotFound)
    else if fault == AtFlush then (w, DatabaseError)
    else if exists id :: id in w.db.tickets && w.db.tickets[id].typeId == t then (w, DeleteRefused)
    else if fault == AtCommit then (w, DatabaseError)
    else
      var removed := w.(db := w.db.(types := w.db.types - {t}));
      Synced(removed, w.redis.DeleteCounter(t), w.db.types[t].eventId, fault, Completed)
  }

  /** The commands after the commit of an event change. */
  function Published(w: World, e: nat, fault: Fault, reply: Reply): (World, Reply) {
    if fault == DiesAfterCommit then (w, ProcessDied)
    else if fault == DiesAfterDrop then (w.(cache := w.cache.Drop(e)), ProcessDied)
    else (w.(cache := w.cache.Invalidate(e)), reply)
  }

  function CreateEvent(w: World, attrs: map<string, string>, fault: Fault): (World, Reply) {
    var e := w.db.nextEvent;
    var drawn := w.db.(nextEvent := e + 1);
    if fault == DiesAtOnce then (w, ProcessDied)
    else if fault == AtCommit then (w.(db := drawn), DatabaseError)
    else Published(w.(db := drawn.(events := drawn.events[e := EventRow(attrs)])), e, fault, EventId(e))
  }

  function UpdateEvent(w: World, e: nat, u: map<string, string>, fault: Fault): (World, Reply) {
    if fault == DiesAtOnce then (w, ProcessDied)
    else if e !in w.db.events then (w, EventNotFound)
    else if u == map[] then (w, EventId(e))
    else if fault == AtCommit then (w, DatabaseError)
    else Published(w.(db := w.db.(events := w.db.events[e := EventRow(w.db.events[e].attrs + u)])), e, fault, EventId(e))
  }

  /** An event with a ticket type is kept by the foreign key, whether or not it has tickets. */
  function DeleteEvent(w: World, e: nat, fault: Fault): (World, Reply) {
    if fault == DiesAtOnce then (w, ProcessDied)
    else if e !in w.db.events then (w, EventNotFound)
    else if fault == AtFlush then (w, DatabaseError)
    else if exists t :: t in w.db.types && w.db.types[t].eventId == e then (w, DeleteRefused)
    else if fault == AtCommit then (w, DatabaseError)
    else Published(w.(db := w.db.(events := w.db.events - {e})), e, fault, Completed)
  }

  function GetEvent(w: World, e: nat): (World, Reply) {
    if e in w.cache.details then (w, EventDetail(w.cache.details[e]))
    else if e !in w.db.events then (w, EventNotFound)
    else
      var detail := DetailOf(w.db, e);
      (w.(cache := w.cache.(details := w.cache.details[e := detail])), EventDetail(detail))
  }

  /** An answer about event e that is what its rows say: its attributes, exactly the types of this event,
      and for each of them name, price and quantity. */
  ghost predicate SaysRows(db: Db, e: nat, reply: Reply) {
    reply.EventDetail? && e in db.events && reply.detail.attrs == db.events[e].attrs &&
    (forall t :: t in reply.detail.types <==> t in db.types && db.types[t].eventId == e) &&
    forall t :: t in reply.detail.types ==>
      reply.detail.types[t].name == db.types[t].name && reply.detail.types[t].price == db.types[t].price &&
      reply.detail.types[t].quantity == db.types[t].quantity
  }

  function GetAllEvents(w: World, offset: nat, limit: nat): (World, Reply) {
    var cache := w.cache.Versioned();
    var key := PageKey(cache.version.value, offset, limit);
    if key in cache.pages then (w.(cache := cache), EventPage(cache.pages[key]))
    else
      var page := Page(w.db.events, offset, limit);
      (w.(cache := cache.(pages := cache.pages[key := page])), EventPage(page))
  }

  /** Operations, and expiry of cache entries at any time. */
  datatype Op =
    | DoCreate(owner: nat, t: nat, now: nat, fault: Fault)
    | DoDelete(owner: nat, id: nat, fault: Fault)
    | DoPay(owner: nat, id: nat, fault: Fault)
    | DoRelease(id: nat, fault: Fault)
    | DoReconcileHung(now: nat, seconds: nat, stop: Stop)
    | DoCollect(now: nat, stop: Stop)
    | DoCreateType(e: nat, name: string, price: int, quantity: int, fault: Fault)
    | DoUpdateType(t: nat, update: TypeUpdate, fault: Fault)
    | DoDeleteType(t: nat, fault: Fault)
    | DoCreateEvent(attrs: map<string, string>, fault: Fault)
    | DoUpdateEvent(e: nat, settings: map<string, string>, fault: Fault)
    | DoDeleteEvent(e: nat, fault: Fault)
    | DoGetEvent(e: nat)
    | DoGetAllEvents(offset: nat, limit: nat)
    | ExpireDetail(e: nat)
    | ExpirePage(key: PageKey)

  function Apply(w: World, op: Op): (World, Reply) {
    match op
    case DoCreate(owner, t, now, fault) => Create(w, owner, t, now, fault)
    case DoDelete(owner, id, fault) => Delete(w, owner, id, fault)
    case DoPay(owner, id, fault) => Pay(w, owner, id, fault)
    case DoRelease(id, fault) => Release(w, id, fault)
    case DoReconcileHung(now, seconds, stop) => ReconcileHung(w, now, seconds, stop)
    case DoCollect(now, stop) => Collect(w, now, stop)
    case DoCreateType(e, name, price, quantity, fault) => CreateType(w, e, name, price, quantity, fault)
    case DoUpdateType(t, update, fault) => UpdateType(w, t, update, fault)
    case DoDeleteType(t, fault) => DeleteType(w, t, fault)
    case DoCreateEvent(attrs, fault) => CreateEvent(w, attrs, fault)
    case DoUpdateEvent(e, settings, fault) => UpdateEvent(w, e, settings, fault)
    case DoDeleteEvent(e, fault) => DeleteEvent(w, e, fault)
    case DoGetEvent(e) => GetEvent(w, e)
    case DoGetAllEvents(offset, limit) => GetAllEvents(w, offset, limit)
    case ExpireDetail(e) => (w.(cache := w.cache.Drop(e)), Completed)
    case ExpirePage(key) => (w.(cache := w.cache.(pages := w.cache.pages - {key})), Completed)
  }

  /** A history of operations, one after another: worlds[k] goes to worlds[k + 1] by ops[k]. */
  ghost predicate History(worlds: seq<World>, ops: seq<Op>) {
    |worlds| == |ops| + 1 &&
    forall k {:trigger ops[k]} :: 0 <= k < |ops| ==> Apply(worlds[k], ops[k]).0 == worlds[k + 1]
  }
}
