/** The event cache against the database, for every place where an operation can fail or die, with
    entries expiring at any time. Reservations and payments need no invalidation: the cached view has no tickets_sold. */
module Coherence {
  import opened Stores
  import opened Protocol
  import opened Operations
  import opened Consistency

  ghost predicate DetailsOk(w: World) {
    forall e :: e in w.cache.details ==> e in w.db.events && w.cache.details[e] == DetailOf(w.db, e)
  }

  /** No page is ahead of the version key, and the pages of the current version are fresh. */
  ghost predicate PagesOk(w: World) {
    forall k :: k in w.cache.pages ==>
      w.cache.version.Some? && k.version <= w.cache.version.value &&
      (k.version == w.cache.version.value ==> w.cache.pages[k] == Page(w.db.events, k.offset, k.limit))
  }

  ghost predicate IdsDrawn(db: Db) {
    (forall t :: t in db.types ==> t < db.nextType) && (forall e :: e in db.events ==> e < db.nextEvent)
  }

  ghost predicate Coherent(w: World) {
    IdsDrawn(w.db) && DetailsOk(w) && PagesOk(w)
  }

  /** Some page is stored under the current version. */
  ghost predicate CurrentPages(w: World) {
    exists k :: k in w.cache.pages && w.cache.version == Some(k.version)
  }

  /** A commit that no deletion of the cached detail follows. */
  predicate Undropped(fault: Fault) {
    fault in {AtRefresh, DiesAfterCommit, DiesAfterCounter}
  }

  /** The commit stands, the operation ends before its invalidation, and the cache shows the change. A
      ticket-type change shows in the detail of its event; an event change in the current pages too. */
  ghost predicate LeavesStale(w: World, op: Op) {
    match op
    case DoCreateType(e, name, price, quantity, fault) =>
      Undropped(fault) && e in w.db.events && TypeRow(e, name, price, quantity, 0).Ok() && e in w.cache.details
    case DoUpdateType(t, u, fault) =>
      Undropped(fault) && Updates(w, t, u, fault) && w.db.types[t].eventId in w.cache.details &&
      ViewOf(Merge(w.db.types[t], u)) != ViewOf(w.db.types[t])
    case DoDeleteType(t, fault) =>
      Undropped(fault) && fault != AtRefresh && Drops(w, t) && w.db.types[t].eventId in w.cache.details
    case DoCreateEvent(_, fault) => fault in {DiesAfterCommit, DiesAfterDrop} && CurrentPages(w)
    case DoUpdateEvent(e, u, fault) =>
      e in w.db.events && w.db.events[e].attrs + u != w.db.events[e].attrs && Shows(w, e, fault)
    case DoDeleteEvent(e, fault) =>
      e in w.db.events && (forall t :: t in w.db.types ==> w.db.types[t].eventId != e) && Shows(w, e, fault)
    case _ => false
  }

  ghost predicate Shows(w: World, e: nat, fault: Fault) {
    (fault == DiesAfterCommit && (e in w.cache.details || CurrentPages(w))) || (fault == DiesAfterDrop && CurrentPages(w))
  }

  /** Rows as the cache sees them. */
  ghost predicate SameViews(db: Db, db': Db) {
    db'.events == db.events && db'.types.Keys == db.types.Keys && db'.nextType >= db.nextType && db'.nextEvent >= db.nextEvent &&
    forall t :: t in db.types ==> db'.types[t].eventId == db.types[t].eventId && ViewOf(db'.types[t]) == ViewOf(db.types[t])
  }

  lemma InvisibleChange(w: World, w': World)
    requires Coherent(w) && SameViews(w.db, w'.db) && w'.cache == w.cache
    ensures Coherent(w')
  {
    forall e | e in w.cache.details ensures DetailOf(w'.db, e) == DetailOf(w.db, e) {
      assert ViewsOf(w'.db, e) == ViewsOf(w.db, e);
    }
  }

  lemma WriteViews(w: World, owner: nat, t: nat, id: nat, now: nat, fault: Fault)
    ensures var w' := Write(w, owner, t, id, now, fault).0; SameViews(w.db, w'.db) && w'.cache == w.cache
  {
  }

  lemma AdmittedViews(w: World, owner: nat, t: nat, now: nat, fault: Fault)
    ensures var w' := Admitted(w, owner, t, now, fault).0; SameViews(w.db, w'.db) && w'.cache == w.cache
  {
    hide Write;
    WriteViews(w.(db := w.db.(nextTicket := w.db.nextTicket + 1)), owner, t, w.db.nextTicket, now, fault);
  }

  lemma CreateViews(w: World, op: Op)
    requires op.DoCreate?
    ensures SameViews(w.db, Apply(w, op).0.db) && Apply(w, op).0.cache == w.cache
  {
    hide Admitted;
    AdmittedViews(w.(redis := w.redis.SetCounter(op.t, Seen(w, op.t) - 1)), op.owner, op.t, op.now, op.fault);
  }

  lemma CreateOp(w: World, op: Op)
    requires Coherent(w) && op.DoCreate?
    ensures Coherent(Apply(w, op).0)
  {
    CreateViews(w, op);
    hide Apply, Coherent, SameViews;
    InvisibleChange(w, Apply(w, op).0);
  }

  lemma DeleteViews(w: World, owner: nat, id: nat, fault: Fault)
    ensures var w' := Delete(w, owner, id, fault).0; SameViews(w.db, w'.db) && w'.cache == w.cache
  {
  }

  lemma ReleaseViews(w: World, id: nat, fault: Fault)
    ensures var w' := Release(w, id, fault).0; SameViews(w.db, w'.db) && w'.cache == w.cache
  {
  }

  lemma BatchViews(w: World, ids: set<nat>, stop: Stop)
    ensures var w' := Batch(w, ids, stop).0; SameViews(w.db, w'.db) && w'.cache == w.cache
  {
  }

  lemma TicketViews(w: World, op: Op)
    requires op.DoDelete? || op.DoPay? || op.DoRelease? || op.DoReconcileHung? || op.DoCollect?
    ensures SameViews(w.db, Apply(w, op).0.db) && Apply(w, op).0.cache == w.cache
  {
    hide Delete, Release, Batch;
    match op
    case DoDelete(owner, id, fault) => DeleteViews(w, owner, id, fault);
    case DoRelease(id, fault) => ReleaseViews(w, id, fault);
    case DoReconcileHung(now, seconds, stop) => BatchViews(w, HungIds(w.db, now - seconds), stop);
    case _ =>
  }

  lemma TicketOps(w: World, op: Op)
    requires Coherent(w)
    requires op.DoDelete? || op.DoPay? || op.DoRelease? || op.DoReconcileHung? || op.DoCollect?
    ensures Coherent(Apply(w, op).0)
  {
    TicketViews(w, op);
    hide Apply, Coherent, SameViews;
    InvisibleChange(w, Apply(w, op).0);
  }

  /** A committed change to the types of one event that leaves all other views alone. */
  ghost predicate TypesChange(w: World, w': World, e: nat) {
    w'.db.events == w.db.events && IdsDrawn(w'.db) && forall x :: x != e && x in w.db.events ==> ViewsOf(w'.db, x) == ViewsOf(w.db, x)
  }

  /** Such a change is coherent if the detail goes, or was not there, or shows no difference. */
  lemma TypesChanged(w: World, w': World, e: nat)
    requires Coherent(w) && TypesChange(w, w', e)
    requires w'.cache in {w.cache, w.cache.Drop(e), w.cache.Invalidate(e)}
    ensures Coherent(w') <==> (w'.cache == w.cache && e in w.cache.details ==> ViewsOf(w'.db, e) == ViewsOf(w.db, e))
  {
    if w'.cache == w.cache && e in w.cache.details { assert w.cache.details[e] == DetailOf(w.db, e); }
  }

  lemma SyncedCache(w: World, redis: Redis, e: nat, fault: Fault, reply: Reply)
    ensures var w' := Synced(w, redis, e, fault, reply).0;
      w'.db == w.db && w'.cache == if fault == DiesAfterCommit || fault == DiesAfterCounter then w.cache
                                   else if fault == DiesAfterDrop then w.cache.Drop(e) else w.cache.Invalidate(e)
  {
  }

  lemma CreateTypeOp(w: World, op: Op)
    requires Coherent(w) && op.DoCreateType?
    ensures Coherent(Apply(w, op).0) <==> !LeavesStale(w, op)
  {
    var w', e, t := Apply(w, op).0, op.e, w.db.nextType;
    NewTypeFrame(w, e, op.name, op.price, op.quantity, op.fault);
    var row := TypeRow(e, op.name, op.price, op.quantity, 0);
    if t in w'.db.types {
      SyncedCache(w.(db := w'.db), w.redis.SetCounter(t, op.quantity), e, op.fault, TypeId(t));
      forall x | x != e ensures ViewsOf(w'.db, x) == ViewsOf(w.db, x) { }
      assert t in ViewsOf(w'.db, e) && t !in ViewsOf(w.db, e);
      TypesChanged(w, w', e);
      if Undropped(op.fault) { assert w'.cache == w.cache; } else { assert e !in w'.cache.details; }
    } else {
      assert SameViews(w.db, w'.db) && w'.cache == w.cache;
      InvisibleChange(w, w');
    }
  }

  lemma UpdateTypeOp(w: World, op: Op)
    requires Coherent(w) && op.DoUpdateType?
    ensures Coherent(Apply(w, op).0) <==> !LeavesStale(w, op)
  {
    UpdateFrame(w, op.t, op.update, op.fault);
    if Updates(w, op.t, op.update, op.fault) {
      var row := Merge(w.db.types[op.t], op.update);
      SavedTypeOp(w, op.t, row, op.update.quantity.Some?, op.fault);
    }
  }

  lemma SavedTypeOp(w: World, t: nat, row: TypeRow, setsQuantity: bool, fault: Fault)
    requires Coherent(w) && t in w.db.types && row.Ok() && fault != AtCommit && row.eventId == w.db.types[t].eventId
    ensures Coherent(SaveType(w, t, row, setsQuantity, fault).0) <==>
      (Undropped(fault) && row.eventId in w.cache.details ==> ViewOf(row) == ViewOf(w.db.types[t]))
  {
    var w', e := SaveType(w, t, row, setsQuantity, fault).0, row.eventId;
    SavedCache(w, t, row, setsQuantity, fault);
    OneViewChanged(w.db, t, row);
    TypesChanged(w, w', e);
    if !Undropped(fault) { assert e !in w'.cache.details; }
  }

  lemma SavedCache(w: World, t: nat, row: TypeRow, setsQuantity: bool, fault: Fault)
    requires row.Ok() && fault != AtCommit
    ensures var w' := SaveType(w, t, row, setsQuantity, fault).0;
      w'.db == w.db.(types := w.db.types[t := row]) &&
      w'.cache == if Undropped(fault) then w.cache
                  else if fault == DiesAfterDrop then w.cache.Drop(row.eventId) else w.cache.Invalidate(row.eventId)
  {
    var redis := if setsQuantity then w.redis.SetCounter(t, row.quantity - row.sold) else w.redis;
    SyncedCache(w.(db := w.db.(types := w.db.types[t := row])), redis, row.eventId, fault, TypeId(t));
  }

  lemma OneViewChanged(db: Db, t: nat, row: TypeRow)
    requires t in db.types && row.eventId == db.types[t].eventId
    ensures var db' := db.(types := db.types[t := row]);
      (forall x :: x != row.eventId ==> ViewsOf(db', x) == ViewsOf(db, x)) &&
      (ViewsOf(db', row.eventId) == ViewsOf(db, row.eventId) <==> ViewOf(row) == ViewOf(db.types[t]))
  {
    var db', e := db.(types := db.types[t := row]), row.eventId;
    forall x | x != e ensures ViewsOf(db', x) == ViewsOf(db, x) { }
    assert ViewsOf(db', e)[t] == ViewOf(row) && ViewsOf(db, e)[t] == ViewOf(db.types[t]);
    if ViewOf(row) == ViewOf(db.types[t]) { assert ViewsOf(db', e) == ViewsOf(db, e); }
  }

  lemma DeleteTypeOp(w: World, op: Op)
    requires Coherent(w) && op.DoDeleteType?
    ensures Coherent(Apply(w, op).0) <==> !LeavesStale(w, op)
  {
    var w', t := Apply(w, op).0, op.t;
    if Drops(w, t) && op.fault !in {DiesAtOnce, AtFlush, AtCommit} {
      var e := w.db.types[t].eventId;
      SyncedCache(w.(db := w.db.(types := w.db.types - {t})), w.redis.DeleteCounter(t), e, op.fault, Completed);
      forall x | x != e ensures ViewsOf(w'.db, x) == ViewsOf(w.db, x) { }
      assert t in ViewsOf(w.db, e) && t !in ViewsOf(w'.db, e);
      TypesChanged(w, w', e);
      if e in w'.cache.details { assert w'.cache == w.cache; }
    } else {
      assert w' == w;
    }
  }

  /** A committed change to one event, then nothing, the deletion of its detail, or its invalidation. */
  lemma EventChanged(w: World, w': World, e: nat, fault: Fault)
    requires Coherent(w) && IdsDrawn(w'.db) && w'.db.types == w.db.types && w'.db.events != w.db.events
    requires forall x :: x != e && x in w.db.events ==> x in w'.db.events && w'.db.events[x] == w.db.events[x]
    requires e in w.db.events && e in w'.db.events ==> w'.db.events[e] != w.db.events[e]
    requires w'.cache == if fault == DiesAfterCommit then w.cache
                         else if fault == DiesAfterDrop then w.cache.Drop(e) else w.cache.Invalidate(e)
    ensures Coherent(w') <==> !Shows(w, e, fault)
  {
    forall x ensures ViewsOf(w'.db, x) == ViewsOf(w.db, x) { }
    if fault == DiesAfterCommit && e in w.cache.details {
      assert e in w.db.events && w.cache.details[e] == DetailOf(w.db, e);
      assert !DetailsOk(w');
    } else {
      assert DetailsOk(w');
    }
    if CurrentPages(w) && (fault == DiesAfterCommit || fault == DiesAfterDrop) {
      var k :| k in w.cache.pages && w.cache.version == Some(k.version);
      assert w.cache.pages[k] == Page(w.db.events, k.offset, k.limit);
      assert !PagesOk(w');
    } else {
      assert PagesOk(w');
    }
  }

  lemma CreateEventOp(w: World, op: Op)
    requires Coherent(w) && op.DoCreateEvent?
    ensures Coherent(Apply(w, op).0) <==> !LeavesStale(w, op)
  {
    var w', e := Apply(w, op).0, w.db.nextEvent;
    assert e !in w.db.events && e !in w.cache.details;
    if e in w'.db.events {
      EventChanged(w, w', e, op.fault);
    } else {
      InvisibleChange(w, w');
    }
  }

  lemma UpdateEventFrame(w: World, e: nat, u: map<string, string>, fault: Fault)
    ensures var w' := UpdateEvent(w, e, u, fault).0;
      if e in w.db.events && u != map[] && fault !in {DiesAtOnce, AtCommit} then
        w'.db == w.db.(events := w.db.events[e := EventRow(w.db.events[e].attrs + u)]) &&
        w'.cache == if fault == DiesAfterCommit then w.cache
                    else if fault == DiesAfterDrop then w.cache.Drop(e) else w.cache.Invalidate(e)
      else w' == w
  {
  }

  lemma SameEvents(w: World, w': World, e: nat)
    requires Coherent(w) && w'.db == w.db && w'.cache in {w.cache, w.cache.Drop(e), w.cache.Invalidate(e)}
    ensures Coherent(w')
  {
  }

  lemma UpdateEventOp(w: World, op: Op)
    requires Coherent(w) && op.DoUpdateEvent?
    ensures Coherent(Apply(w, op).0) <==> !LeavesStale(w, op)
  {
    var w', e, u := Apply(w, op).0, op.e, op.settings;
    UpdateEventFrame(w, e, u, op.fault);
    if e in w.db.events {
      var attrs := w.db.events[e].attrs;
      assert u == map[] ==> attrs + u == attrs;
      if attrs + u == attrs {
        assert w'.db.events == w.db.events;
        SameEvents(w, w', e);
      } else if op.fault !in {DiesAtOnce, AtCommit} {
        assert w'.db.events[e] != w.db.events[e];
        EventChanged(w, w', e, op.fault);
      }
    }
  }

  lemma DeleteEventOp(w: World, op: Op)
    requires Coherent(w) && op.DoDeleteEvent?
    ensures Coherent(Apply(w, op).0) <==> !LeavesStale(w, op)
  {
    var w', e := Apply(w, op).0, op.e;
    if e in w.db.events && e !in w'.db.events { EventChanged(w, w', e, op.fault); }
  }

  lemma CacheOps(w: World, op: Op)
    requires Coherent(w)
    requires op.DoGetEvent? || op.DoGetAllEvents? || op.ExpireDetail? || op.ExpirePage?
    ensures Coherent(Apply(w, op).0)
  {
  }

  /** Exactly which operations, ended where, leave the cache behind the database. */
  lemma CoherentExactly(w: World, op: Op)
    requires Coherent(w)
    ensures Coherent(Apply(w, op).0) <==> !LeavesStale(w, op)
  {
    match op
    case DoCreateType(_, _, _, _, _) => CreateTypeOp(w, op);
    case DoUpdateType(_, _, _) => UpdateTypeOp(w, op);
    case DoDeleteType(_, _) => DeleteTypeOp(w, op);
    case DoCreateEvent(_, _) => CreateEventOp(w, op);
    case DoUpdateEvent(_, _, _) => UpdateEventOp(w, op);
    case DoDeleteEvent(_, _) => DeleteEventOp(w, op);
    case DoCreate(_, _, _, _) => CreateOp(w, op);
    case DoGetEvent(_) => CacheOps(w, op);
    case DoGetAllEvents(_, _) => CacheOps(w, op);
    case ExpireDetail(_) => CacheOps(w, op);
    case ExpirePage(_) => CacheOps(w, op);
    case _ => TicketOps(w, op);
  }

  lemma {:induction false} HistoryCoherent(worlds: seq<World>, ops: seq<Op>)
    requires History(worlds, ops) && Coherent(worlds[0])
    requires forall k :: 0 <= k < |ops| ==> !LeavesStale(worlds[k], ops[k])
    ensures Coherent(worlds[|ops|])
  {
    if ops != [] {
      var n := |ops| - 1;
      HistoryCoherent(worlds[..n + 1], ops[..n]);
      CoherentExactly(worlds[n], ops[n]);
      assert Apply(worlds[n], ops[n]).0 == worlds[n + 1];
    }
  }

  /** A read while the cache is coherent says what the rows say; a page is computed from the table as it is. */
  lemma ReadsSayRows(w: World, e: nat, offset: nat, limit: nat)
    requires Coherent(w)
    ensures if e in w.db.events then SaysRows(w.db, e, GetEvent(w, e).1) else GetEvent(w, e).1 == EventNotFound
    ensures GetEvent(w, e).0.db == w.db && GetEvent(w, e).0.redis == w.redis
    ensures var (w', reply) := GetAllEvents(w, offset, limit);
      var v := if w.cache.version.Some? then w.cache.version.value else 1;
      reply.EventPage? && reply.page.events == w.db.events && reply.page.offset == offset && reply.page.limit == limit &&
      w'.cache.version == Some(v) && PageKey(v, offset, limit) in w'.cache.pages && w'.cache.pages[PageKey(v, offset, limit)] == reply.page
  {
    if e in w.cache.details { assert w.cache.details[e] == DetailOf(w.db, e); }
  }

  /** Cached reads after any such history answer what the database says now. */
  lemma ReadsAreFresh(worlds: seq<World>, ops: seq<Op>, e: nat, offset: nat, limit: nat)
    requires History(worlds, ops) && Coherent(worlds[0])
    requires forall k :: 0 <= k < |ops| ==> !LeavesStale(worlds[k], ops[k])
    ensures var w := worlds[|ops|]; var reply := GetAllEvents(w, offset, limit).1;
      (if e in w.db.events then SaysRows(w.db, e, GetEvent(w, e).1) else GetEvent(w, e).1 == EventNotFound) &&
      reply.EventPage? && reply.page.events == w.db.events && reply.page.offset == offset && reply.page.limit == limit
  {
    HistoryCoherent(worlds, ops);
    ReadsSayRows(worlds[|ops|], e, offset, limit);
  }
}
