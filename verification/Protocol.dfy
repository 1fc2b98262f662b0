/** The two-store reservation protocol as a small-step relation.
    Every in-flight request or worker job is a process with a program counter. One Redis command
    or Lua script is one step; one SQL statement is one step; commit publishes the buffered writes
    of a transaction. Row locks are held from the statement that takes them to the end of the
    transaction, so who holds a lock can be read off the program counters. */
module Protocol {
  import opened Stores

  /** `shared` says whether the worker uses the API's Redis database. */
  datatype Config = Config(shared: bool, reservationSeconds: nat)

  const GRACE_PERIOD_SECONDS := 60

  datatype Outcome = Success(id: nat) | SoldOut | NotFound | Rejected | Failed | Crashed | Finished

  datatype Proc =
    | Done(outcome: Outcome)
      // TicketService.create; `slot` says whether the gate script took a unit of inventory,
      // `began` is the start of the transaction that the row-read of the cold path opens
    | CreateStart(t: nat, owner: nat)
    | CreateMiss(t: nat, owner: nat)
    | CreateWarm(t: nat, owner: nat, avail: int, began: nat)
    | CreateRetry(t: nat, owner: nat, began: nat)
    | CreateHolding(t: nat, owner: nat, slot: bool, txStart: Option<nat>)
    | CreateUpdated(t: nat, owner: nat, slot: bool, start: nat)
    | CreateInserted(t: nat, owner: nat, slot: bool, start: nat, id: nat)
    | CreateStamped(t: nat, owner: nat, slot: bool, start: nat, id: nat, ts: nat)
    | CreateHashed(t: nat, owner: nat, slot: bool, start: nat, id: nat, ts: nat)
    | CreateCommitted(t: nat, id: nat)
    | CreateFailed(t: nat, slot: bool, out: Outcome)
      // TicketService.delete
    | DeleteStart(id: nat, owner: nat)
    | DeleteFound(id: nat, t: nat)
    | DeleteUpdated(id: nat, t: nat)
    | DeleteRemoved(id: nat, t: nat)
    | DeleteCommitted(id: nat, t: nat)
    | DeleteCredited(id: nat)
      // PaymentService.pay_for_ticket
    | PayStart(id: nat, owner: nat)
    | PayLocked(id: nat)
    | PayCommitted(id: nat)
      // release_unpaid_ticket
    | ReleaseStart(id: nat)
    | ReleaseLocked(id: nat, t: nat)
    | ReleaseUpdated(id: nat, t: nat)
    | ReleaseRefunded(id: nat, t: nat)
      // reconcile_hung_tickets; `locked` maps cancelled ids to their types
    | HungStart
    | HungTimed(threshold: int)
    | HungScanning(threshold: int, rest: set<nat>, locked: map<nat, nat>)
    | HungUpdating(locked: map<nat, nat>, todoTypes: set<nat>)
    | HungRefunding(locked: map<nat, nat>, todo: set<nat>)
      // reconcile_redis_orphans
    | GcStart
    | GcSnapshot(entries: map<nat, Reservation>)
    | GcSuspicious(entries: map<nat, Reservation>)
    | GcRefunding(entries: map<nat, Reservation>)
      // TicketTypeService.create, update, delete
    | NewTypeStart(row: TypeRow)
    | NewTypeCommitted(t: nat)
    | NewTypeSet(t: nat, avail: int)
    | UpdateStart(t: nat, update: TypeUpdate)
    | UpdateReady(t: nat, update: TypeUpdate)
    | UpdateCommitted(t: nat)
    | UpdateRefreshing
    | UpdateSet(t: nat, avail: int)
    | DropStart(t: nat)
    | DropReady(t: nat)
    | DropCommitted(t: nat)

  datatype Action =
    | Tick | Spawn(p: Proc) | Die | Abort
    | Eval | ReadRow | Warm | UpdateSold | Flush | Stamp | Hset | Commit | Refresh | RefreshFails | Compensate
    | RemoveRow | SafeIncr | Hdel | LockTicket(id: nat) | UpdateType(t: nat) | Refund(id: nat)
    | ReadClock | Scan | Snapshot | Filter | Query | Finish | SetKey | DeleteKey

  datatype Label = Label(i: nat, act: Action)

  datatype State = State(now: nat, db: Db, api: Redis, wrk: Redis, procs: seq<Proc>)
  {
    function Put(i: nat, p: Proc): State
      requires i < |procs|
    {
      this.(procs := procs[i := p])
    }
  }

  function WorkerRedis(c: Config, s: State): Redis {
    if c.shared then s.api else s.wrk
  }

  function SetWorkerRedis(c: Config, s: State, r: Redis): State {
    if c.shared then s.(api := r) else s.(wrk := r)
  }

  // ---------- row locks, read off the program counters ----------

  predicate HoldsType(p: Proc, t: nat) {
    match p
    case CreateUpdated(u, _, _, _) => u == t
    case CreateInserted(u, _, _, _, _) => u == t
    case CreateStamped(u, _, _, _, _, _) => u == t
    case CreateHashed(u, _, _, _, _, _) => u == t
    case DeleteUpdated(_, u) => u == t
    case DeleteRemoved(_, u) => u == t
    case ReleaseUpdated(_, u) => u == t
    case ReleaseRefunded(_, u) => u == t
    case HungUpdating(locked, todoTypes) => t in locked.Values && t !in todoTypes
    case HungRefunding(locked, _) => t in locked.Values
    case _ => false
  }

  predicate HoldsTicket(p: Proc, id: nat) {
    match p
    case DeleteRemoved(x, _) => x == id
    case PayLocked(x) => x == id
    case ReleaseLocked(x, _) => x == id
    case ReleaseUpdated(x, _) => x == id
    case ReleaseRefunded(x, _) => x == id
    case HungScanning(_, _, locked) => id in locked
    case HungUpdating(locked, _) => id in locked
    case HungRefunding(locked, _) => id in locked
    case _ => false
  }

  predicate TypeFree(s: State, i: nat, t: nat) {
    forall j :: 0 <= j < |s.procs| && j != i ==> !HoldsType(s.procs[j], t)
  }

  predicate TicketFree(s: State, i: nat, id: nat) {
    forall j :: 0 <= j < |s.procs| && j != i ==> !HoldsTicket(s.procs[j], id)
  }

  // ---------- TicketService.create ----------

  function CreateStep(s: State, i: nat, a: Action): Option<State>
    requires i < |s.procs|
  {
    match s.procs[i]
    case CreateStart(t, owner) =>
      if !a.Eval? then None else
      var res := s.api.ReserveResult(t);
      Some(s.(api := s.api.Reserve(t)).Put(i,
             if res == -1 then CreateMiss(t, owner)
             else if res == 0 then Done(SoldOut)
             else CreateHolding(t, owner, true, None)))
    case CreateMiss(t, owner) =>
      if !a.ReadRow? then None else
      Some(s.Put(i, if t in s.db.types
                    then CreateWarm(t, owner, s.db.types[t].quantity - s.db.types[t].sold, s.now)
                    else Done(NotFound)))
    case CreateWarm(t, owner, avail, began) =>
      if !a.Warm? then None else
      Some(s.(api := s.api.SetCounter(t, avail)).Put(i, CreateRetry(t, owner, began)))
    case CreateRetry(t, owner, began) =>
      // a second -1 falls through: the request goes on without a slot
      if !a.Eval? then None else
      var res := s.api.ReserveResult(t);
      Some(s.(api := s.api.Reserve(t)).Put(i,
             if res == 0 then Done(SoldOut) else CreateHolding(t, owner, res == 1, Some(began))))
    case CreateHolding(t, owner, slot, txStart) =>
      if a.Abort? then Some(s.Put(i, CreateFailed(t, slot, Failed)))
      else if !a.UpdateSold? || !TypeFree(s, i, t) then None
      else if t !in s.db.types then
        // no row to update, then the INSERT breaks the foreign key after drawing an id
        Some(s.(db := s.db.(nextTicket := s.db.nextTicket + 1)).Put(i, CreateFailed(t, slot, Failed)))
      else if s.db.types[t].sold + 1 > s.db.types[t].quantity then
        Some(s.Put(i, CreateFailed(t, slot, SoldOut)))
      else
        Some(s.Put(i, CreateUpdated(t, owner, slot, if txStart.Some? then txStart.value else s.now)))
    case CreateUpdated(t, owner, slot, start) =>
      if a.Abort? then Some(s.Put(i, CreateFailed(t, slot, Failed)))
      else if !a.Flush? then None
      else Some(s.(db := s.db.(nextTicket := s.db.nextTicket + 1))
                 .Put(i, CreateInserted(t, owner, slot, start, s.db.nextTicket)))
    case CreateInserted(t, owner, slot, start, id) =>
      if !a.Stamp? then None else
      Some(s.Put(i, CreateStamped(t, owner, slot, start, id, s.now)))
    case CreateStamped(t, owner, slot, start, id, ts) =>
      if !a.Hset? then None else
      Some(s.(api := s.api.Hset(id, Reservation(t, ts))).Put(i, CreateHashed(t, owner, slot, start, id, ts)))
    case CreateHashed(t, owner, slot, start, id, ts) =>
      if a.Abort? then Some(s.Put(i, CreateFailed(t, slot, Failed)))
      else if !a.Commit? then None
      else Some(s.(db := s.db.(types := AddSold(s.db.types, t, 1),
                               tickets := s.db.tickets[id := Ticket(t, owner, RESERVED, start)]))
                 .Put(i, CreateCommitted(t, id)))
    case CreateCommitted(t, id) =>
      // the refresh after the commit can fail too, and is compensated like any other failure
      if a.Refresh? then Some(s.Put(i, Done(Success(id))))
      else if a.RefreshFails? then Some(s.Put(i, CreateFailed(t, false, Failed)))
      else None
    case CreateFailed(t, slot, out) =>
      if !a.Compensate? then None else
      Some(s.(api := s.api.Incr(t)).Put(i, Done(out)))
    case _ => None
  }

  // ---------- TicketService.delete ----------

  function DeleteStep(s: State, i: nat, a: Action): Option<State>
    requires i < |s.procs|
  {
    match s.procs[i]
    case DeleteStart(id, owner) =>
      if !a.ReadRow? then None else
      Some(s.Put(i, if id in s.db.tickets && s.db.tickets[id].owner == owner
                    then DeleteFound(id, s.db.tickets[id].typeId) else Done(NotFound)))
    case DeleteFound(id, t) =>
      if a.Abort? then Some(s.Put(i, Done(Failed)))
      else if !a.UpdateSold? || !TypeFree(s, i, t) then None
      else if !CanSubtract(s.db, t, 1) then Some(s.Put(i, Done(Failed)))
      else Some(s.Put(i, DeleteUpdated(id, t)))
    case DeleteUpdated(id, t) =>
      if a.Abort? then Some(s.Put(i, Done(Failed)))
      else if !a.RemoveRow? || !TicketFree(s, i, id) then None
      else Some(s.Put(i, DeleteRemoved(id, t)))
    case DeleteRemoved(id, t) =>
      if a.Abort? then Some(s.Put(i, Done(Failed)))
      else if !a.Commit? then None
      else Some(s.(db := s.db.(types := AddSold(s.db.types, t, -1), tickets := s.db.tickets - {id}))
                 .Put(i, DeleteCommitted(id, t)))
    case DeleteCommitted(id, t) =>
      if !a.SafeIncr? then None else
      Some(s.(api := s.api.SafeIncr(t)).Put(i, DeleteCredited(id)))
    case DeleteCredited(id) =>
      if !a.Hdel? then None else
      Some(s.(api := s.api.Hdel(id)).Put(i, Done(Finished)))
    case _ => None
  }

  // ---------- PaymentService.pay_for_ticket ----------

  function PayStep(s: State, i: nat, a: Action): Option<State>
    requires i < |s.procs|
  {
    match s.procs[i]
    case PayStart(id, owner) =>
      if !(a.LockTicket? && a.id == id && TicketFree(s, i, id)) then None
      else if !(id in s.db.tickets && s.db.tickets[id].owner == owner) then Some(s.Put(i, Done(NotFound)))
      else if s.db.tickets[id].status != RESERVED then Some(s.Put(i, Done(Rejected)))
      else Some(s.Put(i, PayLocked(id)))
    case PayLocked(id) =>
      if a.Abort? then Some(s.Put(i, Done(Failed)))
      else if !a.Commit? || id !in s.db.tickets then None
      else Some(s.(db := s.db.(tickets := s.db.tickets[id := s.db.tickets[id].(status := SOLD)]))
                 .Put(i, PayCommitted(id)))
    case PayCommitted(id) =>
      // a refresh that fails after the commit leaves the hash entry
      if a.RefreshFails? then Some(s.Put(i, Done(Failed)))
      else if !a.Hdel? then None else
      Some(s.(api := s.api.Hdel(id)).Put(i, Done(Success(id))))
    case _ => None
  }

  // ---------- release_unpaid_ticket ----------

  function ReleaseStep(c: Config, s: State, i: nat, a: Action): Option<State>
    requires i < |s.procs|
  {
    match s.procs[i]
    case ReleaseStart(id) =>
      if !(a.LockTicket? && a.id == id && TicketFree(s, i, id)) then None
      else if !IsReserved(s.db, id) then Some(s.Put(i, Done(Finished)))
      else Some(s.Put(i, ReleaseLocked(id, s.db.tickets[id].typeId)))
    case ReleaseLocked(id, t) =>
      if a.Abort? then Some(s.Put(i, Done(Failed)))
      else if !a.UpdateSold? || !TypeFree(s, i, t) then None
      else if !CanSubtract(s.db, t, 1) then Some(s.Put(i, Done(Failed)))
      else Some(s.Put(i, ReleaseUpdated(id, t)))
    case ReleaseUpdated(id, t) =>
      if a.Abort? then Some(s.Put(i, Done(Failed)))
      else if !(a.Refund? && a.id == id) then None
      else Some(SetWorkerRedis(c, s, WorkerRedis(c, s).Refund(t, id)).Put(i, ReleaseRefunded(id, t)))
    case ReleaseRefunded(id, t) =>
      if a.Abort? then Some(s.Put(i, Done(Failed)))
      else if !a.Commit? || id !in s.db.tickets then None
      else Some(s.(db := s.db.(types := AddSold(s.db.types, t, -1),
                               tickets := s.db.tickets[id := s.db.tickets[id].(status := CANCELED)]))
                 .Put(i, Done(Finished)))
    case _ => None
  }

  // ---------- reconcile_hung_tickets ----------

  predicate Hung(db: Db, threshold: int, id: nat) {
    IsReserved(db, id) && db.tickets[id].createdAt <= threshold
  }

  /** Ids of one type in a batch of cancelled tickets. */
  function OfType(locked: map<nat, nat>, t: nat): set<nat> {
    set id | id in locked && locked[id] == t
  }

  function SubtractBatch(types: map<nat, TypeRow>, locked: map<nat, nat>): map<nat, TypeRow> {
    map t | t in types :: types[t].(sold := types[t].sold - |OfType(locked, t)|)
  }

  function CancelBatch(tickets: map<nat, Ticket>, locked: map<nat, nat>): map<nat, Ticket> {
    map id | id in tickets :: if id in locked then tickets[id].(status := CANCELED) else tickets[id]
  }

  function HungStep(c: Config, s: State, i: nat, a: Action): Option<State>
    requires i < |s.procs|
  {
    match s.procs[i]
    case HungStart =>
      if !a.ReadClock? then None else Some(s.Put(i, HungTimed(s.now - c.reservationSeconds)))
    case HungTimed(threshold) =>
      // the UPDATE takes its snapshot of matching rows, then locks them one by one
      if !a.Scan? then None else
      Some(s.Put(i, HungScanning(threshold, set id | id in s.db.tickets && Hung(s.db, threshold, id), map[])))
    case HungScanning(threshold, rest, locked) =>
      if a.Abort? then Some(s.Put(i, Done(Failed)))
      else if a.LockTicket? then
        // a row changed by a transaction it waited for is matched again
        if !(a.id in rest && TicketFree(s, i, a.id)) then None
        else if Hung(s.db, threshold, a.id) then
          Some(s.Put(i, HungScanning(threshold, rest - {a.id}, locked[a.id := s.db.tickets[a.id].typeId])))
        else Some(s.Put(i, HungScanning(threshold, rest - {a.id}, locked)))
      else if a.Finish? && rest == {} then
        Some(s.Put(i, if locked == map[] then Done(Finished) else HungUpdating(locked, locked.Values)))
      else None
    case HungUpdating(locked, todoTypes) =>
      if a.Abort? then Some(s.Put(i, Done(Failed)))
      else if a.UpdateType? then
        if !(a.t in todoTypes && TypeFree(s, i, a.t)) then None
        else if !CanSubtract(s.db, a.t, |OfType(locked, a.t)|) then Some(s.Put(i, Done(Failed)))
        else Some(s.Put(i, HungUpdating(locked, todoTypes - {a.t})))
      else if a.Finish? && todoTypes == {} then Some(s.Put(i, HungRefunding(locked, locked.Keys)))
      else None
    case HungRefunding(locked, todo) =>
      if a.Abort? then Some(s.Put(i, Done(Failed)))
      else if a.Refund? then
        if !(a.id in todo && a.id in locked) then None
        else Some(SetWorkerRedis(c, s, WorkerRedis(c, s).Refund(locked[a.id], a.id))
                  .Put(i, HungRefunding(locked, todo - {a.id})))
      else if a.Commit? && todo == {} then
        Some(s.(db := s.db.(types := SubtractBatch(s.db.types, locked), tickets := CancelBatch(s.db.tickets, locked)))
              .Put(i, Done(Finished)))
      else None
    case _ => None
  }

  // ---------- reconcile_redis_orphans ----------

  predicate Overdue(now: nat, r: Reservation) {
    now - r.timestamp > GRACE_PERIOD_SECONDS
  }

  predicate Orphan(db: Db, id: nat) {
    id !in db.tickets || db.tickets[id].status == CANCELED
  }

  function GcStep(c: Config, s: State, i: nat, a: Action): Option<State>
    requires i < |s.procs|
  {
    match s.procs[i]
    case GcStart =>
      if a.Abort? then Some(s.Put(i, Done(Failed)))
      else if !a.Snapshot? then None else Some(s.Put(i, GcSnapshot(WorkerRedis(c, s).reservations)))
    case GcSnapshot(entries) =>
      if a.Abort? then Some(s.Put(i, Done(Failed)))
      else if !a.Filter? then None else
      Some(s.Put(i, GcSuspicious(map id | id in entries && Overdue(s.now, entries[id]) :: entries[id])))
    case GcSuspicious(entries) =>
      if a.Abort? then Some(s.Put(i, Done(Failed)))
      else if !a.Query? then None else
      Some(s.Put(i, GcRefunding(map id | id in entries && Orphan(s.db, id) :: entries[id])))
    case GcRefunding(entries) =>
      if a.Abort? then Some(s.Put(i, Done(Failed)))
      else if a.Refund? then
        if a.id !in entries then None
        else Some(SetWorkerRedis(c, s, WorkerRedis(c, s).Refund(entries[a.id].typeId, a.id))
                  .Put(i, GcRefunding(entries - {a.id})))
      else if a.Finish? && entries == map[] then Some(s.Put(i, Done(Finished)))
      else None
    case _ => None
  }

  // ---------- TicketTypeService.create, update, delete ----------

  function AdminStep(s: State, i: nat, a: Action): Option<State>
    requires i < |s.procs|
  {
    match s.procs[i]
    case NewTypeStart(row) =>
      // the INSERT draws an id, then meets the CHECKs and the foreign key
      if !(a.Commit? || a.Abort?) then None
      else
        var drawn := s.db.(nextType := s.db.nextType + 1);
        if a.Abort? || !(row.sold == 0 && row.Ok() && row.eventId in s.db.events) then
          Some(s.(db := drawn).Put(i, Done(Failed)))
        else Some(s.(db := drawn.(types := s.db.types[s.db.nextType := row])).Put(i, NewTypeCommitted(s.db.nextType)))
    case NewTypeCommitted(t) =>
      if a.RefreshFails? then Some(s.Put(i, Done(Failed)))
      else if !a.Refresh? then None else
      Some(s.Put(i, if t in s.db.types then NewTypeSet(t, s.db.types[t].quantity) else Done(Failed)))
    case NewTypeSet(t, avail) =>
      if !a.SetKey? then None else Some(s.(api := s.api.SetCounter(t, avail)).Put(i, Done(Finished)))
    case UpdateStart(t, u) =>
      if !a.ReadRow? then None
      else if t !in s.db.types then Some(s.Put(i, Done(NotFound)))
      else if u.Empty() then Some(s.Put(i, Done(Finished)))
      else if u.quantity.Some? && u.quantity.value < s.db.types[t].sold then Some(s.Put(i, Done(Rejected)))
      else Some(s.Put(i, UpdateReady(t, u)))
    case UpdateReady(t, u) =>
      if a.Abort? then Some(s.Put(i, Done(Failed)))
      else if !a.Commit? || !TypeFree(s, i, t) then None
      else if t !in s.db.types then Some(s.Put(i, Done(Failed)))
      else
        var row := Merge(s.db.types[t], u);
        if !row.Ok() then Some(s.Put(i, Done(Failed)))
        else Some(s.(db := s.db.(types := s.db.types[t := row]))
                   .Put(i, if u.quantity.Some? then UpdateCommitted(t) else UpdateRefreshing))
    case UpdateRefreshing =>
      // no quantity was named: the refresh ends the part that concerns the counter
      if a.RefreshFails? then Some(s.Put(i, Done(Failed)))
      else if !a.Refresh? then None else Some(s.Put(i, Done(Finished)))
    case UpdateCommitted(t) =>
      if a.RefreshFails? then Some(s.Put(i, Done(Failed)))
      else if !a.Refresh? then None else
      Some(s.Put(i, if t in s.db.types then UpdateSet(t, s.db.types[t].quantity - s.db.types[t].sold) else Done(Failed)))
    case UpdateSet(t, avail) =>
      if !a.SetKey? then None else Some(s.(api := s.api.SetCounter(t, avail)).Put(i, Done(Finished)))
    case DropStart(t) =>
      if !a.ReadRow? then None else Some(s.Put(i, if t in s.db.types then DropReady(t) else Done(NotFound)))
    case DropReady(t) =>
      if a.Abort? then Some(s.Put(i, Done(Failed)))
      else if !a.Commit? || !TypeFree(s, i, t) then None
      else if exists id :: id in s.db.tickets && s.db.tickets[id].typeId == t then Some(s.Put(i, Done(Rejected)))
      else Some(s.(db := s.db.(types := s.db.types - {t})).Put(i, DropCommitted(t)))
    case DropCommitted(t) =>
      if !a.DeleteKey? then None else Some(s.(api := s.api.DeleteCounter(t)).Put(i, Done(Finished)))
    case _ => None
  }

  // ---------- the relation and its runs ----------

  predicate Start(p: Proc) {
    p.CreateStart? || p.DeleteStart? || p.PayStart? || p.ReleaseStart? || p.HungStart? || p.GcStart?
    || p.NewTypeStart? || p.UpdateStart? || p.DropStart?
  }

  /** A request starts, or a process dies: its open transaction is rolled back and its locks go. */
  function LifeStep(s: State, i: nat, a: Action): Option<State>
    requires i < |s.procs|
  {
    if a.Spawn? then
      if s.procs[i].Done? && Start(a.p) then Some(s.Put(i, a.p)) else None
    else if a.Die? then
      if s.procs[i].Done? then None else Some(s.Put(i, Done(Crashed)))
    else None
  }

  function Step(c: Config, s: State, l: Label): Option<State> {
    if l.act.Tick? then Some(s.(now := s.now + 1))
    else if l.i >= |s.procs| then None
    else if l.act.Spawn? || l.act.Die? then LifeStep(s, l.i, l.act)
    else
      var p := s.procs[l.i];
      if p.CreateStart? || p.CreateMiss? || p.CreateWarm? || p.CreateRetry? || p.CreateHolding? || p.CreateUpdated?
         || p.CreateInserted? || p.CreateStamped? || p.CreateHashed? || p.CreateCommitted? || p.CreateFailed?
      then CreateStep(s, l.i, l.act)
      else if p.DeleteStart? || p.DeleteFound? || p.DeleteUpdated? || p.DeleteRemoved? || p.DeleteCommitted?
              || p.DeleteCredited? then DeleteStep(s, l.i, l.act)
      else if p.PayStart? || p.PayLocked? || p.PayCommitted? then PayStep(s, l.i, l.act)
      else if p.ReleaseStart? || p.ReleaseLocked? || p.ReleaseUpdated? || p.ReleaseRefunded?
      then ReleaseStep(c, s, l.i, l.act)
      else if p.HungStart? || p.HungTimed? || p.HungScanning? || p.HungUpdating? || p.HungRefunding? then HungStep(c, s, l.i, l.act)
      else if p.GcStart? || p.GcSnapshot? || p.GcSuspicious? || p.GcRefunding? then GcStep(c, s, l.i, l.act)
      else AdminStep(s, l.i, l.act)
  }

  /** A finite run: states[k] goes to states[k + 1] by labels[k]. */
  ghost predicate Run(c: Config, states: seq<State>, labels: seq<Label>) {
    |states| == |labels| + 1 &&
    forall k {:trigger labels[k]} :: 0 <= k < |labels| ==> Step(c, states[k], labels[k]) == Some(states[k + 1])
  }
}
