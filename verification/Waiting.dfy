/** Who waits for whom: a process that has not ended can take its next step unless it waits for a row
    lock that another one holds, and which processes can be in a cycle of such waits. */
module Waiting {
  import opened Stores
  import opened Protocol
  import opened Invariants
  import F = Families

  /** The next statement of the process locks this row of ticket_types. */
  predicate NeedsType(p: Proc, t: nat) {
    match p
    case CreateHolding(u, _, _, _) => u == t
    case DeleteFound(_, u) => u == t
    case ReleaseLocked(_, u) => u == t
    case HungUpdating(_, todoTypes) => t in todoTypes
    case UpdateReady(u, _) => u == t
    case DropReady(u) => u == t
    case _ => false
  }

  /** The next statement of the process locks this row of tickets. */
  predicate NeedsTicket(p: Proc, id: nat) {
    match p
    case DeleteUpdated(x, _) => x == id
    case PayStart(x, _) => x == id
    case ReleaseStart(x) => x == id
    case HungScanning(_, rest, _) => id in rest
    case _ => false
  }

  /** Process i waits for a lock of process j. */
  ghost predicate Waits(s: State, i: nat, j: nat)
    requires i < |s.procs| && j < |s.procs|
  {
    i != j &&
    ((exists t :: NeedsType(s.procs[i], t) && HoldsType(s.procs[j], t)) ||
     (exists id :: NeedsTicket(s.procs[i], id) && HoldsTicket(s.procs[j], id)))
  }

  /** A step of the process itself that is no failure. */
  predicate Regular(a: Action) {
    !a.Tick? && !a.Spawn? && !a.Die? && !a.Abort? && !a.RefreshFails?
  }

  ghost predicate CanMove(c: Config, s: State, i: nat) {
    exists a :: Regular(a) && Step(c, s, Label(i, a)).Some?
  }

  /** The action a process takes next when no lock is in its way. */
  ghost function Next(p: Proc): (a: Action)
    ensures Regular(a)
  {
    match p
    case CreateStart(_, _) => Eval
    case CreateMiss(_, _) => ReadRow
    case CreateWarm(_, _, _, _) => Warm
    case CreateRetry(_, _, _) => Eval
    case CreateHolding(_, _, _, _) => UpdateSold
    case CreateUpdated(_, _, _, _) => Flush
    case CreateInserted(_, _, _, _, _) => Stamp
    case CreateStamped(_, _, _, _, _, _) => Action.Hset
    case CreateHashed(_, _, _, _, _, _) => Commit
    case CreateCommitted(_, _) => Refresh
    case CreateFailed(_, _, _) => Compensate
    case DeleteStart(_, _) => ReadRow
    case DeleteFound(_, _) => UpdateSold
    case DeleteUpdated(_, _) => RemoveRow
    case DeleteRemoved(_, _) => Commit
    case DeleteCommitted(_, _) => Action.SafeIncr
    case DeleteCredited(_) => Action.Hdel
    case PayStart(id, _) => LockTicket(id)
    case PayLocked(_) => Commit
    case PayCommitted(_) => Action.Hdel
    case ReleaseStart(id) => LockTicket(id)
    case ReleaseLocked(_, _) => UpdateSold
    case ReleaseUpdated(id, _) => Action.Refund(id)
    case ReleaseRefunded(_, _) => Commit
    case HungStart => ReadClock
    case HungTimed(_) => Scan
    case HungScanning(_, rest, _) => if rest == {} then Finish else var id :| id in rest; LockTicket(id)
    case HungUpdating(_, todo) => if todo == {} then Finish else var t :| t in todo; Action.UpdateType(t)
    case HungRefunding(_, todo) => if todo == {} then Commit else var id :| id in todo; Action.Refund(id)
    case GcStart => Snapshot
    case GcSnapshot(_) => Filter
    case GcSuspicious(_) => Query
    case GcRefunding(entries) => if entries == map[] then Finish else var id :| id in entries; Action.Refund(id)
    case NewTypeStart(_) => Commit
    case NewTypeCommitted(_) => Refresh
    case NewTypeSet(_, _) => SetKey
    case UpdateStart(_, _) => ReadRow
    case UpdateReady(_, _) => Commit
    case UpdateCommitted(_) => Refresh
    case UpdateRefreshing => Refresh
    case UpdateSet(_, _) => SetKey
    case DropStart(_) => ReadRow
    case DropReady(_) => Commit
    case DropCommitted(_) => DeleteKey
    case Done(_) => Finish
  }

  lemma LocksFree(s: State, i: nat)
    requires i < |s.procs|
    requires forall j :: 0 <= j < |s.procs| ==> !Waits(s, i, j)
    ensures forall t :: NeedsType(s.procs[i], t) ==> TypeFree(s, i, t)
    ensures forall id :: NeedsTicket(s.procs[i], id) ==> TicketFree(s, i, id)
  {
    forall t, j | NeedsType(s.procs[i], t) && 0 <= j < |s.procs| && j != i ensures !HoldsType(s.procs[j], t) {
      assert !Waits(s, i, j);
    }
    forall id, j | NeedsTicket(s.procs[i], id) && 0 <= j < |s.procs| && j != i ensures !HoldsTicket(s.procs[j], id) {
      assert !Waits(s, i, j);
    }
  }

  /** A process that has not ended takes its next step unless another one has the lock it needs. */
  lemma MovesOrWaits(c: Config, s: State, i: nat)
    requires Inv(c, s) && i < |s.procs| && !s.procs[i].Done?
    ensures CanMove(c, s, i) || exists j :: 0 <= j < |s.procs| && Waits(s, i, j)
  {
    if forall j :: 0 <= j < |s.procs| ==> !Waits(s, i, j) {
      LocksFree(s, i);
      assert ProcOk(c, s, s.procs[i]);
      hide Waits;
      var a := Next(s.procs[i]);
      assert Step(c, s, Label(i, a)).Some?;
    }
  }

  // ---------- deadlocks ----------

  /** Work is left, and without a failure none of it can go on. */
  ghost predicate Stuck(c: Config, s: State) {
    (exists i :: 0 <= i < |s.procs| && !s.procs[i].Done?) &&
    forall i :: 0 <= i < |s.procs| && !s.procs[i].Done? ==> !CanMove(c, s, i)
  }

  predicate Batch(p: Proc) {
    p.HungScanning? || p.HungUpdating?
  }

  /** In a stuck state every process that has not ended waits for one that waits in its turn: a process
      with a lock that still needs another. */
  lemma StuckWaits(c: Config, s: State, i: nat) returns (j: nat)
    requires Inv(c, s) && Stuck(c, s) && i < |s.procs| && !s.procs[i].Done?
    ensures j < |s.procs| && Waits(s, i, j)
    ensures s.procs[j].DeleteUpdated? || s.procs[j].ReleaseLocked? || Batch(s.procs[j])
    ensures (s.procs[i].ReleaseLocked? || s.procs[i].HungUpdating?) ==> s.procs[j].DeleteUpdated? || s.procs[j].HungUpdating?
    ensures s.procs[i].HungScanning? ==> s.procs[j].ReleaseLocked? || Batch(s.procs[j])
  {
    hide Step, Inv, CanMove;
    MovesOrWaits(c, s, i);
    j :| 0 <= j < |s.procs| && Waits(s, i, j);
    assert !s.procs[j].Done?;
    MovesOrWaits(c, s, j);
    var k :| 0 <= k < |s.procs| && Waits(s, j, k);
    hide Stuck;
    HolderWaits(s, i, j, k);
  }

  lemma HolderWaits(s: State, i: nat, j: nat, k: nat)
    requires i < |s.procs| && j < |s.procs| && k < |s.procs| && Waits(s, i, j) && Waits(s, j, k)
    ensures s.procs[j].DeleteUpdated? || s.procs[j].ReleaseLocked? || Batch(s.procs[j])
    ensures (s.procs[i].ReleaseLocked? || s.procs[i].HungUpdating?) ==> s.procs[j].DeleteUpdated? || s.procs[j].HungUpdating?
    ensures s.procs[i].HungScanning? ==> s.procs[j].ReleaseLocked? || Batch(s.procs[j])
  {
    var p, q := s.procs[i], s.procs[j];
    assert (exists t :: NeedsType(q, t)) || (exists id :: NeedsTicket(q, id));
    assert (exists t :: HoldsType(q, t)) || (exists id :: HoldsTicket(q, id));
  }

  /** The requests and jobs lock rows of the two tables in different orders: a delete its type before its
      ticket, the workers their tickets before the types. A state is stuck only if a delete has its type
      and waits for its ticket, or two batch jobs overlap: create, pay, release, the collector, the
      ticket-type operations and one batch job never block one another for good. */
  lemma StuckNeedsDelete(c: Config, s: State)
    requires Inv(c, s) && Stuck(c, s)
    ensures (exists i :: 0 <= i < |s.procs| && s.procs[i].DeleteUpdated?)
         || (exists i, j :: 0 <= i < j < |s.procs| && Batch(s.procs[i]) && Batch(s.procs[j]))
  {
    var i :| 0 <= i < |s.procs| && !s.procs[i].Done?;
    var j := StuckWaits(c, s, i);
    var k := StuckWaits(c, s, j);
    var l := StuckWaits(c, s, k);
    hide Stuck, Inv;
    assert Batch(s.procs[j]) || Batch(s.procs[k]) || s.procs[j].DeleteUpdated? || s.procs[k].DeleteUpdated?;
  }

  /** Each of the two has the lock that the other needs. */
  ghost predicate Deadlocked(s: State, i: nat, j: nat, id: nat, t: nat) {
    i < |s.procs| && j < |s.procs| && i != j && s.procs[i] == DeleteUpdated(id, t) && s.procs[j] == ReleaseLocked(id, t)
  }

  /** Such a delete does exist: with the release job of the same ticket it comes to a deadlock in three steps. */
  lemma DeleteMeetsRelease(c: Config, s: State, i: nat, j: nat, id: nat, owner: nat) returns (states: seq<State>, labels: seq<Label>)
    requires i < |s.procs| && j < |s.procs| && i != j && s.procs[i] == DeleteStart(id, owner) && s.procs[j] == ReleaseStart(id)
    requires IsReserved(s.db, id) && s.db.tickets[id].owner == owner && CanSubtract(s.db, s.db.tickets[id].typeId, 1)
    requires TypeFree(s, i, s.db.tickets[id].typeId) && TicketFree(s, j, id)
    ensures Run(c, states, labels) && states[0] == s && Deadlocked(states[|labels|], i, j, id, s.db.tickets[id].typeId)
  {
    var t := s.db.tickets[id].typeId;
    var s1 := s.Put(i, DeleteFound(id, t));
    var s2 := s1.Put(i, DeleteUpdated(id, t));
    var s3 := s2.Put(j, ReleaseLocked(id, t));
    states, labels := [s, s1, s2, s3], [Label(i, ReadRow), Label(i, UpdateSold), Label(j, LockTicket(id))];
    assert Step(c, s, labels[0]) == Some(s1);
    assert Step(c, s1, labels[1]) == Some(s2);
    assert Step(c, s2, labels[2]) == Some(s3);
  }

  /** It lasts, whatever everybody else does, until one of the two is aborted or dies. */
  lemma DeadlockStays(c: Config, s: State, l: Label, s': State, i: nat, j: nat, id: nat, t: nat)
    requires Deadlocked(s, i, j, id, t) && Step(c, s, l) == Some(s')
    ensures Deadlocked(s', i, j, id, t) <==> !((l.i == i || l.i == j) && (l.act.Abort? || l.act.Die?))
  {
    if l.act.Tick? {
    } else if l.i == i {
      DeleteWaits(c, s, l, s', i, j, id, t);
    } else if l.i == j {
      ReleaseWaits(c, s, l, s', i, j, id, t);
    } else {
      F.OthersLeave(c, s, l, s', i);
      F.OthersLeave(c, s, l, s', j);
      hide Step;
    }
  }

  lemma DeleteWaits(c: Config, s: State, l: Label, s': State, i: nat, j: nat, id: nat, t: nat)
    requires Deadlocked(s, i, j, id, t) && Step(c, s, l) == Some(s') && l.i == i && !l.act.Tick?
    ensures (l.act.Abort? || l.act.Die?) && !Deadlocked(s', i, j, id, t)
  {
    assert HoldsTicket(s.procs[j], id);
    hide CreateStep, PayStep, ReleaseStep, HungStep, GcStep, AdminStep;
  }

  lemma ReleaseWaits(c: Config, s: State, l: Label, s': State, i: nat, j: nat, id: nat, t: nat)
    requires Deadlocked(s, i, j, id, t) && Step(c, s, l) == Some(s') && l.i == j && !l.act.Tick?
    ensures (l.act.Abort? || l.act.Die?) && !Deadlocked(s', i, j, id, t)
  {
    assert HoldsType(s.procs[i], t);
    hide CreateStep, DeleteStep, PayStep, HungStep, GcStep, AdminStep;
  }

  /** Two batches with tickets of the same two types, which each may update in any order. */
  lemma BatchesMeet(c: Config, s: State, i: nat, j: nat, t: nat, u: nat) returns (states: seq<State>, labels: seq<Label>)
    requires i < |s.procs| && j < |s.procs| && i != j && t != u && TypeFree(s, i, t) && TypeFree(s, j, u)
    requires s.procs[i].HungUpdating? && s.procs[i].todoTypes == {t, u} && {t, u} <= s.procs[i].locked.Values
    requires s.procs[j].HungUpdating? && s.procs[j].todoTypes == {t, u} && {t, u} <= s.procs[j].locked.Values
    requires CanSubtract(s.db, t, |OfType(s.procs[i].locked, t)|) && CanSubtract(s.db, u, |OfType(s.procs[j].locked, u)|)
    ensures Run(c, states, labels) && states[0] == s && |states[|labels|].procs| == |s.procs|
    ensures !CanMove(c, states[|labels|], i) && !CanMove(c, states[|labels|], j)
  {
    var s1 := s.Put(i, HungUpdating(s.procs[i].locked, {u}));
    var s2 := s1.Put(j, HungUpdating(s.procs[j].locked, {t}));
    states, labels := [s, s1, s2], [Label(i, Action.UpdateType(t)), Label(j, Action.UpdateType(u))];
    assert {t, u} - {t} == {u} && {t, u} - {u} == {t};
    assert Step(c, s, labels[0]) == Some(s1);
    assert Step(c, s1, labels[1]) == Some(s2);
    assert HoldsType(s2.procs[j], u) && HoldsType(s2.procs[i], t);
  }
}
