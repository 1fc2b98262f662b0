/** reconcile_hung_tickets in whole runs: whatever requests and other jobs do meanwhile, it cancels only
    reservations whose time is over, and when it finishes none of those it was to cancel is left. */
module HungRuns {
  import opened Stores
  import opened Protocol
  import opened Invariants
  import opened TicketLife
  import opened Families

  // ---------- only what is overdue ----------

  predicate CreatedBy(db: Db, deadline: int, locked: map<nat, nat>) {
    forall id :: id in locked ==> id in db.tickets && db.tickets[id].createdAt <= deadline
  }

  /** The deadline of a job is at least the reservation time ago, and its tickets were created by then. */
  predicate LateOnly(c: Config, s: State, p: Proc) {
    match p
    case HungTimed(deadline) => deadline <= s.now - c.reservationSeconds
    case HungScanning(deadline, _, locked) => deadline <= s.now - c.reservationSeconds && CreatedBy(s.db, deadline, locked)
    case HungUpdating(locked, _) => CreatedBy(s.db, s.now - c.reservationSeconds, locked)
    case HungRefunding(locked, _) => CreatedBy(s.db, s.now - c.reservationSeconds, locked)
    case _ => true
  }

  ghost predicate AllLateOnly(c: Config, s: State) {
    forall j :: 0 <= j < |s.procs| ==> LateOnly(c, s, s.procs[j])
  }

  lemma OwnLateOnly(c: Config, s: State, i: nat, a: Action, s': State)
    requires i < |s.procs| && HungStep(c, s, i, a) == Some(s') && LateOnly(c, s, s.procs[i])
    ensures LateOnly(c, s', s'.procs[i])
  {
  }

  lemma StepClock(c: Config, s: State, l: Label, s': State)
    requires Step(c, s, l) == Some(s')
    ensures s.now <= s'.now
  {
  }

  /** Tickets locked by a process keep their rows. */
  lemma LockedRowsStay(c: Config, s: State, l: Label, s': State, j: nat, deadline: int, locked: map<nat, nat>)
    requires Inv(c, s) && Inv(c, s') && Step(c, s, l) == Some(s') && CreatedBy(s.db, deadline, locked)
    requires j < |s.procs| && j < |s'.procs| && s'.procs[j] == s.procs[j] && BatchOk(s'.db, locked)
    ensures CreatedBy(s'.db, deadline, locked)
  {
    forall id | id in locked ensures id in s'.db.tickets && s'.db.tickets[id].createdAt <= deadline {
      assert Reserved(s'.db, id, locked[id]);
      StepRows(c, s, l, s', id);
    }
  }

  lemma OtherLateOnly(c: Config, s: State, l: Label, s': State, j: nat)
    requires Inv(c, s) && Inv(c, s') && Step(c, s, l) == Some(s') && j < |s.procs| && LateOnly(c, s, s.procs[j])
    requires j < |s'.procs| && s'.procs[j] == s.procs[j]
    ensures LateOnly(c, s', s'.procs[j])
  {
    var p := s.procs[j];
    StepClock(c, s, l, s');
    assert ProcOk(c, s', p);
    match p
    case HungScanning(deadline, _, locked) => LockedRowsStay(c, s, l, s', j, deadline, locked);
    case HungUpdating(locked, _) => LockedRowsStay(c, s, l, s', j, s.now - c.reservationSeconds, locked);
    case HungRefunding(locked, _) => LockedRowsStay(c, s, l, s', j, s.now - c.reservationSeconds, locked);
    case _ =>
  }

  lemma NotHungIsLateOnly(c: Config, s: State, l: Label, s': State)
    requires Step(c, s, l) == Some(s') && l.i < |s.procs| && !l.act.Tick? && l.i < |s'.procs|
    requires HungStep(c, s, l.i, l.act) != Some(s')
    ensures LateOnly(c, s', s'.procs[l.i])
  {
    OwnStep(c, s, l, s');
    hide Step, CreateStep, DeleteStep, PayStep, ReleaseStep, HungStep, GcStep, AdminStep;
  }

  lemma StepLateOnly(c: Config, s: State, l: Label, s': State)
    requires Inv(c, s) && AllLateOnly(c, s) && Step(c, s, l) == Some(s')
    ensures AllLateOnly(c, s')
  {
    StepKeepsInv(c, s, l, s');
    StepIds(c, s, l, s');
    forall j | 0 <= j < |s'.procs| ensures LateOnly(c, s', s'.procs[j]) {
      assert LateOnly(c, s, s.procs[j]);
      if j == l.i && !l.act.Tick? {
        if HungStep(c, s, l.i, l.act) == Some(s') { OwnLateOnly(c, s, l.i, l.act, s'); }
        else { NotHungIsLateOnly(c, s, l, s'); }
      } else {
        OtherLateOnly(c, s, l, s', j);
      }
    }
  }

  lemma RunStepLateOnly(c: Config, states: seq<State>, labels: seq<Label>, k: nat)
    requires Run(c, states, labels) && Inv(c, states[0]) && k < |labels| && AllLateOnly(c, states[k])
    ensures AllLateOnly(c, states[k + 1])
  {
    RunKeepsInv(c, states, labels, k);
    RunStep(c, states, labels, k);
    StepLateOnly(c, states[k], labels[k], states[k + 1]);
  }

  lemma {:induction false} RunLateOnly(c: Config, states: seq<State>, labels: seq<Label>, k: nat)
    requires Run(c, states, labels) && Inv(c, states[0]) && AllLateOnly(c, states[0]) && k < |states|
    ensures AllLateOnly(c, states[k])
  {
    if k > 0 {
      RunLateOnly(c, states, labels, k - 1);
      RunStepLateOnly(c, states, labels, k - 1);
    }
  }

  /** Some ticket of the table is changed by the step. */
  predicate Changes(s: State, s': State, id: nat) {
    id in s.db.tickets && !(id in s'.db.tickets && s'.db.tickets[id] == s.db.tickets[id])
  }

  lemma BatchChanges(c: Config, s: State, i: nat, s': State, id: nat)
    requires Inv(c, s) && i < |s.procs| && s.procs[i].HungRefunding? && LateOnly(c, s, s.procs[i])
    requires HungStep(c, s, i, Commit) == Some(s') && Changes(s, s', id)
    ensures s.db.tickets[id].status == RESERVED && s.now - s.db.tickets[id].createdAt >= c.reservationSeconds
    ensures id in s'.db.tickets && s'.db.tickets[id] == s.db.tickets[id].(status := CANCELED)
  {
    assert ProcOk(c, s, s.procs[i]) && id in s.procs[i].locked;
    assert Reserved(s.db, id, s.procs[i].locked[id]);
  }

  /** Soundness: in every run the commit of a batch changes only tickets that are RESERVED and whose
      reservation time is over, and makes them CANCELED. */
  lemma OnlyOverdueIsCanceled(c: Config, states: seq<State>, labels: seq<Label>, k: nat, id: nat)
    requires Run(c, states, labels) && Inv(c, states[0]) && AllLateOnly(c, states[0]) && k < |labels| && labels[k].act == Commit
    requires labels[k].i < |states[k].procs| && states[k].procs[labels[k].i].HungRefunding? && Changes(states[k], states[k + 1], id)
    ensures var k0 := states[k].db.tickets[id];
      k0.status == RESERVED && states[k].now - k0.createdAt >= c.reservationSeconds &&
      id in states[k + 1].db.tickets && states[k + 1].db.tickets[id] == k0.(status := CANCELED)
  {
    RunKeepsInv(c, states, labels, k);
    RunLateOnly(c, states, labels, k);
    RunStep(c, states, labels, k);
    BatchChanges(c, states[k], labels[k].i, states[k + 1], id);
  }

  // ---------- everything that is overdue ----------

  /** The ticket is decided, or the job of process i still has it before it, or has not finished. */
  ghost predicate WillCancel(s: State, i: nat, id: nat, deadline: int) {
    Born(s, id) && i < |s.procs| &&
    (IsReserved(s.db, id) ==> s.db.tickets[id].createdAt <= deadline && Pending(s.procs[i], id, deadline))
  }

  predicate Pending(p: Proc, id: nat, deadline: int) {
    match p
    case HungTimed(x) => x == deadline
    case HungScanning(x, rest, locked) => x == deadline && (id in rest || id in locked)
    case HungUpdating(locked, _) => id in locked
    case HungRefunding(locked, _) => id in locked
    case Done(out) => out != Finished
    case _ => false
  }

  /** A decided ticket stays decided, and a reserved one keeps its time of creation. */
  lemma StepKeepsTime(c: Config, s: State, l: Label, s': State, id: nat)
    requires Inv(c, s) && Step(c, s, l) == Some(s') && Born(s, id) && IsReserved(s'.db, id)
    ensures IsReserved(s.db, id) && s'.db.tickets[id].createdAt == s.db.tickets[id].createdAt
  {
    StepRows(c, s, l, s', id);
    StepBorn(c, s, l, s', id);
  }

  lemma OwnPending(c: Config, s: State, i: nat, a: Action, s': State, id: nat, deadline: int)
    requires i < |s.procs| && HungStep(c, s, i, a) == Some(s') && IsReserved(s.db, id) && IsReserved(s'.db, id)
    requires s.db.tickets[id].createdAt <= deadline && Pending(s.procs[i], id, deadline)
    ensures Pending(s'.procs[i], id, deadline)
  {
  }

  lemma DeathIsPending(c: Config, s: State, l: Label, s': State, id: nat, deadline: int)
    requires Step(c, s, l) == Some(s') && l.i < |s.procs| && l.act.Die?
    ensures l.i < |s'.procs| && Pending(s'.procs[l.i], id, deadline)
  {
  }

  /** A pending job that moves does so by a step of its own. */
  lemma PendingMoves(c: Config, s: State, l: Label, s': State, id: nat, deadline: int)
    requires Step(c, s, l) == Some(s') && l.i < |s.procs| && !l.act.Tick? && !l.act.Die? && !l.act.Spawn?
    requires Pending(s.procs[l.i], id, deadline)
    ensures HungStep(c, s, l.i, l.act) == Some(s')
  {
    hide CreateStep, DeleteStep, PayStep, ReleaseStep, HungStep, GcStep;
  }

  lemma StepWillCancel(c: Config, s: State, l: Label, s': State, i: nat, id: nat, deadline: int)
    requires Inv(c, s) && Step(c, s, l) == Some(s') && WillCancel(s, i, id, deadline) && (l.i == i ==> !l.act.Spawn?)
    ensures WillCancel(s', i, id, deadline)
  {
    StepBorn(c, s, l, s', id);
    StepIds(c, s, l, s');
    if IsReserved(s'.db, id) {
      StepKeepsTime(c, s, l, s', id);
      if l.i == i && !l.act.Tick? {
        if l.act.Die? {
          DeathIsPending(c, s, l, s', id, deadline);
        } else {
          PendingMoves(c, s, l, s', id, deadline);
          OwnPending(c, s, i, l.act, s', id, deadline);
        }
      } else {
        OthersLeave(c, s, l, s', i);
      }
    }
  }

  /** Process i starts its job at state `first` and does not start anew before state k. */
  ghost predicate JobRuns(c: Config, states: seq<State>, labels: seq<Label>, i: nat, first: nat, k: nat) {
    Run(c, states, labels) && first < k < |states| && labels[first] == Label(i, ReadClock) &&
    i < |states[first].procs| && states[first].procs[i].HungStart? &&
    forall m {:trigger labels[m]} :: first < m < k ==> !(labels[m].i == i && labels[m].act.Spawn?)
  }

  lemma JobStarts(c: Config, states: seq<State>, labels: seq<Label>, i: nat, first: nat, k: nat, id: nat)
    requires JobRuns(c, states, labels, i, first, k) && Inv(c, states[0]) && IsReserved(states[first].db, id)
    requires states[first].now - states[first].db.tickets[id].createdAt >= c.reservationSeconds
    ensures WillCancel(states[first + 1], i, id, states[first].now - c.reservationSeconds)
  {
    RunKeepsInv(c, states, labels, first);
    RunStep(c, states, labels, first);
    TicketsAreBorn(c, states[first], id);
    StepBorn(c, states[first], labels[first], states[first + 1], id);
  }

  lemma JobStep(c: Config, states: seq<State>, labels: seq<Label>, i: nat, first: nat, k: nat, id: nat, deadline: int)
    requires JobRuns(c, states, labels, i, first, k + 1) && first < k && Inv(c, states[0]) && WillCancel(states[k], i, id, deadline)
    ensures WillCancel(states[k + 1], i, id, deadline)
  {
    RunKeepsInv(c, states, labels, k);
    RunStep(c, states, labels, k);
    assert !(labels[k].i == i && labels[k].act.Spawn?);
    StepWillCancel(c, states[k], labels[k], states[k + 1], i, id, deadline);
  }

  lemma JobPrefix(c: Config, states: seq<State>, labels: seq<Label>, i: nat, first: nat, k: nat)
    requires JobRuns(c, states, labels, i, first, k) && k > first + 1
    ensures JobRuns(c, states, labels, i, first, k - 1)
  {
  }

  lemma {:induction false} JobKeepsPending(c: Config, states: seq<State>, labels: seq<Label>, i: nat, first: nat, k: nat, id: nat)
    requires JobRuns(c, states, labels, i, first, k) && Inv(c, states[0]) && IsReserved(states[first].db, id)
    requires states[first].now - states[first].db.tickets[id].createdAt >= c.reservationSeconds
    ensures WillCancel(states[k], i, id, states[first].now - c.reservationSeconds)
  {
    if k == first + 1 {
      JobStarts(c, states, labels, i, first, k, id);
    } else {
      JobPrefix(c, states, labels, i, first, k);
      JobKeepsPending(c, states, labels, i, first, k - 1, id);
      JobStep(c, states, labels, i, first, k - 1, id, states[first].now - c.reservationSeconds);
    }
  }

  /** Completeness: when a job has finished, no ticket is still RESERVED that was RESERVED, with its time
      over, when the job read the clock, in any interleaving. */
  lemma NoOverdueIsLeft(c: Config, states: seq<State>, labels: seq<Label>, i: nat, first: nat, k: nat, id: nat)
    requires JobRuns(c, states, labels, i, first, k) && Inv(c, states[0])
    requires id in states[first].db.tickets && states[first].db.tickets[id].status == RESERVED
    requires states[first].now - states[first].db.tickets[id].createdAt >= c.reservationSeconds
    requires i < |states[k].procs| && states[k].procs[i] == Done(Finished)
    ensures id in states[k].db.tickets ==> states[k].db.tickets[id].status != RESERVED
  {
    JobKeepsPending(c, states, labels, i, first, k, id);
  }
}
