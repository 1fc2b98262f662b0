/** The worker's refunds over whole runs: the orphan collector is sound and complete, no id is
    credited twice by the refund script, and a paid ticket is never refunded by a worker. */
module Collector {
  import opened Stores
  import opened Protocol
  import opened Invariants
  import opened TicketLife
  import ConservationRuns

  // ---------- at most one credit per id ----------

  /** A step in which the refund script finds the id unprocessed. */
  predicate Credits(c: Config, s: State, l: Label, id: nat) {
    l.act == Action.Refund(id) && id !in WorkerRedis(c, s).processed
  }

  lemma HungProcessed(c: Config, s: State, i: nat, a: Action, s': State)
    requires i < |s.procs| && HungStep(c, s, i, a) == Some(s')
    ensures WorkerRedis(c, s').processed == WorkerRedis(c, s).processed + if a.Refund? then {a.id} else {}
  {
  }

  lemma GcProcessed(c: Config, s: State, i: nat, a: Action, s': State)
    requires i < |s.procs| && GcStep(c, s, i, a) == Some(s')
    ensures WorkerRedis(c, s').processed == WorkerRedis(c, s).processed + if a.Refund? then {a.id} else {}
  {
  }

  lemma ReleaseProcessed(c: Config, s: State, i: nat, a: Action, s': State)
    requires i < |s.procs| && ReleaseStep(c, s, i, a) == Some(s')
    ensures WorkerRedis(c, s').processed == WorkerRedis(c, s).processed + if a.Refund? then {a.id} else {}
  {
  }

  lemma ApiProcessed(c: Config, s: State, l: Label, s': State)
    requires Step(c, s, l) == Some(s') && l.i < |s.procs| && !l.act.Tick?
    requires ReleaseStep(c, s, l.i, l.act) == None && HungStep(c, s, l.i, l.act) == None && GcStep(c, s, l.i, l.act) == None
    ensures WorkerRedis(c, s').processed == WorkerRedis(c, s).processed && !l.act.Refund?
  {
  }

  lemma StepProcessed(c: Config, s: State, l: Label, s': State)
    requires Step(c, s, l) == Some(s')
    ensures WorkerRedis(c, s').processed == WorkerRedis(c, s).processed + if l.act.Refund? then {l.act.id} else {}
  {
    if l.act.Tick? || l.act.Die? || l.act.Spawn? { }
    else if ReleaseStep(c, s, l.i, l.act).Some? { ReleaseProcessed(c, s, l.i, l.act, s'); }
    else if HungStep(c, s, l.i, l.act).Some? { HungProcessed(c, s, l.i, l.act, s'); }
    else if GcStep(c, s, l.i, l.act).Some? { GcProcessed(c, s, l.i, l.act, s'); }
    else { ApiProcessed(c, s, l, s'); }
  }

  lemma RunStepProcessed(c: Config, states: seq<State>, labels: seq<Label>, id: nat, k: nat)
    requires Run(c, states, labels) && k < |labels| && id in WorkerRedis(c, states[k]).processed
    ensures id in WorkerRedis(c, states[k + 1]).processed
  {
    StepProcessed(c, states[k], labels[k], states[k + 1]);
  }

  lemma {:induction false} ProcessedForever(c: Config, states: seq<State>, labels: seq<Label>, id: nat, i: nat, j: nat)
    requires Run(c, states, labels) && i <= j < |states| && id in WorkerRedis(c, states[i]).processed
    ensures id in WorkerRedis(c, states[j]).processed
  {
    if i < j {
      ProcessedForever(c, states, labels, id, i, j - 1);
      RunStepProcessed(c, states, labels, id, j - 1);
    }
  }

  /** No run credits an id twice through the refund script. */
  lemma AtMostOneCredit(c: Config, states: seq<State>, labels: seq<Label>, id: nat, a: nat, b: nat)
    requires Run(c, states, labels) && a < b < |labels|
    ensures !(Credits(c, states[a], labels[a], id) && Credits(c, states[b], labels[b], id))
  {
    StepProcessed(c, states[a], labels[a], states[a + 1]);
    if Credits(c, states[a], labels[a], id) {
      ProcessedForever(c, states, labels, id, a + 1, b);
    }
  }

  /** An id that becomes processed during a run was credited by one step of it. */
  lemma {:induction false} CreditedBySomeone(c: Config, states: seq<State>, labels: seq<Label>, id: nat) returns (k: nat)
    requires Run(c, states, labels)
    requires id !in WorkerRedis(c, states[0]).processed && id in WorkerRedis(c, states[|labels|]).processed
    ensures k < |labels| && Credits(c, states[k], labels[k], id)
  {
    k := |labels| - 1;
    StepProcessed(c, states[k], labels[k], states[k + 1]);
    if id in WorkerRedis(c, states[k]).processed {
      assert Run(c, states[..k + 1], labels[..k]);
      k := CreditedBySomeone(c, states[..k + 1], labels[..k], id);
    }
  }

  /** In every run a processed id has no hash entry, so the script's early return deletes nothing it should. */
  lemma ProcessedHasNoEntry(c: Config, states: seq<State>, labels: seq<Label>, k: nat, id: nat)
    requires Run(c, states, labels) && Inv(c, states[0]) && k < |states|
    ensures !(id in WorkerRedis(c, states[k]).processed && id in WorkerRedis(c, states[k]).reservations)
  {
    RunKeepsInv(c, states, labels, k);
  }

  // ---------- soundness of the orphan collector ----------

  /** Every create whose timestamp is taken has committed or rolled back within the grace period. */
  predicate Timely(s: State) {
    forall j :: 0 <= j < |s.procs| ==> TimelyProc(s.now, s.procs[j])
  }

  predicate TimelyProc(now: nat, p: Proc) {
    match p
    case CreateStamped(_, _, _, _, _, ts) => now <= ts + GRACE_PERIOD_SECONDS
    case CreateHashed(_, _, _, _, _, ts) => now <= ts + GRACE_PERIOD_SECONDS
    case _ => true
  }

  /** Cancelled, deleted, or never committed: and so for ever. */
  ghost predicate Dead(s: State, id: nat) {
    Born(s, id) && Orphan(s.db, id)
  }

  ghost predicate GcProcSafe(s: State, p: Proc) {
    match p
    case GcSuspicious(entries) => forall id :: id in entries ==> Born(s, id)
    case GcRefunding(entries) => forall id :: id in entries ==> Dead(s, id)
    case _ => true
  }

  ghost predicate GcSafe(s: State) {
    forall j :: 0 <= j < |s.procs| ==> GcProcSafe(s, s.procs[j])
  }

  lemma StepDead(c: Config, s: State, l: Label, s': State, id: nat)
    requires Inv(c, s) && Step(c, s, l) == Some(s') && Dead(s, id)
    ensures Dead(s', id)
  {
    StepBorn(c, s, l, s', id);
    StepRows(c, s, l, s', id);
  }

  lemma OverdueIsBorn(c: Config, s: State, id: nat, r: Reservation)
    requires EntryOk(s, id, r) && Timely(s) && Overdue(s.now, r)
    ensures Born(s, id)
  {
    forall j | 0 <= j < |s.procs| ensures !CreatesId(s.procs[j], id) {
      assert TimelyProc(s.now, s.procs[j]);
    }
  }

  lemma OwnGcSafe(c: Config, s: State, i: nat, a: Action, s': State)
    requires Inv(c, s) && GcSafe(s) && Timely(s) && i < |s.procs| && GcStep(c, s, i, a) == Some(s')
    ensures GcProcSafe(s, s'.procs[i])
  {
    var p := s.procs[i];
    assert ProcOk(c, s, p) && GcProcSafe(s, p);
    if p.GcSnapshot? && !a.Abort? {
      forall id | id in s'.procs[i].entries ensures Born(s, id) {
        assert EntryOk(s, id, p.entries[id]);
        OverdueIsBorn(c, s, id, p.entries[id]);
      }
    }
  }

  lemma OtherNotGc(c: Config, s: State, l: Label, s': State)
    requires Step(c, s, l) == Some(s') && l.i < |s.procs| && !l.act.Tick? && GcStep(c, s, l.i, l.act) == None
    ensures !s'.procs[l.i].GcSuspicious? && !s'.procs[l.i].GcRefunding?
  {
  }

  lemma StepGcSafe(c: Config, s: State, l: Label, s': State)
    requires Inv(c, s) && GcSafe(s) && Timely(s) && Step(c, s, l) == Some(s')
    ensures GcSafe(s')
  {
    StepIds(c, s, l, s');
    forall j | 0 <= j < |s'.procs| ensures GcProcSafe(s', s'.procs[j]) {
      if !l.act.Tick? && j == l.i {
        if GcStep(c, s, l.i, l.act).Some? && !l.act.Die? && !l.act.Spawn? { OwnGcSafe(c, s, l.i, l.act, s'); }
        else { OtherNotGc(c, s, l, s'); }
      } else {
        assert s'.procs[j] == s.procs[j] && GcProcSafe(s, s.procs[j]);
      }
      assert GcProcSafe(s, s'.procs[j]);
      GcProcKept(c, s, l, s', s'.procs[j]);
    }
  }

  lemma GcProcKept(c: Config, s: State, l: Label, s': State, p: Proc)
    requires Inv(c, s) && Step(c, s, l) == Some(s') && GcProcSafe(s, p)
    ensures GcProcSafe(s', p)
  {
    if p.GcSuspicious? {
      forall id | id in p.entries ensures Born(s', id) { StepBorn(c, s, l, s', id); }
    } else if p.GcRefunding? {
      forall id | id in p.entries ensures Dead(s', id) { StepDead(c, s, l, s', id); }
    }
  }

  lemma RunStepGcSafe(c: Config, states: seq<State>, labels: seq<Label>, k: nat)
    requires Run(c, states, labels) && k < |labels| && Inv(c, states[k]) && GcSafe(states[k]) && Timely(states[k])
    ensures Inv(c, states[k + 1]) && GcSafe(states[k + 1])
  {
    StepKeepsInv(c, states[k], labels[k], states[k + 1]);
    StepGcSafe(c, states[k], labels[k], states[k + 1]);
  }

  lemma {:induction false} RunGcSafe(c: Config, states: seq<State>, labels: seq<Label>, k: nat)
    requires Run(c, states, labels) && Inv(c, states[0]) && GcSafe(states[0]) && k < |states|
    requires forall m :: 0 <= m < k ==> Timely(states[m])
    ensures Inv(c, states[k]) && GcSafe(states[k])
  {
    if k > 0 {
      RunGcSafe(c, states, labels, k - 1);
      RunStepGcSafe(c, states, labels, k - 1);
    }
  }

  /** Soundness: if creates meet their deadline, an id the collector refunds is dead then and in
      every later state, whatever happens between its snapshot, its query and its refund. */
  lemma CollectorIsSound(c: Config, states: seq<State>, labels: seq<Label>, k: nat, m: nat, id: nat)
    requires Run(c, states, labels) && Inv(c, states[0]) && GcSafe(states[0])
    requires forall j :: 0 <= j < |states| ==> Timely(states[j])
    requires k < |labels| && k <= m < |states|
    requires labels[k].i < |states[k].procs| && states[k].procs[labels[k].i].GcRefunding? && labels[k].act == Action.Refund(id)
    ensures PhaseOf(states[m], id) in {Is(CANCELED), Gone}
  {
    RunGcSafe(c, states, labels, k);
    assert GcProcSafe(states[k], states[k].procs[labels[k].i]);
    assert Step(c, states[k], labels[k]) == Some(states[k + 1]);
    OneWinner(c, states, labels, id, k, m);
  }

  // ---------- completeness of the orphan collector ----------

  function GcEntries(p: Proc): map<nat, Reservation> {
    match p
    case GcSnapshot(entries) => entries
    case GcSuspicious(entries) => entries
    case GcRefunding(entries) => entries
    case _ => map[]
  }

  /** The pass of process i still has the id before it, or the id is processed. */
  ghost predicate WillCollect(c: Config, s: State, i: nat, id: nat) {
    id in WorkerRedis(c, s).processed ||
    (i < |s.procs| && Dead(s, id) && id in GcEntries(s.procs[i]) &&
     (s.procs[i].GcSnapshot? ==> Overdue(s.now, s.procs[i].entries[id])))
  }

  predicate InPass(p: Proc) {
    p.GcSnapshot? || p.GcSuspicious? || p.GcRefunding?
  }

  /** A pass keeps an overdue orphan to the end, unless it refunds it. */
  lemma GcStepCollects(c: Config, s: State, i: nat, a: Action, s': State, id: nat)
    requires i < |s.procs| && GcStep(c, s, i, a) == Some(s') && !a.Abort? && Orphan(s.db, id) && id in GcEntries(s.procs[i])
    requires s.procs[i].GcSnapshot? ==> Overdue(s.now, s.procs[i].entries[id])
    requires id !in WorkerRedis(c, s').processed
    ensures id in GcEntries(s'.procs[i]) && !s'.procs[i].GcSnapshot?
  {
  }

  lemma StepCollects(c: Config, s: State, l: Label, s': State, i: nat, id: nat)
    requires Inv(c, s) && Step(c, s, l) == Some(s') && WillCollect(c, s, i, id) && PassStep(s, l, i)
    ensures WillCollect(c, s', i, id)
  {
    StepProcessed(c, s, l, s');
    StepIds(c, s, l, s');
    if id !in WorkerRedis(c, s').processed {
      StepDead(c, s, l, s', id);
      StepTime(c, s, l, s');
      if l.i == i && !l.act.Tick? { GcStepCollects(c, s, i, l.act, s', id); }
    }
  }

  lemma StepTime(c: Config, s: State, l: Label, s': State)
    requires Step(c, s, l) == Some(s')
    ensures s.now <= s'.now && (l.act.Tick? ==> s'.procs == s.procs)
  {
  }

  lemma SnapshotCollects(c: Config, s: State, i: nat, s': State, id: nat)
    requires Inv(c, s) && i < |s.procs| && Step(c, s, Label(i, Snapshot)) == Some(s')
    requires id in WorkerRedis(c, s).reservations && Dead(s, id)
    requires Overdue(s.now, WorkerRedis(c, s).reservations[id])
    ensures WillCollect(c, s', i, id)
  {
    StepDead(c, s, Label(i, Snapshot), s', id);
  }

  lemma PassDone(c: Config, s: State, i: nat, id: nat)
    requires Inv(c, s) && WillCollect(c, s, i, id) && i < |s.procs| && s.procs[i].Done?
    ensures id in WorkerRedis(c, s).processed && id !in WorkerRedis(c, s).reservations
  {
  }

  /** Process i takes its snapshot at `first` and runs undying up to state k. */
  ghost predicate PassRuns(c: Config, states: seq<State>, labels: seq<Label>, i: nat, first: nat, k: nat) {
    Run(c, states, labels) && first < k < |states| && labels[first] == Label(i, Snapshot) &&
    forall m {:trigger labels[m]} :: first < m < k ==> PassStep(states[m], labels[m], i)
  }

  predicate PassStep(s: State, l: Label, i: nat) {
    i < |s.procs| && InPass(s.procs[i]) && (l.i == i ==> !l.act.Die? && !l.act.Spawn? && !l.act.Abort?)
  }

  lemma PassStepCollects(c: Config, states: seq<State>, labels: seq<Label>, i: nat, first: nat, k: nat, id: nat)
    requires PassRuns(c, states, labels, i, first, k + 1) && first < k && Inv(c, states[0]) && WillCollect(c, states[k], i, id)
    ensures WillCollect(c, states[k + 1], i, id)
  {
    assert PassStep(states[k], labels[k], i);
    RunKeepsInv(c, states, labels, k);
    RunStep(c, states, labels, k);
    StepCollects(c, states[k], labels[k], states[k + 1], i, id);
  }

  lemma PassStartCollects(c: Config, states: seq<State>, labels: seq<Label>, i: nat, first: nat, id: nat)
    requires Run(c, states, labels) && Inv(c, states[0]) && first < |labels| && labels[first] == Label(i, Snapshot)
    requires i < |states[first].procs|
    requires id in WorkerRedis(c, states[first]).reservations && Dead(states[first], id)
    requires Overdue(states[first].now, WorkerRedis(c, states[first]).reservations[id])
    ensures WillCollect(c, states[first + 1], i, id)
  {
    RunKeepsInv(c, states, labels, first);
    RunStep(c, states, labels, first);
    SnapshotCollects(c, states[first], i, states[first + 1], id);
  }

  lemma PassPrefix(c: Config, states: seq<State>, labels: seq<Label>, i: nat, first: nat, k: nat)
    requires PassRuns(c, states, labels, i, first, k) && k > first + 1
    ensures PassRuns(c, states, labels, i, first, k - 1)
  {
  }

  lemma {:induction false} PassKeepsCollecting(c: Config, states: seq<State>, labels: seq<Label>, i: nat, first: nat, k: nat, id: nat)
    requires PassRuns(c, states, labels, i, first, k) && Inv(c, states[0])
    requires WillCollect(c, states[first + 1], i, id)
    ensures WillCollect(c, states[k], i, id)
  {
    if k > first + 1 {
      PassPrefix(c, states, labels, i, first, k);
      PassKeepsCollecting(c, states, labels, i, first, k - 1, id);
      PassStepCollects(c, states, labels, i, first, k - 1, id);
    }
  }

  /** Completeness: when a pass of the collector ends, every id that was dead and overdue in the hash
      when the pass took its snapshot is processed and out of the hash, in any interleaving. */
  lemma PassCollects(c: Config, states: seq<State>, labels: seq<Label>, i: nat, first: nat, k: nat, id: nat)
    requires PassRuns(c, states, labels, i, first, k) && Inv(c, states[0]) && i < |states[first].procs|
    requires id in WorkerRedis(c, states[first]).reservations && Dead(states[first], id)
    requires Overdue(states[first].now, WorkerRedis(c, states[first]).reservations[id])
    requires i < |states[k].procs| && states[k].procs[i].Done?
    ensures id in WorkerRedis(c, states[k]).processed && id !in WorkerRedis(c, states[k]).reservations
  {
    PassStartCollects(c, states, labels, i, first, id);
    PassKeepsCollecting(c, states, labels, i, first, k, id);
    RunKeepsInv(c, states, labels, k);
    PassDone(c, states[k], i, id);
  }

  // ---------- a paid ticket is not refunded ----------

  predicate WorkerRefunds(s: State, l: Label, id: nat) {
    l.act == Action.Refund(id) && l.i < |s.procs| && (s.procs[l.i].ReleaseUpdated? || s.procs[l.i].HungRefunding?)
  }

  /** No worker fails between its refund and its commit. */
  predicate CommitsItsRefunds(s: State, l: Label) {
    (l.act.Abort? || l.act.Die?) && l.i < |s.procs| ==> !ConservationRuns.HasRefunded(s.procs[l.i])
  }

  /** Refunded by a worker that will cancel it, or already cancelled or gone. */
  ghost predicate Doomed(s: State, id: nat) {
    ConservationRuns.HasRefunder(s, id) || Dead(s, id)
  }

  lemma WorkerRefundDooms(c: Config, s: State, l: Label, s': State, id: nat)
    requires Inv(c, s) && Step(c, s, l) == Some(s') && WorkerRefunds(s, l, id)
    ensures ConservationRuns.HasRefunder(s', id) && PhaseOf(s, id) == Is(RESERVED)
  {
    assert ProcOk(c, s, s.procs[l.i]);
    if s.procs[l.i].HungRefunding? { assert Reserved(s.db, id, s.procs[l.i].locked[id]); }
    assert ConservationRuns.Refunder(s'.procs[l.i], id);
  }

  lemma ReleaseKeepsDoom(c: Config, s: State, i: nat, a: Action, s': State, id: nat)
    requires Inv(c, s) && i < |s.procs| && ReleaseStep(c, s, i, a) == Some(s') && CommitsItsRefunds(s, Label(i, a))
    requires ConservationRuns.Refunder(s.procs[i], id)
    ensures Orphan(s'.db, id)
  {
  }

  lemma HungKeepsDoom(c: Config, s: State, i: nat, a: Action, s': State, id: nat)
    requires Inv(c, s) && i < |s.procs| && HungStep(c, s, i, a) == Some(s') && CommitsItsRefunds(s, Label(i, a))
    requires ConservationRuns.Refunder(s.procs[i], id)
    ensures Orphan(s'.db, id) || ConservationRuns.Refunder(s'.procs[i], id)
  {
  }

  lemma StepDoomed(c: Config, s: State, l: Label, s': State, id: nat)
    requires Inv(c, s) && Step(c, s, l) == Some(s') && CommitsItsRefunds(s, l) && Doomed(s, id)
    ensures Doomed(s', id)
  {
    StepIds(c, s, l, s');
    if Dead(s, id) {
      StepDead(c, s, l, s', id);
    } else {
      var j :| 0 <= j < |s.procs| && ConservationRuns.Refunder(s.procs[j], id);
      ConservationRuns.RefunderHolds(c, s, j, id);
      TicketsAreBorn(c, s, id);
      StepBorn(c, s, l, s', id);
      if l.act.Tick? || l.i != j {
        StepTime(c, s, l, s');
        assert ConservationRuns.Refunder(s'.procs[j], id);
      } else if s.procs[j].ReleaseRefunded? {
        ReleaseKeepsDoom(c, s, j, l.act, s', id);
      } else {
        HungKeepsDoom(c, s, j, l.act, s', id);
      }
    }
  }

  ghost predicate AllCommitTheirRefunds(states: seq<State>, labels: seq<Label>)
    requires |states| == |labels| + 1
  {
    forall k {:trigger labels[k]} :: 0 <= k < |labels| ==> CommitsItsRefunds(states[k], labels[k])
  }

  lemma RunStepDoomed(c: Config, states: seq<State>, labels: seq<Label>, id: nat, k: nat)
    requires Run(c, states, labels) && Inv(c, states[0]) && k < |labels| && Doomed(states[k], id)
    requires AllCommitTheirRefunds(states, labels)
    ensures Doomed(states[k + 1], id)
  {
    RunKeepsInv(c, states, labels, k);
    RunStep(c, states, labels, k);
    StepDoomed(c, states[k], labels[k], states[k + 1], id);
  }

  lemma {:induction false} RunDoomed(c: Config, states: seq<State>, labels: seq<Label>, id: nat, a: nat, b: nat)
    requires Run(c, states, labels) && Inv(c, states[0]) && a <= b < |states| && Doomed(states[a], id)
    requires AllCommitTheirRefunds(states, labels)
    ensures Doomed(states[b], id)
  {
    if a < b {
      RunDoomed(c, states, labels, id, a, b - 1);
      RunStepDoomed(c, states, labels, id, b - 1);
    }
  }

  lemma PayerIsNotDoomed(c: Config, s: State, l: Label, id: nat)
    requires Inv(c, s) && Pays(s, l, id)
    ensures !Doomed(s, id)
  {
    assert ProcOk(c, s, s.procs[l.i]) && HoldsTicket(s.procs[l.i], id);
    ConservationRuns.NoRefunderElsewhere(c, s, l.i, id);
  }

  lemma RunRefundDooms(c: Config, states: seq<State>, labels: seq<Label>, id: nat, k: nat)
    requires Run(c, states, labels) && Inv(c, states[0]) && k < |labels| && WorkerRefunds(states[k], labels[k], id)
    ensures Doomed(states[k + 1], id)
  {
    RunKeepsInv(c, states, labels, k);
    RunStep(c, states, labels, k);
    WorkerRefundDooms(c, states[k], labels[k], states[k + 1], id);
  }

  lemma NoPaymentAfterRefund(c: Config, states: seq<State>, labels: seq<Label>, id: nat, pay: nat, refund: nat)
    requires Run(c, states, labels) && Inv(c, states[0]) && refund < pay < |labels|
    requires AllCommitTheirRefunds(states, labels) && WorkerRefunds(states[refund], labels[refund], id)
    ensures !Pays(states[pay], labels[pay], id)
  {
    RunRefundDooms(c, states, labels, id, refund);
    RunDoomed(c, states, labels, id, refund + 1, pay);
    RunKeepsInv(c, states, labels, pay);
    if Pays(states[pay], labels[pay], id) { PayerIsNotDoomed(c, states[pay], labels[pay], id); }
  }

  lemma RunPaySells(c: Config, states: seq<State>, labels: seq<Label>, id: nat, k: nat)
    requires Run(c, states, labels) && Inv(c, states[0]) && k < |labels| && Pays(states[k], labels[k], id)
    ensures PhaseOf(states[k + 1], id) == Is(SOLD)
  {
    RunKeepsInv(c, states, labels, k);
    PaySells(c, states[k], labels[k], states[k + 1], id);
  }

  lemma RunRefunder(c: Config, states: seq<State>, labels: seq<Label>, id: nat, k: nat)
    requires Run(c, states, labels) && Inv(c, states[0]) && k < |labels|
    ensures WorkerRefunds(states[k], labels[k], id) ==> PhaseOf(states[k], id) == Is(RESERVED)
  {
    RunKeepsInv(c, states, labels, k);
    if WorkerRefunds(states[k], labels[k], id) { RefunderIsReserved(c, states[k], labels[k], id); }
  }

  lemma NoRefundAfterPayment(c: Config, states: seq<State>, labels: seq<Label>, id: nat, pay: nat, refund: nat)
    requires Run(c, states, labels) && Inv(c, states[0]) && pay < refund < |labels|
    requires Pays(states[pay], labels[pay], id)
    ensures !WorkerRefunds(states[refund], labels[refund], id)
  {
    RunPaySells(c, states, labels, id, pay);
    OneWinner(c, states, labels, id, pay + 1, refund);
    RunRefunder(c, states, labels, id, refund);
  }

  /** A ticket whose payment committed is refunded by a release or a batch neither before nor after. */
  lemma PaidIsNeverRefunded(c: Config, states: seq<State>, labels: seq<Label>, id: nat, pay: nat, refund: nat)
    requires Run(c, states, labels) && Inv(c, states[0]) && pay < |labels| && refund < |labels|
    requires AllCommitTheirRefunds(states, labels)
    requires Pays(states[pay], labels[pay], id)
    ensures !WorkerRefunds(states[refund], labels[refund], id)
  {
    if refund < pay {
      if WorkerRefunds(states[refund], labels[refund], id) { NoPaymentAfterRefund(c, states, labels, id, pay, refund); }
    } else if pay < refund {
      NoRefundAfterPayment(c, states, labels, id, pay, refund);
    }
  }

  lemma RefunderIsReserved(c: Config, s: State, l: Label, id: nat)
    requires Inv(c, s) && Step(c, s, l).Some? && WorkerRefunds(s, l, id)
    ensures PhaseOf(s, id) == Is(RESERVED)
  {
    assert ProcOk(c, s, s.procs[l.i]);
  }

  lemma PaySells(c: Config, s: State, l: Label, s': State, id: nat)
    requires Inv(c, s) && Step(c, s, l) == Some(s') && Pays(s, l, id)
    ensures PhaseOf(s', id) == Is(SOLD)
  {
  }
}
