/** What conservation means for whole runs: exact inventory, a gate the database never contradicts,
    and safety with the worker on a Redis database of its own. */
module ConservationRuns {
  import opened Stores
  import opened Protocol
  import opened Invariants
  import opened Conservation
  import opened TicketLife

  function Faults(c: Config, states: seq<State>, labels: seq<Label>, t: nat): int
    requires |states| == |labels| + 1
  {
    if labels == [] then 0
    else
      var k := |labels| - 1;
      Faults(c, states[..k + 1], labels[..k], t) + Fault(c, states[k], labels[k], t)
  }

  ghost predicate NoAdmin(labels: seq<Label>, t: nat) {
    forall k :: 0 <= k < |labels| ==> !StartsAdmin(labels[k], t)
  }

  /** The books of a run: the balance at the end is the balance at the start plus its faults. */
  lemma {:induction false} BalanceOverRuns(c: Config, states: seq<State>, labels: seq<Label>, t: nat)
    requires Run(c, states, labels) && Inv(c, states[0]) && Steady(states[0], t) && NoAdmin(labels, t)
    ensures Steady(states[|labels|], t)
    ensures Balance(states[|labels|], t) == Balance(states[0], t) + Faults(c, states, labels, t)
  {
    if labels != [] {
      var k := |labels| - 1;
      RunKeepsInv(c, states, labels, k);
      BalanceOverRuns(c, states[..k + 1], labels[..k], t);
      StepBalance(c, states[k], labels[k], states[k + 1], t);
    }
  }

  // ---------- runs without late failures ----------

  /** A worker that has refunded the ticket and not committed its cancellation. */
  predicate Refunder(p: Proc, id: nat) {
    match p
    case ReleaseRefunded(x, _) => x == id
    case HungRefunding(locked, todo) => id in locked && id !in todo
    case _ => false
  }

  predicate HasRefunded(p: Proc) {
    p.ReleaseRefunded? || (p.HungRefunding? && p.todo != p.locked.Keys)
  }

  /** A create whose transaction is committed reports failure, and will give a unit back. */
  predicate FailsAfterCommit(s: State, l: Label) {
    l.act.RefreshFails? && l.i < |s.procs| && s.procs[l.i].CreateCommitted?
  }

  /** No collector starts, no create fails after its commit, and no worker fails between its refund
      and its commit. Anything else may be aborted, and any other process may die. */
  predicate Gentle(s: State, l: Label) {
    !(l.act.Spawn? && l.act.p.GcStart?) && !FailsAfterCommit(s, l) &&
    ((l.act.Abort? || l.act.Die?) && l.i < |s.procs| ==> !HasRefunded(s.procs[l.i]))
  }

  ghost predicate AllGentle(states: seq<State>, labels: seq<Label>)
    requires |states| == |labels| + 1
  {
    forall k {:trigger labels[k]} :: 0 <= k < |labels| ==> Gentle(states[k], labels[k])
  }

  ghost predicate HasRefunder(s: State, id: nat) {
    exists j :: 0 <= j < |s.procs| && Refunder(s.procs[j], id)
  }

  /** Only a worker about to commit has refunded a live ticket, and nobody an uncommitted one. */
  ghost predicate Clean(s: State, t: nat) {
    (forall j :: 0 <= j < |s.procs| ==> CleanProc(s.procs[j], t)) &&
    (forall id :: id in s.api.processed && id in s.db.tickets && s.db.tickets[id].Live() ==> HasRefunder(s, id)) &&
    (forall id :: id in s.api.processed ==> !InFlight(s, id))
  }

  predicate CleanProc(p: Proc, t: nat) {
    !p.GcStart? && !p.GcSnapshot? && !p.GcSuspicious? && !p.GcRefunding? && !(p.CreateFailed? && p.t == t && !p.slot)
  }

  /** Nothing running, the counter exact, no live ticket refunded. */
  ghost predicate Exact(c: Config, s: State, t: nat) {
    Inv(c, s) && t in s.db.types && t in s.api.counters &&
    (forall j :: 0 <= j < |s.procs| ==> s.procs[j].Done?) &&
    (forall id :: id in s.api.processed && id in s.db.tickets ==> !s.db.tickets[id].Live()) &&
    s.api.counters[t] == s.db.types[t].quantity - s.db.types[t].sold
  }

  lemma ExactIsClean(c: Config, s: State, t: nat)
    requires Exact(c, s, t)
    ensures Steady(s, t) && Balance(s, t) == 0 && Clean(s, t)
  {
    assert s.db.types[t].Ok();
    assert Slots(s.procs, t) == {};
    assert RefundedLive(s, t) == {};
  }

  /** A step by a process that neither refunds nor stops being a refunder, and commits no new live row. */
  lemma QuietClean(c: Config, s: State, s': State, i: nat, t: nat)
    requires Inv(c, s) && Clean(s, t) && OnlyProc(s, s', i) && CleanProc(s'.procs[i], t)
    requires s'.api.processed == s.api.processed
    requires forall id :: Refunder(s.procs[i], id) ==>
      Refunder(s'.procs[i], id) || !(id in s'.db.tickets && s'.db.tickets[id].Live())
    requires forall id :: id in s'.db.tickets && s'.db.tickets[id].Live() ==>
      (id in s.db.tickets && s.db.tickets[id].Live()) || CreatesId(s.procs[i], id)
    requires forall id: nat :: CreatesId(s'.procs[i], id) ==> CreatesId(s.procs[i], id) || id == s.db.nextTicket
    ensures Clean(s', t)
  {
    forall id | id in s'.api.processed && id in s'.db.tickets && s'.db.tickets[id].Live() ensures HasRefunder(s', id) {
      assert !InFlight(s, id);
      var j :| 0 <= j < |s.procs| && Refunder(s.procs[j], id);
      assert Refunder(s'.procs[j], id);
    }
    forall id | id in s'.api.processed ensures !InFlight(s', id) {
      assert !InFlight(s, id);
    }
  }

  /** A worker's refund makes it a refunder. */
  lemma RefundClean(c: Config, s: State, s': State, i: nat, t: nat, u: nat, id: nat)
    requires Inv(c, s) && Clean(s, t) && OnlyProc(s, s', i) && CleanProc(s'.procs[i], t)
    requires s' == SetWorkerRedis(c, s, WorkerRedis(c, s).Refund(u, id)).(procs := s'.procs)
    requires Refunder(s'.procs[i], id) && id in s.db.tickets
    requires forall x :: Refunder(s.procs[i], x) ==> Refunder(s'.procs[i], x)
    requires forall x: nat :: !CreatesId(s'.procs[i], x)
    ensures Clean(s', t)
  {
    forall x | x in s'.api.processed && x in s'.db.tickets && s'.db.tickets[x].Live() ensures HasRefunder(s', x) {
      if x == id {
        assert Refunder(s'.procs[i], x);
      } else {
        var j :| 0 <= j < |s.procs| && Refunder(s.procs[j], x);
        assert Refunder(s'.procs[j], x);
      }
    }
    forall x | x in s'.api.processed ensures !InFlight(s', x) {
      if x != id { assert !InFlight(s, x); }
    }
  }

  lemma ReleaseClean(c: Config, s: State, i: nat, a: Action, s': State, t: nat)
    requires Inv(c, s) && Clean(s, t) && i < |s.procs| && ReleaseStep(c, s, i, a) == Some(s') && Gentle(s, Label(i, a))
    ensures Clean(s', t)
  {
    var p := s.procs[i];
    assert ProcOk(c, s, p);
    if p.ReleaseUpdated? && a.Refund? {
      RefundClean(c, s, s', i, t, p.t, p.id);
    } else {
      QuietClean(c, s, s', i, t);
    }
  }

  lemma HungClean(c: Config, s: State, i: nat, a: Action, s': State, t: nat)
    requires Inv(c, s) && Clean(s, t) && i < |s.procs| && HungStep(c, s, i, a) == Some(s') && Gentle(s, Label(i, a))
    ensures Clean(s', t)
  {
    var p := s.procs[i];
    assert ProcOk(c, s, p);
    if p.HungRefunding? && a.Refund? {
      assert Reserved(s.db, a.id, p.locked[a.id]);
      RefundClean(c, s, s', i, t, p.locked[a.id], a.id);
    } else {
      QuietClean(c, s, s', i, t);
    }
  }

  lemma CreateClean(c: Config, s: State, i: nat, a: Action, s': State, t: nat)
    requires Inv(c, s) && Steady(s, t) && Clean(s, t) && i < |s.procs| && CreateStep(s, i, a) == Some(s')
    requires Gentle(s, Label(i, a))
    ensures Clean(s', t)
  {
    assert !Disturbs(s.procs[i], t) && CleanProc(s.procs[i], t);
    QuietClean(c, s, s', i, t);
  }

  /** A step of a process that is no refunder before or after, and touches no ticket. */
  lemma IdleClean(c: Config, s: State, s': State, i: nat, t: nat)
    requires Inv(c, s) && Clean(s, t) && OnlyProc(s, s', i) && CleanProc(s'.procs[i], t)
    requires s'.api.processed == s.api.processed && s'.db.tickets == s.db.tickets
    requires !HasRefunded(s.procs[i]) && forall id: nat :: !CreatesId(s'.procs[i], id)
    ensures Clean(s', t)
  {
    assert ProcOk(c, s, s.procs[i]);
    QuietClean(c, s, s', i, t);
  }

  lemma DeleteClean(c: Config, s: State, i: nat, a: Action, s': State, t: nat)
    requires Inv(c, s) && Clean(s, t) && i < |s.procs| && DeleteStep(s, i, a) == Some(s')
    ensures Clean(s', t)
  {
    QuietClean(c, s, s', i, t);
  }

  lemma PayClean(c: Config, s: State, i: nat, a: Action, s': State, t: nat)
    requires Inv(c, s) && Clean(s, t) && i < |s.procs| && PayStep(s, i, a) == Some(s')
    ensures Clean(s', t)
  {
    assert ProcOk(c, s, s.procs[i]);
    QuietClean(c, s, s', i, t);
  }

  lemma AdminClean(c: Config, s: State, i: nat, a: Action, s': State, t: nat)
    requires Inv(c, s) && Clean(s, t) && i < |s.procs| && AdminStep(s, i, a) == Some(s')
    ensures Clean(s', t)
  {
    AdminKeepsTickets(s, i, a, s', t);
    IdleClean(c, s, s', i, t);
  }

  lemma AdminKeepsTickets(s: State, i: nat, a: Action, s': State, t: nat)
    requires i < |s.procs| && AdminStep(s, i, a) == Some(s')
    ensures OnlyProc(s, s', i) && CleanProc(s'.procs[i], t) && !HasRefunded(s.procs[i]) && Unbound(s'.procs[i])
    ensures s'.api.processed == s.api.processed && s'.db.tickets == s.db.tickets
  {
    hide AdminStep, CleanProc, Unbound, OnlyProc;
    AdminTickets(s, i, a, s');
    AdminProcs(s, i, a, s', t);
  }

  lemma AdminTickets(s: State, i: nat, a: Action, s': State)
    requires i < |s.procs| && AdminStep(s, i, a) == Some(s')
    ensures s'.api.processed == s.api.processed && s'.db.tickets == s.db.tickets
  {
  }

  lemma AdminProcs(s: State, i: nat, a: Action, s': State, t: nat)
    requires i < |s.procs| && AdminStep(s, i, a) == Some(s')
    ensures OnlyProc(s, s', i) && CleanProc(s'.procs[i], t) && !HasRefunded(s.procs[i]) && Unbound(s'.procs[i])
  {
  }

  lemma LifeClean(c: Config, s: State, i: nat, a: Action, s': State, t: nat)
    requires Inv(c, s) && Clean(s, t) && i < |s.procs| && LifeStep(s, i, a) == Some(s') && Gentle(s, Label(i, a))
    ensures Clean(s', t)
  {
    IdleClean(c, s, s', i, t);
  }

  lemma TickClean(s: State, t: nat)
    requires Clean(s, t)
    ensures Clean(s.(now := s.now + 1), t)
  {
    var s' := s.(now := s.now + 1);
    forall id | InFlight(s', id) ensures InFlight(s, id) { }
    forall id | HasRefunder(s, id) ensures HasRefunder(s', id) { }
  }

  lemma StepClean(c: Config, s: State, l: Label, s': State, t: nat)
    requires Inv(c, s) && Steady(s, t) && Clean(s, t) && Step(c, s, l) == Some(s') && Gentle(s, l)
    ensures Clean(s', t)
  {
    if l.act.Tick? { TickClean(s, t); }
    else if l.act.Spawn? || l.act.Die? { LifeClean(c, s, l.i, l.act, s', t); }
    else if CreateStep(s, l.i, l.act).Some? { CreateClean(c, s, l.i, l.act, s', t); }
    else if DeleteStep(s, l.i, l.act).Some? { DeleteClean(c, s, l.i, l.act, s', t); }
    else if PayStep(s, l.i, l.act).Some? { PayClean(c, s, l.i, l.act, s', t); }
    else if ReleaseStep(c, s, l.i, l.act).Some? { ReleaseClean(c, s, l.i, l.act, s', t); }
    else if HungStep(c, s, l.i, l.act).Some? { HungClean(c, s, l.i, l.act, s', t); }
    else if GcStep(c, s, l.i, l.act).Some? { assert false; }
    else { AdminClean(c, s, l.i, l.act, s', t); }
  }

  ghost predicate CleanState(c: Config, s: State, t: nat) {
    Inv(c, s) && Steady(s, t) && Clean(s, t)
  }

  // ---------- the main results ----------

  /** A ticket locked by a process that has not refunded it has no refunder at all. */
  lemma NoRefunderElsewhere(c: Config, s: State, i: nat, id: nat)
    requires Inv(c, s) && i < |s.procs| && HoldsTicket(s.procs[i], id) && !Refunder(s.procs[i], id)
    ensures !HasRefunder(s, id)
  {
    forall j | 0 <= j < |s.procs| ensures !Refunder(s.procs[j], id) {
      assert Refunder(s.procs[j], id) ==> HoldsTicket(s.procs[j], id);
    }
  }

  /** In a clean state the only fault a gentle step can be is a death with a slot, if refunds are shared. */
  lemma CleanFault(c: Config, s: State, l: Label, t: nat)
    requires c.shared && Inv(c, s) && Steady(s, t) && Clean(s, t) && Step(c, s, l).Some? && Gentle(s, l)
    ensures Fault(c, s, l, t) == if l.act.Die? && HasSlot(s.procs[l.i], t) then -1 else 0
  {
    if l.i < |s.procs| && !l.act.Tick? {
      var p := s.procs[l.i];
      assert ProcOk(c, s, p) && CleanProc(p, t);
      if p.CreateHashed? { assert CreatesId(p, p.id); }
      if p.DeleteRemoved? { NoRefunderElsewhere(c, s, l.i, p.id); }
      if p.HungRefunding? && l.act.Commit? {
        assert OfType(p.locked, t) - s.api.processed == {};
      }
    }
  }

  /** A process dies with a unit of the counter in its hands. */
  predicate DiesHolding(s: State, l: Label, t: nat) {
    l.act.Die? && l.i < |s.procs| && HasSlot(s.procs[l.i], t)
  }

  ghost predicate NobodyDiesHolding(states: seq<State>, labels: seq<Label>, t: nat)
    requires |states| == |labels| + 1
  {
    forall k {:trigger labels[k]} :: 0 <= k < |labels| ==> !DiesHolding(states[k], labels[k], t)
  }

  /** The balance never exceeds zero, and is zero while nobody has died with a slot. */
  ghost predicate Level(s: State, t: nat, exact: bool) {
    Steady(s, t) && Balance(s, t) <= 0 && (exact ==> Balance(s, t) == 0)
  }

  /** A gentle step of a clean state loses a unit if a process dies with it, and changes nothing else. */
  lemma StepLevel(c: Config, s: State, l: Label, s': State, t: nat)
    requires c.shared && CleanState(c, s, t) && Step(c, s, l) == Some(s') && Gentle(s, l) && !StartsAdmin(l, t)
    ensures CleanState(c, s', t) && Balance(s', t) == Balance(s, t) - Bit(DiesHolding(s, l, t))
  {
    StepKeepsInv(c, s, l, s');
    StepBalance(c, s, l, s', t);
    StepClean(c, s, l, s', t);
    CleanFault(c, s, l, t);
  }

  lemma RunLevel(c: Config, states: seq<State>, labels: seq<Label>, t: nat, k: nat, exact: bool)
    requires c.shared && Run(c, states, labels) && Exact(c, states[0], t) && NoAdmin(labels, t)
    requires AllGentle(states, labels) && k < |states|
    requires exact ==> NobodyDiesHolding(states, labels, t)
    ensures CleanState(c, states[k], t) && Level(states[k], t, exact)
  {
    ExactIsClean(c, states[0], t);
    var ok := (s: State) => CleanState(c, s, t) && Level(s, t, exact);
    var good := (s: State, l: Label) => Gentle(s, l) && !StartsAdmin(l, t) && (exact ==> !DiesHolding(s, l, t));
    forall s, l, s' | ok(s) && good(s, l) && Step(c, s, l) == Some(s') ensures ok(s') {
      StepLevel(c, s, l, s', t);
    }
    RunInduction(c, states, labels, ok, good, k);
  }

  lemma CleanBalance(c: Config, states: seq<State>, labels: seq<Label>, t: nat, k: nat)
    requires c.shared && Run(c, states, labels) && Exact(c, states[0], t) && NoAdmin(labels, t)
    requires AllGentle(states, labels) && k < |states|
    ensures CleanState(c, states[k], t) && Balance(states[k], t) <= 0
    ensures NobodyDiesHolding(states, labels, t) ==> Balance(states[k], t) == 0
  {
    RunLevel(c, states, labels, t, k, false);
    if NobodyDiesHolding(states, labels, t) { RunLevel(c, states, labels, t, k, true); }
  }

  /** Refunds made by workers that have not committed yet. */
  ghost predicate UncommittedRefunds(s: State, t: nat, ids: set<nat>) {
    forall id :: id in ids <==> HasRefunder(s, id) && id in s.db.tickets && s.db.tickets[id].typeId == t
  }

  /** Interleaved conservation: create, pay, delete, release and batch in any interleaving, with aborts
      before each transaction's refund or commit. At rest the counter is exact again. */
  lemma Conserved(c: Config, states: seq<State>, labels: seq<Label>, t: nat, k: nat)
    requires c.shared && Run(c, states, labels) && Exact(c, states[0], t) && NoAdmin(labels, t)
    requires AllGentle(states, labels) && NobodyDiesHolding(states, labels, t) && k < |states|
    ensures var s := states[k];
      t in s.db.types && t in s.api.counters &&
      s.api.counters[t] + |Slots(s.procs, t)| + s.db.types[t].sold == s.db.types[t].quantity + |RefundedLive(s, t)| &&
      UncommittedRefunds(s, t, RefundedLive(s, t)) &&
      ((forall j :: 0 <= j < |s.procs| ==> s.procs[j].Done?) ==>
        s.api.counters[t] == s.db.types[t].quantity - s.db.types[t].sold)
  {
    var s := states[k];
    CleanBalance(c, states, labels, t, k);
    forall id | HasRefunder(s, id) && id in s.db.tickets && s.db.tickets[id].typeId == t ensures id in RefundedLive(s, t) {
      var j :| 0 <= j < |s.procs| && Refunder(s.procs[j], id);
      assert ProcOk(c, s, s.procs[j]);
      if s.procs[j].HungRefunding? { assert Reserved(s.db, id, s.procs[j].locked[id]); }
    }
    if forall j :: 0 <= j < |s.procs| ==> s.procs[j].Done? {
      assert Slots(s.procs, t) == {};
      assert forall id :: !HasRefunder(s, id);
      assert RefundedLive(s, t) == {};
    }
  }

  /** The gate never admits a request that the database refuses: workers hold the type row from before
      their early refund until they commit. Processes may die anywhere, only not a refunded worker. */
  lemma GateAdmitsOnlyRoom(c: Config, states: seq<State>, labels: seq<Label>, t: nat, k: nat)
    requires c.shared && Run(c, states, labels) && Exact(c, states[0], t) && NoAdmin(labels, t)
    requires AllGentle(states, labels) && k < |labels| && labels[k].act.UpdateSold?
    requires labels[k].i < |states[k].procs| && states[k].procs[labels[k].i].CreateHolding?
    requires states[k].procs[labels[k].i].t == t
    ensures states[k + 1].procs[labels[k].i].CreateUpdated?
    ensures Room(states[k].db, t)
  {
    var s, i := states[k], labels[k].i;
    CleanBalance(c, states, labels, t, k);
    assert Step(c, s, labels[k]) == Some(states[k + 1]);
    assert TypeFree(s, i, t) && !Disturbs(s.procs[i], t);
    forall j: nat, id | j < |s.procs| && Refunder(s.procs[j], id)
      ensures id in s.db.tickets && HoldsType(s.procs[j], s.db.tickets[id].typeId)
    {
      RefunderHolds(c, s, j, id);
    }
    assert RefundedLive(s, t) == {};
    assert i in Slots(s.procs, t);
  }

  lemma RefunderHolds(c: Config, s: State, j: nat, id: nat)
    requires Inv(c, s) && j < |s.procs| && Refunder(s.procs[j], id)
    ensures id in s.db.tickets && HoldsType(s.procs[j], s.db.tickets[id].typeId)
  {
    var p := s.procs[j];
    assert ProcOk(c, s, p);
    if p.HungRefunding? {
      assert Reserved(s.db, id, p.locked[id]);
      assert p.locked[id] in p.locked.Values;
    }
  }

  // ---------- the worker on its own Redis database ----------

  /** The API's processed set, which the worker never writes, names nothing live or uncommitted. */
  ghost predicate Detached(s: State) {
    forall id :: id in s.api.processed ==> Born(s, id) && !(id in s.db.tickets && s.db.tickets[id].Live())
  }

  lemma StepDetached(c: Config, s: State, l: Label, s': State)
    requires !c.shared && Inv(c, s) && Detached(s) && Step(c, s, l) == Some(s')
    ensures Detached(s')
  {
    SplitProcessed(c, s, l, s');
    forall id | id in s'.api.processed ensures Born(s', id) && !(id in s'.db.tickets && s'.db.tickets[id].Live()) {
      StepBorn(c, s, l, s', id);
      StepRows(c, s, l, s', id);
    }
  }

  lemma SplitProcessed(c: Config, s: State, l: Label, s': State)
    requires !c.shared && Step(c, s, l) == Some(s')
    ensures s'.api.processed == s.api.processed
  {
  }

  /** Split keyspace: a fault can only strand a slot, never mint one. */
  lemma DetachedFault(c: Config, s: State, l: Label, t: nat)
    requires !c.shared && Inv(c, s) && Steady(s, t) && Detached(s) && !FailsAfterCommit(s, l)
    requires l.i < |s.procs| && s.procs[l.i].CreateFailed? && s.procs[l.i].t == t ==> s.procs[l.i].slot
    ensures Fault(c, s, l, t) <= 0
  {
  }

  ghost predicate NoPostCommitFailure(states: seq<State>, labels: seq<Label>)
    requires |states| == |labels| + 1
  {
    forall k {:trigger labels[k]} :: 0 <= k < |labels| ==> !FailsAfterCommit(states[k], labels[k])
  }

  /** No create is compensating for a slot it never had. */
  ghost predicate NoFreeCredit(s: State, t: nat) {
    forall j :: 0 <= j < |s.procs| && s.procs[j].CreateFailed? && s.procs[j].t == t ==> s.procs[j].slot
  }

  lemma CreateNoFreeCredit(s: State, i: nat, a: Action, s': State, t: nat)
    requires Steady(s, t) && NoFreeCredit(s, t) && i < |s.procs| && CreateStep(s, i, a) == Some(s') && !a.RefreshFails?
    ensures NoFreeCredit(s', t)
  {
    assert !Disturbs(s.procs[i], t);
  }

  lemma OnlyCreatesFail(c: Config, s: State, l: Label, s': State)
    requires Step(c, s, l) == Some(s') && !l.act.Tick? && CreateStep(s, l.i, l.act) == None
    ensures !s'.procs[l.i].CreateFailed?
  {
  }

  lemma StepNoFreeCredit(c: Config, s: State, l: Label, s': State, t: nat)
    requires Steady(s, t) && NoFreeCredit(s, t) && Step(c, s, l) == Some(s') && !FailsAfterCommit(s, l)
    ensures NoFreeCredit(s', t)
  {
    if !l.act.Tick? {
      if CreateStep(s, l.i, l.act).Some? && !l.act.Die? && !l.act.Spawn? {
        CreateNoFreeCredit(s, l.i, l.act, s', t);
      } else {
        StepIds(c, s, l, s');
        OnlyCreatesFail(c, s, l, s');
      }
    }
  }

  ghost predicate SplitSafe(c: Config, s: State, t: nat) {
    Inv(c, s) && Steady(s, t) && Detached(s) && NoFreeCredit(s, t) && Balance(s, t) <= 0
  }

  lemma SplitStep(c: Config, s: State, l: Label, s': State, t: nat)
    requires !c.shared && SplitSafe(c, s, t)
    requires Step(c, s, l) == Some(s') && !FailsAfterCommit(s, l) && !StartsAdmin(l, t)
    ensures SplitSafe(c, s', t)
  {
    StepKeepsInv(c, s, l, s');
    StepBalance(c, s, l, s', t);
    StepDetached(c, s, l, s');
    StepNoFreeCredit(c, s, l, s', t);
    DetachedFault(c, s, l, t);
  }

  lemma {:induction false} SplitRun(c: Config, states: seq<State>, labels: seq<Label>, t: nat, k: nat)
    requires !c.shared && Run(c, states, labels) && Exact(c, states[0], t) && NoAdmin(labels, t)
    requires NoPostCommitFailure(states, labels) && k < |states|
    ensures SplitSafe(c, states[k], t)
  {
    if k == 0 {
      ExactIsClean(c, states[0], t);
    } else {
      SplitRun(c, states, labels, t, k - 1);
      SplitStep(c, states[k - 1], labels[k - 1], states[k], t);
    }
  }

  lemma DetachedRefunds(s: State, t: nat)
    requires Detached(s)
    ensures RefundedLive(s, t) == {}
  {
  }

  /** With the worker on its own database, slots may be stranded but the gate never over-admits:
      crashes, aborts and late worker failures anywhere, no failure after a create's commit. */
  lemma SplitNeverOverAdmits(c: Config, states: seq<State>, labels: seq<Label>, t: nat, k: nat)
    requires !c.shared && Run(c, states, labels) && Exact(c, states[0], t) && NoAdmin(labels, t)
    requires NoPostCommitFailure(states, labels) && k < |states|
    ensures var s := states[k];
      t in s.db.types && t in s.api.counters &&
      s.api.counters[t] + |Slots(s.procs, t)| + s.db.types[t].sold <= s.db.types[t].quantity
  {
    SplitRun(c, states, labels, t, k);
    DetachedRefunds(states[k], t);
  }
}
