/** The other half of Alone. Whatever a process does while nobody else moves, it ends as the complete
    operation does for some fault; and when it neither dies nor fails, as the operation without one. */
module Endings {
  import opened Stores
  import opened Protocol
  import opened Alone
  import O = Operations
  import I = Invariants

  /** A step of process i; a calm one is neither its death nor a failure. */
  predicate Own(l: Label, i: nat, calm: bool) {
    l.i == i && !l.act.Tick? && !l.act.Spawn? && (calm ==> !l.act.Die? && !l.act.Abort? && !l.act.RefreshFails?)
  }

  ghost predicate RunsAlone(c: Config, states: seq<State>, labels: seq<Label>, i: nat, calm: bool) {
    Run(c, states, labels) && i < |states[0].procs| &&
    forall k {:trigger labels[k]} :: 0 <= k < |labels| ==> Own(labels[k], i, calm)
  }

  /** ... from the start of a process to its end. */
  ghost predicate RunsFrom(c: Config, states: seq<State>, labels: seq<Label>, i: nat, calm: bool, p: Proc) {
    RunsAlone(c, states, labels, i, calm) && states[0].procs[i] == p &&
    i < |states[|labels|].procs| && states[|labels|].procs[i].Done?
  }

  lemma EndsAt(c: Config, states: seq<State>, labels: seq<Label>, i: nat, calm: bool, at: State -> bool)
    requires RunsAlone(c, states, labels, i, calm) && at(states[0])
    requires forall x, l, y {:trigger at(x), Own(l, i, calm), at(y)} :: at(x) && Own(l, i, calm) && Step(c, x, l) == Some(y) ==> at(y)
    ensures at(states[|labels|])
  {
    I.RunInduction(c, states, labels, at, (x, l) => Own(l, i, calm), |labels|);
  }

  lemma PutPut(s: State, i: nat, p: Proc, q: Proc)
    requires i < |s.procs|
    ensures s.Put(i, p).Put(i, q) == s.Put(i, q)
    ensures s.procs[i] == p ==> s.Put(i, p) == s
  {
    assert s.procs[i := p][i := q] == s.procs[i := q];
    if s.procs[i] == p { assert s.procs[i := p] == s.procs; }
  }

  // ---------- create, from the gate on ----------

  ghost predicate HeldOver(m: State, i: nat, t: nat, owner: nat, calm: bool, cache: O.Cache, x: State)
    requires i < |m.procs|
  {
    exists fault :: (calm ==> fault == O.NoFault) && x == AdmittedEnd(m, i, t, owner, fault, cache)
  }

  predicate CanSell(s: State, t: nat) {
    t in s.db.types && s.db.types[t].sold + 1 <= s.db.types[t].quantity
  }

  function DrawnIn(s: State): State {
    s.(db := s.db.(nextTicket := s.db.nextTicket + 1))
  }

  function StoredIn(s: State, t: nat, owner: nat): State {
    var h := HashedIn(s, t);
    h.(db := StoredDb(h, t, owner, s.db.nextTicket))
  }

  /** Where a create can be that the gate let in at m, by its program counter. */
  ghost predicate HeldAt(m: State, i: nat, t: nat, owner: nat, calm: bool, cache: O.Cache, x: State)
    requires i < |m.procs|
  {
    var id, now := m.db.nextTicket, m.now;
    i < |x.procs| &&
    match x.procs[i]
    case CreateHolding(_, _, _, tx) => (tx.Some? ==> tx.value == now) && x == m.Put(i, CreateHolding(t, owner, true, tx))
    case CreateUpdated(_, _, _, _) => CanSell(m, t) && x == m.Put(i, CreateUpdated(t, owner, true, now))
    case CreateInserted(_, _, _, _, _) => CanSell(m, t) && x == DrawnIn(m).Put(i, CreateInserted(t, owner, true, now, id))
    case CreateStamped(_, _, _, _, _, _) => CanSell(m, t) && x == DrawnIn(m).Put(i, CreateStamped(t, owner, true, now, id, now))
    case CreateHashed(_, _, _, _, _, _) => CanSell(m, t) && x == HashedIn(m, t).Put(i, CreateHashed(t, owner, true, now, id, now))
    case CreateCommitted(_, _) => CanSell(m, t) && x == StoredIn(m, t, owner).Put(i, CreateCommitted(t, id))
    case CreateFailed(u, _, out) => u == t &&
      HeldOver(m, i, t, owner, calm, cache, x.(api := x.api.Incr(t)).Put(i, Done(out))) &&
      (!calm ==> HeldOver(m, i, t, owner, calm, cache, x.Put(i, Done(Crashed))))
    case Done(_) => HeldOver(m, i, t, owner, calm, cache, x)
    case _ => false
  }

  /** A step that fails: with the fault f if the compensation runs, with the fault d if it does not. */
  lemma Failing(m: State, i: nat, t: nat, owner: nat, calm: bool, cache: O.Cache, y: State, f: O.Fault, d: O.Fault)
    requires i < |m.procs| && i < |y.procs| && y.procs[i].CreateFailed? && y.procs[i].t == t && (calm ==> f == O.NoFault)
    requires y.(api := y.api.Incr(t)).Put(i, Done(y.procs[i].out)) == AdmittedEnd(m, i, t, owner, f, cache)
    requires y.Put(i, Done(Crashed)) == AdmittedEnd(m, i, t, owner, d, cache)
    ensures HeldAt(m, i, t, owner, calm, cache, y)
  {
  }

  lemma HoldingAborts(m: State, i: nat, t: nat, owner: nat, calm: bool, cache: O.Cache, y: State)
    requires i < |m.procs| && !calm && y == m.Put(i, CreateFailed(t, true, Failed))
    ensures HeldAt(m, i, t, owner, calm, cache, y)
  {
    PutPut(m, i, y.procs[i], Done(Failed));
    PutPut(m, i, y.procs[i], Done(Crashed));
    Failing(m, i, t, owner, calm, cache, y, O.AtUpdate, O.DiesAtGate);
  }

  lemma HoldingRefused(m: State, i: nat, t: nat, owner: nat, calm: bool, cache: O.Cache, y: State)
    requires i < |m.procs| && !CanSell(m, t)
    requires y == if t in m.db.types then m.Put(i, CreateFailed(t, true, SoldOut)) else DrawnIn(m).Put(i, CreateFailed(t, true, Failed))
    ensures HeldAt(m, i, t, owner, calm, cache, y)
  {
    var n := if t in m.db.types then m else DrawnIn(m);
    PutPut(n, i, y.procs[i], Done(y.procs[i].out));
    PutPut(n, i, y.procs[i], Done(Crashed));
    Failing(m, i, t, owner, calm, cache, y, O.NoFault, if t in m.db.types then O.DiesAtGate else O.DiesBeforeHash);
  }

  lemma HoldingStays(c: Config, m: State, i: nat, t: nat, owner: nat, calm: bool, cache: O.Cache, x: State, l: Label, y: State)
    requires i < |m.procs| && HeldAt(m, i, t, owner, calm, cache, x) && x.procs[i].CreateHolding?
    requires Own(l, i, calm) && Step(c, x, l) == Some(y)
    ensures HeldAt(m, i, t, owner, calm, cache, y)
  {
    hide DeleteStep, PayStep, ReleaseStep, HungStep, GcStep, AdminStep;
    PutPut(m, i, x.procs[i], y.procs[i]);
    PutPut(DrawnIn(m), i, x.procs[i], y.procs[i]);
    if l.act.Die? { assert y == AdmittedEnd(m, i, t, owner, O.DiesAtGate, cache); }
    else if l.act.Abort? { HoldingAborts(m, i, t, owner, calm, cache, y); }
    else if !CanSell(m, t) { HoldingRefused(m, i, t, owner, calm, cache, y); }
  }

  lemma UpdatedStays(c: Config, m: State, i: nat, t: nat, owner: nat, calm: bool, cache: O.Cache, x: State, l: Label, y: State)
    requires i < |m.procs| && HeldAt(m, i, t, owner, calm, cache, x) && x.procs[i].CreateUpdated?
    requires Own(l, i, calm) && Step(c, x, l) == Some(y)
    ensures HeldAt(m, i, t, owner, calm, cache, y)
  {
    hide DeleteStep, PayStep, ReleaseStep, HungStep, GcStep, AdminStep;
    PutPut(m, i, x.procs[i], y.procs[i]);
    if l.act.Die? {
      assert y == AdmittedEnd(m, i, t, owner, O.DiesAtGate, cache);
    } else if l.act.Abort? {
      PutPut(m, i, y.procs[i], Done(Failed));
      PutPut(m, i, y.procs[i], Done(Crashed));
      Failing(m, i, t, owner, calm, cache, y, O.AtUpdate, O.DiesAtGate);
    } else {
      PutPut(DrawnIn(m), i, x.procs[i], y.procs[i]);
    }
  }

  lemma DrawnStays(c: Config, m: State, i: nat, t: nat, owner: nat, calm: bool, cache: O.Cache, x: State, l: Label, y: State)
    requires i < |m.procs| && HeldAt(m, i, t, owner, calm, cache, x) && (x.procs[i].CreateInserted? || x.procs[i].CreateStamped?)
    requires Own(l, i, calm) && Step(c, x, l) == Some(y)
    ensures HeldAt(m, i, t, owner, calm, cache, y)
  {
    hide DeleteStep, PayStep, ReleaseStep, HungStep, GcStep, AdminStep;
    PutPut(DrawnIn(m), i, x.procs[i], y.procs[i]);
    PutPut(HashedIn(m, t), i, x.procs[i], y.procs[i]);
    if l.act.Die? { assert y == AdmittedEnd(m, i, t, owner, O.DiesBeforeHash, cache); }
  }

  lemma HashedStays(c: Config, m: State, i: nat, t: nat, owner: nat, calm: bool, cache: O.Cache, x: State, l: Label, y: State)
    requires i < |m.procs| && HeldAt(m, i, t, owner, calm, cache, x) && x.procs[i].CreateHashed?
    requires Own(l, i, calm) && Step(c, x, l) == Some(y)
    ensures HeldAt(m, i, t, owner, calm, cache, y)
  {
    hide DeleteStep, PayStep, ReleaseStep, HungStep, GcStep, AdminStep;
    PutPut(HashedIn(m, t), i, x.procs[i], y.procs[i]);
    if l.act.Die? {
      assert y == AdmittedEnd(m, i, t, owner, O.DiesAfterHash, cache);
    } else if l.act.Abort? {
      PutPut(HashedIn(m, t), i, y.procs[i], Done(Failed));
      PutPut(HashedIn(m, t), i, y.procs[i], Done(Crashed));
      Failing(m, i, t, owner, calm, cache, y, O.AtCommit, O.DiesAfterHash);
    } else {
      PutPut(StoredIn(m, t, owner), i, x.procs[i], y.procs[i]);
    }
  }

  lemma CommittedStays(c: Config, m: State, i: nat, t: nat, owner: nat, calm: bool, cache: O.Cache, x: State, l: Label, y: State)
    requires i < |m.procs| && HeldAt(m, i, t, owner, calm, cache, x) && x.procs[i].CreateCommitted?
    requires Own(l, i, calm) && Step(c, x, l) == Some(y)
    ensures HeldAt(m, i, t, owner, calm, cache, y)
  {
    hide DeleteStep, PayStep, ReleaseStep, HungStep, GcStep, AdminStep;
    var stored := StoredIn(m, t, owner);
    PutPut(stored, i, x.procs[i], y.procs[i]);
    if l.act.Die? {
      assert y == AdmittedEnd(m, i, t, owner, O.DiesAfterCommit, cache);
    } else if l.act.RefreshFails? {
      PutPut(stored, i, y.procs[i], Done(Failed));
      PutPut(stored, i, y.procs[i], Done(Crashed));
      Failing(m, i, t, owner, calm, cache, y, O.AtRefresh, O.DiesAfterCommit);
    } else {
      assert y == AdmittedEnd(m, i, t, owner, O.NoFault, cache);
    }
  }

  lemma FailedStays(c: Config, m: State, i: nat, t: nat, owner: nat, calm: bool, cache: O.Cache, x: State, l: Label, y: State)
    requires i < |m.procs| && HeldAt(m, i, t, owner, calm, cache, x) && x.procs[i].CreateFailed?
    requires Own(l, i, calm) && Step(c, x, l) == Some(y)
    ensures HeldAt(m, i, t, owner, calm, cache, y)
  {
    hide DeleteStep, PayStep, ReleaseStep, HungStep, GcStep, AdminStep, HeldOver;
  }

  /** A process that has ended makes no step of its own. */
  lemma NotDone(c: Config, i: nat, calm: bool, x: State, l: Label, y: State)
    requires i < |x.procs| && Own(l, i, calm) && Step(c, x, l) == Some(y)
    ensures !x.procs[i].Done?
  {
  }

  lemma HeldStays(c: Config, m: State, i: nat, t: nat, owner: nat, calm: bool, cache: O.Cache, x: State, l: Label, y: State)
    requires i < |m.procs| && HeldAt(m, i, t, owner, calm, cache, x) && Own(l, i, calm) && Step(c, x, l) == Some(y)
    ensures HeldAt(m, i, t, owner, calm, cache, y)
  {
    hide Step, HeldOver;
    NotDone(c, i, calm, x, l, y);
    match x.procs[i]
    case CreateHolding(_, _, _, _) => HoldingStays(c, m, i, t, owner, calm, cache, x, l, y);
    case CreateUpdated(_, _, _, _) => UpdatedStays(c, m, i, t, owner, calm, cache, x, l, y);
    case CreateInserted(_, _, _, _, _) => DrawnStays(c, m, i, t, owner, calm, cache, x, l, y);
    case CreateStamped(_, _, _, _, _, _) => DrawnStays(c, m, i, t, owner, calm, cache, x, l, y);
    case CreateHashed(_, _, _, _, _, _) => HashedStays(c, m, i, t, owner, calm, cache, x, l, y);
    case CreateCommitted(_, _) => CommittedStays(c, m, i, t, owner, calm, cache, x, l, y);
    case CreateFailed(_, _, _) => FailedStays(c, m, i, t, owner, calm, cache, x, l, y);
    case _ =>
  }

  // ---------- create ----------

  function Warmed(s: State, t: nat): State
    requires t in s.api.counters || t in s.db.types
    ensures t in Warmed(s, t).api.counters
  {
    if t in s.api.counters then s else s.(api := s.api.SetCounter(t, s.db.types[t].quantity - s.db.types[t].sold))
  }

  predicate Admits(s: State, t: nat) {
    (t in s.api.counters || t in s.db.types) && Warmed(s, t).api.counters[t] > 0
  }

  function TakenIn(s: State, t: nat): State
    requires Admits(s, t)
  {
    var w := Warmed(s, t);
    w.(api := w.api.SetCounter(t, w.api.counters[t] - 1))
  }

  ghost predicate CreateOver(s: State, i: nat, t: nat, owner: nat, calm: bool, cache: O.Cache, x: State)
    requires i < |s.procs|
  {
    exists fault :: (calm ==> fault == O.NoFault) && x == CreateEnd(s, i, t, owner, fault, cache)
  }

  ghost predicate CreateAt(s: State, i: nat, t: nat, owner: nat, calm: bool, cache: O.Cache, x: State)
    requires i < |s.procs|
  {
    var cold := t !in s.api.counters && t in s.db.types;
    i < |x.procs| &&
    match x.procs[i]
    case CreateStart(_, _) => x == s.Put(i, CreateStart(t, owner))
    case CreateMiss(_, _) => t !in s.api.counters && x == s.Put(i, CreateMiss(t, owner))
    case CreateWarm(_, _, _, _) => cold && x == s.Put(i, CreateWarm(t, owner, s.db.types[t].quantity - s.db.types[t].sold, s.now))
    case CreateRetry(_, _, _) => cold && x == Warmed(s, t).Put(i, CreateRetry(t, owner, s.now))
    case Done(_) => CreateOver(s, i, t, owner, calm, cache, x)
    case _ => Admits(s, t) && HeldAt(TakenIn(s, t), i, t, owner, calm, cache, x)
  }

  lemma StartStays(c: Config, s: State, i: nat, t: nat, owner: nat, calm: bool, cache: O.Cache, x: State, l: Label, y: State)
    requires i < |s.procs| && CreateAt(s, i, t, owner, calm, cache, x) && x.procs[i].CreateStart?
    requires Own(l, i, calm) && Step(c, x, l) == Some(y)
    ensures CreateAt(s, i, t, owner, calm, cache, y)
  {
    hide DeleteStep, PayStep, ReleaseStep, HungStep, GcStep, AdminStep;
    PutPut(s, i, x.procs[i], y.procs[i]);
    if l.act.Die? { assert y == CreateEnd(s, i, t, owner, O.DiesAtOnce, cache); }
    else if y.procs[i].Done? { assert y == CreateEnd(s, i, t, owner, O.NoFault, cache); }
    else if y.procs[i].CreateHolding? { PutPut(TakenIn(s, t), i, x.procs[i], y.procs[i]); }
  }

  lemma ColdStays(c: Config, s: State, i: nat, t: nat, owner: nat, calm: bool, cache: O.Cache, x: State, l: Label, y: State)
    requires i < |s.procs| && CreateAt(s, i, t, owner, calm, cache, x) && (x.procs[i].CreateMiss? || x.procs[i].CreateWarm?)
    requires Own(l, i, calm) && Step(c, x, l) == Some(y)
    ensures CreateAt(s, i, t, owner, calm, cache, y)
  {
    hide DeleteStep, PayStep, ReleaseStep, HungStep, GcStep, AdminStep;
    PutPut(s, i, x.procs[i], y.procs[i]);
    if l.act.Die? { assert y == CreateEnd(s, i, t, owner, O.DiesAtOnce, cache); }
    else if y.procs[i].Done? { assert y == CreateEnd(s, i, t, owner, O.NoFault, cache); }
    else if y.procs[i].CreateRetry? { PutPut(Warmed(s, t), i, x.procs[i], y.procs[i]); }
  }

  lemma RetryStays(c: Config, s: State, i: nat, t: nat, owner: nat, calm: bool, cache: O.Cache, x: State, l: Label, y: State)
    requires i < |s.procs| && CreateAt(s, i, t, owner, calm, cache, x) && x.procs[i].CreateRetry?
    requires Own(l, i, calm) && Step(c, x, l) == Some(y)
    ensures CreateAt(s, i, t, owner, calm, cache, y)
  {
    hide DeleteStep, PayStep, ReleaseStep, HungStep, GcStep, AdminStep;
    PutPut(Warmed(s, t), i, x.procs[i], y.procs[i]);
    if l.act.Die? { assert y == CreateEnd(s, i, t, owner, O.DiesCold, cache); }
    else if y.procs[i].Done? { assert y == CreateEnd(s, i, t, owner, O.NoFault, cache); }
    else { PutPut(TakenIn(s, t), i, x.procs[i], y.procs[i]); }
  }

  /** Past the gate the faults before it are none. */
  lemma FaultsBefore(m: State, i: nat, t: nat, owner: nat, fault: O.Fault, cache: O.Cache)
    requires i < |m.procs| && (fault == O.DiesAtOnce || fault == O.DiesCold)
    ensures AdmittedEnd(m, i, t, owner, fault, cache) == AdmittedEnd(m, i, t, owner, O.NoFault, cache)
  {
  }

  lemma HeldIsCreate(s: State, i: nat, t: nat, owner: nat, calm: bool, cache: O.Cache, x: State)
    requires i < |s.procs| && Admits(s, t) && HeldAt(TakenIn(s, t), i, t, owner, calm, cache, x)
    ensures CreateAt(s, i, t, owner, calm, cache, x)
  {
    hide AdmittedEnd;
    if x.procs[i].Done? {
      var fault :| (calm ==> fault == O.NoFault) && x == AdmittedEnd(TakenIn(s, t), i, t, owner, fault, cache);
      var same := if fault == O.DiesAtOnce || fault == O.DiesCold then O.NoFault else fault;
      if same != fault { FaultsBefore(TakenIn(s, t), i, t, owner, fault, cache); }
      assert x == CreateEnd(s, i, t, owner, same, cache);
    }
  }

  lemma CreateStays(c: Config, s: State, i: nat, t: nat, owner: nat, calm: bool, cache: O.Cache, x: State, l: Label, y: State)
    requires i < |s.procs| && CreateAt(s, i, t, owner, calm, cache, x) && Own(l, i, calm) && Step(c, x, l) == Some(y)
    ensures CreateAt(s, i, t, owner, calm, cache, y)
  {
    hide Step, HeldOver, HeldAt, CreateOver;
    NotDone(c, i, calm, x, l, y);
    var p := x.procs[i];
    if p.CreateStart? {
      StartStays(c, s, i, t, owner, calm, cache, x, l, y);
    } else if p.CreateMiss? || p.CreateWarm? {
      ColdStays(c, s, i, t, owner, calm, cache, x, l, y);
    } else if p.CreateRetry? {
      RetryStays(c, s, i, t, owner, calm, cache, x, l, y);
    } else {
      HeldStays(c, TakenIn(s, t), i, t, owner, calm, cache, x, l, y);
      HeldIsCreate(s, i, t, owner, calm, cache, y);
    }
  }

  /** Every undisturbed create ends as the complete one does, for some fault; a calm one as the
      complete one without a fault. */
  lemma CreateEnds(c: Config, states: seq<State>, labels: seq<Label>, i: nat, t: nat, owner: nat, cache: O.Cache, calm: bool)
    returns (fault: O.Fault)
    requires RunsFrom(c, states, labels, i, calm, CreateStart(t, owner))
    ensures calm ==> fault == O.NoFault
    ensures var (w', reply) := O.Create(WorldIn(states[0], cache), owner, t, states[0].now, fault);
      states[|labels|] == Ended(states[0], i, w', reply)
  {
    var s := states[0];
    PutPut(s, i, CreateStart(t, owner), CreateStart(t, owner));
    forall x, l, y | CreateAt(s, i, t, owner, calm, cache, x) && Own(l, i, calm) && Step(c, x, l) == Some(y)
      ensures CreateAt(s, i, t, owner, calm, cache, y) { CreateStays(c, s, i, t, owner, calm, cache, x, l, y); }
    EndsAt(c, states, labels, i, calm, x => CreateAt(s, i, t, owner, calm, cache, x));
    fault :| (calm ==> fault == O.NoFault) && states[|labels|] == CreateEnd(s, i, t, owner, fault, cache);
    CreateCases(s, i, t, owner, fault, cache);
  }

  // ---------- delete ----------

  ghost predicate DeleteOver(s: State, i: nat, id: nat, owner: nat, calm: bool, x: State)
    requires i < |s.procs|
  {
    exists fault :: (calm ==> fault == O.NoFault) && x == DeleteEnd(s, i, id, owner, fault)
  }

  function RemovedIn(s: State, t: nat, id: nat): State {
    s.(db := RemovedDb(s, t, id))
  }

  ghost predicate DeleteAt(s: State, i: nat, id: nat, owner: nat, calm: bool, x: State)
    requires i < |s.procs|
  {
    var t := if id in s.db.tickets then s.db.tickets[id].typeId else 0;
    i < |x.procs| &&
    match x.procs[i]
    case DeleteStart(_, _) => x == s.Put(i, DeleteStart(id, owner))
    case DeleteFound(_, _) => Owned(s, id, owner) && x == s.Put(i, DeleteFound(id, t))
    case DeleteUpdated(_, _) => Owned(s, id, owner) && CanSubtract(s.db, t, 1) && x == s.Put(i, DeleteUpdated(id, t))
    case DeleteRemoved(_, _) => Owned(s, id, owner) && CanSubtract(s.db, t, 1) && x == s.Put(i, DeleteRemoved(id, t))
    case DeleteCommitted(_, _) => Owned(s, id, owner) && CanSubtract(s.db, t, 1) && x == RemovedIn(s, t, id).Put(i, DeleteCommitted(id, t))
    case DeleteCredited(_) => Owned(s, id, owner) && CanSubtract(s.db, t, 1) &&
      x == RemovedIn(s, t, id).(api := s.api.SafeIncr(t)).Put(i, DeleteCredited(id))
    case Done(_) => DeleteOver(s, i, id, owner, calm, x)
    case _ => false
  }

  lemma FoundStays(c: Config, s: State, i: nat, id: nat, owner: nat, calm: bool, x: State, l: Label, y: State)
    requires i < |s.procs| && DeleteAt(s, i, id, owner, calm, x) && Own(l, i, calm) && Step(c, x, l) == Some(y)
    requires x.procs[i].DeleteStart? || x.procs[i].DeleteFound? || x.procs[i].DeleteUpdated? || x.procs[i].DeleteRemoved?
    ensures DeleteAt(s, i, id, owner, calm, y)
  {
    hide CreateStep, PayStep, ReleaseStep, HungStep, GcStep, AdminStep;
    var t := if id in s.db.tickets then s.db.tickets[id].typeId else 0;
    PutPut(s, i, x.procs[i], y.procs[i]);
    PutPut(RemovedIn(s, t, id), i, x.procs[i], y.procs[i]);
    if l.act.Die? { assert y == DeleteEnd(s, i, id, owner, O.DiesAtOnce); }
    else if l.act.Abort? { assert y == DeleteEnd(s, i, id, owner, O.AtUpdate); }
    else if y.procs[i].Done? { assert y == DeleteEnd(s, i, id, owner, O.NoFault); }
  }

  lemma RemovedStays(c: Config, s: State, i: nat, id: nat, owner: nat, calm: bool, x: State, l: Label, y: State)
    requires i < |s.procs| && DeleteAt(s, i, id, owner, calm, x) && Own(l, i, calm) && Step(c, x, l) == Some(y)
    requires x.procs[i].DeleteCommitted? || x.procs[i].DeleteCredited?
    ensures DeleteAt(s, i, id, owner, calm, y)
  {
    hide CreateStep, PayStep, ReleaseStep, HungStep, GcStep, AdminStep;
    var t := s.db.tickets[id].typeId;
    var removed := RemovedIn(s, t, id);
    var fault := if !l.act.Die? then O.NoFault else if x.procs[i].DeleteCommitted? then O.DiesAfterCommit else O.DiesAfterCounter;
    PutPut(removed, i, x.procs[i], y.procs[i]);
    PutPut(removed.(api := s.api.SafeIncr(t)), i, x.procs[i], y.procs[i]);
    PutPut(removed.(api := s.api.SafeIncr(t).Hdel(id)), i, x.procs[i], y.procs[i]);
    if y.procs[i].Done? { assert y == DeleteEnd(s, i, id, owner, fault); }
  }

  lemma DeleteEnds(c: Config, states: seq<State>, labels: seq<Label>, i: nat, id: nat, owner: nat, cache: O.Cache, calm: bool)
    returns (fault: O.Fault)
    requires RunsFrom(c, states, labels, i, calm, DeleteStart(id, owner))
    ensures calm ==> fault == O.NoFault
    ensures var (w', reply) := O.Delete(WorldIn(states[0], cache), owner, id, fault);
      states[|labels|] == Ended(states[0], i, w', reply)
  {
    var s := states[0];
    PutPut(s, i, DeleteStart(id, owner), DeleteStart(id, owner));
    forall x, l, y | DeleteAt(s, i, id, owner, calm, x) && Own(l, i, calm) && Step(c, x, l) == Some(y)
      ensures DeleteAt(s, i, id, owner, calm, y)
    {
      if x.procs[i].DeleteCommitted? || x.procs[i].DeleteCredited? { RemovedStays(c, s, i, id, owner, calm, x, l, y); }
      else if !x.procs[i].Done? { FoundStays(c, s, i, id, owner, calm, x, l, y); }
    }
    EndsAt(c, states, labels, i, calm, x => DeleteAt(s, i, id, owner, calm, x));
    fault :| (calm ==> fault == O.NoFault) && states[|labels|] == DeleteEnd(s, i, id, owner, fault);
    DeleteCases(s, i, id, owner, fault, cache);
  }

  // ---------- pay ----------

  ghost predicate PayOver(s: State, i: nat, id: nat, owner: nat, calm: bool, x: State)
    requires i < |s.procs|
  {
    exists fault :: (calm ==> fault == O.NoFault) && x == PayEnd(s, i, id, owner, fault)
  }

  ghost predicate PayAt(s: State, i: nat, id: nat, owner: nat, calm: bool, x: State)
    requires i < |s.procs|
  {
    i < |x.procs| &&
    match x.procs[i]
    case PayStart(_, _) => x == s.Put(i, PayStart(id, owner))
    case PayLocked(_) => Payable(s, id, owner) && x == s.Put(i, PayLocked(id))
    case PayCommitted(_) => Payable(s, id, owner) && x == SoldIn(s, id).Put(i, PayCommitted(id))
    case Done(_) => PayOver(s, i, id, owner, calm, x)
    case _ => false
  }

  lemma PayStays(c: Config, s: State, i: nat, id: nat, owner: nat, calm: bool, x: State, l: Label, y: State)
    requires i < |s.procs| && PayAt(s, i, id, owner, calm, x) && Own(l, i, calm) && Step(c, x, l) == Some(y)
    requires x.procs[i].PayStart? || x.procs[i].PayLocked?
    ensures PayAt(s, i, id, owner, calm, y)
  {
    hide CreateStep, DeleteStep, ReleaseStep, HungStep, GcStep, AdminStep;
    PutPut(s, i, x.procs[i], y.procs[i]);
    if l.act.Die? { assert y == PayEnd(s, i, id, owner, O.DiesAtOnce); }
    else if l.act.Abort? { assert y == PayEnd(s, i, id, owner, O.AtCommit); }
    else if y.procs[i].Done? { assert y == PayEnd(s, i, id, owner, O.NoFault); }
    else if y.procs[i].PayCommitted? { PutPut(SoldIn(s, id), i, x.procs[i], y.procs[i]); }
  }

  lemma SoldStays(c: Config, s: State, i: nat, id: nat, owner: nat, calm: bool, x: State, l: Label, y: State)
    requires i < |s.procs| && PayAt(s, i, id, owner, calm, x) && Own(l, i, calm) && Step(c, x, l) == Some(y)
    requires x.procs[i].PayCommitted?
    ensures PayAt(s, i, id, owner, calm, y)
  {
    hide CreateStep, DeleteStep, ReleaseStep, HungStep, GcStep, AdminStep;
    var sold := SoldIn(s, id);
    PutPut(sold, i, x.procs[i], y.procs[i]);
    PutPut(sold.(api := s.api.Hdel(id)), i, x.procs[i], y.procs[i]);
    if l.act.Die? { assert y == PayEnd(s, i, id, owner, O.DiesAfterCommit); }
    else if l.act.RefreshFails? { assert y == PayEnd(s, i, id, owner, O.AtRefresh); }
    else { assert y == PayEnd(s, i, id, owner, O.NoFault); }
  }

  lemma PayEnds(c: Config, states: seq<State>, labels: seq<Label>, i: nat, id: nat, owner: nat, cache: O.Cache, calm: bool)
    returns (fault: O.Fault)
    requires RunsFrom(c, states, labels, i, calm, PayStart(id, owner))
    ensures calm ==> fault == O.NoFault
    ensures var (w', reply) := O.Pay(WorldIn(states[0], cache), owner, id, fault);
      states[|labels|] == Ended(states[0], i, w', reply)
  {
    var s := states[0];
    PutPut(s, i, PayStart(id, owner), PayStart(id, owner));
    forall x, l, y | PayAt(s, i, id, owner, calm, x) && Own(l, i, calm) && Step(c, x, l) == Some(y)
      ensures PayAt(s, i, id, owner, calm, y)
    {
      if x.procs[i].PayCommitted? { SoldStays(c, s, i, id, owner, calm, x, l, y); }
      else if !x.procs[i].Done? { PayStays(c, s, i, id, owner, calm, x, l, y); }
    }
    EndsAt(c, states, labels, i, calm, x => PayAt(s, i, id, owner, calm, x));
    fault :| (calm ==> fault == O.NoFault) && states[|labels|] == PayEnd(s, i, id, owner, fault);
    PayCases(s, i, id, owner, fault, cache);
  }

  // ---------- release ----------

  ghost predicate ReleaseOver(s: State, i: nat, id: nat, calm: bool, x: State)
    requires i < |s.procs|
  {
    exists fault :: (calm ==> fault == O.NoFault) && x == ReleaseEnd(s, i, id, fault)
  }

  ghost predicate ReleaseAt(s: State, i: nat, id: nat, calm: bool, x: State)
    requires i < |s.procs|
  {
    var t := if id in s.db.tickets then s.db.tickets[id].typeId else 0;
    i < |x.procs| &&
    match x.procs[i]
    case ReleaseStart(_) => x == s.Put(i, ReleaseStart(id))
    case ReleaseLocked(_, _) => IsReserved(s.db, id) && x == s.Put(i, ReleaseLocked(id, t))
    case ReleaseUpdated(_, _) => IsReserved(s.db, id) && CanSubtract(s.db, t, 1) && x == s.Put(i, ReleaseUpdated(id, t))
    case ReleaseRefunded(_, _) => IsReserved(s.db, id) && CanSubtract(s.db, t, 1) &&
      x == s.(api := s.api.Refund(t, id)).Put(i, ReleaseRefunded(id, t))
    case Done(_) => ReleaseOver(s, i, id, calm, x)
    case _ => false
  }

  lemma LockedStays(c: Config, s: State, i: nat, id: nat, calm: bool, x: State, l: Label, y: State)
    requires c.shared && i < |s.procs| && ReleaseAt(s, i, id, calm, x) && Own(l, i, calm) && Step(c, x, l) == Some(y)
    requires x.procs[i].ReleaseStart? || x.procs[i].ReleaseLocked? || x.procs[i].ReleaseUpdated?
    ensures ReleaseAt(s, i, id, calm, y)
  {
    hide CreateStep, DeleteStep, PayStep, HungStep, GcStep, AdminStep;
    PutPut(s, i, x.procs[i], y.procs[i]);
    if l.act.Die? { assert y == ReleaseEnd(s, i, id, O.DiesAtOnce); }
    else if l.act.Abort? { assert y == ReleaseEnd(s, i, id, O.AtUpdate); }
    else if y.procs[i].Done? { assert y == ReleaseEnd(s, i, id, O.NoFault); }
    else if y.procs[i].ReleaseRefunded? { PutPut(s.(api := y.api), i, x.procs[i], y.procs[i]); }
  }

  lemma RefundedStays(c: Config, s: State, i: nat, id: nat, calm: bool, x: State, l: Label, y: State)
    requires c.shared && i < |s.procs| && ReleaseAt(s, i, id, calm, x) && Own(l, i, calm) && Step(c, x, l) == Some(y)
    requires x.procs[i].ReleaseRefunded?
    ensures ReleaseAt(s, i, id, calm, y)
  {
    hide CreateStep, DeleteStep, PayStep, HungStep, GcStep, AdminStep;
    var t := s.db.tickets[id].typeId;
    var refunded := s.(api := s.api.Refund(t, id));
    PutPut(refunded, i, x.procs[i], y.procs[i]);
    PutPut(refunded.(db := CanceledDb(s, t, id)), i, x.procs[i], y.procs[i]);
    if l.act.Die? { assert y == ReleaseEnd(s, i, id, O.DiesAfterCounter); }
    else if l.act.Abort? { assert y == ReleaseEnd(s, i, id, O.AtCommit); }
    else { assert y == ReleaseEnd(s, i, id, O.NoFault); }
  }

  lemma ReleaseEnds(c: Config, states: seq<State>, labels: seq<Label>, i: nat, id: nat, cache: O.Cache, calm: bool)
    returns (fault: O.Fault)
    requires c.shared && RunsFrom(c, states, labels, i, calm, ReleaseStart(id))
    ensures calm ==> fault == O.NoFault
    ensures var (w', reply) := O.Release(WorldIn(states[0], cache), id, fault);
      states[|labels|] == Ended(states[0], i, w', reply)
  {
    var s := states[0];
    PutPut(s, i, ReleaseStart(id), ReleaseStart(id));
    forall x, l, y | ReleaseAt(s, i, id, calm, x) && Own(l, i, calm) && Step(c, x, l) == Some(y)
      ensures ReleaseAt(s, i, id, calm, y)
    {
      if x.procs[i].ReleaseRefunded? { RefundedStays(c, s, i, id, calm, x, l, y); }
      else if !x.procs[i].Done? { LockedStays(c, s, i, id, calm, x, l, y); }
    }
    EndsAt(c, states, labels, i, calm, x => ReleaseAt(s, i, id, calm, x));
    fault :| (calm ==> fault == O.NoFault) && states[|labels|] == ReleaseEnd(s, i, id, fault);
    ReleaseCases(s, i, id, fault, cache);
  }
}
