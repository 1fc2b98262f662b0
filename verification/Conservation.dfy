/** Conservation of inventory between the two stores. For a type with a warm counter and no admin
    operation, counter + slots in the hands of requests + tickets_sold - quantity - refunded live
    tickets moves only by named faults, one by one, in every interleaving. */
module Conservation {
  import opened Stores
  import opened Protocol
  import opened Invariants
  import opened Ledger

  /** The process owes the counter one unit: it took it at the gate, or has freed it by a delete. */
  predicate HasSlot(p: Proc, t: nat) {
    match p
    case CreateHolding(u, _, slot, _) => u == t && slot
    case CreateUpdated(u, _, slot, _) => u == t && slot
    case CreateInserted(u, _, slot, _, _) => u == t && slot
    case CreateStamped(u, _, slot, _, _, _) => u == t && slot
    case CreateHashed(u, _, slot, _, _, _) => u == t && slot
    case CreateFailed(u, slot, _) => u == t && slot
    case DeleteCommitted(_, u) => u == t
    case _ => false
  }

  function Slots(procs: seq<Proc>, t: nat): set<nat> {
    set j | 0 <= j < |procs| && HasSlot(procs[j], t)
  }

  /** Live tickets whose slot the counter already has back: refunds not yet committed. */
  function RefundedLive(s: State, t: nat): set<nat> {
    set id | id in LiveOf(s.db, t) && id in s.api.processed
  }

  function Balance(s: State, t: nat): int
    requires t in s.db.types && t in s.api.counters
  {
    s.api.counters[t] + |Slots(s.procs, t)| + s.db.types[t].sold - s.db.types[t].quantity - |RefundedLive(s, t)|
  }

  /** Admin operations on the type, cold-counter warming, and requests let in without a slot. */
  predicate Disturbs(p: Proc, t: nat) {
    match p
    case CreateMiss(u, _) => u == t
    case CreateWarm(u, _, _, _) => u == t
    case CreateHolding(u, _, slot, _) => u == t && !slot
    case CreateUpdated(u, _, slot, _) => u == t && !slot
    case CreateInserted(u, _, slot, _, _) => u == t && !slot
    case CreateStamped(u, _, slot, _, _, _) => u == t && !slot
    case CreateHashed(u, _, slot, _, _, _) => u == t && !slot
    case NewTypeCommitted(u) => u == t
    case NewTypeSet(u, _) => u == t
    case UpdateStart(u, _) => u == t
    case UpdateReady(u, _) => u == t
    case UpdateCommitted(u) => u == t
    case UpdateSet(u, _) => u == t
    case DropStart(u) => u == t
    case DropReady(u) => u == t
    case DropCommitted(u) => u == t
    case _ => false
  }

  ghost predicate Steady(s: State, t: nat) {
    t in s.db.types && t in s.api.counters && s.api.counters[t] >= 0 &&
    forall j :: 0 <= j < |s.procs| ==> !Disturbs(s.procs[j], t)
  }

  predicate StartsAdmin(l: Label, t: nat) {
    l.act.Spawn? && Disturbs(l.act.p, t)
  }

  /** The faults, and what each is worth to the balance:
      a process dies with a slot (-1); a create compensates although its commit stood (+1); a create
      commits an id that was refunded meanwhile (-1); a delete frees a ticket already refunded (+1);
      a worker cancels without a credit in the API's Redis (-1 each); a collector credits an id that
      is not live (+1). */
  function Fault(c: Config, s: State, l: Label, t: nat): int {
    if l.i >= |s.procs| || l.act.Tick? then 0
    else
      var p := s.procs[l.i];
      if l.act.Die? then -Bit(HasSlot(p, t))
      else match p
        case CreateFailed(u, slot, _) => Bit(l.act.Compensate? && u == t && !slot)
        case CreateHashed(u, _, _, _, id, _) => -Bit(l.act.Commit? && u == t && id in s.api.processed)
        case DeleteRemoved(id, u) => Bit(l.act.Commit? && u == t && id in RefundedLive(s, t))
        case ReleaseRefunded(id, u) => -Bit(l.act.Commit? && u == t && id !in s.api.processed)
        case HungRefunding(locked, _) =>
          if l.act.Commit? then -|OfType(locked, t) - s.api.processed| else 0
        case GcRefunding(entries) =>
          Bit(l.act.Refund? && c.shared && l.act.id in entries && entries[l.act.id].typeId == t
              && l.act.id !in s.api.processed && l.act.id !in LiveOf(s.db, t))
        case _ => 0
  }

  lemma MovedSlot(s: State, s': State, i: nat, t: nat)
    requires OnlyProc(s, s', i)
    ensures |Slots(s'.procs, t)| == |Slots(s.procs, t)| - Bit(HasSlot(s.procs[i], t)) + Bit(HasSlot(s'.procs[i], t))
  {
    assert Slots(s.procs, t) - {i} == Slots(s'.procs, t) - {i};
    SwapOne(Slots(s.procs, t), Slots(s'.procs, t), i);
  }

  lemma SameRefunds(s: State, s': State, t: nat)
    requires s'.db.tickets == s.db.tickets && s'.api.processed == s.api.processed
    ensures RefundedLive(s', t) == RefundedLive(s, t)
  {
    assert LiveOf(s'.db, t) == LiveOf(s.db, t);
  }

  lemma MovedSteady(s: State, s': State, i: nat, t: nat)
    requires Steady(s, t) && OnlyProc(s, s', i) && !Disturbs(s'.procs[i], t)
    requires t in s'.db.types && t in s'.api.counters && s'.api.counters[t] >= 0
    ensures Steady(s', t)
  {
  }

  /** A step that keeps the type's row, the tickets and the processed set. */
  lemma CounterBalance(s: State, s': State, i: nat, t: nat)
    requires Steady(s, t) && OnlyProc(s, s', i) && !Disturbs(s'.procs[i], t)
    requires t in s'.db.types && s'.db.types[t] == s.db.types[t]
    requires s'.db.tickets == s.db.tickets && s'.api.processed == s.api.processed
    requires t in s'.api.counters && s'.api.counters[t] >= 0
    ensures Steady(s', t)
    ensures Balance(s', t) == Balance(s, t) + s'.api.counters[t] - s.api.counters[t]
            - Bit(HasSlot(s.procs[i], t)) + Bit(HasSlot(s'.procs[i], t))
  {
    MovedSlot(s, s', i, t);
    SameRefunds(s, s', t);
    MovedSteady(s, s', i, t);
  }

  lemma LiveAdded(s: State, s': State, id: nat, k: Ticket, t: nat)
    requires id !in s.db.tickets && k.Live() && s'.db.tickets == s.db.tickets[id := k]
    requires s'.api.processed == s.api.processed
    ensures |RefundedLive(s', t)| == |RefundedLive(s, t)| + Bit(k.typeId == t && id in s.api.processed)
  {
    assert RefundedLive(s', t) - {id} == RefundedLive(s, t) - {id};
    SwapOne(RefundedLive(s, t), RefundedLive(s', t), id);
  }

  lemma LiveRemoved(s: State, s': State, id: nat, t: nat)
    requires LiveOf(s'.db, t) == LiveOf(s.db, t) - {id} && s'.api.processed == s.api.processed
    ensures |RefundedLive(s', t)| == |RefundedLive(s, t)| - Bit(id in RefundedLive(s, t))
  {
    assert RefundedLive(s', t) == RefundedLive(s, t) - {id};
    SizeWithout(RefundedLive(s, t), id);
  }

  lemma CreateCommitBalance(c: Config, s: State, i: nat, s': State, t: nat)
    requires Inv(c, s) && Steady(s, t) && i < |s.procs| && s.procs[i].CreateHashed? && CreateStep(s, i, Commit) == Some(s')
    ensures Steady(s', t) && Balance(s', t) == Balance(s, t) + Fault(c, s, Label(i, Commit), t)
  {
    var p := s.procs[i];
    assert ProcOk(c, s, p) && !Disturbs(p, t);
    LiveAdded(s, s', p.id, Ticket(p.t, p.owner, RESERVED, p.start), t);
    MovedSlot(s, s', i, t);
    MovedSteady(s, s', i, t);
  }

  /** The steps of a create before and after its commit touch no table. */
  lemma CreateOtherBalance(c: Config, s: State, i: nat, a: Action, s': State, t: nat)
    requires Inv(c, s) && Steady(s, t) && i < |s.procs| && CreateStep(s, i, a) == Some(s')
    requires !(s.procs[i].CreateHashed? && a.Commit?)
    ensures Steady(s', t) && Balance(s', t) == Balance(s, t) + Fault(c, s, Label(i, a), t)
  {
    hide Exclusive, RedisOk, DbOk, ProcOk;
    assert !Disturbs(s.procs[i], t);
    CounterBalance(s, s', i, t);
  }

  lemma CreateBalance(c: Config, s: State, i: nat, a: Action, s': State, t: nat)
    requires Inv(c, s) && Steady(s, t) && i < |s.procs| && CreateStep(s, i, a) == Some(s')
    ensures Steady(s', t) && Balance(s', t) == Balance(s, t) + Fault(c, s, Label(i, a), t)
  {
    if s.procs[i].CreateHashed? && a.Commit? {
      CreateCommitBalance(c, s, i, s', t);
    } else {
      CreateOtherBalance(c, s, i, a, s', t);
    }
  }

  lemma DeleteCommitBalance(c: Config, s: State, i: nat, s': State, t: nat)
    requires Inv(c, s) && Steady(s, t) && i < |s.procs| && s.procs[i].DeleteRemoved? && DeleteStep(s, i, Commit) == Some(s')
    ensures Steady(s', t) && Balance(s', t) == Balance(s, t) + Fault(c, s, Label(i, Commit), t)
  {
    var p := s.procs[i];
    assert ProcOk(c, s, p);
    assert LiveOf(s'.db, t) == LiveOf(s.db, t) - {p.id};
    LiveRemoved(s, s', p.id, t);
    MovedSlot(s, s', i, t);
    MovedSteady(s, s', i, t);
  }

  lemma DeleteBalance(c: Config, s: State, i: nat, a: Action, s': State, t: nat)
    requires Inv(c, s) && Steady(s, t) && i < |s.procs| && DeleteStep(s, i, a) == Some(s')
    ensures Steady(s', t) && Balance(s', t) == Balance(s, t) + Fault(c, s, Label(i, a), t)
  {
    if s.procs[i].DeleteRemoved? && a.Commit? {
      DeleteCommitBalance(c, s, i, s', t);
    } else {
      CounterBalance(s, s', i, t);
    }
  }

  lemma PayCommitBalance(c: Config, s: State, i: nat, s': State, t: nat)
    requires Inv(c, s) && Steady(s, t) && i < |s.procs| && s.procs[i].PayLocked? && PayStep(s, i, Commit) == Some(s')
    ensures Steady(s', t) && Balance(s', t) == Balance(s, t)
  {
    assert ProcOk(c, s, s.procs[i]);
    MovedSlot(s, s', i, t);
    assert RefundedLive(s', t) == RefundedLive(s, t);
    MovedSteady(s, s', i, t);
  }

  lemma PayBalance(c: Config, s: State, i: nat, a: Action, s': State, t: nat)
    requires Inv(c, s) && Steady(s, t) && i < |s.procs| && PayStep(s, i, a) == Some(s')
    ensures Steady(s', t) && Balance(s', t) == Balance(s, t)
  {
    if s.procs[i].PayLocked? && a.Commit? { PayCommitBalance(c, s, i, s', t); } else { CounterBalance(s, s', i, t); }
  }

  /** The refund script against the balance: a credit for a live ticket is matched, any other is not. */
  lemma RefundedLiveGrows(s: State, s': State, t: nat, id: nat)
    requires s'.db.tickets == s.db.tickets && id !in s.api.processed && s'.api.processed == s.api.processed + {id}
    ensures |RefundedLive(s', t)| == |RefundedLive(s, t)| + Bit(id in LiveOf(s.db, t))
  {
    assert LiveOf(s'.db, t) == LiveOf(s.db, t);
    assert RefundedLive(s', t) - {id} == RefundedLive(s, t) - {id};
    SwapOne(RefundedLive(s, t), RefundedLive(s', t), id);
  }

  lemma RefundBalance(c: Config, s: State, s': State, i: nat, t: nat, u: nat, id: nat)
    requires Steady(s, t) && OnlyProc(s, s', i) && HasSlot(s.procs[i], t) == HasSlot(s'.procs[i], t)
    requires s' == SetWorkerRedis(c, s, WorkerRedis(c, s).Refund(u, id)).(procs := s'.procs)
    requires id in s.db.tickets ==> s.db.tickets[id].typeId == u
    ensures t in s'.api.counters && s'.api.counters[t] >= 0
    ensures Balance(s', t) == Balance(s, t)
            + Bit(c.shared && u == t && id !in s.api.processed && id !in LiveOf(s.db, t))
  {
    MovedSlot(s, s', i, t);
    if c.shared && id !in s.api.processed {
      RefundedLiveGrows(s, s', t, id);
    } else {
      SameRefunds(s, s', t);
    }
  }

  lemma ReleaseCommitBalance(c: Config, s: State, i: nat, s': State, t: nat)
    requires Inv(c, s) && Steady(s, t) && i < |s.procs| && s.procs[i].ReleaseRefunded?
    requires ReleaseStep(c, s, i, Commit) == Some(s')
    ensures Steady(s', t) && Balance(s', t) == Balance(s, t) + Fault(c, s, Label(i, Commit), t)
  {
    var p := s.procs[i];
    assert ProcOk(c, s, p);
    assert LiveOf(s'.db, t) == LiveOf(s.db, t) - {p.id};
    LiveRemoved(s, s', p.id, t);
    MovedSlot(s, s', i, t);
    MovedSteady(s, s', i, t);
  }

  lemma ReleaseBalance(c: Config, s: State, i: nat, a: Action, s': State, t: nat)
    requires Inv(c, s) && Steady(s, t) && i < |s.procs| && ReleaseStep(c, s, i, a) == Some(s')
    ensures Steady(s', t) && Balance(s', t) == Balance(s, t) + Fault(c, s, Label(i, a), t)
  {
    var p := s.procs[i];
    if p.ReleaseUpdated? && a.Refund? {
      assert ProcOk(c, s, p);
      RefundBalance(c, s, s', i, t, p.t, p.id);
    } else if p.ReleaseRefunded? && a.Commit? {
      ReleaseCommitBalance(c, s, i, s', t);
    } else {
      CounterBalance(s, s', i, t);
    }
  }

  /** Cancelling a batch of live tickets takes its already credited part out of the refunded ones. */
  lemma BatchRefunded(s: State, s': State, locked: map<nat, nat>, t: nat)
    requires BatchOk(s.db, locked) && s'.db.tickets == CancelBatch(s.db.tickets, locked)
    requires s'.api.processed == s.api.processed
    ensures |RefundedLive(s', t)| == |RefundedLive(s, t)| - |OfType(locked, t)| + |OfType(locked, t) - s.api.processed|
  {
    var batch := OfType(locked, t);
    BatchLive(s.db, locked, t);
    assert LiveOf(s'.db, t) == LiveOf(s.db, t) - batch;
    SplitSet(LiveOf(s.db, t), batch, s.api.processed, RefundedLive(s, t), RefundedLive(s', t));
  }

  lemma SplitSet(live: set<nat>, batch: set<nat>, processed: set<nat>, before: set<nat>, after: set<nat>)
    requires batch <= live
    requires before == set id | id in live && id in processed
    requires after == set id | id in live - batch && id in processed
    ensures |after| == |before| - |batch| + |batch - processed|
  {
    var credited := set id | id in batch && id in processed;
    assert after == before - credited;
    assert batch - credited == batch - processed;
  }

  lemma HungCommitBalance(c: Config, s: State, i: nat, s': State, t: nat)
    requires Inv(c, s) && Steady(s, t) && i < |s.procs| && s.procs[i].HungRefunding?
    requires HungStep(c, s, i, Commit) == Some(s')
    ensures Steady(s', t) && Balance(s', t) == Balance(s, t) - |OfType(s.procs[i].locked, t) - s.api.processed|
  {
    assert ProcOk(c, s, s.procs[i]);
    BatchRefunded(s, s', s.procs[i].locked, t);
    MovedSlot(s, s', i, t);
    MovedSteady(s, s', i, t);
  }

  lemma HungRefundBalance(c: Config, s: State, i: nat, id: nat, s': State, t: nat)
    requires Inv(c, s) && Steady(s, t) && i < |s.procs| && s.procs[i].HungRefunding?
    requires HungStep(c, s, i, Action.Refund(id)) == Some(s')
    ensures Steady(s', t) && Balance(s', t) == Balance(s, t)
  {
    var p := s.procs[i];
    assert ProcOk(c, s, p);
    assert Reserved(s.db, id, p.locked[id]);
    RefundBalance(c, s, s', i, t, p.locked[id], id);
  }

  lemma HungBalance(c: Config, s: State, i: nat, a: Action, s': State, t: nat)
    requires Inv(c, s) && Steady(s, t) && i < |s.procs| && HungStep(c, s, i, a) == Some(s')
    ensures Steady(s', t) && Balance(s', t) == Balance(s, t) + Fault(c, s, Label(i, a), t)
  {
    var p := s.procs[i];
    if p.HungRefunding? && a.Commit? {
      HungCommitBalance(c, s, i, s', t);
    } else if p.HungRefunding? && a.Refund? {
      HungRefundBalance(c, s, i, a.id, s', t);
    } else {
      assert s'.db == s.db && s'.api == s.api;
      CounterBalance(s, s', i, t);
    }
  }

  lemma GcBalance(c: Config, s: State, i: nat, a: Action, s': State, t: nat)
    requires Inv(c, s) && Steady(s, t) && i < |s.procs| && GcStep(c, s, i, a) == Some(s')
    ensures Steady(s', t) && Balance(s', t) == Balance(s, t) + Fault(c, s, Label(i, a), t)
  {
    var p := s.procs[i];
    assert ProcOk(c, s, p);
    if p.GcRefunding? && a.Refund? {
      assert EntryOk(s, a.id, p.entries[a.id]);
      RefundBalance(c, s, s', i, t, p.entries[a.id].typeId, a.id);
    } else {
      MovedSlot(s, s', i, t);
      SameRefunds(s, s', t);
    }
  }

  /** Commits of ticket-type changes: the type itself is not among them. */
  lemma AdminWriteBalance(c: Config, s: State, i: nat, a: Action, s': State, t: nat)
    requires Inv(c, s) && Steady(s, t) && i < |s.procs| && AdminStep(s, i, a) == Some(s')
    requires s.procs[i].NewTypeStart? || s.procs[i].UpdateReady? || s.procs[i].DropReady?
    ensures Steady(s', t) && Balance(s', t) == Balance(s, t)
  {
    assert t < s.db.nextType && !Disturbs(s.procs[i], t);
    CounterBalance(s, s', i, t);
  }

  /** ... and the other steps: no table, and a counter of another type. */
  lemma AdminLeavesType(s: State, i: nat, a: Action, s': State, t: nat)
    requires Steady(s, t) && i < |s.procs| && AdminStep(s, i, a) == Some(s')
    requires !s.procs[i].NewTypeStart? && !s.procs[i].UpdateReady? && !s.procs[i].DropReady?
    ensures s'.db == s.db && s'.api.processed == s.api.processed
    ensures t in s'.api.counters && s'.api.counters[t] == s.api.counters[t]
    ensures OnlyProc(s, s', i) && !Disturbs(s'.procs[i], t) && !HasSlot(s.procs[i], t) && !HasSlot(s'.procs[i], t)
  {
    assert !Disturbs(s.procs[i], t);
  }

  lemma AdminBalance(c: Config, s: State, i: nat, a: Action, s': State, t: nat)
    requires Inv(c, s) && Steady(s, t) && i < |s.procs| && AdminStep(s, i, a) == Some(s')
    ensures Steady(s', t) && Balance(s', t) == Balance(s, t)
  {
    if s.procs[i].NewTypeStart? || s.procs[i].UpdateReady? || s.procs[i].DropReady? {
      AdminWriteBalance(c, s, i, a, s', t);
    } else {
      AdminLeavesType(s, i, a, s', t);
      CounterBalance(s, s', i, t);
    }
  }

  /** Every step moves the balance by exactly its fault. */
  lemma StepBalance(c: Config, s: State, l: Label, s': State, t: nat)
    requires Inv(c, s) && Steady(s, t) && !StartsAdmin(l, t) && Step(c, s, l) == Some(s')
    ensures Steady(s', t) && Balance(s', t) == Balance(s, t) + Fault(c, s, l, t)
  {
    if l.act.Tick? { SameRefunds(s, s', t); }
    else if l.act.Spawn? || l.act.Die? { MovedSlot(s, s', l.i, t); SameRefunds(s, s', t); }
    else if CreateStep(s, l.i, l.act).Some? { CreateBalance(c, s, l.i, l.act, s', t); }
    else if DeleteStep(s, l.i, l.act).Some? { DeleteBalance(c, s, l.i, l.act, s', t); }
    else if PayStep(s, l.i, l.act).Some? { PayBalance(c, s, l.i, l.act, s', t); }
    else if ReleaseStep(c, s, l.i, l.act).Some? { ReleaseBalance(c, s, l.i, l.act, s', t); }
    else if HungStep(c, s, l.i, l.act).Some? { HungBalance(c, s, l.i, l.act, s', t); }
    else if GcStep(c, s, l.i, l.act).Some? { GcBalance(c, s, l.i, l.act, s', t); }
    else { AdminBalance(c, s, l.i, l.act, s', t); }
  }
}
