/** The refunds of whole runs. Whatever the interleaving of requests and jobs, all calls of the refund
    script for one id name one type, so that only their set matters; and a create that dies with its
    hash entry written is credited by exactly one step. */
module RefundRuns {
  import opened Stores
  import opened Protocol
  import opened Invariants
  import opened TicketLife
  import opened Collector
  import opened Refunds
  import opened Families

  // ---------- who names a type for an id ----------

  predicate ProcNames(p: Proc, id: nat, t: nat) {
    match p
    case CreateInserted(u, _, _, _, x) => x == id && u == t
    case CreateStamped(u, _, _, _, x, _) => x == id && u == t
    case CreateHashed(u, _, _, _, x, _) => x == id && u == t
    case GcSnapshot(entries) => id in entries && entries[id].typeId == t
    case GcSuspicious(entries) => id in entries && entries[id].typeId == t
    case GcRefunding(entries) => id in entries && entries[id].typeId == t
    case _ => false
  }

  /** A row, a hash entry, a create or a collector's copy of an entry gives the id this type. */
  ghost predicate Names(s: State, id: nat, t: nat) {
    (id in s.db.tickets && s.db.tickets[id].typeId == t) ||
    (id in s.api.reservations && s.api.reservations[id].typeId == t) ||
    exists j :: 0 <= j < |s.procs| && ProcNames(s.procs[j], id, t)
  }

  ghost predicate Agree(s: State) {
    forall id, t, u :: Names(s, id, t) && Names(s, id, u) ==> t == u
  }

  /** What a step does to one entry of the hash. */
  predicate EntryStep(s: State, i: nat, a: Action, s': State, id: nat)
    requires i < |s.procs|
  {
    var p := s.procs[i];
    (id in s'.api.reservations ==>
      (id in s.api.reservations && s'.api.reservations[id] == s.api.reservations[id]) ||
      (a.Hset? && p.CreateStamped? && p.id == id && s'.api.reservations[id] == Reservation(p.t, p.ts))) &&
    (id in s.api.reservations ==>
      id in s'.api.reservations || a == Action.Refund(id) || (a.Hdel? && (p == DeleteCredited(id) || p == PayCommitted(id))))
  }

  lemma CreateEntry(s: State, i: nat, a: Action, s': State, id: nat)
    requires i < |s.procs| && CreateStep(s, i, a) == Some(s')
    ensures EntryStep(s, i, a, s', id)
  {
  }

  lemma DeleteEntry(s: State, i: nat, a: Action, s': State, id: nat)
    requires i < |s.procs| && DeleteStep(s, i, a) == Some(s')
    ensures EntryStep(s, i, a, s', id)
  {
  }

  lemma PayEntry(s: State, i: nat, a: Action, s': State, id: nat)
    requires i < |s.procs| && PayStep(s, i, a) == Some(s')
    ensures EntryStep(s, i, a, s', id)
  {
  }

  lemma ReleaseEntry(c: Config, s: State, i: nat, a: Action, s': State, id: nat)
    requires i < |s.procs| && ReleaseStep(c, s, i, a) == Some(s')
    ensures EntryStep(s, i, a, s', id)
  {
  }

  lemma HungEntry(c: Config, s: State, i: nat, a: Action, s': State, id: nat)
    requires i < |s.procs| && HungStep(c, s, i, a) == Some(s')
    ensures EntryStep(s, i, a, s', id)
  {
  }

  lemma GcEntry(c: Config, s: State, i: nat, a: Action, s': State, id: nat)
    requires i < |s.procs| && GcStep(c, s, i, a) == Some(s')
    ensures EntryStep(s, i, a, s', id)
  {
  }

  lemma AdminEntry(s: State, i: nat, a: Action, s': State, id: nat)
    requires i < |s.procs| && AdminStep(s, i, a) == Some(s')
    ensures EntryStep(s, i, a, s', id)
  {
  }

  lemma StepEntry(c: Config, s: State, l: Label, s': State, id: nat)
    requires Step(c, s, l) == Some(s')
    ensures if l.i < |s.procs| && !l.act.Tick? then EntryStep(s, l.i, l.act, s', id) else s'.api == s.api
  {
    if l.act.Tick? || l.act.Spawn? || l.act.Die? { }
    else if CreateStep(s, l.i, l.act).Some? { CreateEntry(s, l.i, l.act, s', id); }
    else if DeleteStep(s, l.i, l.act).Some? { DeleteEntry(s, l.i, l.act, s', id); }
    else if PayStep(s, l.i, l.act).Some? { PayEntry(s, l.i, l.act, s', id); }
    else if ReleaseStep(c, s, l.i, l.act).Some? { ReleaseEntry(c, s, l.i, l.act, s', id); }
    else if HungStep(c, s, l.i, l.act).Some? { HungEntry(c, s, l.i, l.act, s', id); }
    else if GcStep(c, s, l.i, l.act).Some? { GcEntry(c, s, l.i, l.act, s', id); }
    else { AdminEntry(s, l.i, l.act, s', id); }
  }

  /** A row keeps its type, and a new one has the type of the create that commits it. */
  lemma StepRowNames(c: Config, s: State, l: Label, s': State, id: nat, t: nat)
    requires Inv(c, s) && Step(c, s, l) == Some(s') && id in s'.db.tickets && s'.db.tickets[id].typeId == t
    ensures Names(s, id, t)
  {
    StepRows(c, s, l, s', id);
    if id !in s.db.tickets { CommitNames(c, s, l, s', id); }
  }

  lemma CommitNames(c: Config, s: State, l: Label, s': State, id: nat)
    requires Step(c, s, l) == Some(s') && id in s'.db.tickets && id !in s.db.tickets
    requires l.i < |s.procs| && CreatesId(s.procs[l.i], id)
    ensures ProcNames(s.procs[l.i], id, s'.db.tickets[id].typeId)
  {
    hide DeleteStep, PayStep, ReleaseStep, HungStep, GcStep, AdminStep;
  }

  lemma CreateOwnNames(s: State, i: nat, a: Action, s': State, id: nat, t: nat)
    requires i < |s.procs| && CreateStep(s, i, a) == Some(s') && ProcNames(s'.procs[i], id, t)
    ensures ProcNames(s.procs[i], id, t) || (id == s.db.nextTicket && CreatesId(s'.procs[i], id))
  {
  }

  lemma GcOwnNames(c: Config, s: State, i: nat, a: Action, s': State, id: nat, t: nat)
    requires Inv(c, s) && i < |s.procs| && GcStep(c, s, i, a) == Some(s') && ProcNames(s'.procs[i], id, t)
    ensures ProcNames(s.procs[i], id, t) || (id in s.api.reservations && s.api.reservations[id].typeId == t)
  {
  }

  /** The process that moves names nothing new, except a create that draws its id. */
  lemma StepProcNames(c: Config, s: State, l: Label, s': State, id: nat, t: nat)
    requires Inv(c, s) && Step(c, s, l) == Some(s') && l.i < |s.procs| && !l.act.Tick?
    requires l.i < |s'.procs| && ProcNames(s'.procs[l.i], id, t)
    ensures Names(s, id, t) || (id == s.db.nextTicket && CreatesId(s'.procs[l.i], id))
  {
    OwnStep(c, s, l, s');
    hide Inv, Step, CreateStep, GcStep;
    if FamilyOf(s'.procs[l.i]) == OfCreate { CreateOwnNames(s, l.i, l.act, s', id, t); }
    else { GcOwnNames(c, s, l.i, l.act, s', id, t); }
  }

  lemma StepNames(c: Config, s: State, l: Label, s': State, id: nat, t: nat)
    requires Inv(c, s) && Step(c, s, l) == Some(s') && Names(s', id, t)
    ensures Names(s, id, t) || (id == s.db.nextTicket && l.i < |s'.procs| && CreatesId(s'.procs[l.i], id) && s'.procs[l.i].t == t)
  {
    StepIds(c, s, l, s');
    StepEntry(c, s, l, s', id);
    if id in s'.db.tickets && s'.db.tickets[id].typeId == t {
      StepRowNames(c, s, l, s', id, t);
    } else if id in s'.api.reservations && s'.api.reservations[id].typeId == t {
      if l.i < |s.procs| && s.procs[l.i].CreateStamped? && s.procs[l.i].id == id && s.procs[l.i].t == t {
        assert ProcNames(s.procs[l.i], id, t);
      }
    } else {
      var j :| 0 <= j < |s'.procs| && ProcNames(s'.procs[j], id, t);
      if j == l.i && !l.act.Tick? { StepProcNames(c, s, l, s', id, t); }
      else { assert s'.procs[j] == s.procs[j]; }
    }
  }

  /** Whatever is named has been drawn. */
  lemma NamedIsDrawn(c: Config, s: State, id: nat, t: nat)
    requires Inv(c, s) && Names(s, id, t)
    ensures id < s.db.nextTicket
  {
    if !(id in s.db.tickets) && !(id in s.api.reservations) {
      var j :| 0 <= j < |s.procs| && ProcNames(s.procs[j], id, t);
      assert ProcOk(c, s, s.procs[j]);
    }
  }

  lemma StepAgree(c: Config, s: State, l: Label, s': State)
    requires Inv(c, s) && Agree(s) && Step(c, s, l) == Some(s')
    ensures Agree(s')
  {
    forall id, t, u | Names(s', id, t) && Names(s', id, u) ensures t == u {
      StepNames(c, s, l, s', id, t);
      StepNames(c, s, l, s', id, u);
      if Names(s, id, t) { NamedIsDrawn(c, s, id, t); }
      if Names(s, id, u) { NamedIsDrawn(c, s, id, u); }
    }
  }

  lemma RunStepAgree(c: Config, states: seq<State>, labels: seq<Label>, k: nat)
    requires Run(c, states, labels) && Inv(c, states[0]) && k < |labels| && Agree(states[k])
    ensures Agree(states[k + 1])
  {
    RunKeepsInv(c, states, labels, k);
    RunStep(c, states, labels, k);
    StepAgree(c, states[k], labels[k], states[k + 1]);
  }

  lemma {:induction false} RunAgree(c: Config, states: seq<State>, labels: seq<Label>, k: nat)
    requires Run(c, states, labels) && Inv(c, states[0]) && Agree(states[0]) && k < |states|
    ensures Agree(states[k])
  {
    if k > 0 {
      RunAgree(c, states, labels, k - 1);
      RunStepAgree(c, states, labels, k - 1);
    }
  }

  lemma RunStepNames(c: Config, states: seq<State>, labels: seq<Label>, k: nat, id: nat, t: nat)
    requires Run(c, states, labels) && Inv(c, states[0]) && k < |labels| && id < states[k].db.nextTicket
    requires Names(states[k + 1], id, t)
    ensures Names(states[k], id, t)
  {
    RunKeepsInv(c, states, labels, k);
    RunStep(c, states, labels, k);
    StepNames(c, states[k], labels[k], states[k + 1], id, t);
  }

  lemma RunStepDraws(c: Config, states: seq<State>, labels: seq<Label>, k: nat)
    requires Run(c, states, labels) && k < |labels|
    ensures states[k].db.nextTicket <= states[k + 1].db.nextTicket
  {
    RunStep(c, states, labels, k);
    StepIds(c, states[k], labels[k], states[k + 1]);
  }

  lemma {:induction false} RunDraws(c: Config, states: seq<State>, labels: seq<Label>, a: nat, b: nat)
    requires Run(c, states, labels) && a <= b < |states|
    ensures states[a].db.nextTicket <= states[b].db.nextTicket
  {
    if a < b {
      RunDraws(c, states, labels, a, b - 1);
      RunStepDraws(c, states, labels, b - 1);
    }
  }

  /** A name for an id that was drawn already has been there since. */
  lemma {:induction false} NamedBefore(c: Config, states: seq<State>, labels: seq<Label>, a: nat, b: nat, id: nat, t: nat)
    requires Run(c, states, labels) && Inv(c, states[0]) && a <= b < |states|
    requires id < states[a].db.nextTicket && Names(states[b], id, t)
    ensures Names(states[a], id, t)
  {
    if a < b {
      RunDraws(c, states, labels, a, b - 1);
      RunStepNames(c, states, labels, b - 1, id, t);
      NamedBefore(c, states, labels, a, b - 1, id, t);
    }
  }

  // ---------- the calls of a run ----------

  /** The type that the refund in step l names. */
  function TypeOfCall(s: State, l: Label): nat
    requires l.act.Refund? && l.i < |s.procs|
  {
    match s.procs[l.i]
    case ReleaseUpdated(_, t) => t
    case HungRefunding(locked, _) => if l.act.id in locked then locked[l.act.id] else 0
    case GcRefunding(entries) => if l.act.id in entries then entries[l.act.id].typeId else 0
    case _ => 0
  }

  lemma CallIsNamed(c: Config, s: State, l: Label, s': State)
    requires Inv(c, s) && Step(c, s, l) == Some(s') && l.act.Refund?
    ensures l.i < |s.procs| && Names(s, l.act.id, TypeOfCall(s, l))
    ensures WorkerRedis(c, s') == WorkerRedis(c, s).Refund(TypeOfCall(s, l), l.act.id)
  {
    var p := s.procs[l.i];
    assert ProcOk(c, s, p);
    if p.HungRefunding? { assert Reserved(s.db, l.act.id, p.locked[l.act.id]); }
    if p.GcRefunding? { assert ProcNames(p, l.act.id, TypeOfCall(s, l)); }
  }

  lemma RunCallIsNamed(c: Config, states: seq<State>, labels: seq<Label>, k: nat)
    requires Run(c, states, labels) && Inv(c, states[0]) && k < |labels| && labels[k].act.Refund?
    ensures labels[k].i < |states[k].procs| && Names(states[k], labels[k].act.id, TypeOfCall(states[k], labels[k]))
    ensures WorkerRedis(c, states[k + 1]) == WorkerRedis(c, states[k]).Refund(TypeOfCall(states[k], labels[k]), labels[k].act.id)
  {
    RunKeepsInv(c, states, labels, k);
    RunStep(c, states, labels, k);
    CallIsNamed(c, states[k], labels[k], states[k + 1]);
  }

  /** In every run two refunds of one id, whichever jobs make them, name one type. */
  lemma RefundsNameOneType(c: Config, states: seq<State>, labels: seq<Label>, a: nat, b: nat, id: nat)
    requires Run(c, states, labels) && Inv(c, states[0]) && Agree(states[0]) && a <= b < |labels|
    requires labels[a].act == Action.Refund(id) && labels[b].act == Action.Refund(id)
    ensures labels[a].i < |states[a].procs| && labels[b].i < |states[b].procs|
    ensures TypeOfCall(states[a], labels[a]) == TypeOfCall(states[b], labels[b])
  {
    RunCallIsNamed(c, states, labels, a);
    RunCallIsNamed(c, states, labels, b);
    RunKeepsInv(c, states, labels, a);
    NamedIsDrawn(c, states[a], id, TypeOfCall(states[a], labels[a]));
    NamedBefore(c, states, labels, a, b, id, TypeOfCall(states[b], labels[b]));
    RunAgree(c, states, labels, a);
  }

  /** The refunds of the first n steps, in order. */
  ghost function Calls(states: seq<State>, labels: seq<Label>, n: nat): seq<Credit>
    requires n <= |labels| < |states|
  {
    if n == 0 then []
    else
      var s, l := states[n - 1], labels[n - 1];
      Calls(states, labels, n - 1) + if l.act.Refund? && l.i < |s.procs| then [Credit(TypeOfCall(s, l), l.act.id)] else []
  }

  ghost predicate MadeAt(states: seq<State>, labels: seq<Label>, k: Credit, m: nat)
    requires m < |labels| < |states|
  {
    labels[m].act == Action.Refund(k.id) && labels[m].i < |states[m].procs| && TypeOfCall(states[m], labels[m]) == k.t
  }

  lemma {:induction false} CallIsMade(states: seq<State>, labels: seq<Label>, n: nat, k: Credit) returns (m: nat)
    requires n <= |labels| < |states| && k in Calls(states, labels, n)
    ensures m < n && MadeAt(states, labels, k, m)
  {
    if k in Calls(states, labels, n - 1) { m := CallIsMade(states, labels, n - 1, k); } else { m := n - 1; }
  }

  /** The premise of order-freedom holds for the calls of every run. */
  lemma RunCallsHaveOneType(c: Config, states: seq<State>, labels: seq<Label>)
    requires Run(c, states, labels) && Inv(c, states[0]) && Agree(states[0])
    ensures OneType(CallSet(Calls(states, labels, |labels|)))
  {
    var calls := Calls(states, labels, |labels|);
    forall x, y | x in CallSet(calls) && y in CallSet(calls) && x.id == y.id ensures x.t == y.t {
      var a := CallIsMade(states, labels, |labels|, x);
      var b := CallIsMade(states, labels, |labels|, y);
      if a <= b { RefundsNameOneType(c, states, labels, a, b, x.id); } else { RefundsNameOneType(c, states, labels, b, a, x.id); }
    }
  }

  /** No step that changes the Redis except the refund script. */
  predicate LeavesRedis(a: Action) {
    !(a.Eval? || a.Warm? || a.Hset? || a.Compensate? || a.SafeIncr? || a.Hdel? || a.SetKey? || a.DeleteKey?)
  }

  ghost predicate OnlyRefunds(labels: seq<Label>) {
    forall k {:trigger labels[k]} :: 0 <= k < |labels| ==> LeavesRedis(labels[k].act)
  }

  lemma OtherStepsLeaveRedis(c: Config, s: State, l: Label, s': State)
    requires Step(c, s, l) == Some(s') && LeavesRedis(l.act) && !l.act.Refund?
    ensures WorkerRedis(c, s') == WorkerRedis(c, s)
  {
  }

  lemma RunLeavesRedis(c: Config, states: seq<State>, labels: seq<Label>, k: nat)
    requires Run(c, states, labels) && k < |labels| && OnlyRefunds(labels) && !labels[k].act.Refund?
    ensures WorkerRedis(c, states[k + 1]) == WorkerRedis(c, states[k])
  {
    RunStep(c, states, labels, k);
    OtherStepsLeaveRedis(c, states[k], labels[k], states[k + 1]);
  }

  lemma CallsSnoc(states: seq<State>, labels: seq<Label>, n: nat, r: Redis)
    requires 0 < n <= |labels| < |states|
    ensures var s, l, before := states[n - 1], labels[n - 1], RefundAll(r, Calls(states, labels, n - 1));
      RefundAll(r, Calls(states, labels, n)) ==
        if l.act.Refund? && l.i < |s.procs| then before.Refund(TypeOfCall(s, l), l.act.id) else before
  {
    var s, l, before := states[n - 1], labels[n - 1], Calls(states, labels, n - 1);
    if l.act.Refund? && l.i < |s.procs| {
      var k := Credit(TypeOfCall(s, l), l.act.id);
      assert Calls(states, labels, n) == before + [k];
      assert (before + [k])[..|before|] == before;
    } else {
      assert Calls(states, labels, n) == before + [] == before;
    }
  }

  lemma RunRefundsOne(c: Config, states: seq<State>, labels: seq<Label>, n: nat, r: Redis)
    requires Run(c, states, labels) && Inv(c, states[0]) && n < |labels| && OnlyRefunds(labels)
    requires WorkerRedis(c, states[n]) == RefundAll(r, Calls(states, labels, n))
    ensures WorkerRedis(c, states[n + 1]) == RefundAll(r, Calls(states, labels, n + 1))
  {
    CallsSnoc(states, labels, n + 1, r);
    if labels[n].act.Refund? { RunCallIsNamed(c, states, labels, n); } else { RunLeavesRedis(c, states, labels, n); }
  }

  lemma {:induction false} RunRefundsInOrder(c: Config, states: seq<State>, labels: seq<Label>, n: nat)
    requires Run(c, states, labels) && Inv(c, states[0]) && n <= |labels| && OnlyRefunds(labels)
    ensures WorkerRedis(c, states[n]) == RefundAll(WorkerRedis(c, states[0]), Calls(states, labels, n))
  {
    if n == 0 {
      assert Calls(states, labels, 0) == [];
    } else {
      RunRefundsInOrder(c, states, labels, n - 1);
      RunRefundsOne(c, states, labels, n - 1, WorkerRedis(c, states[0]));
    }
  }

  /** Jobs in any interleaving, dying and failing anywhere, between two Redis commands of the API: the
      Redis they leave is that of the set of their calls, whatever the order and however often repeated. */
  lemma InterleavedRefundsAreASet(c: Config, states: seq<State>, labels: seq<Label>)
    requires Run(c, states, labels) && Inv(c, states[0]) && Agree(states[0]) && OnlyRefunds(labels)
    ensures WorkerRedis(c, states[|labels|]) == RefundSet(WorkerRedis(c, states[0]), CallSet(Calls(states, labels, |labels|)))
  {
    RunRefundsInOrder(c, states, labels, |labels|);
    RunCallsHaveOneType(c, states, labels);
    RefundsAreASet(WorkerRedis(c, states[0]), Calls(states, labels, |labels|));
  }

  // ---------- a create that dies with its entry written ----------

  /** What runs keep about entries: a create past its hash write has its entry, unless it was refunded;
      a request that will delete an entry has seen the ticket. */
  ghost predicate Traced(c: Config, s: State) {
    forall j :: 0 <= j < |s.procs| ==> TracedProc(s, s.procs[j])
  }

  ghost predicate TracedProc(s: State, p: Proc) {
    match p
    case CreateHashed(t, _, _, _, id, ts) => Held(s, id, Reservation(t, ts))
    case DeleteCommitted(id, _) => Born(s, id)
    case DeleteCredited(id) => Born(s, id)
    case PayCommitted(id) => Born(s, id)
    case _ => true
  }

  /** In the hash with this value, or refunded. */
  predicate Held(s: State, id: nat, r: Reservation) {
    id in s.api.processed || (id in s.api.reservations && s.api.reservations[id] == r)
  }

  /** A request that has seen a ticket of this id. */
  predicate Knows(p: Proc, id: nat) {
    match p
    case DeleteFound(x, _) => x == id
    case DeleteUpdated(x, _) => x == id
    case DeleteRemoved(x, _) => x == id
    case DeleteCommitted(x, _) => x == id
    case DeleteCredited(x) => x == id
    case PayLocked(x) => x == id
    case PayCommitted(x) => x == id
    case _ => false
  }

  ghost predicate Unknown(s: State, id: nat) {
    id !in s.db.tickets && forall j :: 0 <= j < |s.procs| ==> !Knows(s.procs[j], id)
  }

  lemma InFlightIsUnknown(c: Config, s: State, i: nat, id: nat)
    requires Inv(c, s) && Traced(c, s) && i < |s.procs| && CreatesId(s.procs[i], id)
    ensures Unknown(s, id)
  {
    assert ProcOk(c, s, s.procs[i]);
    forall j | 0 <= j < |s.procs| ensures !Knows(s.procs[j], id) {
      assert ProcOk(c, s, s.procs[j]) && TracedProc(s, s.procs[j]);
    }
  }

  /** An entry that nobody knows leaves the hash by a refund only. */
  lemma StepHeld(c: Config, s: State, l: Label, s': State, id: nat, r: Reservation)
    requires c.shared && Inv(c, s) && Step(c, s, l) == Some(s') && Unknown(s, id) && Held(s, id, r)
    requires forall j :: 0 <= j < |s.procs| ==> !PendingHash(s.procs[j], id)
    ensures Held(s', id, r)
  {
    StepProcessed(c, s, l, s');
    StepEntry(c, s, l, s', id);
    if l.i < |s.procs| && !l.act.Tick? { assert !Knows(s.procs[l.i], id) && !PendingHash(s.procs[l.i], id); }
  }

  lemma DeleteKnows(s: State, i: nat, a: Action, s': State, id: nat)
    requires i < |s.procs| && DeleteStep(s, i, a) == Some(s') && Knows(s'.procs[i], id)
    ensures Knows(s.procs[i], id) || id in s.db.tickets
  {
  }

  lemma PayKnows(s: State, i: nat, a: Action, s': State, id: nat)
    requires i < |s.procs| && PayStep(s, i, a) == Some(s') && Knows(s'.procs[i], id)
    ensures Knows(s.procs[i], id) || id in s.db.tickets
  {
  }

  lemma KnowsFromRow(c: Config, s: State, l: Label, s': State, id: nat)
    requires Step(c, s, l) == Some(s') && l.i < |s.procs| && !l.act.Tick? && l.i < |s'.procs| && Knows(s'.procs[l.i], id)
    ensures Knows(s.procs[l.i], id) || id in s.db.tickets
  {
    OwnStep(c, s, l, s');
    hide Step, DeleteStep, PayStep;
    if FamilyOf(s'.procs[l.i]) == OfDelete { DeleteKnows(s, l.i, l.act, s', id); } else { PayKnows(s, l.i, l.act, s', id); }
  }

  lemma StepUnknown(c: Config, s: State, l: Label, s': State, id: nat)
    requires Inv(c, s) && Step(c, s, l) == Some(s') && Unknown(s, id) && Born(s, id)
    ensures Unknown(s', id) && Born(s', id)
  {
    StepBorn(c, s, l, s', id);
    StepIds(c, s, l, s');
    forall j | 0 <= j < |s'.procs| ensures !Knows(s'.procs[j], id) {
      if j == l.i && !l.act.Tick? {
        if Knows(s'.procs[j], id) { KnowsFromRow(c, s, l, s', id); }
      } else {
        assert s'.procs[j] == s.procs[j];
      }
    }
  }

  /** A request that knows of an id, or a ticket, is evidence that its create has ended. */
  lemma KnownIsBorn(c: Config, s: State, i: nat, id: nat)
    requires Inv(c, s) && Traced(c, s) && i < |s.procs| && (Knows(s.procs[i], id) || id in s.db.tickets)
    ensures Born(s, id)
  {
    assert ProcOk(c, s, s.procs[i]) && TracedProc(s, s.procs[i]);
    if id in s.db.tickets { TicketsAreBorn(c, s, id); }
  }

  lemma HashedOwnEntry(s: State, i: nat, a: Action, s': State)
    requires i < |s.procs| && CreateStep(s, i, a) == Some(s') && s'.procs[i].CreateHashed?
    ensures var q := s'.procs[i]; Held(s', q.id, Reservation(q.t, q.ts))
  {
  }

  lemma HashedEntry(c: Config, s: State, l: Label, s': State)
    requires Step(c, s, l) == Some(s') && l.i < |s.procs| && !l.act.Tick? && l.i < |s'.procs| && s'.procs[l.i].CreateHashed?
    ensures var q := s'.procs[l.i]; Held(s', q.id, Reservation(q.t, q.ts))
  {
    OwnStep(c, s, l, s');
    hide Step, CreateStep;
    HashedOwnEntry(s, l.i, l.act, s');
  }

  /** The process that moves: it has just written its entry, or knows of a ticket. */
  lemma OwnTraced(c: Config, s: State, l: Label, s': State)
    requires c.shared && Inv(c, s) && Traced(c, s) && Step(c, s, l) == Some(s') && l.i < |s.procs| && !l.act.Tick?
    ensures l.i < |s'.procs| && TracedProc(s', s'.procs[l.i])
  {
    hide CreateStep, DeleteStep, PayStep, ReleaseStep, HungStep, GcStep, AdminStep, Step, Inv, Traced;
    StepIds(c, s, l, s');
    var q := s'.procs[l.i];
    if q.CreateHashed? {
      HashedEntry(c, s, l, s');
    } else if q.DeleteCommitted? || q.DeleteCredited? || q.PayCommitted? {
      KnowsFromRow(c, s, l, s', q.id);
      KnownIsBorn(c, s, l.i, q.id);
      StepBorn(c, s, l, s', q.id);
    }
  }

  lemma OtherTraced(c: Config, s: State, l: Label, s': State, j: nat)
    requires c.shared && Inv(c, s) && Traced(c, s) && Step(c, s, l) == Some(s') && j < |s.procs| && (j != l.i || l.act.Tick?)
    ensures j < |s'.procs| && TracedProc(s', s'.procs[j])
  {
    var p := s.procs[j];
    StepIds(c, s, l, s');
    assert s'.procs[j] == p && TracedProc(s, p);
    if p.CreateHashed? {
      InFlightIsUnknown(c, s, j, p.id);
      assert CreatesId(p, p.id);
      StepHeld(c, s, l, s', p.id, Reservation(p.t, p.ts));
    } else if p.DeleteCommitted? || p.DeleteCredited? || p.PayCommitted? {
      StepBorn(c, s, l, s', p.id);
    }
  }

  lemma StepTraced(c: Config, s: State, l: Label, s': State)
    requires c.shared && Inv(c, s) && Traced(c, s) && Step(c, s, l) == Some(s')
    ensures Traced(c, s')
  {
    StepIds(c, s, l, s');
    forall j | 0 <= j < |s'.procs| ensures TracedProc(s', s'.procs[j]) {
      if j == l.i && !l.act.Tick? { OwnTraced(c, s, l, s'); } else { OtherTraced(c, s, l, s', j); }
    }
  }

  lemma RunStepTraced(c: Config, states: seq<State>, labels: seq<Label>, k: nat)
    requires c.shared && Run(c, states, labels) && Inv(c, states[0]) && k < |labels| && Traced(c, states[k])
    ensures Traced(c, states[k + 1])
  {
    RunKeepsInv(c, states, labels, k);
    RunStep(c, states, labels, k);
    StepTraced(c, states[k], labels[k], states[k + 1]);
  }

  lemma {:induction false} RunTraced(c: Config, states: seq<State>, labels: seq<Label>, k: nat)
    requires c.shared && Run(c, states, labels) && Inv(c, states[0]) && Traced(c, states[0]) && k < |states|
    ensures Traced(c, states[k])
  {
    if k > 0 {
      RunTraced(c, states, labels, k - 1);
      RunStepTraced(c, states, labels, k - 1);
    }
  }

  /** Born, with no row and nobody that has seen one; its entry is in the hash or refunded. */
  ghost predicate Abandoned(s: State, id: nat, r: Reservation) {
    Born(s, id) && Unknown(s, id) && Held(s, id, r)
  }

  lemma DeathAbandons(c: Config, s: State, i: nat, s': State, id: nat)
    requires c.shared && Inv(c, s) && Traced(c, s) && Step(c, s, Label(i, Die)) == Some(s')
    requires i < |s.procs| && s.procs[i].CreateHashed? && s.procs[i].id == id
    ensures Abandoned(s', id, Reservation(s.procs[i].t, s.procs[i].ts))
  {
    InFlightIsUnknown(c, s, i, id);
    assert TracedProc(s, s.procs[i]) && ProcOk(c, s, s.procs[i]) && CreatesId(s.procs[i], id);
    forall j | 0 <= j < |s'.procs| ensures !CreatesId(s'.procs[j], id) && !Knows(s'.procs[j], id) {
      if j != i { assert s'.procs[j] == s.procs[j] && Apart(s.procs[i], s.procs[j]); }
    }
  }

  lemma StepAbandoned(c: Config, s: State, l: Label, s': State, id: nat, r: Reservation)
    requires c.shared && Inv(c, s) && Step(c, s, l) == Some(s') && Abandoned(s, id, r)
    ensures Abandoned(s', id, r)
  {
    StepUnknown(c, s, l, s', id);
    StepHeld(c, s, l, s', id, r);
  }

  lemma RunStepAbandoned(c: Config, states: seq<State>, labels: seq<Label>, k: nat, id: nat, r: Reservation)
    requires c.shared && Run(c, states, labels) && Inv(c, states[0]) && k < |labels| && Abandoned(states[k], id, r)
    ensures Abandoned(states[k + 1], id, r)
  {
    RunKeepsInv(c, states, labels, k);
    RunStep(c, states, labels, k);
    StepAbandoned(c, states[k], labels[k], states[k + 1], id, r);
  }

  lemma {:induction false} RunAbandoned(c: Config, states: seq<State>, labels: seq<Label>, a: nat, b: nat, id: nat, r: Reservation)
    requires c.shared && Run(c, states, labels) && Inv(c, states[0]) && a <= b < |states| && Abandoned(states[a], id, r)
    ensures Abandoned(states[b], id, r)
  {
    if a < b {
      RunAbandoned(c, states, labels, a, b - 1, id, r);
      RunStepAbandoned(c, states, labels, b - 1, id, r);
    }
  }

  lemma RunDeath(c: Config, states: seq<State>, labels: seq<Label>, d: nat, i: nat, first: nat)
    requires c.shared && Run(c, states, labels) && Inv(c, states[0]) && Traced(c, states[0]) && d < |labels| && labels[d] == Label(i, Die)
    requires i < |states[d].procs| && states[d].procs[i].CreateHashed? && d < first < |states|
    ensures var p := states[d].procs[i]; Abandoned(states[first], p.id, Reservation(p.t, p.ts))
  {
    var p := states[d].procs[i];
    RunKeepsInv(c, states, labels, d);
    RunTraced(c, states, labels, d);
    RunStep(c, states, labels, d);
    DeathAbandons(c, states[d], i, states[d + 1], p.id);
    RunAbandoned(c, states, labels, d + 1, first, p.id, Reservation(p.t, p.ts));
  }

  /** The end of a pass whose snapshot came after the death, when the entry was over-age: processed. */
  lemma DeadCreateIsProcessed(c: Config, states: seq<State>, labels: seq<Label>, d: nat, i: nat, g: nat, first: nat, k: nat)
    requires c.shared && PassRuns(c, states, labels, g, first, k) && Inv(c, states[0]) && Traced(c, states[0])
    requires d < first && labels[d] == Label(i, Die) && i < |states[d].procs| && states[d].procs[i].CreateHashed?
    requires states[first].now - states[d].procs[i].ts > GRACE_PERIOD_SECONDS
    requires g < |states[first].procs| && g < |states[k].procs| && states[k].procs[g].Done?
    ensures states[d].procs[i].id in WorkerRedis(c, states[k]).processed
  {
    var p := states[d].procs[i];
    RunDeath(c, states, labels, d, i, first);
    if p.id in states[first].api.processed { ProcessedForever(c, states, labels, p.id, first, k); }
    else { PassCollects(c, states, labels, g, first, k, p.id); }
  }

  /** A create that dies with its hash entry written and its unit taken, a pass of the collector whose
      snapshot comes later, when the entry is over-age, and that ends: exactly one step of the whole run,
      in whatever interleaving, has given the unit back through the refund script. */
  lemma DeadCreateIsCreditedOnce(c: Config, states: seq<State>, labels: seq<Label>, d: nat, i: nat, g: nat, first: nat, k: nat)
    returns (credit: nat)
    requires c.shared && PassRuns(c, states, labels, g, first, k) && Inv(c, states[0]) && Traced(c, states[0])
    requires d < first && labels[d] == Label(i, Die) && i < |states[d].procs| && states[d].procs[i].CreateHashed?
    requires states[d].procs[i].id !in states[0].api.processed
    requires states[first].now - states[d].procs[i].ts > GRACE_PERIOD_SECONDS
    requires g < |states[first].procs| && g < |states[k].procs| && states[k].procs[g].Done?
    ensures credit < |labels| && Credits(c, states[credit], labels[credit], states[d].procs[i].id)
    ensures forall b :: 0 <= b < |labels| && b != credit ==> !Credits(c, states[b], labels[b], states[d].procs[i].id)
  {
    var id := states[d].procs[i].id;
    DeadCreateIsProcessed(c, states, labels, d, i, g, first, k);
    ProcessedForever(c, states, labels, id, k, |labels|);
    credit := CreditedBySomeone(c, states, labels, id);
    forall b | 0 <= b < |labels| && b != credit ensures !Credits(c, states[b], labels[b], id) {
      if b < credit { AtMostOneCredit(c, states, labels, id, b, credit); } else { AtMostOneCredit(c, states, labels, id, credit, b); }
    }
  }
}
