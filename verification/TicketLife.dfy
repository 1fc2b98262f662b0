/** The life of one ticket id over whole runs: drawn once, committed RESERVED, then at most one of
    SOLD or CANCELED, then gone for good. */
module TicketLife {
  import opened Stores
  import opened Protocol
  import opened Invariants

  datatype Phase = Unborn | Is(status: Status) | Gone

  ghost function PhaseOf(s: State, id: nat): Phase {
    if id in s.db.tickets then Is(s.db.tickets[id].status)
    else if Born(s, id) then Gone
    else Unborn
  }

  /** The order in which phases may follow one another. */
  predicate Follows(a: Phase, b: Phase) {
    a == b || a == Unborn || b == Gone || (a == Is(RESERVED) && b.Is?)
  }

  /** The only steps that decide a ticket: a payment's commit, a release's, a batch's. */
  predicate Pays(s: State, l: Label, id: nat) {
    l.act.Commit? && l.i < |s.procs| && s.procs[l.i] == PayLocked(id)
  }

  predicate Cancels(s: State, l: Label, id: nat) {
    l.act.Commit? && l.i < |s.procs| &&
    match s.procs[l.i]
    case ReleaseRefunded(x, _) => x == id
    case HungRefunding(locked, _) => id in locked
    case _ => false
  }

  /** What a step may do to a committed row: keep it, or decide a reserved one. */
  ghost predicate RowStep(s: State, l: Label, s': State, id: nat) {
    if id in s.db.tickets then
      id in s'.db.tickets ==>
        var k, k' := s.db.tickets[id], s'.db.tickets[id];
        k' == k.(status := k'.status) &&
        (k'.status == k.status ||
         (k.status == RESERVED && k'.status == SOLD && Pays(s, l, id)) ||
         (k.status == RESERVED && k'.status == CANCELED && Cancels(s, l, id)))
    else id in s'.db.tickets ==> l.i < |s.procs| && CreatesId(s.procs[l.i], id) && s'.db.tickets[id].status == RESERVED
  }

  /** Ids come from the sequence once and belong to one process until its transaction ends. */
  ghost predicate IdStep(s: State, l: Label, s': State) {
    s.db.nextTicket <= s'.db.nextTicket && s.db.nextType <= s'.db.nextType && |s'.procs| == |s.procs| &&
    (forall j :: 0 <= j < |s.procs| && j != l.i ==> s'.procs[j] == s.procs[j]) &&
    (l.i < |s.procs| ==> forall id: nat :: CreatesId(s'.procs[l.i], id) ==>
       CreatesId(s.procs[l.i], id) || id == s.db.nextTicket)
  }

  lemma CreateOwnIds(s: State, i: nat, a: Action, s': State)
    requires i < |s.procs| && CreateStep(s, i, a) == Some(s')
    ensures OnlyProc(s, s', i)
    ensures forall id: nat :: CreatesId(s'.procs[i], id) ==> CreatesId(s.procs[i], id) || id == s.db.nextTicket
  {
  }

  lemma CreateSequences(s: State, i: nat, a: Action, s': State)
    requires i < |s.procs| && CreateStep(s, i, a) == Some(s')
    ensures s.db.nextTicket <= s'.db.nextTicket && s.db.nextType <= s'.db.nextType
  {
  }

  lemma CreateIds(c: Config, s: State, i: nat, a: Action, s': State)
    requires i < |s.procs| && CreateStep(s, i, a) == Some(s')
    ensures IdStep(s, Label(i, a), s')
  {
    hide CreateStep;
    CreateOwnIds(s, i, a, s');
    CreateSequences(s, i, a, s');
  }

  lemma DeleteIds(c: Config, s: State, i: nat, a: Action, s': State)
    requires i < |s.procs| && DeleteStep(s, i, a) == Some(s')
    ensures IdStep(s, Label(i, a), s')
  {
  }

  lemma PayIds(c: Config, s: State, i: nat, a: Action, s': State)
    requires i < |s.procs| && PayStep(s, i, a) == Some(s')
    ensures IdStep(s, Label(i, a), s')
  {
  }

  lemma ReleaseIds(c: Config, s: State, i: nat, a: Action, s': State)
    requires i < |s.procs| && ReleaseStep(c, s, i, a) == Some(s')
    ensures IdStep(s, Label(i, a), s')
  {
  }

  lemma HungIds(c: Config, s: State, i: nat, a: Action, s': State)
    requires i < |s.procs| && HungStep(c, s, i, a) == Some(s')
    ensures IdStep(s, Label(i, a), s')
  {
  }

  lemma GcIds(c: Config, s: State, i: nat, a: Action, s': State)
    requires i < |s.procs| && GcStep(c, s, i, a) == Some(s')
    ensures IdStep(s, Label(i, a), s')
  {
  }

  lemma AdminIds(c: Config, s: State, i: nat, a: Action, s': State)
    requires i < |s.procs| && AdminStep(s, i, a) == Some(s')
    ensures IdStep(s, Label(i, a), s')
  {
  }

  lemma StepIds(c: Config, s: State, l: Label, s': State)
    requires Step(c, s, l) == Some(s')
    ensures IdStep(s, l, s')
  {
    if l.act.Tick? || l.act.Spawn? || l.act.Die? { }
    else if CreateStep(s, l.i, l.act).Some? { CreateIds(c, s, l.i, l.act, s'); }
    else if DeleteStep(s, l.i, l.act).Some? { DeleteIds(c, s, l.i, l.act, s'); }
    else if PayStep(s, l.i, l.act).Some? { PayIds(c, s, l.i, l.act, s'); }
    else if ReleaseStep(c, s, l.i, l.act).Some? { ReleaseIds(c, s, l.i, l.act, s'); }
    else if HungStep(c, s, l.i, l.act).Some? { HungIds(c, s, l.i, l.act, s'); }
    else if GcStep(c, s, l.i, l.act).Some? { GcIds(c, s, l.i, l.act, s'); }
    else { AdminIds(c, s, l.i, l.act, s'); }
  }

  lemma CreateRows(c: Config, s: State, i: nat, a: Action, s': State, id: nat)
    requires Inv(c, s) && i < |s.procs| && CreateStep(s, i, a) == Some(s')
    ensures RowStep(s, Label(i, a), s', id)
  {
    if a.Commit? {
      assert s.procs[i].CreateHashed? && ProcOk(c, s, s.procs[i]);
    } else {
      assert s'.db.tickets == s.db.tickets;
    }
  }

  lemma DeleteRows(c: Config, s: State, i: nat, a: Action, s': State, id: nat)
    requires Inv(c, s) && i < |s.procs| && DeleteStep(s, i, a) == Some(s')
    ensures RowStep(s, Label(i, a), s', id)
  {
  }

  lemma PayRows(c: Config, s: State, i: nat, a: Action, s': State, id: nat)
    requires Inv(c, s) && i < |s.procs| && PayStep(s, i, a) == Some(s')
    ensures RowStep(s, Label(i, a), s', id)
  {
    assert ProcOk(c, s, s.procs[i]);
  }

  lemma ReleaseRows(c: Config, s: State, i: nat, a: Action, s': State, id: nat)
    requires Inv(c, s) && i < |s.procs| && ReleaseStep(c, s, i, a) == Some(s')
    ensures RowStep(s, Label(i, a), s', id)
  {
    assert ProcOk(c, s, s.procs[i]);
  }

  lemma HungRows(c: Config, s: State, i: nat, a: Action, s': State, id: nat)
    requires Inv(c, s) && i < |s.procs| && HungStep(c, s, i, a) == Some(s')
    ensures RowStep(s, Label(i, a), s', id)
  {
    assert ProcOk(c, s, s.procs[i]);
    if s.procs[i].HungRefunding? && id in s.procs[i].locked {
      assert Reserved(s.db, id, s.procs[i].locked[id]);
    }
  }

  lemma GcRows(c: Config, s: State, i: nat, a: Action, s': State, id: nat)
    requires Inv(c, s) && i < |s.procs| && GcStep(c, s, i, a) == Some(s')
    ensures RowStep(s, Label(i, a), s', id)
  {
  }

  lemma AdminRows(c: Config, s: State, i: nat, a: Action, s': State, id: nat)
    requires Inv(c, s) && i < |s.procs| && AdminStep(s, i, a) == Some(s')
    ensures RowStep(s, Label(i, a), s', id)
  {
    hide Inv;
  }

  lemma StepRows(c: Config, s: State, l: Label, s': State, id: nat)
    requires Inv(c, s) && Step(c, s, l) == Some(s')
    ensures RowStep(s, l, s', id)
  {
    if l.act.Tick? || l.act.Spawn? || l.act.Die? { }
    else if CreateStep(s, l.i, l.act).Some? { CreateRows(c, s, l.i, l.act, s', id); }
    else if DeleteStep(s, l.i, l.act).Some? { DeleteRows(c, s, l.i, l.act, s', id); }
    else if PayStep(s, l.i, l.act).Some? { PayRows(c, s, l.i, l.act, s', id); }
    else if ReleaseStep(c, s, l.i, l.act).Some? { ReleaseRows(c, s, l.i, l.act, s', id); }
    else if HungStep(c, s, l.i, l.act).Some? { HungRows(c, s, l.i, l.act, s', id); }
    else if GcStep(c, s, l.i, l.act).Some? { GcRows(c, s, l.i, l.act, s', id); }
    else { AdminRows(c, s, l.i, l.act, s', id); }
  }

  lemma StepBorn(c: Config, s: State, l: Label, s': State, id: nat)
    requires Inv(c, s) && Step(c, s, l) == Some(s') && Born(s, id)
    ensures Born(s', id) && (id in s'.db.tickets ==> id in s.db.tickets)
  {
    StepIds(c, s, l, s');
    StepRows(c, s, l, s', id);
    forall j | 0 <= j < |s'.procs| ensures !CreatesId(s'.procs[j], id) {
      assert !CreatesId(s.procs[j], id);
    }
  }

  lemma TicketsAreBorn(c: Config, s: State, id: nat)
    requires Inv(c, s) && id in s.db.tickets
    ensures Born(s, id)
  {
  }

  lemma StepPhase(c: Config, s: State, l: Label, s': State, id: nat)
    requires Inv(c, s) && Step(c, s, l) == Some(s')
    ensures Follows(PhaseOf(s, id), PhaseOf(s', id))
    ensures PhaseOf(s, id) == Unborn ==> PhaseOf(s', id) in {Unborn, Is(RESERVED), Gone}
    ensures PhaseOf(s', id) == Is(SOLD) ==> PhaseOf(s, id) == Is(SOLD) || Pays(s, l, id)
    ensures PhaseOf(s', id) == Is(CANCELED) ==> PhaseOf(s, id) == Is(CANCELED) || Cancels(s, l, id)
  {
    StepRows(c, s, l, s', id);
    if id in s.db.tickets { TicketsAreBorn(c, s, id); }
    if Born(s, id) { StepBorn(c, s, l, s', id); }
  }

  lemma RunStepPhase(c: Config, states: seq<State>, labels: seq<Label>, id: nat, k: nat)
    requires Run(c, states, labels) && Inv(c, states[0]) && k < |labels|
    ensures Follows(PhaseOf(states[k], id), PhaseOf(states[k + 1], id))
  {
    RunKeepsInv(c, states, labels, k);
    StepPhase(c, states[k], labels[k], states[k + 1], id);
  }

  lemma FollowsFrom(a: Phase, b: Phase, c: Phase)
    requires Follows(a, b) && Follows(b, c)
    ensures Follows(a, c)
  {
  }

  /** One winner per ticket: over any stretch of any run, phases only follow this order. */
  lemma {:induction false} OneWinner(c: Config, states: seq<State>, labels: seq<Label>, id: nat, i: nat, j: nat)
    requires Run(c, states, labels) && Inv(c, states[0]) && i <= j < |states|
    ensures Follows(PhaseOf(states[i], id), PhaseOf(states[j], id))
  {
    if i < j {
      OneWinner(c, states, labels, id, i, j - 1);
      RunStepPhase(c, states, labels, id, j - 1);
      FollowsFrom(PhaseOf(states[i], id), PhaseOf(states[j - 1], id), PhaseOf(states[j], id));
    }
  }
}
