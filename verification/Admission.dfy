/** What stands behind a ticket: the unit that its create took at the gate, and the moment at which the
    create's transaction began. */
module Admission {
  import opened Stores
  import opened Protocol
  import opened Invariants
  import F = Families

  // ---------- no ticket without a unit ----------

  /** The type existed, and does no longer: its id is not drawn again. */
  predicate Dropped(s: State, t: nat) {
    t < s.db.nextType && t !in s.db.types
  }

  /** A warmed counter goes only with its type, so a create that finds none after warming it is let
      through without a unit for a type that is gone. */
  predicate Backed(s: State, p: Proc) {
    match p
    case CreateWarm(t, _, _, _) => t < s.db.nextType
    case CreateRetry(t, _, _) => t < s.db.nextType && (t in s.db.types ==> t in s.api.counters)
    case CreateHolding(t, _, slot, _) => slot || Dropped(s, t)
    case CreateUpdated(_, _, slot, _) => slot
    case CreateInserted(_, _, slot, _, _) => slot
    case CreateStamped(_, _, slot, _, _, _) => slot
    case CreateHashed(_, _, slot, _, _, _) => slot
    case DropReady(t) => t < s.db.nextType
    case DropCommitted(t) => Dropped(s, t)
    case _ => true
  }

  ghost predicate AllBacked(s: State) {
    forall j :: 0 <= j < |s.procs| ==> Backed(s, s.procs[j])
  }

  /** A type does not come back, and its counter stays. */
  predicate KeyStays(s: State, s': State, t: nat) {
    s.db.nextType <= s'.db.nextType && (t < s.db.nextType && t in s'.db.types ==> t in s.db.types) &&
    (t in s.api.counters ==> t in s'.api.counters)
  }

  lemma CreateTables(s: State, i: nat, a: Action, s': State)
    requires i < |s.procs| && CreateStep(s, i, a) == Some(s')
    ensures s'.db.types.Keys == s.db.types.Keys && s'.db.nextType == s.db.nextType
  {
  }

  lemma CreateKeyStays(s: State, i: nat, a: Action, s': State, t: nat)
    requires i < |s.procs| && CreateStep(s, i, a) == Some(s')
    ensures KeyStays(s, s', t)
  {
    CreateTables(s, i, a, s');
    assert t in s.db.types <==> t in s.db.types.Keys;
    hide AddSold;
  }

  lemma DeleteKeyStays(s: State, i: nat, a: Action, s': State, t: nat)
    requires i < |s.procs| && DeleteStep(s, i, a) == Some(s')
    ensures KeyStays(s, s', t)
  {
  }

  lemma PayKeyStays(s: State, i: nat, a: Action, s': State, t: nat)
    requires i < |s.procs| && PayStep(s, i, a) == Some(s')
    ensures KeyStays(s, s', t)
  {
  }

  lemma ReleaseKeyStays(c: Config, s: State, i: nat, a: Action, s': State, t: nat)
    requires i < |s.procs| && ReleaseStep(c, s, i, a) == Some(s')
    ensures KeyStays(s, s', t)
  {
  }

  lemma HungKeyStays(c: Config, s: State, i: nat, a: Action, s': State, t: nat)
    requires i < |s.procs| && HungStep(c, s, i, a) == Some(s')
    ensures KeyStays(s, s', t)
  {
  }

  lemma GcKeyStays(c: Config, s: State, i: nat, a: Action, s': State, t: nat)
    requires i < |s.procs| && GcStep(c, s, i, a) == Some(s')
    ensures KeyStays(s, s', t)
  {
  }

  /** The counter of a type goes only with the type. */
  lemma AdminKeyStays(s: State, i: nat, a: Action, s': State, t: nat)
    requires i < |s.procs| && AdminStep(s, i, a) == Some(s')
    ensures KeyStays(s, s', t) || (s.procs[i] == DropCommitted(t) && s'.db == s.db)
  {
  }

  predicate KeyOrDrop(s: State, l: Label, s': State, t: nat) {
    KeyStays(s, s', t) || (l.i < |s.procs| && s.procs[l.i] == DropCommitted(t) && s'.db == s.db)
  }

  lemma StepKey(c: Config, s: State, l: Label, s': State, t: nat)
    requires Step(c, s, l) == Some(s')
    ensures KeyOrDrop(s, l, s', t)
  {
    hide CreateStep, DeleteStep, PayStep, ReleaseStep, HungStep, GcStep, AdminStep;
    if l.act.Tick? || l.act.Spawn? || l.act.Die? { }
    else if CreateStep(s, l.i, l.act) == Some(s') { CreateKeyStays(s, l.i, l.act, s', t); }
    else if DeleteStep(s, l.i, l.act) == Some(s') { DeleteKeyStays(s, l.i, l.act, s', t); }
    else if PayStep(s, l.i, l.act) == Some(s') { PayKeyStays(s, l.i, l.act, s', t); }
    else if ReleaseStep(c, s, l.i, l.act) == Some(s') { ReleaseKeyStays(c, s, l.i, l.act, s', t); }
    else if HungStep(c, s, l.i, l.act) == Some(s') { HungKeyStays(c, s, l.i, l.act, s', t); }
    else if GcStep(c, s, l.i, l.act) == Some(s') { GcKeyStays(c, s, l.i, l.act, s', t); }
    else { AdminKeyStays(s, l.i, l.act, s', t); }
  }

  lemma CreateBacked(c: Config, s: State, i: nat, a: Action, s': State)
    requires Inv(c, s) && i < |s.procs| && CreateStep(s, i, a) == Some(s') && Backed(s, s.procs[i])
    ensures i < |s'.procs| && Backed(s', s'.procs[i])
  {
  }

  lemma AdminBacked(s: State, i: nat, a: Action, s': State)
    requires DbOk(s.db) && i < |s.procs| && AdminStep(s, i, a) == Some(s') && Backed(s, s.procs[i])
    ensures i < |s'.procs| && Backed(s', s'.procs[i])
  {
  }

  lemma OwnBacked(c: Config, s: State, l: Label, s': State)
    requires Inv(c, s) && Step(c, s, l) == Some(s') && l.i < |s.procs| && !l.act.Tick? && Backed(s, s.procs[l.i])
    ensures l.i < |s'.procs| && Backed(s', s'.procs[l.i])
  {
    F.StepFamily(c, s, l, s');
    hide CreateStep, DeleteStep, PayStep, ReleaseStep, HungStep, GcStep, AdminStep;
    if CreateStep(s, l.i, l.act) == Some(s') {
      CreateBacked(c, s, l.i, l.act, s');
    } else if AdminStep(s, l.i, l.act) == Some(s') {
      AdminBacked(s, l.i, l.act, s');
    }
  }

  lemma OtherBacked(c: Config, s: State, l: Label, s': State, p: Proc)
    requires Step(c, s, l) == Some(s') && (l.i < |s.procs| ==> Backed(s, s.procs[l.i])) && Backed(s, p)
    ensures Backed(s', p)
  {
    hide Step;
    if p.CreateWarm? || p.CreateRetry? || p.CreateHolding? || p.DropReady? || p.DropCommitted? { StepKey(c, s, l, s', p.t); }
  }

  lemma StepBacked(c: Config, s: State, l: Label, s': State)
    requires Inv(c, s) && AllBacked(s) && Step(c, s, l) == Some(s')
    ensures AllBacked(s')
  {
    assert l.act.Tick? || l.i < |s.procs|;
    hide Step, Inv, Backed;
    forall j: nat | j < |s'.procs| ensures Backed(s', s'.procs[j]) {
      if j == l.i && !l.act.Tick? {
        OwnBacked(c, s, l, s');
      } else {
        F.OthersLeave(c, s, l, s', j);
        OtherBacked(c, s, l, s', s.procs[j]);
      }
    }
  }

  lemma RunStepBacked(c: Config, states: seq<State>, labels: seq<Label>, k: nat)
    requires Run(c, states, labels) && Inv(c, states[0]) && k < |labels| && AllBacked(states[k])
    ensures AllBacked(states[k + 1])
  {
    RunKeepsInv(c, states, labels, k);
    RunStep(c, states, labels, k);
    StepBacked(c, states[k], labels[k], states[k + 1]);
  }

  lemma {:induction false} RunBacked(c: Config, states: seq<State>, labels: seq<Label>, k: nat)
    requires Run(c, states, labels) && Inv(c, states[0]) && AllBacked(states[0]) && k < |states|
    ensures AllBacked(states[k])
  {
    if k > 0 {
      RunBacked(c, states, labels, k - 1);
      RunStepBacked(c, states, labels, k - 1);
    }
  }

  /** In every run, ticket types coming and going: a create that commits a ticket has taken a unit at the
      gate, although a second missing counter lets a create through without one. */
  lemma TicketsTookAUnit(c: Config, states: seq<State>, labels: seq<Label>, k: nat)
    requires Run(c, states, labels) && Inv(c, states[0]) && AllBacked(states[0]) && k < |labels| && labels[k].act == Commit
    requires labels[k].i < |states[k].procs| && states[k].procs[labels[k].i].CreateHashed?
    ensures states[k].procs[labels[k].i].slot
  {
    RunBacked(c, states, labels, k);
    assert Backed(states[k], states[k].procs[labels[k].i]);
  }

  // ---------- created_at ----------

  /** The process has run its first statement at this moment, or has nothing more to store. */
  predicate Began(p: Proc, x: nat) {
    match p
    case CreateWarm(_, _, _, began) => began == x
    case CreateRetry(_, _, began) => began == x
    case CreateHolding(_, _, _, txStart) => txStart == Some(x)
    case CreateUpdated(_, _, _, start) => start == x
    case CreateInserted(_, _, _, start, _) => start == x
    case CreateStamped(_, _, _, start, _, _) => start == x
    case CreateHashed(_, _, _, start, _, _) => start == x
    case CreateCommitted(_, _) => true
    case CreateFailed(_, _, _) => true
    case Done(_) => true
    case _ => false
  }

  /** The first SQL statement of a create: the row read of the cold path, or the UPDATE of the warm one. */
  predicate FirstStatement(s: State, l: Label) {
    l.i < |s.procs| &&
    ((s.procs[l.i].CreateMiss? && l.act == ReadRow) ||
     (s.procs[l.i].CreateHolding? && s.procs[l.i].txStart == None && l.act == UpdateSold))
  }

  lemma StatementBegins(c: Config, s: State, l: Label, s': State)
    requires Step(c, s, l) == Some(s') && FirstStatement(s, l)
    ensures l.i < |s'.procs| && Began(s'.procs[l.i], s.now)
  {
  }

  lemma OwnBegan(c: Config, s: State, l: Label, s': State, x: nat)
    requires Step(c, s, l) == Some(s') && l.i < |s.procs| && !l.act.Tick? && !l.act.Spawn? && Began(s.procs[l.i], x)
    ensures l.i < |s'.procs| && Began(s'.procs[l.i], x)
  {
    hide DeleteStep, PayStep, ReleaseStep, HungStep, GcStep;
  }

  ghost predicate SameRequest(labels: seq<Label>, i: nat, j: nat, k: nat)
    requires k <= |labels|
  {
    forall x :: j < x < k ==> !(labels[x].i == i && labels[x].act.Spawn?)
  }

  lemma {:induction false} RunBegan(c: Config, states: seq<State>, labels: seq<Label>, j: nat, k: nat)
    requires Run(c, states, labels) && j < k <= |labels| && FirstStatement(states[j], labels[j]) && SameRequest(labels, labels[j].i, j, k)
    ensures labels[j].i < |states[k].procs| && Began(states[k].procs[labels[j].i], states[j].now)
  {
    RunStep(c, states, labels, k - 1);
    if k == j + 1 {
      StatementBegins(c, states[j], labels[j], states[k]);
    } else {
      RunBegan(c, states, labels, j, k - 1);
      if labels[k - 1].i == labels[j].i && !labels[k - 1].act.Tick? {
        OwnBegan(c, states[k - 1], labels[k - 1], states[k], states[j].now);
      } else {
        F.OthersLeave(c, states[k - 1], labels[k - 1], states[k], labels[j].i);
      }
    }
  }

  /** In every run the created_at of a ticket is the moment of the service's first SQL statement for it,
      however long the rest takes: a cold create reads its row before it warms the counter, and the
      reservation time runs from there. */
  lemma CreatedAtFirstStatement(c: Config, states: seq<State>, labels: seq<Label>, j: nat, k: nat)
    requires Run(c, states, labels) && j < k < |labels| && FirstStatement(states[j], labels[j])
    requires SameRequest(labels, labels[j].i, j, k) && labels[k].i == labels[j].i && labels[k].act == Commit
    ensures var p := states[k].procs[labels[k].i];
      labels[k].i < |states[k].procs| && p.CreateHashed? && p.id in states[k + 1].db.tickets &&
      states[k + 1].db.tickets[p.id] == Ticket(p.t, p.owner, RESERVED, states[j].now)
  {
    RunBegan(c, states, labels, j, k);
    RunStep(c, states, labels, k);
    CommitStores(c, states[k], labels[k], states[k + 1], states[j].now);
  }

  lemma CommitStores(c: Config, s: State, l: Label, s': State, x: nat)
    requires Step(c, s, l) == Some(s') && l.i < |s.procs| && l.act == Commit && Began(s.procs[l.i], x)
    ensures var p := s.procs[l.i];
      p.CreateHashed? && p.id in s'.db.tickets && s'.db.tickets[p.id] == Ticket(p.t, p.owner, RESERVED, x)
  {
    hide DeleteStep, PayStep, ReleaseStep, HungStep, GcStep;
  }
}
