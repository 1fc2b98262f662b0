/** A process that is left alone can get to each end of its complete operation: the run through, and
    every place where it fails or ends for good. */
module Alone {
  import opened Stores
  import opened Protocol
  import O = Operations

  /** Process i gets from one state to another by its own steps, while nobody else moves. */
  ghost predicate Gets(c: Config, s: State, i: nat, s': State) {
    exists states: seq<State>, labels: seq<Label> ::
      Run(c, states, labels) && states[0] == s && states[|labels|] == s' && OnlyMoves(labels, i)
  }

  predicate OnlyMoves(labels: seq<Label>, i: nat) {
    forall k :: 0 <= k < |labels| ==> labels[k].i == i && !labels[k].act.Tick?
  }

  lemma Stays(c: Config, s: State, i: nat)
    ensures Gets(c, s, i, s)
  {
    var states: seq<State>, labels: seq<Label> := [s], [];
    assert Run(c, states, labels) && states[|labels|] == s && OnlyMoves(labels, i);
  }

  lemma First(c: Config, s: State, i: nat, a: Action, m: State, s': State)
    requires Step(c, s, Label(i, a)) == Some(m) && !a.Tick? && Gets(c, m, i, s')
    ensures Gets(c, s, i, s')
  {
    var states: seq<State>, labels: seq<Label> :|
      Run(c, states, labels) && states[0] == m && states[|labels|] == s' && OnlyMoves(labels, i);
    var states', labels' := [s] + states, [Label(i, a)] + labels;
    forall k | 0 <= k < |labels'| ensures Step(c, states'[k], labels'[k]) == Some(states'[k + 1]) {
      if k > 0 { assert Step(c, states[k - 1], labels[k - 1]) == Some(states[k - 1 + 1]); }
    }
    assert Run(c, states', labels') && states'[0] == s && states'[|labels'|] == s' && OnlyMoves(labels', i);
  }

  /** Every other process is at rest. */
  predicate ByItself(s: State, i: nat) {
    i < |s.procs| && forall j :: 0 <= j < |s.procs| && j != i ==> s.procs[j].Done?
  }

  lemma NobodyHolds(s: State, i: nat, p: Proc)
    requires ByItself(s, i)
    ensures forall t :: TypeFree(s.Put(i, p), i, t)
    ensures forall id :: TicketFree(s.Put(i, p), i, id)
  {
  }

  /** One step of process i, from p with the stores of s to q with the stores of m; the rest follows. */
  lemma Move(c: Config, s: State, i: nat, p: Proc, a: Action, m: State, q: Proc, end: State)
    requires i < |s.procs| && m.procs == s.procs && !a.Tick?
    requires Step(c, s.Put(i, p), Label(i, a)) == Some(m.Put(i, p).Put(i, q)) && Gets(c, m.Put(i, q), i, end)
    ensures Gets(c, s.Put(i, p), i, end)
  {
    assert s.procs[i := p][i := q] == s.procs[i := q];
    First(c, s.Put(i, p), i, a, m.Put(i, q), end);
  }

  function WorldIn(s: State, cache: O.Cache): O.World {
    O.World(s.db, s.api, cache)
  }

  function OutcomeOf(r: O.Reply): Outcome {
    match r
    case TicketId(id) => Success(id)
    case TicketsSoldOut => SoldOut
    case TypeNotFound => NotFound
    case TicketNotFound => NotFound
    case AlreadyPaid => Rejected
    case ReservationExpired => Rejected
    case ProcessDied => Crashed
    case QuantityTooSmall => Rejected
    case DeleteRefused => Rejected
    case Completed => Finished
    case TypeId(_) => Finished
    case _ => Failed
  }

  /** The operation is over: the stores are as in w. */
  function Ended(s: State, i: nat, w: O.World, reply: O.Reply): State
    requires i < |s.procs|
  {
    s.(db := w.db, api := w.redis).Put(i, Done(OutcomeOf(reply)))
  }

  // ---------- create: its steps, last ones first ----------

  lemma Compensates(c: Config, s: State, i: nat, t: nat, slot: bool, out: Outcome)
    requires i < |s.procs|
    ensures Gets(c, s.Put(i, CreateFailed(t, slot, out)), i, s.(api := s.api.Incr(t)).Put(i, Done(out)))
  {
    var m := s.(api := s.api.Incr(t));
    Stays(c, m.Put(i, Done(out)), i);
    Move(c, s, i, CreateFailed(t, slot, out), Compensate, m, Done(out), m.Put(i, Done(out)));
  }

  lemma AbortsHolding(c: Config, s: State, i: nat, t: nat, owner: nat, tx: Option<nat>)
    requires i < |s.procs|
    ensures Gets(c, s.Put(i, CreateHolding(t, owner, true, tx)), i, s.(api := s.api.Incr(t)).Put(i, Done(Failed)))
  {
    Compensates(c, s, i, t, true, Failed);
    Move(c, s, i, CreateHolding(t, owner, true, tx), Abort, s, CreateFailed(t, true, Failed), s.(api := s.api.Incr(t)).Put(i, Done(Failed)));
  }

  lemma FindsNoRow(c: Config, s: State, i: nat, t: nat, owner: nat, tx: Option<nat>)
    requires ByItself(s, i) && t !in s.db.types
    ensures var m := s.(db := s.db.(nextTicket := s.db.nextTicket + 1));
      Gets(c, s.Put(i, CreateHolding(t, owner, true, tx)), i, m.(api := m.api.Incr(t)).Put(i, Done(Failed)))
  {
    var m := s.(db := s.db.(nextTicket := s.db.nextTicket + 1));
    NobodyHolds(s, i, CreateHolding(t, owner, true, tx));
    Compensates(c, m, i, t, true, Failed);
    Move(c, s, i, CreateHolding(t, owner, true, tx), UpdateSold, m, CreateFailed(t, true, Failed), m.(api := m.api.Incr(t)).Put(i, Done(Failed)));
  }

  lemma HitsLimit(c: Config, s: State, i: nat, t: nat, owner: nat, tx: Option<nat>)
    requires ByItself(s, i) && t in s.db.types && s.db.types[t].quantity < s.db.types[t].sold + 1
    ensures Gets(c, s.Put(i, CreateHolding(t, owner, true, tx)), i, s.(api := s.api.Incr(t)).Put(i, Done(SoldOut)))
  {
    NobodyHolds(s, i, CreateHolding(t, owner, true, tx));
    Compensates(c, s, i, t, true, SoldOut);
    Move(c, s, i, CreateHolding(t, owner, true, tx), UpdateSold, s, CreateFailed(t, true, SoldOut), s.(api := s.api.Incr(t)).Put(i, Done(SoldOut)));
  }

  lemma Updates(c: Config, s: State, i: nat, t: nat, owner: nat, tx: Option<nat>, end: State)
    requires ByItself(s, i) && t in s.db.types && s.db.types[t].sold + 1 <= s.db.types[t].quantity
    requires tx.Some? ==> tx.value == s.now
    requires Gets(c, s.Put(i, CreateUpdated(t, owner, true, s.now)), i, end)
    ensures Gets(c, s.Put(i, CreateHolding(t, owner, true, tx)), i, end)
  {
    NobodyHolds(s, i, CreateHolding(t, owner, true, tx));
    Move(c, s, i, CreateHolding(t, owner, true, tx), UpdateSold, s, CreateUpdated(t, owner, true, s.now), end);
  }

  lemma AbortsUpdated(c: Config, s: State, i: nat, t: nat, owner: nat, start: nat)
    requires i < |s.procs|
    ensures Gets(c, s.Put(i, CreateUpdated(t, owner, true, start)), i, s.(api := s.api.Incr(t)).Put(i, Done(Failed)))
  {
    Compensates(c, s, i, t, true, Failed);
    Move(c, s, i, CreateUpdated(t, owner, true, start), Abort, s, CreateFailed(t, true, Failed), s.(api := s.api.Incr(t)).Put(i, Done(Failed)));
  }

  function HashedIn(s: State, t: nat): State {
    s.(db := s.db.(nextTicket := s.db.nextTicket + 1), api := s.api.Hset(s.db.nextTicket, Reservation(t, s.now)))
  }

  /** From the flush to the hash write. */
  lemma Hashes(c: Config, s: State, i: nat, t: nat, owner: nat, end: State)
    requires i < |s.procs|
    requires Gets(c, HashedIn(s, t).Put(i, CreateHashed(t, owner, true, s.now, s.db.nextTicket, s.now)), i, end)
    ensures Gets(c, s.Put(i, CreateUpdated(t, owner, true, s.now)), i, end)
  {
    var id := s.db.nextTicket;
    var drawn, hashed := s.(db := s.db.(nextTicket := id + 1)), HashedIn(s, t);
    Move(c, drawn, i, CreateStamped(t, owner, true, s.now, id, s.now), Action.Hset, hashed, CreateHashed(t, owner, true, s.now, id, s.now), end);
    Move(c, drawn, i, CreateInserted(t, owner, true, s.now, id), Stamp, drawn, CreateStamped(t, owner, true, s.now, id, s.now), end);
    Move(c, s, i, CreateUpdated(t, owner, true, s.now), Flush, drawn, CreateInserted(t, owner, true, s.now, id), end);
  }

  lemma Dies(c: Config, s: State, i: nat, p: Proc)
    requires i < |s.procs| && !p.Done?
    ensures Gets(c, s.Put(i, p), i, s.Put(i, Done(Crashed)))
  {
    Stays(c, s.Put(i, Done(Crashed)), i);
    Move(c, s, i, p, Die, s, Done(Crashed), s.Put(i, Done(Crashed)));
  }

  lemma AbortsHashed(c: Config, s: State, i: nat, t: nat, owner: nat, id: nat)
    requires i < |s.procs|
    ensures Gets(c, s.Put(i, CreateHashed(t, owner, true, s.now, id, s.now)), i, s.(api := s.api.Incr(t)).Put(i, Done(Failed)))
  {
    Compensates(c, s, i, t, true, Failed);
    Move(c, s, i, CreateHashed(t, owner, true, s.now, id, s.now), Abort, s, CreateFailed(t, true, Failed), s.(api := s.api.Incr(t)).Put(i, Done(Failed)));
  }

  function StoredDb(s: State, t: nat, owner: nat, id: nat): Db {
    s.db.(types := AddSold(s.db.types, t, 1), tickets := s.db.tickets[id := Ticket(t, owner, RESERVED, s.now)])
  }

  lemma Commits(c: Config, s: State, i: nat, t: nat, owner: nat, id: nat, end: State)
    requires i < |s.procs| && Gets(c, s.(db := StoredDb(s, t, owner, id)).Put(i, CreateCommitted(t, id)), i, end)
    ensures Gets(c, s.Put(i, CreateHashed(t, owner, true, s.now, id, s.now)), i, end)
  {
    Move(c, s, i, CreateHashed(t, owner, true, s.now, id, s.now), Action.Commit, s.(db := StoredDb(s, t, owner, id)), CreateCommitted(t, id), end);
  }

  lemma Refreshes(c: Config, s: State, i: nat, t: nat, id: nat)
    requires i < |s.procs|
    ensures Gets(c, s.Put(i, CreateCommitted(t, id)), i, s.Put(i, Done(Success(id))))
    ensures Gets(c, s.Put(i, CreateCommitted(t, id)), i, s.(api := s.api.Incr(t)).Put(i, Done(Failed)))
  {
    Stays(c, s.Put(i, Done(Success(id))), i);
    Move(c, s, i, CreateCommitted(t, id), Refresh, s, Done(Success(id)), s.Put(i, Done(Success(id))));
    Compensates(c, s, i, t, false, Failed);
    Move(c, s, i, CreateCommitted(t, id), RefreshFails, s, CreateFailed(t, false, Failed), s.(api := s.api.Incr(t)).Put(i, Done(Failed)));
  }

  /** Ends of a create past its hash write. */
  function WriteEnd(s: State, i: nat, t: nat, owner: nat, fault: O.Fault): State
    requires i < |s.procs|
  {
    var hashed := HashedIn(s, t);
    var stored := hashed.(db := StoredDb(hashed, t, owner, s.db.nextTicket));
    if fault == O.DiesAfterHash then hashed.Put(i, Done(Crashed))
    else if fault == O.AtCommit then hashed.(api := hashed.api.Incr(t)).Put(i, Done(Failed))
    else if fault == O.AtRefresh then stored.(api := stored.api.Incr(t)).Put(i, Done(Failed))
    else if fault == O.DiesAfterCommit then stored.Put(i, Done(Crashed))
    else stored.Put(i, Done(Success(s.db.nextTicket)))
  }

  lemma HashedAlone(c: Config, s: State, i: nat, t: nat, owner: nat, fault: O.Fault)
    requires i < |s.procs|
    ensures Gets(c, HashedIn(s, t).Put(i, CreateHashed(t, owner, true, s.now, s.db.nextTicket, s.now)), i, WriteEnd(s, i, t, owner, fault))
  {
    var id, h := s.db.nextTicket, HashedIn(s, t);
    var m := h.(db := StoredDb(h, t, owner, id));
    match fault
    case DiesAfterHash => Dies(c, h, i, CreateHashed(t, owner, true, s.now, id, s.now));
    case AtCommit => AbortsHashed(c, h, i, t, owner, id);
    case AtRefresh =>
      Refreshes(c, m, i, t, id);
      Commits(c, h, i, t, owner, id, m.(api := m.api.Incr(t)).Put(i, Done(Failed)));
    case DiesAfterCommit =>
      Dies(c, m, i, CreateCommitted(t, id));
      Commits(c, h, i, t, owner, id, m.Put(i, Done(Crashed)));
    case _ =>
      Refreshes(c, m, i, t, id);
      Commits(c, h, i, t, owner, id, m.Put(i, Done(Success(id))));
  }

  /** Dying with a drawn id, before the hash write; the row may be missing. */
  lemma DrawnDies(c: Config, s: State, i: nat, t: nat, owner: nat, tx: Option<nat>)
    requires ByItself(s, i) && (tx.Some? ==> tx.value == s.now)
    requires t in s.db.types ==> s.db.types[t].sold + 1 <= s.db.types[t].quantity
    ensures Gets(c, s.Put(i, CreateHolding(t, owner, true, tx)), i,
      s.(db := s.db.(nextTicket := s.db.nextTicket + 1)).Put(i, Done(Crashed)))
  {
    var m := s.(db := s.db.(nextTicket := s.db.nextTicket + 1));
    var end := m.Put(i, Done(Crashed));
    if t in s.db.types {
      Dies(c, m, i, CreateInserted(t, owner, true, s.now, s.db.nextTicket));
      Move(c, s, i, CreateUpdated(t, owner, true, s.now), Flush, m, CreateInserted(t, owner, true, s.now, s.db.nextTicket), end);
      Updates(c, s, i, t, owner, tx, end);
    } else {
      NobodyHolds(s, i, CreateHolding(t, owner, true, tx));
      Dies(c, m, i, CreateFailed(t, true, Failed));
      Move(c, s, i, CreateHolding(t, owner, true, tx), UpdateSold, m, CreateFailed(t, true, Failed), end);
    }
  }

  lemma FlushFails(c: Config, s: State, i: nat, t: nat, owner: nat, tx: Option<nat>)
    requires ByItself(s, i) && t in s.db.types && s.db.types[t].sold + 1 <= s.db.types[t].quantity
    requires tx.Some? ==> tx.value == s.now
    ensures Gets(c, s.Put(i, CreateHolding(t, owner, true, tx)), i, s.(api := s.api.Incr(t)).Put(i, Done(Failed)))
  {
    AbortsUpdated(c, s, i, t, owner, s.now);
    Updates(c, s, i, t, owner, tx, s.(api := s.api.Incr(t)).Put(i, Done(Failed)));
  }

  /** The create ends before its hash write. */
  predicate Refused(w: O.World, t: nat, fault: O.Fault) {
    fault == O.DiesAtGate || fault == O.AtUpdate || fault == O.AtFlush || fault == O.DiesBeforeHash ||
    t !in w.db.types || O.SoldLimit(w, t)
  }

  function RefusedEnd(s: State, i: nat, t: nat, fault: O.Fault): State
    requires i < |s.procs|
  {
    var drawn := s.(db := s.db.(nextTicket := s.db.nextTicket + 1));
    var full := t in s.db.types && s.db.types[t].quantity < s.db.types[t].sold + 1;
    if fault == O.DiesAtGate then s.Put(i, Done(Crashed))
    else if fault == O.AtUpdate || (fault == O.AtFlush && !full) then s.(api := s.api.Incr(t)).Put(i, Done(Failed))
    else if full then s.(api := s.api.Incr(t)).Put(i, Done(SoldOut))
    else if fault == O.DiesBeforeHash then drawn.Put(i, Done(Crashed))
    else drawn.(api := s.api.Incr(t)).Put(i, Done(Failed))
  }

  /** Ends of a create that the gate has let in. */
  function AdmittedEnd(s: State, i: nat, t: nat, owner: nat, fault: O.Fault, cache: O.Cache): State
    requires i < |s.procs|
  {
    if Refused(WorldIn(s, cache), t, fault) then RefusedEnd(s, i, t, fault) else WriteEnd(s, i, t, owner, fault)
  }

  lemma RefusedCases(s: State, i: nat, t: nat, owner: nat, fault: O.Fault, cache: O.Cache)
    requires i < |s.procs| && Refused(WorldIn(s, cache), t, fault)
    ensures var (w', reply) := O.Admitted(WorldIn(s, cache), owner, t, s.now, fault);
      Ended(s, i, w', reply) == RefusedEnd(s, i, t, fault)
  {
  }

  lemma WriteCases(s: State, i: nat, t: nat, owner: nat, fault: O.Fault, cache: O.Cache)
    requires i < |s.procs|
    ensures var w := WorldIn(s, cache).(db := s.db.(nextTicket := s.db.nextTicket + 1));
      var (w', reply) := O.Write(w, owner, t, s.db.nextTicket, s.now, fault);
      Ended(s, i, w', reply) == WriteEnd(s, i, t, owner, fault)
  {
  }

  lemma AdmittedCases(s: State, i: nat, t: nat, owner: nat, fault: O.Fault, cache: O.Cache)
    requires i < |s.procs|
    ensures var (w', reply) := O.Admitted(WorldIn(s, cache), owner, t, s.now, fault);
      Ended(s, i, w', reply) == AdmittedEnd(s, i, t, owner, fault, cache)
  {
    if Refused(WorldIn(s, cache), t, fault) { RefusedCases(s, i, t, owner, fault, cache); }
    else { WriteCases(s, i, t, owner, fault, cache); }
  }

  lemma RefusedAlone(c: Config, s: State, i: nat, t: nat, owner: nat, tx: Option<nat>, fault: O.Fault, cache: O.Cache)
    requires ByItself(s, i) && (tx.Some? ==> tx.value == s.now)
    requires Refused(WorldIn(s, cache), t, fault)
    ensures Gets(c, s.Put(i, CreateHolding(t, owner, true, tx)), i, RefusedEnd(s, i, t, fault))
  {
    if fault == O.DiesAtGate {
      Dies(c, s, i, CreateHolding(t, owner, true, tx));
    } else if fault == O.AtUpdate || (fault == O.AtFlush && t !in s.db.types) {
      AbortsHolding(c, s, i, t, owner, tx);
    } else if O.SoldLimit(WorldIn(s, cache), t) {
      HitsLimit(c, s, i, t, owner, tx);
    } else if fault == O.AtFlush {
      FlushFails(c, s, i, t, owner, tx);
    } else if fault == O.DiesBeforeHash {
      DrawnDies(c, s, i, t, owner, tx);
    } else {
      FindsNoRow(c, s, i, t, owner, tx);
    }
  }

  lemma InsertsAlone(c: Config, s: State, i: nat, t: nat, owner: nat, tx: Option<nat>, end: State)
    requires ByItself(s, i) && t in s.db.types && s.db.types[t].sold + 1 <= s.db.types[t].quantity
    requires tx.Some? ==> tx.value == s.now
    requires Gets(c, HashedIn(s, t).Put(i, CreateHashed(t, owner, true, s.now, s.db.nextTicket, s.now)), i, end)
    ensures Gets(c, s.Put(i, CreateHolding(t, owner, true, tx)), i, end)
  {
    Hashes(c, s, i, t, owner, end);
    Updates(c, s, i, t, owner, tx, end);
  }

  lemma AdmittedAlone(c: Config, s: State, i: nat, t: nat, owner: nat, tx: Option<nat>, fault: O.Fault, cache: O.Cache)
    requires ByItself(s, i) && (tx.Some? ==> tx.value == s.now)
    ensures Gets(c, s.Put(i, CreateHolding(t, owner, true, tx)), i, AdmittedEnd(s, i, t, owner, fault, cache))
  {
    hide Gets;
    if Refused(WorldIn(s, cache), t, fault) {
      RefusedAlone(c, s, i, t, owner, tx, fault, cache);
    } else {
      HashedAlone(c, s, i, t, owner, fault);
      InsertsAlone(c, s, i, t, owner, tx, WriteEnd(s, i, t, owner, fault));
    }
  }

  // ---------- the gate ----------

  lemma WarmGate(c: Config, s: State, i: nat, p: Proc, tx: Option<nat>, t: nat, owner: nat, end: State)
    requires i < |s.procs| && t in s.api.counters
    requires p == (if tx.Some? then CreateRetry(t, owner, tx.value) else CreateStart(t, owner))
    requires if s.api.counters[t] <= 0 then end == s.Put(i, Done(SoldOut))
      else Gets(c, s.(api := s.api.SetCounter(t, s.api.counters[t] - 1)).Put(i, CreateHolding(t, owner, true, tx)), i, end)
    ensures Gets(c, s.Put(i, p), i, end)
  {
    hide Gets;
    if s.api.counters[t] <= 0 {
      Stays(c, end, i);
      Move(c, s, i, p, Eval, s, Done(SoldOut), end);
    } else {
      var m := s.(api := s.api.SetCounter(t, s.api.counters[t] - 1));
      Move(c, s, i, p, Eval, m, CreateHolding(t, owner, true, tx), end);
    }
  }

  lemma ColdGate(c: Config, s: State, i: nat, t: nat, owner: nat, end: State)
    requires i < |s.procs| && t !in s.api.counters && t in s.db.types
    requires var seen := s.db.types[t].quantity - s.db.types[t].sold;
      Gets(c, s.(api := s.api.SetCounter(t, seen)).Put(i, CreateRetry(t, owner, s.now)), i, end)
    ensures Gets(c, s.Put(i, CreateStart(t, owner)), i, end)
  {
    var seen := s.db.types[t].quantity - s.db.types[t].sold;
    Move(c, s, i, CreateWarm(t, owner, seen, s.now), Warm, s.(api := s.api.SetCounter(t, seen)), CreateRetry(t, owner, s.now), end);
    Move(c, s, i, CreateMiss(t, owner), ReadRow, s, CreateWarm(t, owner, seen, s.now), end);
    Move(c, s, i, CreateStart(t, owner), Eval, s, CreateMiss(t, owner), end);
  }

  lemma NoGate(c: Config, s: State, i: nat, t: nat, owner: nat)
    requires i < |s.procs| && t !in s.api.counters && t !in s.db.types
    ensures Gets(c, s.Put(i, CreateStart(t, owner)), i, s.Put(i, Done(NotFound)))
  {
    Stays(c, s.Put(i, Done(NotFound)), i);
    Move(c, s, i, CreateMiss(t, owner), ReadRow, s, Done(NotFound), s.Put(i, Done(NotFound)));
    Move(c, s, i, CreateStart(t, owner), Eval, s, CreateMiss(t, owner), s.Put(i, Done(NotFound)));
  }

  /** Ends of a create whose counter is warm. */
  function WarmEnd(s: State, i: nat, t: nat, owner: nat, fault: O.Fault, cache: O.Cache): State
    requires i < |s.procs| && t in s.api.counters
  {
    if s.api.counters[t] <= 0 then s.Put(i, Done(SoldOut))
    else AdmittedEnd(s.(api := s.api.SetCounter(t, s.api.counters[t] - 1)), i, t, owner, fault, cache)
  }

  /** A create from the gate on, in its first or its second attempt. */
  lemma WarmAlone(c: Config, s: State, i: nat, p: Proc, tx: Option<nat>, t: nat, owner: nat, fault: O.Fault, cache: O.Cache)
    requires ByItself(s, i) && t in s.api.counters && (tx.Some? ==> tx.value == s.now)
    requires p == (if tx.Some? then CreateRetry(t, owner, tx.value) else CreateStart(t, owner))
    ensures Gets(c, s.Put(i, p), i, WarmEnd(s, i, t, owner, fault, cache))
  {
    hide Gets;
    var end := WarmEnd(s, i, t, owner, fault, cache);
    if s.api.counters[t] > 0 {
      var taken := s.(api := s.api.SetCounter(t, s.api.counters[t] - 1));
      assert end == AdmittedEnd(taken, i, t, owner, fault, cache);
      AdmittedAlone(c, taken, i, t, owner, tx, fault, cache);
    }
    WarmGate(c, s, i, p, tx, t, owner, end);
  }

  /** Ends of a create, warm or cold. */
  function CreateEnd(s: State, i: nat, t: nat, owner: nat, fault: O.Fault, cache: O.Cache): State
    requires i < |s.procs|
  {
    if fault == O.DiesAtOnce then s.Put(i, Done(Crashed))
    else if t in s.api.counters then WarmEnd(s, i, t, owner, fault, cache)
    else if t !in s.db.types then s.Put(i, Done(NotFound))
    else
      var warm := s.(api := s.api.SetCounter(t, s.db.types[t].quantity - s.db.types[t].sold));
      if fault == O.DiesCold then warm.Put(i, Done(Crashed)) else WarmEnd(warm, i, t, owner, fault, cache)
  }

  lemma WarmCreate(w: O.World, owner: nat, t: nat, now: nat, fault: O.Fault)
    requires t in w.redis.counters && fault != O.DiesAtOnce
    ensures O.Create(w, owner, t, now, fault) ==
      if w.redis.counters[t] <= 0 then (w, O.TicketsSoldOut)
      else O.Admitted(w.(redis := w.redis.SetCounter(t, w.redis.counters[t] - 1)), owner, t, now, fault)
  {
    assert w.redis.SetCounter(t, w.redis.counters[t]) == w.redis;
  }

  lemma WarmCases(s: State, i: nat, t: nat, owner: nat, fault: O.Fault, cache: O.Cache)
    requires i < |s.procs| && t in s.api.counters && fault != O.DiesAtOnce
    ensures var (w', reply) := O.Create(WorldIn(s, cache), owner, t, s.now, fault);
      Ended(s, i, w', reply) == WarmEnd(s, i, t, owner, fault, cache)
  {
    hide O.Create, O.Admitted, AdmittedEnd;
    WarmCreate(WorldIn(s, cache), owner, t, s.now, fault);
    if s.api.counters[t] > 0 {
      var taken := s.(api := s.api.SetCounter(t, s.api.counters[t] - 1));
      assert WorldIn(taken, cache) == WorldIn(s, cache).(redis := taken.api);
      AdmittedCases(taken, i, t, owner, fault, cache);
    }
  }

  /** What a cold create is once its counter is warm. */
  lemma ColdCases(w: O.World, owner: nat, t: nat, now: nat, fault: O.Fault)
    requires t !in w.redis.counters && t in w.db.types && fault != O.DiesAtOnce && fault != O.DiesCold
    ensures O.Create(w, owner, t, now, fault) == O.Create(w.(redis := w.redis.SetCounter(t, O.Seen(w, t))), owner, t, now, fault)
  {
    hide O.Admitted;
    var seen := O.Seen(w, t);
    assert w.redis.SetCounter(t, seen).SetCounter(t, seen) == w.redis.SetCounter(t, seen);
    assert w.redis.SetCounter(t, seen).SetCounter(t, seen - 1) == w.redis.SetCounter(t, seen - 1);
  }

  lemma CreateCases(s: State, i: nat, t: nat, owner: nat, fault: O.Fault, cache: O.Cache)
    requires i < |s.procs|
    ensures var (w', reply) := O.Create(WorldIn(s, cache), owner, t, s.now, fault);
      Ended(s, i, w', reply) == CreateEnd(s, i, t, owner, fault, cache)
  {
    hide O.Admitted, AdmittedEnd;
    if fault == O.DiesAtOnce { }
    else if t in s.api.counters { WarmCases(s, i, t, owner, fault, cache); }
    else if t in s.db.types && fault != O.DiesCold {
      ColdCases(WorldIn(s, cache), owner, t, s.now, fault);
      WarmCases(s.(api := s.api.SetCounter(t, s.db.types[t].quantity - s.db.types[t].sold)), i, t, owner, fault, cache);
    }
  }

  lemma ColdDies(c: Config, s: State, i: nat, t: nat, owner: nat)
    requires i < |s.procs| && t !in s.api.counters && t in s.db.types
    ensures var warm := s.(api := s.api.SetCounter(t, s.db.types[t].quantity - s.db.types[t].sold));
      Gets(c, s.Put(i, CreateStart(t, owner)), i, warm.Put(i, Done(Crashed)))
  {
    var warm := s.(api := s.api.SetCounter(t, s.db.types[t].quantity - s.db.types[t].sold));
    Dies(c, warm, i, CreateRetry(t, owner, s.now));
    ColdGate(c, s, i, t, owner, warm.Put(i, Done(Crashed)));
  }

  lemma StartsCold(c: Config, s: State, i: nat, t: nat, owner: nat, fault: O.Fault, cache: O.Cache)
    requires ByItself(s, i) && t !in s.api.counters && t in s.db.types
    ensures var warm := s.(api := s.api.SetCounter(t, s.db.types[t].quantity - s.db.types[t].sold));
      Gets(c, s.Put(i, CreateStart(t, owner)), i, WarmEnd(warm, i, t, owner, fault, cache))
  {
    hide Gets;
    var warm := s.(api := s.api.SetCounter(t, s.db.types[t].quantity - s.db.types[t].sold));
    WarmAlone(c, warm, i, CreateRetry(t, owner, s.now), Some(s.now), t, owner, fault, cache);
    ColdGate(c, s, i, t, owner, WarmEnd(warm, i, t, owner, fault, cache));
  }

  lemma StartsCreate(c: Config, s: State, i: nat, t: nat, owner: nat, fault: O.Fault, cache: O.Cache, end: State)
    requires ByItself(s, i) && end == CreateEnd(s, i, t, owner, fault, cache)
    ensures Gets(c, s.Put(i, CreateStart(t, owner)), i, end)
  {
    hide Gets;
    if fault == O.DiesAtOnce {
      Dies(c, s, i, CreateStart(t, owner));
    } else if t in s.api.counters {
      assert end == WarmEnd(s, i, t, owner, fault, cache);
      WarmAlone(c, s, i, CreateStart(t, owner), None, t, owner, fault, cache);
    } else if t !in s.db.types {
      NoGate(c, s, i, t, owner);
    } else if fault == O.DiesCold {
      ColdDies(c, s, i, t, owner);
    } else {
      StartsCold(c, s, i, t, owner, fault, cache);
    }
  }

  /** Each end of a complete create can be reached: a process that is left alone gets to it, warm or
      cold, for every fault. */
  lemma CreateAlone(c: Config, s: State, i: nat, t: nat, owner: nat, fault: O.Fault, cache: O.Cache)
    requires ByItself(s, i)
    ensures var (w', reply) := O.Create(WorldIn(s, cache), owner, t, s.now, fault);
      Gets(c, s.Put(i, CreateStart(t, owner)), i, Ended(s, i, w', reply))
  {
    var (w', reply) := O.Create(WorldIn(s, cache), owner, t, s.now, fault);
    CreateCases(s, i, t, owner, fault, cache);
    StartsCreate(c, s, i, t, owner, fault, cache, Ended(s, i, w', reply));
  }

  /** A create that finds its warmed counter gone again goes on without a unit: it fails at the foreign key
      and gives back a unit it never had, which leaves the counter of a type that is gone at one. */
  lemma WithoutUnit(c: Config, s: State, i: nat, t: nat, owner: nat, began: nat)
    requires ByItself(s, i) && t !in s.api.counters && t !in s.db.types
    ensures var m := s.(db := s.db.(nextTicket := s.db.nextTicket + 1), api := s.api.SetCounter(t, 1));
      Gets(c, s.Put(i, CreateRetry(t, owner, began)), i, m.Put(i, Done(Failed)))
  {
    var n := s.(db := s.db.(nextTicket := s.db.nextTicket + 1));
    var end := n.(api := n.api.Incr(t)).Put(i, Done(Failed));
    NobodyHolds(s, i, CreateHolding(t, owner, false, Some(began)));
    Compensates(c, n, i, t, false, Failed);
    Move(c, s, i, CreateHolding(t, owner, false, Some(began)), UpdateSold, n, CreateFailed(t, false, Failed), end);
    Move(c, s, i, CreateRetry(t, owner, began), Eval, s, CreateHolding(t, owner, false, Some(began)), end);
  }

  // ---------- delete, pay, release ----------

  function RemovedDb(s: State, t: nat, id: nat): Db {
    s.db.(types := AddSold(s.db.types, t, -1), tickets := s.db.tickets - {id})
  }

  lemma CreditedAlone(c: Config, s: State, i: nat, id: nat)
    requires i < |s.procs|
    ensures Gets(c, s.Put(i, DeleteCredited(id)), i, s.Put(i, Done(Crashed)))
    ensures Gets(c, s.Put(i, DeleteCredited(id)), i, s.(api := s.api.Hdel(id)).Put(i, Done(Finished)))
  {
    var end := s.(api := s.api.Hdel(id));
    Dies(c, s, i, DeleteCredited(id));
    Stays(c, end.Put(i, Done(Finished)), i);
    Move(c, s, i, DeleteCredited(id), Action.Hdel, end, Done(Finished), end.Put(i, Done(Finished)));
  }

  /** A delete past its commit, by the place where it dies, if it does. */
  lemma RemovedAlone(c: Config, s: State, i: nat, id: nat, t: nat, fault: O.Fault)
    requires i < |s.procs|
    ensures Gets(c, s.Put(i, DeleteCommitted(id, t)), i,
      match fault
      case DiesAfterCommit => s.Put(i, Done(Crashed))
      case DiesAfterCounter => s.(api := s.api.SafeIncr(t)).Put(i, Done(Crashed))
      case _ => s.(api := s.api.SafeIncr(t).Hdel(id)).Put(i, Done(Finished)))
  {
    var credited := s.(api := s.api.SafeIncr(t));
    CreditedAlone(c, credited, i, id);
    match fault
    case DiesAfterCommit => Dies(c, s, i, DeleteCommitted(id, t));
    case DiesAfterCounter =>
      Move(c, s, i, DeleteCommitted(id, t), Action.SafeIncr, credited, DeleteCredited(id), credited.Put(i, Done(Crashed)));
    case _ =>
      var end := s.(api := s.api.SafeIncr(t).Hdel(id)).Put(i, Done(Finished));
      Move(c, s, i, DeleteCommitted(id, t), Action.SafeIncr, credited, DeleteCredited(id), end);
  }

  lemma FoundAlone(c: Config, s: State, i: nat, id: nat, t: nat, end: State)
    requires ByItself(s, i) && CanSubtract(s.db, t, 1)
    requires end == s.Put(i, Done(Failed)) || Gets(c, s.(db := RemovedDb(s, t, id)).Put(i, DeleteCommitted(id, t)), i, end)
    ensures Gets(c, s.Put(i, DeleteFound(id, t)), i, end)
  {
    hide Gets;
    NobodyHolds(s, i, DeleteFound(id, t));
    NobodyHolds(s, i, DeleteUpdated(id, t));
    if end == s.Put(i, Done(Failed)) {
      Stays(c, end, i);
      Move(c, s, i, DeleteRemoved(id, t), Abort, s, Done(Failed), end);
    } else {
      Move(c, s, i, DeleteRemoved(id, t), Action.Commit, s.(db := RemovedDb(s, t, id)), DeleteCommitted(id, t), end);
    }
    Move(c, s, i, DeleteUpdated(id, t), RemoveRow, s, DeleteRemoved(id, t), end);
    Move(c, s, i, DeleteFound(id, t), UpdateSold, s, DeleteUpdated(id, t), end);
  }

  /** Ends of a delete of an owned ticket. */
  function RemoveEnd(s: State, i: nat, id: nat, t: nat, fault: O.Fault): State
    requires i < |s.procs|
  {
    var removed := s.(db := RemovedDb(s, t, id));
    if fault == O.AtUpdate || fault == O.AtCommit || !CanSubtract(s.db, t, 1) then s.Put(i, Done(Failed))
    else if fault == O.DiesAfterCommit then removed.Put(i, Done(Crashed))
    else if fault == O.DiesAfterCounter then removed.(api := s.api.SafeIncr(t)).Put(i, Done(Crashed))
    else removed.(api := s.api.SafeIncr(t).Hdel(id)).Put(i, Done(Finished))
  }

  lemma DeletesAlone(c: Config, s: State, i: nat, id: nat, t: nat, fault: O.Fault)
    requires ByItself(s, i)
    ensures Gets(c, s.Put(i, DeleteFound(id, t)), i, RemoveEnd(s, i, id, t, fault))
  {
    hide Gets;
    if !CanSubtract(s.db, t, 1) {
      NobodyHolds(s, i, DeleteFound(id, t));
      Stays(c, s.Put(i, Done(Failed)), i);
      Move(c, s, i, DeleteFound(id, t), UpdateSold, s, Done(Failed), s.Put(i, Done(Failed)));
    } else {
      RemovedAlone(c, s.(db := RemovedDb(s, t, id)), i, id, t, fault);
      FoundAlone(c, s, i, id, t, RemoveEnd(s, i, id, t, fault));
    }
  }

  predicate Owned(s: State, id: nat, owner: nat) {
    id in s.db.tickets && s.db.tickets[id].owner == owner
  }

  function DeleteEnd(s: State, i: nat, id: nat, owner: nat, fault: O.Fault): State
    requires i < |s.procs|
  {
    if fault == O.DiesAtOnce then s.Put(i, Done(Crashed))
    else if Owned(s, id, owner) then RemoveEnd(s, i, id, s.db.tickets[id].typeId, fault)
    else s.Put(i, Done(NotFound))
  }

  lemma DeleteCases(s: State, i: nat, id: nat, owner: nat, fault: O.Fault, cache: O.Cache)
    requires i < |s.procs|
    ensures var (w', reply) := O.Delete(WorldIn(s, cache), owner, id, fault);
      Ended(s, i, w', reply) == DeleteEnd(s, i, id, owner, fault)
  {
  }

  lemma StartsDelete(c: Config, s: State, i: nat, id: nat, owner: nat, fault: O.Fault)
    requires ByItself(s, i)
    ensures Gets(c, s.Put(i, DeleteStart(id, owner)), i, DeleteEnd(s, i, id, owner, fault))
  {
    hide Gets, RemoveEnd;
    if fault == O.DiesAtOnce {
      Dies(c, s, i, DeleteStart(id, owner));
    } else if Owned(s, id, owner) {
      var t := s.db.tickets[id].typeId;
      DeletesAlone(c, s, i, id, t, fault);
      Move(c, s, i, DeleteStart(id, owner), ReadRow, s, DeleteFound(id, t), RemoveEnd(s, i, id, t, fault));
    } else {
      Stays(c, s.Put(i, Done(NotFound)), i);
      Move(c, s, i, DeleteStart(id, owner), ReadRow, s, Done(NotFound), s.Put(i, Done(NotFound)));
    }
  }

  lemma DeleteAlone(c: Config, s: State, i: nat, id: nat, owner: nat, fault: O.Fault, cache: O.Cache)
    requires ByItself(s, i)
    ensures var (w', reply) := O.Delete(WorldIn(s, cache), owner, id, fault);
      Gets(c, s.Put(i, DeleteStart(id, owner)), i, Ended(s, i, w', reply))
  {
    hide Gets, O.Delete, DeleteEnd;
    DeleteCases(s, i, id, owner, fault, cache);
    StartsDelete(c, s, i, id, owner, fault);
  }

  /** A payment past its commit. */
  lemma SoldAlone(c: Config, s: State, i: nat, id: nat)
    requires i < |s.procs|
    ensures Gets(c, s.Put(i, PayCommitted(id)), i, s.Put(i, Done(Failed)))
    ensures Gets(c, s.Put(i, PayCommitted(id)), i, s.Put(i, Done(Crashed)))
    ensures Gets(c, s.Put(i, PayCommitted(id)), i, s.(api := s.api.Hdel(id)).Put(i, Done(Success(id))))
  {
    var end := s.(api := s.api.Hdel(id));
    Stays(c, s.Put(i, Done(Failed)), i);
    Move(c, s, i, PayCommitted(id), RefreshFails, s, Done(Failed), s.Put(i, Done(Failed)));
    Dies(c, s, i, PayCommitted(id));
    Stays(c, end.Put(i, Done(Success(id))), i);
    Move(c, s, i, PayCommitted(id), Action.Hdel, end, Done(Success(id)), end.Put(i, Done(Success(id))));
  }

  function SoldIn(s: State, id: nat): State
    requires id in s.db.tickets
  {
    s.(db := O.SetStatus(s.db, id, SOLD))
  }

  lemma PaysAlone(c: Config, s: State, i: nat, id: nat, end: State)
    requires i < |s.procs| && id in s.db.tickets
    requires end == s.Put(i, Done(Failed)) || Gets(c, SoldIn(s, id).Put(i, PayCommitted(id)), i, end)
    ensures Gets(c, s.Put(i, PayLocked(id)), i, end)
  {
    if end == s.Put(i, Done(Failed)) {
      Stays(c, end, i);
      Move(c, s, i, PayLocked(id), Abort, s, Done(Failed), end);
    } else {
      Move(c, s, i, PayLocked(id), Action.Commit, SoldIn(s, id), PayCommitted(id), end);
    }
  }

  lemma UnpayableAlone(c: Config, s: State, i: nat, id: nat, owner: nat, out: Outcome)
    requires ByItself(s, i)
    requires if id in s.db.tickets && s.db.tickets[id].owner == owner
      then s.db.tickets[id].status != RESERVED && out == Rejected else out == NotFound
    ensures Gets(c, s.Put(i, PayStart(id, owner)), i, s.Put(i, Done(out)))
  {
    NobodyHolds(s, i, PayStart(id, owner));
    Stays(c, s.Put(i, Done(out)), i);
    Move(c, s, i, PayStart(id, owner), LockTicket(id), s, Done(out), s.Put(i, Done(out)));
  }

  lemma PayableAlone(c: Config, s: State, i: nat, id: nat, owner: nat, end: State)
    requires ByItself(s, i) && IsReserved(s.db, id) && s.db.tickets[id].owner == owner
    requires end == s.Put(i, Done(Failed)) || Gets(c, SoldIn(s, id).Put(i, PayCommitted(id)), i, end)
    ensures Gets(c, s.Put(i, PayStart(id, owner)), i, end)
  {
    hide Gets;
    NobodyHolds(s, i, PayStart(id, owner));
    PaysAlone(c, s, i, id, end);
    Move(c, s, i, PayStart(id, owner), LockTicket(id), s, PayLocked(id), end);
  }

  /** Ends of a payment of an owned, reserved ticket. */
  function SellEnd(s: State, i: nat, id: nat, fault: O.Fault): State
    requires i < |s.procs| && id in s.db.tickets
  {
    var sold := SoldIn(s, id);
    if fault == O.AtCommit then s.Put(i, Done(Failed))
    else if fault == O.AtRefresh then sold.Put(i, Done(Failed))
    else if fault == O.DiesAfterCommit then sold.Put(i, Done(Crashed))
    else sold.(api := s.api.Hdel(id)).Put(i, Done(Success(id)))
  }

  predicate Payable(s: State, id: nat, owner: nat) {
    IsReserved(s.db, id) && s.db.tickets[id].owner == owner
  }

  function PayEnd(s: State, i: nat, id: nat, owner: nat, fault: O.Fault): State
    requires i < |s.procs|
  {
    if fault == O.DiesAtOnce then s.Put(i, Done(Crashed))
    else if !Owned(s, id, owner) then s.Put(i, Done(NotFound))
    else if s.db.tickets[id].status != RESERVED then s.Put(i, Done(Rejected))
    else SellEnd(s, i, id, fault)
  }

  lemma PayCases(s: State, i: nat, id: nat, owner: nat, fault: O.Fault, cache: O.Cache)
    requires i < |s.procs|
    ensures var (w', reply) := O.Pay(WorldIn(s, cache), owner, id, fault);
      Ended(s, i, w', reply) == PayEnd(s, i, id, owner, fault)
  {
  }

  lemma StartsPay(c: Config, s: State, i: nat, id: nat, owner: nat, fault: O.Fault)
    requires ByItself(s, i)
    ensures Gets(c, s.Put(i, PayStart(id, owner)), i, PayEnd(s, i, id, owner, fault))
  {
    hide Gets;
    if fault == O.DiesAtOnce {
      Dies(c, s, i, PayStart(id, owner));
    } else if Payable(s, id, owner) {
      SoldAlone(c, SoldIn(s, id), i, id);
      PayableAlone(c, s, i, id, owner, SellEnd(s, i, id, fault));
    } else {
      UnpayableAlone(c, s, i, id, owner, if Owned(s, id, owner) then Rejected else NotFound);
    }
  }

  lemma PayAlone(c: Config, s: State, i: nat, id: nat, owner: nat, fault: O.Fault, cache: O.Cache)
    requires ByItself(s, i)
    ensures var (w', reply) := O.Pay(WorldIn(s, cache), owner, id, fault);
      Gets(c, s.Put(i, PayStart(id, owner)), i, Ended(s, i, w', reply))
  {
    hide Gets, O.Pay, PayEnd;
    PayCases(s, i, id, owner, fault, cache);
    StartsPay(c, s, i, id, owner, fault);
  }

  function CanceledDb(s: State, t: nat, id: nat): Db
    requires id in s.db.tickets
  {
    O.SetStatus(s.db, id, CANCELED).(types := AddSold(s.db.types, t, -1))
  }

  /** Ends of the release of a reserved ticket. */
  function CancelEnd(s: State, i: nat, id: nat, t: nat, fault: O.Fault): State
    requires i < |s.procs| && id in s.db.tickets
  {
    var refunded := s.(api := s.api.Refund(t, id));
    if fault == O.AtUpdate || !CanSubtract(s.db, t, 1) then s.Put(i, Done(Failed))
    else if fault == O.AtCommit then refunded.Put(i, Done(Failed))
    else if fault == O.DiesAfterCounter then refunded.Put(i, Done(Crashed))
    else refunded.(db := CanceledDb(s, t, id)).Put(i, Done(Finished))
  }

  function ReleaseEnd(s: State, i: nat, id: nat, fault: O.Fault): State
    requires i < |s.procs|
  {
    if fault == O.DiesAtOnce then s.Put(i, Done(Crashed))
    else if !IsReserved(s.db, id) then s.Put(i, Done(Finished))
    else CancelEnd(s, i, id, s.db.tickets[id].typeId, fault)
  }

  lemma ReleaseCases(s: State, i: nat, id: nat, fault: O.Fault, cache: O.Cache)
    requires i < |s.procs|
    ensures var (w', reply) := O.Release(WorldIn(s, cache), id, fault); Ended(s, i, w', reply) == ReleaseEnd(s, i, id, fault)
  {
  }

  lemma RefundedAlone(c: Config, s: State, i: nat, id: nat, t: nat)
    requires i < |s.procs| && id in s.db.tickets
    ensures Gets(c, s.Put(i, ReleaseRefunded(id, t)), i, s.Put(i, Done(Failed)))
    ensures Gets(c, s.Put(i, ReleaseRefunded(id, t)), i, s.Put(i, Done(Crashed)))
    ensures Gets(c, s.Put(i, ReleaseRefunded(id, t)), i, s.(db := CanceledDb(s, t, id)).Put(i, Done(Finished)))
  {
    var end := s.(db := CanceledDb(s, t, id));
    Stays(c, s.Put(i, Done(Failed)), i);
    Move(c, s, i, ReleaseRefunded(id, t), Abort, s, Done(Failed), s.Put(i, Done(Failed)));
    Dies(c, s, i, ReleaseRefunded(id, t));
    Stays(c, end.Put(i, Done(Finished)), i);
    Move(c, s, i, ReleaseRefunded(id, t), Action.Commit, end, Done(Finished), end.Put(i, Done(Finished)));
  }

  lemma UpdatedAlone(c: Config, s: State, i: nat, id: nat, t: nat, end: State)
    requires c.shared && ByItself(s, i) && CanSubtract(s.db, t, 1)
    requires Gets(c, s.(api := s.api.Refund(t, id)).Put(i, ReleaseRefunded(id, t)), i, end)
    ensures Gets(c, s.Put(i, ReleaseLocked(id, t)), i, end)
  {
    hide Gets;
    NobodyHolds(s, i, ReleaseLocked(id, t));
    Move(c, s, i, ReleaseUpdated(id, t), Action.Refund(id), s.(api := s.api.Refund(t, id)), ReleaseRefunded(id, t), end);
    Move(c, s, i, ReleaseLocked(id, t), UpdateSold, s, ReleaseUpdated(id, t), end);
  }

  lemma LockedAlone(c: Config, s: State, i: nat, id: nat, t: nat, fault: O.Fault)
    requires c.shared && ByItself(s, i) && id in s.db.tickets
    ensures Gets(c, s.Put(i, ReleaseLocked(id, t)), i, CancelEnd(s, i, id, t, fault))
  {
    hide Gets;
    if fault == O.AtUpdate {
      Stays(c, s.Put(i, Done(Failed)), i);
      Move(c, s, i, ReleaseLocked(id, t), Abort, s, Done(Failed), s.Put(i, Done(Failed)));
    } else if !CanSubtract(s.db, t, 1) {
      NobodyHolds(s, i, ReleaseLocked(id, t));
      Stays(c, s.Put(i, Done(Failed)), i);
      Move(c, s, i, ReleaseLocked(id, t), UpdateSold, s, Done(Failed), s.Put(i, Done(Failed)));
    } else {
      RefundedAlone(c, s.(api := s.api.Refund(t, id)), i, id, t);
      UpdatedAlone(c, s, i, id, t, CancelEnd(s, i, id, t, fault));
    }
  }

  lemma LocksTicket(c: Config, s: State, i: nat, id: nat, p: Proc, end: State)
    requires ByItself(s, i) && p == if IsReserved(s.db, id) then ReleaseLocked(id, s.db.tickets[id].typeId) else Done(Finished)
    requires Gets(c, s.Put(i, p), i, end)
    ensures Gets(c, s.Put(i, ReleaseStart(id)), i, end)
  {
    NobodyHolds(s, i, ReleaseStart(id));
    Move(c, s, i, ReleaseStart(id), LockTicket(id), s, p, end);
  }

  lemma StartsRelease(c: Config, s: State, i: nat, id: nat, fault: O.Fault)
    requires c.shared && ByItself(s, i)
    ensures Gets(c, s.Put(i, ReleaseStart(id)), i, ReleaseEnd(s, i, id, fault))
  {
    hide Gets, CancelEnd;
    if fault == O.DiesAtOnce {
      Dies(c, s, i, ReleaseStart(id));
    } else if IsReserved(s.db, id) {
      var t := s.db.tickets[id].typeId;
      LockedAlone(c, s, i, id, t, fault);
      LocksTicket(c, s, i, id, ReleaseLocked(id, t), CancelEnd(s, i, id, t, fault));
    } else {
      Stays(c, s.Put(i, Done(Finished)), i);
      LocksTicket(c, s, i, id, Done(Finished), s.Put(i, Done(Finished)));
    }
  }

  lemma ReleaseAlone(c: Config, s: State, i: nat, id: nat, fault: O.Fault, cache: O.Cache)
    requires c.shared && ByItself(s, i)
    ensures var (w', reply) := O.Release(WorldIn(s, cache), id, fault);
      Gets(c, s.Put(i, ReleaseStart(id)), i, Ended(s, i, w', reply))
  {
    hide Gets, O.Release, ReleaseEnd;
    ReleaseCases(s, i, id, fault, cache);
    StartsRelease(c, s, i, id, fault);
  }
}
