/** Ticket-type changes by the small steps of the protocol: every undisturbed run ends with the tables
    and counters of the complete operation, and some run does. (The machine has no event cache.) */
module AdminEndings {
  import opened Stores
  import opened Protocol
  import opened Alone
  import opened Endings
  import O = Operations

  function Counted(s: State, t: nat, v: int): State {
    s.(api := s.api.SetCounter(t, v))
  }

  // ---------- create ----------

  function NewTypeIn(s: State, row: TypeRow): State {
    s.(db := s.db.(nextType := s.db.nextType + 1, types := s.db.types[s.db.nextType := row]))
  }

  function NewTypeEnd(s: State, i: nat, row: TypeRow, fault: O.Fault): State
    requires i < |s.procs|
  {
    var stored := NewTypeIn(s, row);
    if fault == O.DiesAtOnce then s.Put(i, Done(Crashed))
    else if fault == O.AtCommit || row.eventId !in s.db.events || !row.Ok() then
      s.(db := s.db.(nextType := s.db.nextType + 1)).Put(i, Done(Failed))
    else if fault == O.AtRefresh then stored.Put(i, Done(Failed))
    else if fault == O.DiesAfterCommit then stored.Put(i, Done(Crashed))
    else
      var out := if fault == O.DiesAfterCounter || fault == O.DiesAfterDrop then Crashed else Finished;
      Counted(stored, s.db.nextType, row.quantity).Put(i, Done(out))
  }

  lemma NewTypeCases(s: State, i: nat, e: nat, name: string, price: int, quantity: int, fault: O.Fault, cache: O.Cache)
    requires i < |s.procs|
    ensures var (w', reply) := O.CreateType(WorldIn(s, cache), e, name, price, quantity, fault);
      Ended(s, i, w', reply) == NewTypeEnd(s, i, TypeRow(e, name, price, quantity, 0), fault)
  {
  }

  ghost predicate NewTypeOver(s: State, i: nat, row: TypeRow, calm: bool, x: State)
    requires i < |s.procs|
  {
    exists fault :: (calm ==> fault == O.NoFault) && x == NewTypeEnd(s, i, row, fault)
  }

  ghost predicate NewTypeAt(s: State, i: nat, row: TypeRow, calm: bool, x: State)
    requires i < |s.procs|
  {
    var t, ok := s.db.nextType, row.eventId in s.db.events && row.Ok();
    i < |x.procs| &&
    match x.procs[i]
    case NewTypeStart(_) => x == s.Put(i, NewTypeStart(row))
    case NewTypeCommitted(_) => ok && x == NewTypeIn(s, row).Put(i, NewTypeCommitted(t))
    case NewTypeSet(_, _) => ok && x == NewTypeIn(s, row).Put(i, NewTypeSet(t, row.quantity))
    case Done(_) => NewTypeOver(s, i, row, calm, x)
    case _ => false
  }

  lemma InsertStays(c: Config, s: State, i: nat, row: TypeRow, calm: bool, x: State, l: Label, y: State)
    requires i < |s.procs| && row.sold == 0 && NewTypeAt(s, i, row, calm, x) && Own(l, i, calm) && Step(c, x, l) == Some(y)
    requires x.procs[i].NewTypeStart?
    ensures NewTypeAt(s, i, row, calm, y)
  {
    hide CreateStep, DeleteStep, PayStep, ReleaseStep, HungStep, GcStep;
    PutPut(s, i, x.procs[i], y.procs[i]);
    PutPut(s.(db := y.db), i, x.procs[i], y.procs[i]);
    if y.procs[i].Done? {
      assert y == NewTypeEnd(s, i, row, if l.act.Die? then O.DiesAtOnce else if l.act.Abort? then O.AtCommit else O.NoFault);
    }
  }

  lemma InsertedStays(c: Config, s: State, i: nat, row: TypeRow, calm: bool, x: State, l: Label, y: State)
    requires i < |s.procs| && row.sold == 0 && NewTypeAt(s, i, row, calm, x) && Own(l, i, calm) && Step(c, x, l) == Some(y)
    requires x.procs[i].NewTypeCommitted? || x.procs[i].NewTypeSet?
    ensures NewTypeAt(s, i, row, calm, y)
  {
    hide CreateStep, DeleteStep, PayStep, ReleaseStep, HungStep, GcStep;
    PutPut(NewTypeIn(s, row), i, x.procs[i], y.procs[i]);
    PutPut(Counted(NewTypeIn(s, row), s.db.nextType, row.quantity), i, x.procs[i], y.procs[i]);
    if y.procs[i].Done? {
      assert y == NewTypeEnd(s, i, row, if l.act.Die? then O.DiesAfterCommit else if l.act.RefreshFails? then O.AtRefresh else O.NoFault);
    }
  }

  lemma NewTypeEnds(c: Config, states: seq<State>, labels: seq<Label>, i: nat, e: nat, name: string, price: int, quantity: int,
                    cache: O.Cache, calm: bool) returns (fault: O.Fault)
    requires RunsFrom(c, states, labels, i, calm, NewTypeStart(TypeRow(e, name, price, quantity, 0)))
    ensures calm ==> fault == O.NoFault
    ensures var (w', reply) := O.CreateType(WorldIn(states[0], cache), e, name, price, quantity, fault);
      states[|labels|] == Ended(states[0], i, w', reply)
  {
    var row := TypeRow(e, name, price, quantity, 0);
    hide Step, NewTypeEnd;
    var s := states[0];
    PutPut(s, i, NewTypeStart(row), NewTypeStart(row));
    forall x, l, y | NewTypeAt(s, i, row, calm, x) && Own(l, i, calm) && Step(c, x, l) == Some(y)
      ensures NewTypeAt(s, i, row, calm, y)
    {
      NotDone(c, i, calm, x, l, y);
      if x.procs[i].NewTypeStart? { InsertStays(c, s, i, row, calm, x, l, y); }
      else { InsertedStays(c, s, i, row, calm, x, l, y); }
    }
    EndsAt(c, states, labels, i, calm, x => NewTypeAt(s, i, row, calm, x));
    fault :| (calm ==> fault == O.NoFault) && states[|labels|] == NewTypeEnd(s, i, row, fault);
    NewTypeCases(s, i, e, name, price, quantity, fault, cache);
  }

  // ---------- update ----------

  function SavedIn(s: State, t: nat, u: TypeUpdate): State
    requires t in s.db.types
  {
    s.(db := s.db.(types := s.db.types[t := Merge(s.db.types[t], u)]))
  }

  predicate Accepted(s: State, t: nat, u: TypeUpdate) {
    t in s.db.types && !u.Empty() && (u.quantity.Some? ==> u.quantity.value >= s.db.types[t].sold)
  }

  function UpdateEnd(s: State, i: nat, t: nat, u: TypeUpdate, fault: O.Fault): State
    requires i < |s.procs|
  {
    if fault == O.DiesAtOnce then s.Put(i, Done(Crashed))
    else if t !in s.db.types then s.Put(i, Done(NotFound))
    else if u.Empty() then s.Put(i, Done(Finished))
    else if !Accepted(s, t, u) then s.Put(i, Done(Rejected))
    else
      var row, saved := Merge(s.db.types[t], u), SavedIn(s, t, u);
      if fault == O.AtCommit || !row.Ok() then s.Put(i, Done(Failed))
      else if fault == O.AtRefresh then saved.Put(i, Done(Failed))
      else if fault == O.DiesAfterCommit then saved.Put(i, Done(Crashed))
      else
        var out := if fault == O.DiesAfterCounter || fault == O.DiesAfterDrop then Crashed else Finished;
        (if u.quantity.Some? then Counted(saved, t, row.quantity - row.sold) else saved).Put(i, Done(out))
  }

  lemma SaveCases(s: State, i: nat, t: nat, u: TypeUpdate, fault: O.Fault, cache: O.Cache)
    requires i < |s.procs| && Accepted(s, t, u) && fault != O.DiesAtOnce
    ensures var (w', reply) := O.SaveType(WorldIn(s, cache), t, Merge(s.db.types[t], u), u.quantity.Some?, fault);
      Ended(s, i, w', reply) == UpdateEnd(s, i, t, u, fault)
  {
  }

  lemma UpdateCases(s: State, i: nat, t: nat, u: TypeUpdate, fault: O.Fault, cache: O.Cache)
    requires i < |s.procs|
    ensures var (w', reply) := O.UpdateType(WorldIn(s, cache), t, u, fault); Ended(s, i, w', reply) == UpdateEnd(s, i, t, u, fault)
  {
    if Accepted(s, t, u) && fault != O.DiesAtOnce {
      hide O.SaveType, UpdateEnd;
      SaveCases(s, i, t, u, fault, cache);
    }
  }

  ghost predicate UpdateOver(s: State, i: nat, t: nat, u: TypeUpdate, calm: bool, x: State)
    requires i < |s.procs|
  {
    exists fault :: (calm ==> fault == O.NoFault) && x == UpdateEnd(s, i, t, u, fault)
  }

  ghost predicate UpdateAt(s: State, i: nat, t: nat, u: TypeUpdate, calm: bool, x: State)
    requires i < |s.procs|
  {
    var saves := Accepted(s, t, u) && Merge(s.db.types[t], u).Ok();
    i < |x.procs| &&
    match x.procs[i]
    case UpdateStart(_, _) => x == s.Put(i, UpdateStart(t, u))
    case UpdateReady(_, _) => Accepted(s, t, u) && x == s.Put(i, UpdateReady(t, u))
    case UpdateRefreshing => saves && u.quantity.None? && x == SavedIn(s, t, u).Put(i, UpdateRefreshing)
    case UpdateCommitted(_) => saves && u.quantity.Some? && x == SavedIn(s, t, u).Put(i, UpdateCommitted(t))
    case UpdateSet(_, avail) => saves && u.quantity.Some? &&
      avail == u.quantity.value - s.db.types[t].sold && x == SavedIn(s, t, u).Put(i, UpdateSet(t, avail))
    case Done(_) => UpdateOver(s, i, t, u, calm, x)
    case _ => false
  }

  lemma ReadyStays(c: Config, s: State, i: nat, t: nat, u: TypeUpdate, calm: bool, x: State, l: Label, y: State)
    requires i < |s.procs| && UpdateAt(s, i, t, u, calm, x) && Own(l, i, calm) && Step(c, x, l) == Some(y)
    requires x.procs[i].UpdateStart? || x.procs[i].UpdateReady?
    ensures UpdateAt(s, i, t, u, calm, y)
  {
    hide CreateStep, DeleteStep, PayStep, ReleaseStep, HungStep, GcStep;
    PutPut(s, i, x.procs[i], y.procs[i]);
    if y.procs[i].Done? {
      assert y == UpdateEnd(s, i, t, u, if l.act.Die? then O.DiesAtOnce else if l.act.Abort? then O.AtCommit else O.NoFault);
    } else if t in s.db.types {
      PutPut(SavedIn(s, t, u), i, x.procs[i], y.procs[i]);
    }
  }

  lemma RefreshingStays(c: Config, s: State, i: nat, t: nat, u: TypeUpdate, calm: bool, x: State, l: Label, y: State)
    requires i < |s.procs| && UpdateAt(s, i, t, u, calm, x) && Own(l, i, calm) && Step(c, x, l) == Some(y)
    requires x.procs[i].UpdateRefreshing? || x.procs[i].UpdateCommitted?
    ensures UpdateAt(s, i, t, u, calm, y)
  {
    hide CreateStep, DeleteStep, PayStep, ReleaseStep, HungStep, GcStep;
    PutPut(SavedIn(s, t, u), i, x.procs[i], y.procs[i]);
    if y.procs[i].Done? {
      assert y == UpdateEnd(s, i, t, u,
        if l.act.Die? then O.DiesAfterCommit else if l.act.RefreshFails? then O.AtRefresh else O.NoFault);
    }
  }

  lemma SettingStays(c: Config, s: State, i: nat, t: nat, u: TypeUpdate, calm: bool, x: State, l: Label, y: State)
    requires i < |s.procs| && UpdateAt(s, i, t, u, calm, x) && Own(l, i, calm) && Step(c, x, l) == Some(y)
    requires x.procs[i].UpdateSet?
    ensures UpdateAt(s, i, t, u, calm, y)
  {
    hide CreateStep, DeleteStep, PayStep, ReleaseStep, HungStep, GcStep;
    PutPut(SavedIn(s, t, u), i, x.procs[i], y.procs[i]);
    PutPut(Counted(SavedIn(s, t, u), t, x.procs[i].avail), i, x.procs[i], y.procs[i]);
    assert y == UpdateEnd(s, i, t, u, if l.act.Die? then O.DiesAfterCommit else O.NoFault);
  }

  lemma UpdateEnds(c: Config, states: seq<State>, labels: seq<Label>, i: nat, t: nat, u: TypeUpdate, cache: O.Cache, calm: bool)
    returns (fault: O.Fault)
    requires RunsFrom(c, states, labels, i, calm, UpdateStart(t, u))
    ensures calm ==> fault == O.NoFault
    ensures var (w', reply) := O.UpdateType(WorldIn(states[0], cache), t, u, fault);
      states[|labels|] == Ended(states[0], i, w', reply)
  {
    hide Step, UpdateEnd;
    var s := states[0];
    PutPut(s, i, UpdateStart(t, u), UpdateStart(t, u));
    forall x, l, y | UpdateAt(s, i, t, u, calm, x) && Own(l, i, calm) && Step(c, x, l) == Some(y)
      ensures UpdateAt(s, i, t, u, calm, y)
    {
      NotDone(c, i, calm, x, l, y);
      if x.procs[i].UpdateStart? || x.procs[i].UpdateReady? { ReadyStays(c, s, i, t, u, calm, x, l, y); }
      else if x.procs[i].UpdateSet? { SettingStays(c, s, i, t, u, calm, x, l, y); }
      else { RefreshingStays(c, s, i, t, u, calm, x, l, y); }
    }
    EndsAt(c, states, labels, i, calm, x => UpdateAt(s, i, t, u, calm, x));
    fault :| (calm ==> fault == O.NoFault) && states[|labels|] == UpdateEnd(s, i, t, u, fault);
    UpdateCases(s, i, t, u, fault, cache);
  }

  // ---------- delete ----------

  function DroppedIn(s: State, t: nat): State {
    s.(db := s.db.(types := s.db.types - {t}))
  }

  function Uncounted(s: State, t: nat): State {
    s.(api := s.api.DeleteCounter(t))
  }

  predicate HasTickets(s: State, t: nat) {
    exists id :: id in s.db.tickets && s.db.tickets[id].typeId == t
  }

  function DropEnd(s: State, i: nat, t: nat, fault: O.Fault): State
    requires i < |s.procs|
  {
    if fault == O.DiesAtOnce then s.Put(i, Done(Crashed))
    else if t !in s.db.types then s.Put(i, Done(NotFound))
    else if fault == O.AtFlush then s.Put(i, Done(Failed))
    else if HasTickets(s, t) then s.Put(i, Done(Rejected))
    else if fault == O.AtCommit then s.Put(i, Done(Failed))
    else if fault == O.DiesAfterCommit then DroppedIn(s, t).Put(i, Done(Crashed))
    else
      var out := if fault == O.DiesAfterCounter || fault == O.DiesAfterDrop then Crashed else Finished;
      Uncounted(DroppedIn(s, t), t).Put(i, Done(out))
  }

  lemma DropCases(s: State, i: nat, t: nat, fault: O.Fault, cache: O.Cache)
    requires i < |s.procs|
    ensures var (w', reply) := O.DeleteType(WorldIn(s, cache), t, fault); Ended(s, i, w', reply) == DropEnd(s, i, t, fault)
  {
  }

  ghost predicate DropOver(s: State, i: nat, t: nat, calm: bool, x: State)
    requires i < |s.procs|
  {
    exists fault :: (calm ==> fault == O.NoFault) && x == DropEnd(s, i, t, fault)
  }

  ghost predicate DropAt(s: State, i: nat, t: nat, calm: bool, x: State)
    requires i < |s.procs|
  {
    i < |x.procs| &&
    match x.procs[i]
    case DropStart(_) => x == s.Put(i, DropStart(t))
    case DropReady(_) => t in s.db.types && x == s.Put(i, DropReady(t))
    case DropCommitted(_) => t in s.db.types && !HasTickets(s, t) && x == DroppedIn(s, t).Put(i, DropCommitted(t))
    case Done(_) => DropOver(s, i, t, calm, x)
    case _ => false
  }

  lemma DropStays(c: Config, s: State, i: nat, t: nat, calm: bool, x: State, l: Label, y: State)
    requires i < |s.procs| && DropAt(s, i, t, calm, x) && Own(l, i, calm) && Step(c, x, l) == Some(y)
    ensures DropAt(s, i, t, calm, y)
  {
    hide CreateStep, DeleteStep, PayStep, ReleaseStep, HungStep, GcStep;
    NotDone(c, i, calm, x, l, y);
    var p, q := x.procs[i], y.procs[i];
    PutPut(s, i, p, q);
    PutPut(DroppedIn(s, t), i, p, q);
    PutPut(Uncounted(DroppedIn(s, t), t), i, p, q);
    if q.Done? {
      assert y == DropEnd(s, i, t,
        if l.act.Die? then if p.DropCommitted? then O.DiesAfterCommit else O.DiesAtOnce
        else if l.act.Abort? then O.AtFlush else O.NoFault);
    }
  }

  lemma DropEnds(c: Config, states: seq<State>, labels: seq<Label>, i: nat, t: nat, cache: O.Cache, calm: bool)
    returns (fault: O.Fault)
    requires RunsFrom(c, states, labels, i, calm, DropStart(t))
    ensures calm ==> fault == O.NoFault
    ensures var (w', reply) := O.DeleteType(WorldIn(states[0], cache), t, fault);
      states[|labels|] == Ended(states[0], i, w', reply)
  {
    hide Step, DropEnd;
    var s := states[0];
    PutPut(s, i, DropStart(t), DropStart(t));
    forall x, l, y | DropAt(s, i, t, calm, x) && Own(l, i, calm) && Step(c, x, l) == Some(y)
      ensures DropAt(s, i, t, calm, y) { DropStays(c, s, i, t, calm, x, l, y); }
    EndsAt(c, states, labels, i, calm, x => DropAt(s, i, t, calm, x));
    fault :| (calm ==> fault == O.NoFault) && states[|labels|] == DropEnd(s, i, t, fault);
    DropCases(s, i, t, fault, cache);
  }

  // ---------- and can get there ----------

  lemma NewTypeInserted(c: Config, s: State, i: nat, t: nat, row: TypeRow)
    requires i < |s.procs| && t in s.db.types && s.db.types[t].quantity == row.quantity
    ensures Gets(c, s.Put(i, NewTypeCommitted(t)), i, Counted(s, t, row.quantity).Put(i, Done(Finished)))
  {
    hide Gets, CreateStep, DeleteStep, PayStep, ReleaseStep, HungStep, GcStep;
    var end := Counted(s, t, row.quantity).Put(i, Done(Finished));
    Stays(c, end, i);
    Move(c, s, i, NewTypeSet(t, row.quantity), SetKey, Counted(s, t, row.quantity), Done(Finished), end);
    Move(c, s, i, NewTypeCommitted(t), Refresh, s, NewTypeSet(t, row.quantity), end);
  }

  lemma InsertsType(c: Config, s: State, i: nat, row: TypeRow, end: State)
    requires i < |s.procs| && row.sold == 0 && row.eventId in s.db.events && row.Ok()
    requires Gets(c, NewTypeIn(s, row).Put(i, NewTypeCommitted(s.db.nextType)), i, end)
    ensures Gets(c, s.Put(i, NewTypeStart(row)), i, end)
  {
    hide Gets, CreateStep, DeleteStep, PayStep, ReleaseStep, HungStep, GcStep;
    Move(c, s, i, NewTypeStart(row), Commit, NewTypeIn(s, row), NewTypeCommitted(s.db.nextType), end);
  }

  lemma RefusesType(c: Config, s: State, i: nat, row: TypeRow)
    requires i < |s.procs| && !(row.eventId in s.db.events && row.Ok())
    ensures Gets(c, s.Put(i, NewTypeStart(row)), i, s.(db := s.db.(nextType := s.db.nextType + 1)).Put(i, Done(Failed)))
  {
    hide Gets, CreateStep, DeleteStep, PayStep, ReleaseStep, HungStep, GcStep;
    var drawn := s.(db := s.db.(nextType := s.db.nextType + 1));
    Stays(c, drawn.Put(i, Done(Failed)), i);
    Move(c, s, i, NewTypeStart(row), Commit, drawn, Done(Failed), drawn.Put(i, Done(Failed)));
  }

  lemma StartsNewType(c: Config, s: State, i: nat, row: TypeRow)
    requires i < |s.procs| && row.sold == 0
    ensures Gets(c, s.Put(i, NewTypeStart(row)), i, NewTypeEnd(s, i, row, O.NoFault))
  {
    hide Gets;
    if row.eventId in s.db.events && row.Ok() {
      NewTypeInserted(c, NewTypeIn(s, row), i, s.db.nextType, row);
      InsertsType(c, s, i, row, NewTypeEnd(s, i, row, O.NoFault));
    } else {
      RefusesType(c, s, i, row);
    }
  }

  lemma NewTypeAlone(c: Config, s: State, i: nat, e: nat, name: string, price: int, quantity: int, cache: O.Cache)
    requires i < |s.procs|
    ensures var (w', reply) := O.CreateType(WorldIn(s, cache), e, name, price, quantity, O.NoFault);
      Gets(c, s.Put(i, NewTypeStart(TypeRow(e, name, price, quantity, 0))), i, Ended(s, i, w', reply))
  {
    hide Gets, O.CreateType, NewTypeEnd;
    NewTypeCases(s, i, e, name, price, quantity, O.NoFault, cache);
    StartsNewType(c, s, i, TypeRow(e, name, price, quantity, 0));
  }

  lemma SavedAlone(c: Config, s: State, i: nat, t: nat, avail: int)
    requires i < |s.procs| && t in s.db.types && avail == s.db.types[t].quantity - s.db.types[t].sold
    ensures Gets(c, s.Put(i, UpdateRefreshing), i, s.Put(i, Done(Finished)))
    ensures Gets(c, s.Put(i, UpdateCommitted(t)), i, Counted(s, t, avail).Put(i, Done(Finished)))
  {
    hide Gets, CreateStep, DeleteStep, PayStep, ReleaseStep, HungStep, GcStep;
    var end := Counted(s, t, avail).Put(i, Done(Finished));
    Stays(c, s.Put(i, Done(Finished)), i);
    Move(c, s, i, UpdateRefreshing, Refresh, s, Done(Finished), s.Put(i, Done(Finished)));
    Stays(c, end, i);
    Move(c, s, i, UpdateSet(t, avail), SetKey, Counted(s, t, avail), Done(Finished), end);
    Move(c, s, i, UpdateCommitted(t), Refresh, s, UpdateSet(t, avail), end);
  }

  lemma SavesAlone(c: Config, s: State, i: nat, t: nat, u: TypeUpdate, end: State)
    requires ByItself(s, i) && Accepted(s, t, u) && end == UpdateEnd(s, i, t, u, O.NoFault)
    ensures Gets(c, s.Put(i, UpdateReady(t, u)), i, end)
  {
    hide Gets, CreateStep, DeleteStep, PayStep, ReleaseStep, HungStep, GcStep;
    var row, saved := Merge(s.db.types[t], u), SavedIn(s, t, u);
    NobodyHolds(s, i, UpdateReady(t, u));
    if row.Ok() {
      SavedAlone(c, saved, i, t, row.quantity - row.sold);
      Move(c, s, i, UpdateReady(t, u), Commit, saved, if u.quantity.Some? then UpdateCommitted(t) else UpdateRefreshing, end);
    } else {
      Stays(c, end, i);
      Move(c, s, i, UpdateReady(t, u), Commit, s, Done(Failed), end);
    }
  }

  lemma StartsUpdate(c: Config, s: State, i: nat, t: nat, u: TypeUpdate, end: State)
    requires ByItself(s, i) && end == UpdateEnd(s, i, t, u, O.NoFault)
    ensures Gets(c, s.Put(i, UpdateStart(t, u)), i, end)
  {
    hide Gets, CreateStep, DeleteStep, PayStep, ReleaseStep, HungStep, GcStep;
    if Accepted(s, t, u) {
      SavesAlone(c, s, i, t, u, end);
      Move(c, s, i, UpdateStart(t, u), ReadRow, s, UpdateReady(t, u), end);
    } else {
      Stays(c, end, i);
      Move(c, s, i, UpdateStart(t, u), ReadRow, s, end.procs[i], end);
    }
  }

  lemma UpdateAlone(c: Config, s: State, i: nat, t: nat, u: TypeUpdate, cache: O.Cache)
    requires ByItself(s, i)
    ensures var (w', reply) := O.UpdateType(WorldIn(s, cache), t, u, O.NoFault);
      Gets(c, s.Put(i, UpdateStart(t, u)), i, Ended(s, i, w', reply))
  {
    hide Gets, O.UpdateType, UpdateEnd;
    UpdateCases(s, i, t, u, O.NoFault, cache);
    StartsUpdate(c, s, i, t, u, UpdateEnd(s, i, t, u, O.NoFault));
  }

  lemma KeepsType(c: Config, s: State, i: nat, t: nat)
    requires ByItself(s, i) && HasTickets(s, t)
    ensures Gets(c, s.Put(i, DropReady(t)), i, s.Put(i, Done(Rejected)))
  {
    hide Gets, CreateStep, DeleteStep, PayStep, ReleaseStep, HungStep, GcStep;
    NobodyHolds(s, i, DropReady(t));
    Stays(c, s.Put(i, Done(Rejected)), i);
    Move(c, s, i, DropReady(t), Commit, s, Done(Rejected), s.Put(i, Done(Rejected)));
  }

  lemma DropsType(c: Config, s: State, i: nat, t: nat)
    requires ByItself(s, i) && !HasTickets(s, t)
    ensures Gets(c, s.Put(i, DropReady(t)), i, Uncounted(DroppedIn(s, t), t).Put(i, Done(Finished)))
  {
    hide Gets, CreateStep, DeleteStep, PayStep, ReleaseStep, HungStep, GcStep;
    var dropped, end := DroppedIn(s, t), Uncounted(DroppedIn(s, t), t).Put(i, Done(Finished));
    NobodyHolds(s, i, DropReady(t));
    Stays(c, end, i);
    Move(c, dropped, i, DropCommitted(t), Action.DeleteKey, Uncounted(dropped, t), Done(Finished), end);
    Move(c, s, i, DropReady(t), Commit, dropped, DropCommitted(t), end);
  }

  lemma StartsDrop(c: Config, s: State, i: nat, t: nat, end: State)
    requires ByItself(s, i) && end == DropEnd(s, i, t, O.NoFault)
    ensures Gets(c, s.Put(i, DropStart(t)), i, end)
  {
    hide Gets, CreateStep, DeleteStep, PayStep, ReleaseStep, HungStep, GcStep;
    if t in s.db.types {
      if HasTickets(s, t) { KeepsType(c, s, i, t); } else { DropsType(c, s, i, t); }
      Move(c, s, i, DropStart(t), ReadRow, s, DropReady(t), end);
    } else {
      Stays(c, end, i);
      Move(c, s, i, DropStart(t), ReadRow, s, Done(NotFound), end);
    }
  }

  lemma DropAlone(c: Config, s: State, i: nat, t: nat, cache: O.Cache)
    requires ByItself(s, i)
    ensures var (w', reply) := O.DeleteType(WorldIn(s, cache), t, O.NoFault);
      Gets(c, s.Put(i, DropStart(t)), i, Ended(s, i, w', reply))
  {
    hide Gets, O.DeleteType, DropEnd;
    DropCases(s, i, t, O.NoFault, cache);
    StartsDrop(c, s, i, t, DropEnd(s, i, t, O.NoFault));
  }
}
