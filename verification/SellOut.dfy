/** Exact sell-out: any number of concurrent create calls on one type, in any interleaving, from a
    warm or a missing counter. Exactly as many succeed as there is room, every run ends, none blocks. */
module SellOut {
  import opened Stores
  import opened Protocol
  import opened Invariants
  import opened TicketLife

  function Where(procs: seq<Proc>, f: Proc -> bool): set<nat> {
    set j | 0 <= j < |procs| && f(procs[j])
  }

  lemma MovedWhere(procs: seq<Proc>, i: nat, p: Proc, f: Proc -> bool)
    requires i < |procs|
    ensures |Where(procs[i := p], f)| == |Where(procs, f)| - Bit(f(procs[i])) + Bit(f(p))
  {
    assert Where(procs, f) - {i} == Where(procs[i := p], f) - {i};
    SwapOne(Where(procs, f), Where(procs[i := p], f), i);
  }

  /** Holds a unit of the counter and may still commit. */
  predicate Active(p: Proc) {
    p.CreateHolding? || p.CreateUpdated? || p.CreateInserted? || p.CreateStamped? || p.CreateHashed?
  }

  predicate Holder(p: Proc) {
    Active(p) || p.CreateFailed?
  }

  predicate Winner(p: Proc) {
    p.CreateCommitted? || (p.Done? && p.outcome.Success?)
  }

  predicate Loser(p: Proc) {
    p.CreateFailed? || (p.Done? && p.outcome == SoldOut)
  }

  /** A request for type t that has failed in no way but by the sold limit. */
  predicate Buyer(s: State, t: nat, p: Proc) {
    match p
    case Done(out) => out.Success? || out == SoldOut
    case CreateStart(u, _) => u == t
    case CreateMiss(u, _) => u == t
    case CreateWarm(u, _, avail, _) => u == t && avail >= 0 && t in s.db.types && avail + s.db.types[t].sold >= s.db.types[t].quantity
    case CreateRetry(u, _, _) => u == t && t in s.api.counters
    case CreateHolding(u, _, slot, _) => u == t && slot && t in s.api.counters
    case CreateUpdated(u, _, slot, _) => u == t && slot && t in s.api.counters
    case CreateInserted(u, _, slot, _, _) => u == t && slot && t in s.api.counters
    case CreateStamped(u, _, slot, _, _, _) => u == t && slot && t in s.api.counters
    case CreateHashed(u, _, slot, _, _, _) => u == t && slot && t in s.api.counters
    case CreateCommitted(u, _) => u == t
    case CreateFailed(u, slot, out) => u == t && slot && out == SoldOut && t in s.api.counters
    case _ => false
  }

  /** No failures of any kind: nobody dies, nothing is aborted, nothing else starts. */
  predicate Plain(l: Label) {
    !l.act.Spawn? && !l.act.Die? && !l.act.Abort? && !l.act.RefreshFails?
  }

  /** The invariant of the sale. The counter may be warm or missing, and may be warmed late, but
      counter + holders + sold never falls below the quantity while sold never exceeds it. */
  ghost predicate Sale(s: State, t: nat, quantity: int, sold0: int) {
    t in s.db.types && s.db.types[t].quantity == quantity &&
    (forall j :: 0 <= j < |s.procs| ==> Buyer(s, t, s.procs[j])) &&
    s.db.types[t].sold == sold0 + |Where(s.procs, Winner)| &&
    (t in s.api.counters ==> s.api.counters[t] >= 0) &&
    (t in s.api.counters ==> s.api.counters[t] + |Where(s.procs, Holder)| + s.db.types[t].sold >= quantity) &&
    (Where(s.procs, Loser) != {} ==> |Where(s.procs, Active)| + s.db.types[t].sold >= quantity)
  }

  /** Before the sale: everybody is about to ask, and a counter that exists is not too low. */
  ghost predicate Opening(c: Config, s: State, t: nat) {
    Inv(c, s) && t in s.db.types && (forall j :: 0 <= j < |s.procs| ==> s.procs[j].CreateStart? && s.procs[j].t == t) &&
    (t in s.api.counters ==> s.api.counters[t] >= s.db.types[t].quantity - s.db.types[t].sold)
  }

  lemma OpeningIsSale(c: Config, s: State, t: nat)
    requires Opening(c, s, t)
    ensures Sale(s, t, s.db.types[t].quantity, s.db.types[t].sold)
  {
    assert Where(s.procs, Winner) == {} && Where(s.procs, Loser) == {} && Where(s.procs, Holder) == {};
    assert s.db.types[t].Ok();
  }

  /** Losers appear only when nothing is left for them. */
  lemma LosersAfter(s: State, s': State, i: nat)
    requires OnlyProc(s, s', i)
    ensures Where(s'.procs, Loser) != {} ==> Where(s.procs, Loser) != {} || Loser(s'.procs[i])
  {
    if Where(s'.procs, Loser) != {} {
      var j :| j in Where(s'.procs, Loser);
      assert j == i || j in Where(s.procs, Loser);
    }
  }

  lemma HoldersSplit(procs: seq<Proc>)
    requires Where(procs, Loser) == {}
    ensures Where(procs, Holder) == Where(procs, Active)
  {
    forall j | j in Where(procs, Holder) ensures Active(procs[j]) {
      assert j !in Where(procs, Loser);
    }
  }

  lemma BuyersKept(s: State, s': State, i: nat, t: nat)
    requires OnlyProc(s, s', i) && Buyer(s', t, s'.procs[i])
    requires forall j :: 0 <= j < |s.procs| ==> Buyer(s, t, s.procs[j])
    requires t in s.api.counters ==> t in s'.api.counters
    requires t in s.db.types && t in s'.db.types
    requires s'.db.types[t].sold >= s.db.types[t].sold && s'.db.types[t].quantity == s.db.types[t].quantity
    ensures forall j :: 0 <= j < |s'.procs| ==> Buyer(s', t, s'.procs[j])
  {
    forall j | 0 <= j < |s'.procs| ensures Buyer(s', t, s'.procs[j]) {
      assert j != i ==> Buyer(s, t, s.procs[j]);
    }
  }

  /** The counts of a sale after one process has moved. */
  lemma MovedCounts(s: State, s': State, i: nat)
    requires OnlyProc(s, s', i)
    ensures |Where(s'.procs, Winner)| == |Where(s.procs, Winner)| - Bit(Winner(s.procs[i])) + Bit(Winner(s'.procs[i]))
    ensures |Where(s'.procs, Holder)| == |Where(s.procs, Holder)| - Bit(Holder(s.procs[i])) + Bit(Holder(s'.procs[i]))
    ensures |Where(s'.procs, Active)| == |Where(s.procs, Active)| - Bit(Active(s.procs[i])) + Bit(Active(s'.procs[i]))
    ensures Where(s'.procs, Loser) != {} ==> Where(s.procs, Loser) != {} || Loser(s'.procs[i])
  {
    MovedWhere(s.procs, i, s'.procs[i], Winner);
    MovedWhere(s.procs, i, s'.procs[i], Holder);
    MovedWhere(s.procs, i, s'.procs[i], Active);
    LosersAfter(s, s', i);
  }

  predicate AtGate(p: Proc) {
    p.CreateStart? || p.CreateMiss? || p.CreateWarm? || p.CreateRetry?
  }

  lemma GateStep(c: Config, s: State, i: nat, a: Action, s': State, t: nat, quantity: int, sold0: int)
    requires Inv(c, s) && Sale(s, t, quantity, sold0) && i < |s.procs| && CreateStep(s, i, a) == Some(s')
    requires Plain(Label(i, a)) && AtGate(s.procs[i])
    ensures Sale(s', t, quantity, sold0)
  {
    assert Buyer(s, t, s.procs[i]);
    assert s.db.types[t].Ok();
    MovedCounts(s, s', i);
    BuyersKept(s, s', i, t);
    if Where(s.procs, Loser) == {} { HoldersSplit(s.procs); }
  }

  /** The database's own test of the sold limit: who fails it finds everything sold. */
  lemma LimitStep(c: Config, s: State, i: nat, a: Action, s': State, t: nat, quantity: int, sold0: int)
    requires Inv(c, s) && Sale(s, t, quantity, sold0) && i < |s.procs| && CreateStep(s, i, a) == Some(s')
    requires Plain(Label(i, a)) && s.procs[i].CreateHolding?
    ensures Sale(s', t, quantity, sold0)
  {
    assert Buyer(s, t, s.procs[i]);
    assert s.db.types[t].Ok();
    MovedCounts(s, s', i);
    BuyersKept(s, s', i, t);
  }

  lemma TransactionStep(c: Config, s: State, i: nat, a: Action, s': State, t: nat, quantity: int, sold0: int)
    requires Inv(c, s) && Sale(s, t, quantity, sold0) && i < |s.procs| && CreateStep(s, i, a) == Some(s')
    requires Plain(Label(i, a)) && Active(s.procs[i]) && !s.procs[i].CreateHolding?
    ensures Sale(s', t, quantity, sold0)
  {
    assert Buyer(s, t, s.procs[i]);
    MovedCounts(s, s', i);
    BuyersKept(s, s', i, t);
  }

  lemma LastStep(c: Config, s: State, i: nat, a: Action, s': State, t: nat, quantity: int, sold0: int)
    requires Inv(c, s) && Sale(s, t, quantity, sold0) && i < |s.procs| && CreateStep(s, i, a) == Some(s')
    requires Plain(Label(i, a)) && (s.procs[i].CreateCommitted? || s.procs[i].CreateFailed?)
    ensures Sale(s', t, quantity, sold0)
  {
    assert Buyer(s, t, s.procs[i]);
    MovedCounts(s, s', i);
    BuyersKept(s, s', i, t);
    if s.procs[i].CreateFailed? { assert i in Where(s.procs, Loser); }
  }

  lemma BuyStep(c: Config, s: State, i: nat, a: Action, s': State, t: nat, quantity: int, sold0: int)
    requires Inv(c, s) && Sale(s, t, quantity, sold0) && i < |s.procs| && CreateStep(s, i, a) == Some(s')
    requires Plain(Label(i, a))
    ensures Sale(s', t, quantity, sold0)
  {
    if AtGate(s.procs[i]) {
      GateStep(c, s, i, a, s', t, quantity, sold0);
    } else if s.procs[i].CreateHolding? {
      LimitStep(c, s, i, a, s', t, quantity, sold0);
    } else if Active(s.procs[i]) {
      TransactionStep(c, s, i, a, s', t, quantity, sold0);
    } else {
      LastStep(c, s, i, a, s', t, quantity, sold0);
    }
  }

  lemma SaleStep(c: Config, s: State, l: Label, s': State, t: nat, quantity: int, sold0: int)
    requires Inv(c, s) && Sale(s, t, quantity, sold0) && Step(c, s, l) == Some(s') && Plain(l)
    ensures Sale(s', t, quantity, sold0)
  {
    if l.act.Tick? {
      forall j | 0 <= j < |s'.procs| ensures Buyer(s', t, s'.procs[j]) { assert Buyer(s, t, s.procs[j]); }
    } else {
      assert Buyer(s, t, s.procs[l.i]);
      BuyStep(c, s, l.i, l.act, s', t, quantity, sold0);
    }
  }

  ghost predicate AllPlain(labels: seq<Label>) {
    forall k :: 0 <= k < |labels| ==> Plain(labels[k])
  }

  lemma SaleRunStep(c: Config, states: seq<State>, labels: seq<Label>, t: nat, k: nat, quantity: int, sold0: int)
    requires Run(c, states, labels) && AllPlain(labels) && k < |labels|
    requires Inv(c, states[k]) && Sale(states[k], t, quantity, sold0)
    ensures Inv(c, states[k + 1]) && Sale(states[k + 1], t, quantity, sold0) && |states[k + 1].procs| == |states[k].procs|
  {
    RunStep(c, states, labels, k);
    StepKeepsInv(c, states[k], labels[k], states[k + 1]);
    StepIds(c, states[k], labels[k], states[k + 1]);
    SaleStep(c, states[k], labels[k], states[k + 1], t, quantity, sold0);
  }

  lemma {:induction false} SaleRun(c: Config, states: seq<State>, labels: seq<Label>, t: nat, k: nat)
    requires Run(c, states, labels) && Opening(c, states[0], t) && AllPlain(labels) && k < |states|
    ensures Inv(c, states[k]) && Sale(states[k], t, states[0].db.types[t].quantity, states[0].db.types[t].sold)
    ensures |states[k].procs| == |states[0].procs|
  {
    if k == 0 {
      OpeningIsSale(c, states[0], t);
    } else {
      SaleRun(c, states, labels, t, k - 1);
      SaleRunStep(c, states, labels, t, k - 1, states[0].db.types[t].quantity, states[0].db.types[t].sold);
    }
  }

  predicate AllDone(s: State) {
    forall j :: 0 <= j < |s.procs| ==> s.procs[j].Done?
  }

  function Min(a: int, b: int): int { if a < b then a else b }

  lemma {:induction false} CountAll(procs: seq<Proc>, f: Proc -> bool)
    ensures |Where(procs, f)| <= |procs|
    ensures (forall j :: 0 <= j < |procs| ==> f(procs[j])) ==> |Where(procs, f)| == |procs|
  {
    if procs == [] {
      assert Where(procs, f) == {};
    } else {
      var n := |procs| - 1;
      CountAll(procs[..n], f);
      assert Where(procs, f) == Where(procs[..n], f) + if f(procs[n]) then {n} else {};
    }
  }

  /** When a sale of N requests is over, exactly min(N, room) have tickets and the rest were told sold out. */
  lemma ExactSellOut(c: Config, states: seq<State>, labels: seq<Label>, t: nat)
    requires Run(c, states, labels) && Opening(c, states[0], t) && AllPlain(labels)
    requires AllDone(states[|labels|])
    ensures var s0, s, room := states[0], states[|labels|], states[0].db.types[t].quantity - states[0].db.types[t].sold;
      |s.procs| == |s0.procs| &&
      |Where(s.procs, Winner)| == Min(|s0.procs|, room) &&
      (forall j :: 0 <= j < |s.procs| ==> Winner(s.procs[j]) || s.procs[j] == Done(SoldOut)) &&
      t in s.db.types && s.db.types[t].sold == s0.db.types[t].sold + Min(|s0.procs|, room)
  {
    var s0, s := states[0], states[|labels|];
    SaleRun(c, states, labels, t, |labels|);
    CountAll(s.procs, Winner);
    assert s.db.types[t].Ok();
    forall j | 0 <= j < |s.procs| ensures Winner(s.procs[j]) || s.procs[j] == Done(SoldOut) {
      assert Buyer(s, t, s.procs[j]);
    }
    assert Where(s.procs, Active) == {};
    if Where(s.procs, Loser) == {} {
      forall j | 0 <= j < |s.procs| ensures Winner(s.procs[j]) { assert j !in Where(s.procs, Loser); }
    }
  }

  // ---------- the sale ends ----------

  function Rank(p: Proc): nat {
    match p
    case CreateStart(_, _) => 11
    case CreateMiss(_, _) => 10
    case CreateWarm(_, _, _, _) => 9
    case CreateRetry(_, _, _) => 8
    case CreateHolding(_, _, _, _) => 7
    case CreateUpdated(_, _, _, _) => 6
    case CreateInserted(_, _, _, _, _) => 5
    case CreateStamped(_, _, _, _, _, _) => 4
    case CreateHashed(_, _, _, _, _, _) => 3
    case CreateCommitted(_, _) => 2
    case CreateFailed(_, _, _) => 1
    case _ => 0
  }

  function Work(procs: seq<Proc>): nat {
    if procs == [] then 0 else Rank(procs[0]) + Work(procs[1..])
  }

  lemma {:induction false} MovedWork(procs: seq<Proc>, i: nat, p: Proc)
    requires i < |procs|
    ensures Work(procs[i := p]) == Work(procs) - Rank(procs[i]) + Rank(p)
  {
    if i == 0 {
      assert procs[0 := p][1..] == procs[1..];
    } else {
      MovedWork(procs[1..], i - 1, p);
      assert procs[i := p][1..] == procs[1..][i - 1 := p];
    }
  }

  /** Every step of a buyer is work done, so a run has no more of them than work at the start. */
  lemma BuyWorks(c: Config, s: State, l: Label, s': State, t: nat, quantity: int, sold0: int)
    requires Sale(s, t, quantity, sold0) && Step(c, s, l) == Some(s') && Plain(l) && !l.act.Tick?
    ensures Work(s'.procs) < Work(s.procs)
  {
    assert Buyer(s, t, s.procs[l.i]);
    MovedWork(s.procs, l.i, s'.procs[l.i]);
    BuyRank(s, l.i, l.act, s');
  }

  lemma BuyRank(s: State, i: nat, a: Action, s': State)
    requires i < |s.procs| && CreateStep(s, i, a) == Some(s') && !a.RefreshFails?
    ensures Rank(s'.procs[i]) < Rank(s.procs[i]) && s'.procs == s.procs[i := s'.procs[i]]
  {
  }

  function NextAct(p: Proc): Action {
    match p
    case CreateStart(_, _) => Eval
    case CreateMiss(_, _) => ReadRow
    case CreateWarm(_, _, _, _) => Warm
    case CreateRetry(_, _, _) => Eval
    case CreateHolding(_, _, _, _) => UpdateSold
    case CreateUpdated(_, _, _, _) => Flush
    case CreateInserted(_, _, _, _, _) => Stamp
    case CreateStamped(_, _, _, _, _, _) => Action.Hset
    case CreateHashed(_, _, _, _, _, _) => Commit
    case CreateCommitted(_, _) => Refresh
    case _ => Compensate
  }

  lemma BuyerMoves(s: State, i: nat, t: nat)
    requires i < |s.procs| && Buyer(s, t, s.procs[i]) && !s.procs[i].Done?
    requires TypeFree(s, i, t) || HoldsType(s.procs[i], t)
    ensures CreateStep(s, i, NextAct(s.procs[i])).Some?
  {
  }

  /** Until all are done somebody can move: the lock holder if there is one, else anybody. */
  lemma SaleNeverBlocks(c: Config, s: State, t: nat, quantity: int, sold0: int) returns (l: Label)
    requires Sale(s, t, quantity, sold0) && !AllDone(s)
    ensures Plain(l) && !l.act.Tick? && Step(c, s, l).Some?
  {
    var i: nat :| i < |s.procs| && !s.procs[i].Done?;
    if !TypeFree(s, i, t) {
      i :| i < |s.procs| && HoldsType(s.procs[i], t);
    }
    assert Buyer(s, t, s.procs[i]);
    BuyerMoves(s, i, t);
    l := Label(i, NextAct(s.procs[i]));
  }

  function Moves(labels: seq<Label>): nat {
    if labels == [] then 0 else Moves(labels[..|labels| - 1]) + if labels[|labels| - 1].act.Tick? then 0 else 1
  }

  /** A sale of N requests takes at most 11 N steps, in every interleaving. */
  lemma {:induction false} SaleEnds(c: Config, states: seq<State>, labels: seq<Label>, t: nat)
    requires Run(c, states, labels) && Opening(c, states[0], t) && AllPlain(labels)
    ensures Moves(labels) + Work(states[|labels|].procs) <= 11 * |states[0].procs|
  {
    if labels == [] {
      OpeningWork(states[0].procs);
    } else {
      var k := |labels| - 1;
      SaleEnds(c, states[..k + 1], labels[..k], t);
      SaleRun(c, states, labels, t, k);
      if !labels[k].act.Tick? {
        BuyWorks(c, states[k], labels[k], states[k + 1], t, states[0].db.types[t].quantity, states[0].db.types[t].sold);
      }
    }
  }

  lemma {:induction false} OpeningWork(procs: seq<Proc>)
    requires forall j :: 0 <= j < |procs| ==> procs[j].CreateStart?
    ensures Work(procs) == 11 * |procs|
  {
    if procs != [] {
      OpeningWork(procs[1..]);
    }
  }
}
