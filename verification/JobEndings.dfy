/** The worker's two cron jobs: every undisturbed run ends as the complete
    operation does, whatever order its row locks, type updates and refunds take. */
module JobEndings {
  import opened Stores
  import opened Protocol
  import opened Alone
  import opened Endings
  import opened JobsAlone
  import O = Operations
  import R = Refunds
  import B = Batching

  lemma OneMore(r: Redis, types: map<nat, nat>, part: set<nat>, id: nat)
    requires id in types && id !in part
    ensures R.RefundSet(r, O.CreditsOf(O.Part(types, part + {id}))) == R.RefundSet(r, O.CreditsOf(O.Part(types, part))).Refund(types[id], id)
  {
    assert O.Part(types, part + {id}) == O.Part(types, part)[id := types[id]];
    B.CreditsSnoc(r, O.Part(types, part), id, types[id]);
  }

  function Refunded(s: State, types: map<nat, nat>, part: set<nat>): State {
    s.(api := R.RefundSet(s.api, O.CreditsOf(O.Part(types, part))))
  }

  lemma NothingRefunded(s: State, types: map<nat, nat>)
    ensures Refunded(s, types, {}) == s
  {
    NoCredits(s.api, O.Part(types, {}));
  }

  lemma AllRefunded(types: map<nat, nat>, part: set<nat>)
    requires types.Keys <= part
    ensures O.Part(types, part) == types
  {
  }

  // ---------- the collector ----------

  ghost predicate CollectOver(s: State, i: nat, calm: bool, x: State)
    requires i < |s.procs|
  {
    exists stop :: (calm ==> stop == O.Runs) && x == CollectEnd(s, i, stop)
  }

  ghost predicate CollectAt(s: State, i: nat, calm: bool, x: State)
    requires i < |s.procs|
  {
    var orphans := OrphansAmong(s, LateEntries(s));
    i < |x.procs| &&
    match x.procs[i]
    case GcStart => x == s.Put(i, GcStart)
    case GcSnapshot(_) => x == s.Put(i, GcSnapshot(s.api.reservations))
    case GcSuspicious(_) => x == s.Put(i, GcSuspicious(LateEntries(s)))
    case GcRefunding(rest) =>
      var part := orphans.Keys - rest.Keys;
      rest == orphans - part && x == Refunded(s, TypesIn(orphans), part).Put(i, GcRefunding(rest))
    case Done(_) => CollectOver(s, i, calm, x)
    case _ => false
  }

  lemma CollectEndIs(s: State, i: nat, part: set<nat>, stop: O.Stop)
    requires i < |s.procs| && if stop.Runs? then OrphansAmong(s, LateEntries(s)).Keys <= part else part == stop.done
    ensures CollectEnd(s, i, stop)
         == Refunded(s, TypesIn(OrphansAmong(s, LateEntries(s))), part).Put(i, Done(OutcomeOf(O.StopReply(stop))))
  {
    if stop.Runs? { AllRefunded(TypesIn(OrphansAmong(s, LateEntries(s))), part); }
  }

  /** The steps of a pass before its refunds. */
  lemma QuerySteps(c: Config, s: State, i: nat, x: State, l: Label, y: State)
    requires c.shared && i < |s.procs| && l.i == i && !l.act.Tick? && !l.act.Spawn? && Step(c, x, l) == Some(y)
    requires x == s.Put(i, GcStart) || x == s.Put(i, GcSnapshot(s.api.reservations)) || x == s.Put(i, GcSuspicious(LateEntries(s)))
    ensures y == s.Put(i,
      if l.act.Die? then Done(Crashed)
      else if l.act.Abort? then Done(Failed)
      else if x.procs[i].GcStart? then GcSnapshot(s.api.reservations)
      else if x.procs[i].GcSnapshot? then GcSuspicious(LateEntries(s))
      else GcRefunding(OrphansAmong(s, LateEntries(s))))
  {
    hide CreateStep, DeleteStep, PayStep, ReleaseStep, HungStep, AdminStep;
    PutPut(s, i, x.procs[i], y.procs[i]);
  }

  lemma StopsQuery(s: State, i: nat, stop: O.Stop)
    requires i < |s.procs| && !stop.Runs? && stop.done == {}
    ensures CollectEnd(s, i, stop) == s.Put(i, Done(if stop.Dies? then Crashed else Failed))
  {
    hide LateEntries, OrphansAmong, R.RefundSet;
    NothingRefunded(s, TypesIn(OrphansAmong(s, LateEntries(s))));
  }

  lemma StartsRefunding(s: State, i: nat, calm: bool)
    requires i < |s.procs|
    ensures CollectAt(s, i, calm, s.Put(i, GcRefunding(OrphansAmong(s, LateEntries(s)))))
  {
    hide LateEntries, OrphansAmong, R.RefundSet;
    var orphans := OrphansAmong(s, LateEntries(s));
    NothingRefunded(s, TypesIn(orphans));
    assert orphans.Keys - orphans.Keys == {} && orphans - {} == orphans;
  }

  lemma QueryStays(c: Config, s: State, i: nat, calm: bool, x: State, l: Label, y: State)
    requires c.shared && i < |s.procs| && CollectAt(s, i, calm, x) && Own(l, i, calm) && Step(c, x, l) == Some(y)
    requires x.procs[i].GcStart? || x.procs[i].GcSnapshot? || x.procs[i].GcSuspicious?
    ensures CollectAt(s, i, calm, y)
  {
    hide Step, LateEntries, OrphansAmong, R.RefundSet, CollectEnd, Refunded;
    QuerySteps(c, s, i, x, l, y);
    if l.act.Die? {
      StopsQuery(s, i, O.Dies({}));
    } else if l.act.Abort? {
      StopsQuery(s, i, O.Fails({}));
    } else if x.procs[i].GcSuspicious? {
      StartsRefunding(s, i, calm);
    }
  }

  lemma RefundStays(c: Config, s: State, i: nat, calm: bool, x: State, l: Label, y: State)
    requires c.shared && i < |s.procs| && CollectAt(s, i, calm, x) && Own(l, i, calm) && Step(c, x, l) == Some(y)
    requires x.procs[i].GcRefunding? && l.act.Refund?
    ensures CollectAt(s, i, calm, y)
  {
    hide CreateStep, DeleteStep, PayStep, ReleaseStep, HungStep, AdminStep;
    var orphans, rest, id := OrphansAmong(s, LateEntries(s)), x.procs[i].entries, l.act.id;
    var part := orphans.Keys - rest.Keys;
    OneMore(s.api, TypesIn(orphans), part, id);
    assert orphans.Keys - (rest - {id}).Keys == part + {id};
    assert orphans - (part + {id}) == rest - {id};
    PutPut(Refunded(s, TypesIn(orphans), part + {id}), i, x.procs[i], y.procs[i]);
  }

  lemma PassStays(c: Config, s: State, i: nat, calm: bool, x: State, l: Label, y: State)
    requires c.shared && i < |s.procs| && CollectAt(s, i, calm, x) && Own(l, i, calm) && Step(c, x, l) == Some(y)
    requires x.procs[i].GcRefunding? && !l.act.Refund?
    ensures CollectAt(s, i, calm, y)
  {
    hide CreateStep, DeleteStep, PayStep, ReleaseStep, HungStep, AdminStep;
    var orphans := OrphansAmong(s, LateEntries(s));
    var part := orphans.Keys - x.procs[i].entries.Keys;
    PutPut(Refunded(s, TypesIn(orphans), part), i, x.procs[i], y.procs[i]);
    if l.act.Die? {
      CollectEndIs(s, i, part, O.Dies(part));
    } else if l.act.Abort? {
      CollectEndIs(s, i, part, O.Fails(part));
    } else {
      CollectEndIs(s, i, part, O.Runs);
    }
  }

  /** Every undisturbed pass, in any order of its refunds, ends as the complete one does that stops
      after the refunds of some ids; a calm one as the pass that runs through. */
  lemma CollectEnds(c: Config, states: seq<State>, labels: seq<Label>, i: nat, cache: O.Cache, calm: bool) returns (stop: O.Stop)
    requires c.shared && RunsFrom(c, states, labels, i, calm, GcStart)
    ensures calm ==> stop == O.Runs
    ensures var (w', reply) := O.Collect(WorldIn(states[0], cache), states[0].now, stop);
      states[|labels|] == Ended(states[0], i, w', reply)
  {
    hide CollectEnd;
    var s := states[0];
    PutPut(s, i, GcStart, GcStart);
    forall x, l, y | CollectAt(s, i, calm, x) && Own(l, i, calm) && Step(c, x, l) == Some(y)
      ensures CollectAt(s, i, calm, y)
    {
      if x.procs[i].Done? { }
      else if !x.procs[i].GcRefunding? { QueryStays(c, s, i, calm, x, l, y); }
      else if l.act.Refund? { RefundStays(c, s, i, calm, x, l, y); }
      else { PassStays(c, s, i, calm, x, l, y); }
    }
    EndsAt(c, states, labels, i, calm, x => CollectAt(s, i, calm, x));
    stop :| (calm ==> stop == O.Runs) && states[|labels|] == CollectEnd(s, i, stop);
    CollectCases(s, i, stop, cache);
  }

  // ---------- the batch ----------

  ghost predicate HungOver(c: Config, s: State, i: nat, calm: bool, x: State)
    requires i < |s.procs|
  {
    exists stop :: (calm ==> stop == O.Runs) && x == HungEnd(c, s, i, stop)
  }

  ghost predicate HungAt(c: Config, s: State, i: nat, calm: bool, x: State)
    requires i < |s.procs|
  {
    var threshold, all := s.now - c.reservationSeconds, HungTypes(c, s);
    i < |x.procs| &&
    match x.procs[i]
    case HungStart => x == s.Put(i, HungStart)
    case HungTimed(_) => x == s.Put(i, HungTimed(threshold))
    case HungScanning(_, rest, locked) =>
      rest <= all.Keys && locked == O.Part(all, all.Keys - rest) && x == s.Put(i, HungScanning(threshold, rest, locked))
    case HungUpdating(_, todo) =>
      all != map[] && todo <= all.Values && (forall t :: t in all.Values && t !in todo ==> CanSubtract(s.db, t, |OfType(all, t)|)) &&
      x == s.Put(i, HungUpdating(all, todo))
    case HungRefunding(_, todo) =>
      all != map[] && !O.BatchRefused(s.db, all) && todo <= all.Keys &&
      x == Refunded(s, all, all.Keys - todo).Put(i, HungRefunding(all, todo))
    case Done(_) => HungOver(c, s, i, calm, x)
    case _ => false
  }

  /** A job stopped before its first refund, by its own end or by the CHECK. */
  lemma StoppedEarly(c: Config, s: State, i: nat, stop: O.Stop)
    requires i < |s.procs|
    requires match stop
      case Runs => HungTypes(c, s) == map[] || O.BatchRefused(s.db, HungTypes(c, s))
      case Fails(done) => done == {}
      case Dies(done) => done == {}
    ensures HungEnd(c, s, i, stop) == s.Put(i, Done(
      if stop.Dies? then Crashed else if stop.Runs? && HungTypes(c, s) == map[] then Finished else Failed))
  {
    NothingRefunded(s, HungTypes(c, s));
  }

  lemma ScanStays(c: Config, s: State, i: nat, calm: bool, x: State, l: Label, y: State)
    requires c.shared && i < |s.procs| && HungAt(c, s, i, calm, x) && Own(l, i, calm) && Step(c, x, l) == Some(y)
    requires x.procs[i].HungStart? || x.procs[i].HungTimed?
    ensures HungAt(c, s, i, calm, y)
  {
    hide CreateStep, DeleteStep, PayStep, ReleaseStep, GcStep, AdminStep;
    PutPut(s, i, x.procs[i], y.procs[i]);
    assert HungTypes(c, s).Keys == O.HungIds(s.db, s.now - c.reservationSeconds);
    if l.act.Die? { StoppedEarly(c, s, i, O.Dies({})); }
    else if x.procs[i].HungTimed? {
      var all := HungTypes(c, s);
      assert all.Keys - all.Keys == {};
      assert O.Part(all, {}) == map[];
    }
  }

  lemma LockStays(c: Config, s: State, i: nat, calm: bool, x: State, l: Label, y: State)
    requires c.shared && i < |s.procs| && HungAt(c, s, i, calm, x) && Own(l, i, calm) && Step(c, x, l) == Some(y)
    requires x.procs[i].HungScanning? && l.act.LockTicket?
    ensures HungAt(c, s, i, calm, y)
  {
    hide CreateStep, DeleteStep, PayStep, ReleaseStep, GcStep, AdminStep;
    var all, rest, id := HungTypes(c, s), x.procs[i].rest, l.act.id;
    PutPut(s, i, x.procs[i], y.procs[i]);
    assert id in all && Hung(s.db, s.now - c.reservationSeconds, id);
    assert all.Keys - (rest - {id}) == (all.Keys - rest) + {id};
    assert O.Part(all, (all.Keys - rest) + {id}) == O.Part(all, all.Keys - rest)[id := all[id]];
  }

  lemma ScannedStays(c: Config, s: State, i: nat, calm: bool, x: State, l: Label, y: State)
    requires c.shared && i < |s.procs| && HungAt(c, s, i, calm, x) && Own(l, i, calm) && Step(c, x, l) == Some(y)
    requires x.procs[i].HungScanning? && !l.act.LockTicket?
    ensures HungAt(c, s, i, calm, y)
  {
    hide CreateStep, DeleteStep, PayStep, ReleaseStep, GcStep, AdminStep;
    var all := HungTypes(c, s);
    PutPut(s, i, x.procs[i], y.procs[i]);
    if l.act.Die? {
      StoppedEarly(c, s, i, O.Dies({}));
    } else if l.act.Abort? {
      StoppedEarly(c, s, i, O.Fails({}));
    } else {
      AllRefunded(all, all.Keys - {});
      if all == map[] { StoppedEarly(c, s, i, O.Runs); }
    }
  }

  lemma UpdatingStays(c: Config, s: State, i: nat, calm: bool, x: State, l: Label, y: State)
    requires c.shared && i < |s.procs| && HungAt(c, s, i, calm, x) && Own(l, i, calm) && Step(c, x, l) == Some(y)
    requires x.procs[i].HungUpdating?
    ensures HungAt(c, s, i, calm, y)
  {
    hide CreateStep, DeleteStep, PayStep, ReleaseStep, GcStep, AdminStep;
    var all := HungTypes(c, s);
    PutPut(s, i, x.procs[i], y.procs[i]);
    if l.act.Die? {
      StoppedEarly(c, s, i, O.Dies({}));
    } else if l.act.Abort? {
      StoppedEarly(c, s, i, O.Fails({}));
    } else if y.procs[i].Done? {
      assert l.act.t in all.Values;
      StoppedEarly(c, s, i, O.Runs);
    } else if y.procs[i].HungRefunding? {
      NothingRefunded(s, all);
      assert all.Keys - all.Keys == {};
    }
  }

  lemma RefundingStays(c: Config, s: State, i: nat, calm: bool, x: State, l: Label, y: State)
    requires c.shared && i < |s.procs| && HungAt(c, s, i, calm, x) && Own(l, i, calm) && Step(c, x, l) == Some(y)
    requires x.procs[i].HungRefunding? && l.act.Refund?
    ensures HungAt(c, s, i, calm, y)
  {
    var all, todo, id := HungTypes(c, s), x.procs[i].todo, l.act.id;
    RefundingOne(c, x, i, l, y, Refunded(s, all, all.Keys - todo), all, todo);
    hide Step, HungOver, HungTypes, R.RefundSet, O.CreditsOf, O.Part, O.BatchRefused;
    assert all.Keys - (todo - {id}) == (all.Keys - todo) + {id};
    OneMore(s.api, all, all.Keys - todo, id);
  }

  lemma RefundingOne(c: Config, x: State, i: nat, l: Label, y: State, m: State, all: map<nat, nat>, todo: set<nat>)
    requires c.shared && i < |m.procs| && x == m.Put(i, HungRefunding(all, todo)) && l.act.Refund? && l.i == i && Step(c, x, l) == Some(y)
    ensures l.act.id in todo && l.act.id in all
    ensures y == m.(api := m.api.Refund(all[l.act.id], l.act.id)).Put(i, HungRefunding(all, todo - {l.act.id}))
  {
    PutPut(m.(api := m.api.Refund(all[l.act.id], l.act.id)), i, x.procs[i], y.procs[i]);
  }

  lemma BatchSteps(c: Config, x: State, i: nat, l: Label, y: State, m: State, all: map<nat, nat>, todo: set<nat>)
    requires i < |m.procs| && x == m.Put(i, HungRefunding(all, todo)) && l.i == i && !l.act.Tick? && !l.act.Spawn?
    requires !l.act.Refund? && Step(c, x, l) == Some(y)
    ensures if l.act.Die? then y == m.Put(i, Done(Crashed))
      else if l.act.Abort? then y == m.Put(i, Done(Failed))
      else todo == {} && y == m.(db := BatchDb(m.db, all)).Put(i, Done(Finished))
  {
    hide CreateStep, DeleteStep, PayStep, ReleaseStep, GcStep, AdminStep;
    PutPut(m, i, x.procs[i], y.procs[i]);
    PutPut(m.(db := BatchDb(m.db, all)), i, x.procs[i], y.procs[i]);
  }

  lemma BatchStays(c: Config, s: State, i: nat, calm: bool, x: State, l: Label, y: State)
    requires c.shared && i < |s.procs| && HungAt(c, s, i, calm, x) && Own(l, i, calm) && Step(c, x, l) == Some(y)
    requires x.procs[i].HungRefunding? && !l.act.Refund?
    ensures HungAt(c, s, i, calm, y)
  {
    var all, todo := HungTypes(c, s), x.procs[i].todo;
    var part := all.Keys - todo;
    BatchSteps(c, x, i, l, y, Refunded(s, all, part), all, todo);
    hide Step, HungTypes, Refunded, O.BatchRefused, BatchDb, HungEnd;
    if l.act.Die? {
      StopsBatch(c, s, i, O.Dies(part));
    } else if l.act.Abort? {
      StopsBatch(c, s, i, O.Fails(part));
    } else {
      assert part == all.Keys;
      CommitsBatch(c, s, i, y);
    }
  }

  lemma StopsBatch(c: Config, s: State, i: nat, stop: O.Stop)
    requires i < |s.procs| && HungTypes(c, s) != map[] && !O.BatchRefused(s.db, HungTypes(c, s)) && !stop.Runs?
    ensures HungEnd(c, s, i, stop) == Refunded(s, HungTypes(c, s), stop.done).Put(i, Done(if stop.Dies? then Crashed else Failed))
  {
    hide O.BatchRefused, HungTypes, R.RefundSet, O.CreditsOf, BatchDb;
  }

  lemma CommitsBatch(c: Config, s: State, i: nat, y: State)
    requires i < |s.procs| && HungTypes(c, s) != map[] && !O.BatchRefused(s.db, HungTypes(c, s))
    requires y == Refunded(s, HungTypes(c, s), HungTypes(c, s).Keys).(db := BatchDb(s.db, HungTypes(c, s))).Put(i, Done(Finished))
    ensures y == HungEnd(c, s, i, O.Runs)
  {
    hide O.BatchRefused, HungTypes, R.RefundSet, O.CreditsOf, BatchDb;
    AllRefunded(HungTypes(c, s), HungTypes(c, s).Keys);
  }

  lemma HungStays(c: Config, s: State, i: nat, calm: bool, x: State, l: Label, y: State)
    requires c.shared && i < |s.procs| && HungAt(c, s, i, calm, x) && Own(l, i, calm) && Step(c, x, l) == Some(y)
    ensures HungAt(c, s, i, calm, y)
  {
    hide Step, HungOver;
    NotDone(c, i, calm, x, l, y);
    var p := x.procs[i];
    if p.HungScanning? {
      if l.act.LockTicket? { LockStays(c, s, i, calm, x, l, y); } else { ScannedStays(c, s, i, calm, x, l, y); }
    } else if p.HungUpdating? {
      UpdatingStays(c, s, i, calm, x, l, y);
    } else if p.HungRefunding? {
      if l.act.Refund? { RefundingStays(c, s, i, calm, x, l, y); } else { BatchStays(c, s, i, calm, x, l, y); }
    } else {
      ScanStays(c, s, i, calm, x, l, y);
    }
  }

  /** Every undisturbed batch job, whatever order its row locks, type updates and refunds take, ends as
      the complete one does that stops after the refunds of some ids; a calm one runs through. */
  lemma HungEnds(c: Config, states: seq<State>, labels: seq<Label>, i: nat, cache: O.Cache, calm: bool) returns (stop: O.Stop)
    requires c.shared && RunsFrom(c, states, labels, i, calm, HungStart)
    ensures calm ==> stop == O.Runs
    ensures var (w', reply) := O.ReconcileHung(WorldIn(states[0], cache), states[0].now, c.reservationSeconds, stop);
      states[|labels|] == Ended(states[0], i, w', reply)
  {
    hide Step, HungEnd;
    var s := states[0];
    PutPut(s, i, HungStart, HungStart);
    forall x, l, y | HungAt(c, s, i, calm, x) && Own(l, i, calm) && Step(c, x, l) == Some(y)
      ensures HungAt(c, s, i, calm, y) { HungStays(c, s, i, calm, x, l, y); }
    EndsAt(c, states, labels, i, calm, x => HungAt(c, s, i, calm, x));
    stop :| (calm ==> stop == O.Runs) && states[|labels|] == HungEnd(c, s, i, stop);
    HungCases(c, s, i, stop, cache);
  }
}
