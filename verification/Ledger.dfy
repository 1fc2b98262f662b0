/** The database ledger: tickets_sold of a type against its live tickets, over every run. */
module Ledger {
  import opened Stores
  import opened Protocol
  import opened Invariants
  import opened TicketLife

  /** Live tickets not covered by tickets_sold. */
  function Gap(db: Db, t: nat): int {
    if t in db.types then |LiveOf(db, t)| - db.types[t].sold else 0
  }

  /** A commit of TicketService.delete whose ticket is no longer live, or no longer there. */
  predicate Drifts(s: State, l: Label, t: nat) {
    l.act.Commit? && l.i < |s.procs| && s.procs[l.i].DeleteRemoved? && s.procs[l.i].t == t &&
    var id := s.procs[l.i].id;
    !(id in s.db.tickets && s.db.tickets[id].Live())
  }

  function Drift(states: seq<State>, labels: seq<Label>, t: nat): nat
    requires |states| == |labels| + 1
  {
    if labels == [] then 0
    else
      var k := |labels| - 1;
      Drift(states[..k + 1], labels[..k], t) + if t in states[k].db.types && Drifts(states[k], labels[k], t) then 1 else 0
  }

  lemma SameTables(db: Db, db': Db, t: nat)
    requires db'.tickets == db.tickets && (t in db.types <==> t in db'.types)
    requires t in db.types ==> db'.types[t].sold == db.types[t].sold
    ensures Gap(db', t) == Gap(db, t)
  {
    assert LiveOf(db', t) == LiveOf(db, t);
  }

  lemma NewTicketGap(db: Db, t: nat, id: nat, k: Ticket)
    requires id !in db.tickets && k.Live() && k.typeId in db.types
    ensures Gap(db.(types := AddSold(db.types, k.typeId, 1), tickets := db.tickets[id := k]), t) == Gap(db, t)
  {
    var db' := db.(types := AddSold(db.types, k.typeId, 1), tickets := db.tickets[id := k]);
    assert LiveOf(db', t) - {id} == LiveOf(db, t) - {id};
    SwapOne(LiveOf(db, t), LiveOf(db', t), id);
  }

  lemma CreateGap(c: Config, s: State, i: nat, a: Action, s': State, t: nat)
    requires Inv(c, s) && i < |s.procs| && CreateStep(s, i, a) == Some(s')
    ensures Gap(s'.db, t) == Gap(s.db, t)
  {
    var p := s.procs[i];
    if p.CreateHashed? && a.Commit? {
      assert ProcOk(c, s, p);
      NewTicketGap(s.db, t, p.id, Ticket(p.t, p.owner, RESERVED, p.start));
    } else {
      SameTables(s.db, s'.db, t);
    }
  }

  lemma DeleteCommitGap(c: Config, s: State, i: nat, s': State, t: nat)
    requires Inv(c, s) && i < |s.procs| && s.procs[i].DeleteRemoved? && DeleteStep(s, i, Commit) == Some(s')
    ensures Gap(s'.db, t) == Gap(s.db, t) + if t in s.db.types && Drifts(s, Label(i, Commit), t) then 1 else 0
  {
    var p := s.procs[i];
    assert ProcOk(c, s, p);
    assert LiveOf(s'.db, t) == LiveOf(s.db, t) - {p.id};
    assert p.id in LiveOf(s.db, t) <==> p.t == t && p.id in s.db.tickets && s.db.tickets[p.id].Live();
    SizeWithout(LiveOf(s.db, t), p.id);
  }

  lemma DeleteGap(c: Config, s: State, i: nat, a: Action, s': State, t: nat)
    requires Inv(c, s) && i < |s.procs| && DeleteStep(s, i, a) == Some(s')
    ensures Gap(s'.db, t) == Gap(s.db, t) + if t in s.db.types && Drifts(s, Label(i, a), t) then 1 else 0
  {
    if s.procs[i].DeleteRemoved? && a.Commit? {
      DeleteCommitGap(c, s, i, s', t);
    } else {
      assert s'.db == s.db && !Drifts(s, Label(i, a), t);
    }
  }

  lemma PayGap(c: Config, s: State, i: nat, a: Action, s': State, t: nat)
    requires Inv(c, s) && i < |s.procs| && PayStep(s, i, a) == Some(s')
    ensures Gap(s'.db, t) == Gap(s.db, t)
  {
    assert ProcOk(c, s, s.procs[i]);
    assert LiveOf(s'.db, t) == LiveOf(s.db, t);
  }

  lemma ReleaseGap(c: Config, s: State, i: nat, a: Action, s': State, t: nat)
    requires Inv(c, s) && i < |s.procs| && ReleaseStep(c, s, i, a) == Some(s')
    ensures Gap(s'.db, t) == Gap(s.db, t)
  {
    var p := s.procs[i];
    if p.ReleaseRefunded? && a.Commit? {
      assert ProcOk(c, s, p);
      assert p.id in LiveOf(s.db, t) <==> p.t == t;
      assert LiveOf(s'.db, t) == LiveOf(s.db, t) - {p.id};
      SizeWithout(LiveOf(s.db, t), p.id);
    } else {
      SameTables(s.db, s'.db, t);
    }
  }

  lemma HungCommitGap(c: Config, s: State, i: nat, s': State, t: nat)
    requires Inv(c, s) && i < |s.procs| && s.procs[i].HungRefunding? && HungStep(c, s, i, Commit) == Some(s')
    ensures Gap(s'.db, t) == Gap(s.db, t)
  {
    var locked := s.procs[i].locked;
    assert BatchOk(s.db, locked) by { assert ProcOk(c, s, s.procs[i]); }
    hide Exclusive, RedisOk, Inv, ProcOk;
    BatchLive(s.db, locked, t);
    assert LiveOf(s'.db, t) == LiveOf(s.db, t) - OfType(locked, t);
  }

  lemma HungGap(c: Config, s: State, i: nat, a: Action, s': State, t: nat)
    requires Inv(c, s) && i < |s.procs| && HungStep(c, s, i, a) == Some(s')
    ensures Gap(s'.db, t) == Gap(s.db, t)
  {
    if s.procs[i].HungRefunding? && a.Commit? { HungCommitGap(c, s, i, s', t); } else { SameTables(s.db, s'.db, t); }
  }

  lemma BatchLive(db: Db, locked: map<nat, nat>, t: nat)
    requires BatchOk(db, locked)
    ensures OfType(locked, t) <= LiveOf(db, t)
    ensures forall id :: id in LiveOf(db, t) && id in locked ==> id in OfType(locked, t)
  {
    forall id | id in OfType(locked, t) ensures id in LiveOf(db, t) {
      assert Reserved(db, id, locked[id]);
    }
    forall id | id in LiveOf(db, t) && id in locked ensures id in OfType(locked, t) {
      assert Reserved(db, id, locked[id]);
    }
  }

  lemma GcGap(c: Config, s: State, i: nat, a: Action, s': State, t: nat)
    requires i < |s.procs| && GcStep(c, s, i, a) == Some(s')
    ensures Gap(s'.db, t) == Gap(s.db, t) && s'.db == s.db
  {
  }

  lemma AdminTables(c: Config, s: State, i: nat, a: Action, s': State, t: nat)
    requires Inv(c, s) && i < |s.procs| && AdminStep(s, i, a) == Some(s') && t in s'.db.types
    ensures s'.db.tickets == s.db.tickets
    ensures if t in s.db.types then s'.db.types[t].sold == s.db.types[t].sold else s'.db.types[t].sold == 0 && t == s.db.nextType
  {
    hide Exclusive, RedisOk, ProcOk;
  }

  lemma AdminGap(c: Config, s: State, i: nat, a: Action, s': State, t: nat)
    requires Inv(c, s) && i < |s.procs| && AdminStep(s, i, a) == Some(s') && t in s'.db.types
    ensures t in s.db.types ==> Gap(s'.db, t) == Gap(s.db, t)
    ensures t !in s.db.types ==> Gap(s'.db, t) == 0 && t == s.db.nextType
  {
    AdminTables(c, s, i, a, s', t);
    assert LiveOf(s'.db, t) == LiveOf(s.db, t);
    if t !in s.db.types {
      assert LiveOf(s.db, t) == {};
    }
  }

  /** One step moves the gap of an existing type by its drift; a new type starts with none. */
  lemma StepGap(c: Config, s: State, l: Label, s': State, t: nat)
    requires Inv(c, s) && Step(c, s, l) == Some(s') && t in s'.db.types
    ensures t in s.db.types ==> Gap(s'.db, t) == Gap(s.db, t) + if Drifts(s, l, t) then 1 else 0
    ensures t !in s.db.types ==> Gap(s'.db, t) == 0 && t == s.db.nextType
  {
    if l.act.Tick? || l.act.Spawn? || l.act.Die? { }
    else if CreateStep(s, l.i, l.act).Some? { CreateGap(c, s, l.i, l.act, s', t); }
    else if DeleteStep(s, l.i, l.act).Some? { DeleteGap(c, s, l.i, l.act, s', t); }
    else if PayStep(s, l.i, l.act).Some? { PayGap(c, s, l.i, l.act, s', t); }
    else if ReleaseStep(c, s, l.i, l.act).Some? { ReleaseGap(c, s, l.i, l.act, s', t); }
    else if HungStep(c, s, l.i, l.act).Some? { HungGap(c, s, l.i, l.act, s', t); }
    else if GcStep(c, s, l.i, l.act).Some? { GcGap(c, s, l.i, l.act, s', t); }
    else { AdminGap(c, s, l.i, l.act, s', t); }
  }

  lemma RunPrefix(c: Config, states: seq<State>, labels: seq<Label>, k: nat)
    requires Run(c, states, labels) && k <= |labels|
    ensures Run(c, states[..k + 1], labels[..k])
  {
  }

  /** Before a type exists nothing drifts. */
  lemma {:induction false} UnbornType(c: Config, states: seq<State>, labels: seq<Label>, t: nat)
    requires Run(c, states, labels) && Inv(c, states[0]) && states[|labels|].db.nextType <= t
    ensures Drift(states, labels, t) == 0 && t !in states[0].db.types
  {
    RunKeepsInv(c, states, labels, |labels|);
    if labels != [] {
      var k := |labels| - 1;
      RunKeepsInv(c, states, labels, k);
      RunPrefix(c, states, labels, k);
      StepIds(c, states[k], labels[k], states[k + 1]);
      UnbornType(c, states[..k + 1], labels[..k], t);
    }
  }

  /** In every interleaving, with crashes, aborts and admin operations: what tickets_sold misses is
      what was missing at the start plus one for each delete of a ticket that was not live. */
  lemma {:induction false} LedgerOverRuns(c: Config, states: seq<State>, labels: seq<Label>, t: nat)
    requires Run(c, states, labels) && Inv(c, states[0]) && t in states[|labels|].db.types
    ensures Gap(states[|labels|].db, t) == Gap(states[0].db, t) + Drift(states, labels, t)
  {
    if labels != [] {
      var k := |labels| - 1;
      RunKeepsInv(c, states, labels, k);
      RunPrefix(c, states, labels, k);
      StepGap(c, states[k], labels[k], states[k + 1], t);
      if t in states[k].db.types {
        LedgerOverRuns(c, states[..k + 1], labels[..k], t);
      } else {
        UnbornType(c, states[..k + 1], labels[..k], t);
      }
    }
  }

  /** No overselling beyond the drift, whatever the Redis counters say. */
  lemma NoOverselling(c: Config, states: seq<State>, labels: seq<Label>, t: nat)
    requires Run(c, states, labels) && Inv(c, states[0]) && Gap(states[0].db, t) == 0
    requires t in states[|labels|].db.types
    ensures var db := states[|labels|].db;
      db.types[t].sold + Drift(states, labels, t) == |LiveOf(db, t)| &&
      |LiveOf(db, t)| <= db.types[t].quantity + Drift(states, labels, t)
  {
    LedgerOverRuns(c, states, labels, t);
    RunKeepsInv(c, states, labels, |labels|);
  }
}
