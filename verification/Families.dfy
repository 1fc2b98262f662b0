/** Whose step it is: a step moves one process, and leaves it in the operation it is in. */
module Families {
  import opened Stores
  import opened Protocol

  /** The operation that a program counter belongs to. */
  datatype Family = OfNone | OfCreate | OfDelete | OfPay | OfRelease | OfHung | OfGc | OfAdmin

  function FamilyOf(p: Proc): Family {
    if p.Done? then OfNone
    else if p.CreateStart? || p.CreateMiss? || p.CreateWarm? || p.CreateRetry? || p.CreateHolding? || p.CreateUpdated?
            || p.CreateInserted? || p.CreateStamped? || p.CreateHashed? || p.CreateCommitted? || p.CreateFailed? then OfCreate
    else if p.DeleteStart? || p.DeleteFound? || p.DeleteUpdated? || p.DeleteRemoved? || p.DeleteCommitted? || p.DeleteCredited? then OfDelete
    else if p.PayStart? || p.PayLocked? || p.PayCommitted? then OfPay
    else if p.ReleaseStart? || p.ReleaseLocked? || p.ReleaseUpdated? || p.ReleaseRefunded? then OfRelease
    else if p.HungStart? || p.HungTimed? || p.HungScanning? || p.HungUpdating? || p.HungRefunding? then OfHung
    else if p.GcStart? || p.GcSnapshot? || p.GcSuspicious? || p.GcRefunding? then OfGc
    else OfAdmin
  }

  predicate StaysIn(p: Proc, q: Proc) {
    FamilyOf(q) == FamilyOf(p) || q.Done?
  }

  predicate OnlyMoves(s: State, s': State, i: nat) {
    |s'.procs| == |s.procs| && forall j :: 0 <= j < |s.procs| && j != i ==> s'.procs[j] == s.procs[j]
  }

  lemma CreateFamily(s: State, i: nat, a: Action, s': State)
    requires i < |s.procs| && CreateStep(s, i, a) == Some(s')
    ensures |s'.procs| == |s.procs| && StaysIn(s.procs[i], s'.procs[i]) && OnlyMoves(s, s', i)
  {
  }

  lemma DeleteFamily(s: State, i: nat, a: Action, s': State)
    requires i < |s.procs| && DeleteStep(s, i, a) == Some(s')
    ensures |s'.procs| == |s.procs| && StaysIn(s.procs[i], s'.procs[i]) && OnlyMoves(s, s', i)
  {
  }

  lemma PayFamily(s: State, i: nat, a: Action, s': State)
    requires i < |s.procs| && PayStep(s, i, a) == Some(s')
    ensures |s'.procs| == |s.procs| && StaysIn(s.procs[i], s'.procs[i]) && OnlyMoves(s, s', i)
  {
  }

  lemma ReleaseFamily(c: Config, s: State, i: nat, a: Action, s': State)
    requires i < |s.procs| && ReleaseStep(c, s, i, a) == Some(s')
    ensures |s'.procs| == |s.procs| && StaysIn(s.procs[i], s'.procs[i]) && OnlyMoves(s, s', i)
  {
  }

  lemma HungFamily(c: Config, s: State, i: nat, a: Action, s': State)
    requires i < |s.procs| && HungStep(c, s, i, a) == Some(s')
    ensures |s'.procs| == |s.procs| && StaysIn(s.procs[i], s'.procs[i]) && OnlyMoves(s, s', i)
  {
  }

  lemma GcFamily(c: Config, s: State, i: nat, a: Action, s': State)
    requires i < |s.procs| && GcStep(c, s, i, a) == Some(s')
    ensures |s'.procs| == |s.procs| && StaysIn(s.procs[i], s'.procs[i]) && OnlyMoves(s, s', i)
  {
  }

  lemma AdminFamily(s: State, i: nat, a: Action, s': State)
    requires i < |s.procs| && AdminStep(s, i, a) == Some(s')
    ensures |s'.procs| == |s.procs| && StaysIn(s.procs[i], s'.procs[i]) && OnlyMoves(s, s', i)
  {
  }

  lemma StepFamily(c: Config, s: State, l: Label, s': State)
    requires Step(c, s, l) == Some(s') && l.i < |s.procs| && !l.act.Tick?
    ensures |s'.procs| == |s.procs| && OnlyMoves(s, s', l.i)
    ensures if l.act.Spawn? then Start(s'.procs[l.i]) else StaysIn(s.procs[l.i], s'.procs[l.i])
  {
    hide CreateStep, DeleteStep, PayStep, ReleaseStep, HungStep, GcStep, AdminStep;
    if l.act.Spawn? || l.act.Die? { }
    else if CreateStep(s, l.i, l.act) == Some(s') { CreateFamily(s, l.i, l.act, s'); }
    else if DeleteStep(s, l.i, l.act) == Some(s') { DeleteFamily(s, l.i, l.act, s'); }
    else if PayStep(s, l.i, l.act) == Some(s') { PayFamily(s, l.i, l.act, s'); }
    else if ReleaseStep(c, s, l.i, l.act) == Some(s') { ReleaseFamily(c, s, l.i, l.act, s'); }
    else if HungStep(c, s, l.i, l.act) == Some(s') { HungFamily(c, s, l.i, l.act, s'); }
    else if GcStep(c, s, l.i, l.act) == Some(s') { GcFamily(c, s, l.i, l.act, s'); }
    else { AdminFamily(s, l.i, l.act, s'); }
  }

  /** A process that is not at its end or start was in the same operation before. */
  lemma OwnStep(c: Config, s: State, l: Label, s': State)
    requires Step(c, s, l) == Some(s') && l.i < |s.procs| && !l.act.Tick?
    ensures l.i < |s'.procs|
    ensures var q := s'.procs[l.i]; !q.Done? && !Start(q) ==>
      match FamilyOf(q)
      case OfCreate => CreateStep(s, l.i, l.act) == Some(s')
      case OfDelete => DeleteStep(s, l.i, l.act) == Some(s')
      case OfPay => PayStep(s, l.i, l.act) == Some(s')
      case OfHung => HungStep(c, s, l.i, l.act) == Some(s')
      case OfGc => GcStep(c, s, l.i, l.act) == Some(s')
      case _ => true
  {
    hide CreateStep, DeleteStep, PayStep, ReleaseStep, HungStep, GcStep, AdminStep;
    StepFamily(c, s, l, s');
  }

  lemma OthersLeave(c: Config, s: State, l: Label, s': State, i: nat)
    requires Step(c, s, l) == Some(s') && (l.i != i || l.act.Tick?)
    ensures |s'.procs| == |s.procs| && (i < |s.procs| ==> s'.procs[i] == s.procs[i])
  {
    hide CreateStep, DeleteStep, PayStep, ReleaseStep, HungStep, GcStep, AdminStep;
    if !l.act.Tick? && l.i < |s.procs| { StepFamily(c, s, l, s'); }
  }
}
