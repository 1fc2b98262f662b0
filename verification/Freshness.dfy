/** Readers and mutators of the event cache, step by step. List pages live under a version that is
    bumped after the commit; detail entries are deleted after the commit. Entries expire at any time,
    and any process may die between two steps. */
module Freshness {
  import opened Stores
  import opened Operations

  datatype Proc =
    | Idle
      // CachedEventRepository.get_all
    | ListStart(offset: nat, limit: nat)
    | ListUnset(offset: nat, limit: nat)
    | ListVersioned(offset: nat, limit: nat, v: nat)
    | ListMissed(offset: nat, limit: nat, v: nat)
    | ListRead(offset: nat, limit: nat, v: nat, page: Page)
    | ListDone(offset: nat, limit: nat, page: Page)
      // CachedEventRepository.get
    | GetStart(e: nat)
    | GetMissed(e: nat)
    | GetAttrs(e: nat, attrs: map<string, string>)
    | GetRead(e: nat, detail: Detail)
    | GetDone(e: nat, detail: Detail)
    | GetAbsent(e: nat)
      // a mutator of event e; n is the number of the snapshot that its commit made
    | MutStart(e: nat)
    | MutCommitted(e: nat, n: nat)
    | MutDeleted(e: nat, n: nat)
    | MutDone

  datatype Action = Begin(p: Proc) | Die | Move | Commit(db: Db) | DropPage(key: PageKey) | DropDetail(event: nat)

  datatype Label = Label(i: nat, act: Action)

  /** `history` lists the committed snapshots of the database; its last one is current. */
  datatype State = State(history: seq<Db>, version: Option<nat>, pages: map<PageKey, Page>, details: map<nat, Detail>, procs: seq<Proc>)
  {
    function Put(i: nat, p: Proc): State
      requires i < |procs|
    {
      this.(procs := procs[i := p])
    }
  }

  predicate Start(p: Proc) {
    p.ListStart? || p.GetStart? || p.MutStart?
  }

  predicate Over(p: Proc) {
    p.Idle? || p.ListDone? || p.GetDone? || p.GetAbsent? || p.MutDone?
  }

  function Now(s: State): Db
    requires s.history != []
  {
    s.history[|s.history| - 1]
  }

  /** The next command of a reader, or of a mutator after its commit. A reader that finds no version sets
      it to 1 by a second command; the event and its ticket types are read by two statements. */
  function Move1(s: State, i: nat): Option<State>
    requires i < |s.procs| && s.history != []
  {
    match s.procs[i]
    case ListStart(o, l) => Some(s.Put(i, if s.version.Some? then ListVersioned(o, l, s.version.value) else ListUnset(o, l)))
    case ListUnset(o, l) => Some(s.(version := Some(1)).Put(i, ListVersioned(o, l, 1)))
    case ListVersioned(o, l, v) =>
      var key := PageKey(v, o, l);
      Some(s.Put(i, if key in s.pages then ListDone(o, l, s.pages[key]) else ListMissed(o, l, v)))
    case ListMissed(o, l, v) => Some(s.Put(i, ListRead(o, l, v, Page(Now(s).events, o, l))))
    case ListRead(o, l, v, page) =>
      Some(s.(pages := s.pages[PageKey(v, o, l) := page]).Put(i, ListDone(o, l, page)))
    case GetStart(e) => Some(s.Put(i, if e in s.details then GetDone(e, s.details[e]) else GetMissed(e)))
    case GetMissed(e) =>
      Some(s.Put(i, if e in Now(s).events then GetAttrs(e, Now(s).events[e].attrs) else GetAbsent(e)))
    case GetAttrs(e, attrs) => Some(s.Put(i, GetRead(e, Detail(attrs, ViewsOf(Now(s), e)))))
    case GetRead(e, detail) => Some(s.(details := s.details[e := detail]).Put(i, GetDone(e, detail)))
    case MutCommitted(e, n) => Some(s.(details := s.details - {e}).Put(i, MutDeleted(e, n)))
    case MutDeleted(_, _) =>
      Some(s.(version := Some(if s.version.Some? then s.version.value + 1 else 1)).Put(i, MutDone))
    case _ => None
  }

  function Step(s: State, l: Label): Option<State> {
    if s.history == [] then None
    else match l.act
      case DropPage(key) => Some(s.(pages := s.pages - {key}))
      case DropDetail(e) => Some(s.(details := s.details - {e}))
      case Begin(p) => if l.i < |s.procs| && Over(s.procs[l.i]) && Start(p) then Some(s.Put(l.i, p)) else None
      case Die => if l.i < |s.procs| then Some(s.Put(l.i, Idle)) else None
      case Commit(db) =>
        if l.i < |s.procs| && s.procs[l.i].MutStart? then
          Some(s.(history := s.history + [db]).Put(l.i, MutCommitted(s.procs[l.i].e, |s.history|)))
        else None
      case Move => if l.i < |s.procs| then Move1(s, l.i) else None
  }

  ghost predicate Run(states: seq<State>, labels: seq<Label>) {
    |states| == |labels| + 1 &&
    forall k {:trigger labels[k]} :: 0 <= k < |labels| ==> Step(states[k], labels[k]) == Some(states[k + 1])
  }

  lemma RunStep(states: seq<State>, labels: seq<Label>, k: nat)
    requires Run(states, labels) && k < |labels|
    ensures Step(states[k], labels[k]) == Some(states[k + 1])
  {
  }

  /** Reader i neither dies nor starts again between two points of the run. */
  ghost predicate OneRequest(labels: seq<Label>, i: nat, k: nat, m: nat)
    requires m <= |labels|
  {
    forall x :: k <= x < m && labels[x].i == i ==> !labels[x].act.Begin? && !labels[x].act.Die?
  }

  lemma StepGrows(s: State, l: Label, s': State)
    requires Step(s, l) == Some(s')
    ensures s.history <= s'.history && |s'.procs| == |s.procs|
    ensures forall j :: 0 <= j < |s.procs| && j != l.i ==> s'.procs[j] == s.procs[j]
  {
  }

  /** A run with one more step before it. */
  lemma Preceded(s: State, l: Label, states: seq<State>, labels: seq<Label>, i: nat, k: nat)
    requires Run(states, labels) && Step(s, l) == Some(states[0]) && k <= |labels| && OneRequest(labels, i, k, |labels|)
    ensures Run([s] + states, [l] + labels) && OneRequest([l] + labels, i, k + 1, |labels| + 1)
  {
    var states', labels' := [s] + states, [l] + labels;
    forall m {:trigger labels'[m]} | 0 <= m < |labels'| ensures Step(states'[m], labels'[m]) == Some(states'[m + 1]) {
      if m > 0 { RunStep(states, labels, m - 1); }
    }
    forall x | k + 1 <= x < |labels'| && labels'[x].i == i ensures !labels'[x].act.Begin? && !labels'[x].act.Die? {
      assert labels'[x] == labels[x - 1];
    }
  }

  // ---------- one request by itself ----------

  function CacheOf(s: State): Cache {
    Cache(s.details, s.pages, s.version)
  }

  /** How many commands are left at most. */
  function Left(p: Proc): nat {
    match p
    case ListStart(_, _) => 5
    case ListUnset(_, _) => 4
    case ListVersioned(_, _, _) => 3
    case ListMissed(_, _, _) => 2
    case ListRead(_, _, _, _) => 1
    case GetStart(_) => 4
    case GetMissed(_) => 3
    case GetAttrs(_, _) => 2
    case GetRead(_, _) => 1
    case MutCommitted(_, _) => 2
    case MutDeleted(_, _) => 1
    case _ => 0
  }

  /** Process i moves by itself until it has no next command. */
  function Finish(s: State, i: nat): State
    requires i < |s.procs| && s.history != []
    ensures i < |Finish(s, i).procs|
    decreases Left(s.procs[i])
  {
    match Move1(s, i)
    case None => s
    case Some(s') => Finish(s', i)
  }

  /** An undisturbed get is the complete one. */
  lemma GetAlone(s: State, i: nat, e: nat, w: World)
    requires i < |s.procs| && s.history != [] && s.procs[i] == GetStart(e) && Now(s) == w.db && CacheOf(s) == w.cache
    ensures var (w', reply) := GetEvent(w, e);
      CacheOf(Finish(s, i)) == w'.cache &&
      Finish(s, i).procs[i] == if reply.EventDetail? then GetDone(e, reply.detail) else GetAbsent(e)
  {
    var s1 := Move1(s, i).value;
    assert Finish(s, i) == Finish(s1, i);
    if s1.procs[i].GetMissed? {
      var s2 := Move1(s1, i).value;
      assert Finish(s1, i) == Finish(s2, i);
      if s2.procs[i].GetAttrs? {
        var s3 := Move1(s2, i).value;
        assert Finish(s2, i) == Finish(s3, i);
        assert Finish(s3, i) == Move1(s3, i).value;
      }
    }
  }

  /** An undisturbed get_all, once it has the version. */
  lemma VersionedAlone(s: State, i: nat, o: nat, l: nat, v: nat)
    requires i < |s.procs| && s.history != [] && s.procs[i] == ListVersioned(o, l, v)
    ensures var key, page := PageKey(v, o, l), Page(Now(s).events, o, l);
      if key in s.pages then CacheOf(Finish(s, i)) == CacheOf(s) && Finish(s, i).procs[i] == ListDone(o, l, s.pages[key])
      else CacheOf(Finish(s, i)) == CacheOf(s).(pages := s.pages[key := page]) && Finish(s, i).procs[i] == ListDone(o, l, page)
  {
    var s1 := Move1(s, i).value;
    assert Finish(s, i) == Finish(s1, i);
    if s1.procs[i].ListMissed? {
      var s2 := Move1(s1, i).value;
      assert Finish(s1, i) == Finish(s2, i);
      assert Finish(s2, i) == Move1(s2, i).value;
    }
  }

  /** An undisturbed get_all is the complete one, with or without a version to begin with. */
  lemma ListAlone(s: State, i: nat, o: nat, l: nat, w: World)
    requires i < |s.procs| && s.history != [] && s.procs[i] == ListStart(o, l) && Now(s) == w.db && CacheOf(s) == w.cache
    ensures var (w', reply) := GetAllEvents(w, o, l);
      reply.EventPage? && CacheOf(Finish(s, i)) == w'.cache && Finish(s, i).procs[i] == ListDone(o, l, reply.page)
  {
    var s1 := Move1(s, i).value;
    assert Finish(s, i) == Finish(s1, i);
    if s1.procs[i].ListUnset? {
      var s2 := Move1(s1, i).value;
      assert Finish(s1, i) == Finish(s2, i);
      VersionedAlone(s2, i, o, l, 1);
    } else {
      VersionedAlone(s1, i, o, l, s.version.value);
    }
    hide Finish, Move1;
  }

  /** A mutator that has committed and goes on undisturbed, or dies between its two commands, leaves the
      cache of the complete operation with that end. */
  lemma MutatorAlone(s: State, i: nat, e: nat, n: nat, w: World, reply: Reply)
    requires i < |s.procs| && s.history != [] && s.procs[i] == MutCommitted(e, n) && CacheOf(s) == w.cache
    ensures Finish(s, i).procs[i] == MutDone && CacheOf(Finish(s, i)) == Published(w, e, NoFault, reply).0.cache
    ensures Move1(s, i).Some? && CacheOf(Move1(s, i).value) == Published(w, e, DiesAfterDrop, reply).0.cache
  {
    var s1 := Move1(s, i).value;
    assert Finish(s, i) == Finish(s1, i);
    assert Finish(s1, i) == Move1(s1, i).value;
  }

  // ---------- pages ----------

  /** With the version set, nobody is about to set it again, and versions in use do not exceed it. */
  predicate ProcOk(s: State, p: Proc)
    requires s.version.Some?
  {
    match p
    case ListUnset(_, _) => false
    case ListVersioned(_, _, v) => v <= s.version.value
    case ListMissed(_, _, v) => v <= s.version.value
    case ListRead(_, _, v, _) => v <= s.version.value
    case MutCommitted(_, n) => n < |s.history|
    case MutDeleted(_, n) => n < |s.history|
    case _ => true
  }

  ghost predicate Inv(s: State) {
    s.history != [] && s.version.Some? &&
    (forall k :: k in s.pages ==> k.version <= s.version.value) &&
    forall j :: 0 <= j < |s.procs| ==> ProcOk(s, s.procs[j])
  }

  lemma StepKeepsInv(s: State, l: Label, s': State)
    requires Inv(s) && Step(s, l) == Some(s')
    ensures Inv(s')
  {
    StepGrows(s, l, s');
    assert l.i < |s.procs| ==> ProcOk(s, s.procs[l.i]);
    StepKeepsSet(s, l, s');
    StepFillsBelow(s, l, s');
    hide Step, Move1;
    forall j | 0 <= j < |s'.procs| ensures ProcOk(s', s'.procs[j]) {
      assert ProcOk(s, s.procs[j]);
    }
  }

  lemma StepKeepsSet(s: State, l: Label, s': State)
    requires s.version.Some? && Step(s, l) == Some(s') && (l.i < |s.procs| ==> ProcOk(s, s.procs[l.i]))
    ensures s'.version.Some? && s'.version.value >= s.version.value
    ensures l.i < |s'.procs| && l.i < |s.procs| ==> ProcOk(s', s'.procs[l.i])
  {
  }

  lemma StepFillsBelow(s: State, l: Label, s': State)
    requires s.version.Some? && Step(s, l) == Some(s') && (l.i < |s.procs| ==> ProcOk(s, s.procs[l.i]))
    ensures forall k :: k in s'.pages && k !in s.pages ==> k.version <= s.version.value
  {
  }

  /** The page was computed from snapshot n or a later one. */
  ghost predicate From(s: State, n: nat, o: nat, l: nat, page: Page) {
    exists k :: n <= k < |s.history| && page == Page(s.history[k].events, o, l)
  }

  lemma FromLater(s: State, s': State, n: nat, o: nat, l: nat, page: Page)
    requires From(s, n, o, l, page) && s.history <= s'.history
    ensures From(s', n, o, l, page)
  {
    var k :| n <= k < |s.history| && page == Page(s.history[k].events, o, l);
    assert s'.history[k] == s.history[k];
  }

  lemma FromNow(s: State, n: nat, o: nat, l: nat)
    requires n < |s.history|
    ensures From(s, n, o, l, Page(Now(s).events, o, l))
  {
  }

  /** What readers at version v or later hold. */
  ghost predicate ReaderSince(s: State, v: nat, n: nat, p: Proc) {
    p.ListRead? && p.v >= v ==> From(s, n, p.offset, p.limit, p.page)
  }

  /** Every page of version v or later, stored or about to be stored, is from snapshot n or later. */
  ghost predicate PagesSince(s: State, v: nat, n: nat) {
    (forall k :: k in s.pages && k.version >= v ==> From(s, n, k.offset, k.limit, s.pages[k])) &&
    forall j :: 0 <= j < |s.procs| ==> ReaderSince(s, v, n, s.procs[j])
  }

  /** Some reader has found no version and not yet set it. */
  ghost predicate AnyUnset(s: State) {
    exists j :: 0 <= j < |s.procs| && s.procs[j].ListUnset?
  }

  /** No request that begins from now on works under a version below v. */
  ghost predicate AtLeast(s: State, v: nat) {
    (s.version.Some? ==> s.version.value >= v) && (v > 1 ==> s.version.Some? && !AnyUnset(s))
  }

  ghost predicate Since(s: State, v: nat, n: nat) {
    n < |s.history| && AtLeast(s, v) && PagesSince(s, v, n)
  }

  /** A bump opens a version nobody has used. */
  lemma BumpOpens(s: State, l: Label, s': State)
    requires Inv(s) && Step(s, l) == Some(s') && l.act.Move? && s.procs[l.i].MutDeleted?
    ensures s'.version.Some? && Since(s', s'.version.value, s.procs[l.i].n)
  {
    assert ProcOk(s, s.procs[l.i]);
    forall j | 0 <= j < |s'.procs| ensures ReaderSince(s', s'.version.value, s.procs[l.i].n, s'.procs[j]) && !s'.procs[j].ListUnset? {
      assert ProcOk(s, s.procs[j]);
    }
  }

  lemma StepKeepsVersion(s: State, l: Label, s': State, v: nat)
    requires Step(s, l) == Some(s') && AtLeast(s, v)
    ensures AtLeast(s', v)
  {
    StepGrows(s, l, s');
    if AnyUnset(s') {
      var j :| 0 <= j < |s'.procs| && s'.procs[j].ListUnset?;
      assert s.procs[j].ListUnset? || s.version.None?;
    }
    if l.i < |s.procs| { assert s.procs[l.i].ListUnset? ==> AnyUnset(s); }
  }

  lemma StepKeepsPages(s: State, l: Label, s': State, v: nat, n: nat)
    requires Step(s, l) == Some(s') && Since(s, v, n)
    ensures forall k :: k in s'.pages && k.version >= v ==> From(s', n, k.offset, k.limit, s'.pages[k])
  {
    StepGrows(s, l, s');
    forall k | k in s'.pages && k.version >= v ensures From(s', n, k.offset, k.limit, s'.pages[k]) {
      if k in s.pages && s'.pages[k] == s.pages[k] {
        FromLater(s, s', n, k.offset, k.limit, s.pages[k]);
      } else {
        assert ReaderSince(s, v, n, s.procs[l.i]);
        FromLater(s, s', n, k.offset, k.limit, s'.pages[k]);
      }
    }
  }

  lemma StepKeepsReaders(s: State, l: Label, s': State, v: nat, n: nat, j: nat)
    requires Step(s, l) == Some(s') && Since(s, v, n) && j < |s.procs| && |s'.procs| == |s.procs|
    ensures ReaderSince(s', v, n, s'.procs[j])
  {
    StepGrows(s, l, s');
    var p := s'.procs[j];
    if p.ListRead? && p.v >= v {
      if p == s.procs[j] {
        assert ReaderSince(s, v, n, s.procs[j]);
        FromLater(s, s', n, p.offset, p.limit, p.page);
      } else {
        FromNow(s', n, p.offset, p.limit);
      }
    }
  }

  lemma StepKeepsSince(s: State, l: Label, s': State, v: nat, n: nat)
    requires Step(s, l) == Some(s') && Since(s, v, n)
    ensures Since(s', v, n)
  {
    StepGrows(s, l, s');
    StepKeepsVersion(s, l, s', v);
    StepKeepsPages(s, l, s', v, n);
    forall j: nat | j < |s'.procs| ensures ReaderSince(s', v, n, s'.procs[j]) {
      StepKeepsReaders(s, l, s', v, n, j);
    }
  }

  lemma {:induction false} RunKeepsInv(states: seq<State>, labels: seq<Label>, k: nat)
    requires Run(states, labels) && Inv(states[0]) && k <= |labels|
    ensures Inv(states[k])
  {
    if k > 0 {
      RunKeepsInv(states, labels, k - 1);
      RunStep(states, labels, k - 1);
      StepKeepsInv(states[k - 1], labels[k - 1], states[k]);
    }
  }

  lemma {:induction false} RunKeepsSince(states: seq<State>, labels: seq<Label>, j: nat, k: nat, v: nat, n: nat)
    requires Run(states, labels) && j <= k <= |labels| && Since(states[j], v, n)
    ensures Since(states[k], v, n)
  {
    if k > j {
      RunKeepsSince(states, labels, j, k - 1, v, n);
      RunStep(states, labels, k - 1);
      StepKeepsSince(states[k - 1], labels[k - 1], states[k], v, n);
    }
  }

  /** Step j of the run is the bump of a mutator. */
  predicate Bumps(states: seq<State>, labels: seq<Label>, j: nat)
    requires |states| == |labels| + 1
  {
    j < |labels| && labels[j].act.Move? && labels[j].i < |states[j].procs| && states[j].procs[labels[j].i].MutDeleted?
  }

  lemma SinceBump(states: seq<State>, labels: seq<Label>, j: nat, k: nat)
    requires Run(states, labels) && Inv(states[0]) && j < k <= |labels| && Bumps(states, labels, j)
    ensures states[j + 1].version.Some? && Since(states[k], states[j + 1].version.value, states[j].procs[labels[j].i].n)
  {
    RunKeepsInv(states, labels, j);
    RunStep(states, labels, j);
    BumpOpens(states[j], labels[j], states[j + 1]);
    RunKeepsSince(states, labels, j + 1, k, states[j + 1].version.value, states[j].procs[labels[j].i].n);
  }

  /** What a get_all that began under version v or later holds at each of its steps. */
  ghost predicate ListSince(s: State, v: nat, n: nat, p: Proc) {
    match p
    case ListStart(_, _) => true
    case ListUnset(_, _) => v <= 1
    case ListVersioned(_, _, u) => u >= v
    case ListMissed(_, _, u) => u >= v
    case ListRead(_, _, u, _) => u >= v
    case ListDone(o, l, page) => From(s, n, o, l, page)
    case _ => false
  }

  lemma StepListSince(s: State, l: Label, s': State, v: nat, n: nat, i: nat)
    requires Step(s, l) == Some(s') && Since(s, v, n) && i < |s.procs| && ListSince(s, v, n, s.procs[i])
    requires l.i == i ==> !l.act.Begin? && !l.act.Die?
    ensures i < |s'.procs| && ListSince(s', v, n, s'.procs[i])
  {
    StepGrows(s, l, s');
    var p, p' := s.procs[i], s'.procs[i];
    if p' == p {
      if p.ListDone? { FromLater(s, s', n, p.offset, p.limit, p.page); }
    } else if p'.ListDone? {
      assert ReaderSince(s, v, n, p);
      FromLater(s, s', n, p'.offset, p'.limit, p'.page);
    }
  }

  lemma {:induction false} ListKeepsSince(states: seq<State>, labels: seq<Label>, j: nat, k: nat, m: nat, i: nat, v: nat, n: nat)
    requires Run(states, labels) && j <= k <= m <= |labels| && Since(states[j], v, n)
    requires i < |states[k].procs| && states[k].procs[i].ListStart? && OneRequest(labels, i, k, m)
    ensures i < |states[m].procs| && ListSince(states[m], v, n, states[m].procs[i])
  {
    if m > k {
      ListKeepsSince(states, labels, j, k, m - 1, i, v, n);
      RunKeepsSince(states, labels, j, m - 1, v, n);
      RunStep(states, labels, m - 1);
      StepListSince(states[m - 1], labels[m - 1], states[m], v, n, i);
    }
  }

  /** Versioned list freshness: in every run, a get_all that has not read the version when a mutator
      bumps it answers from a snapshot that includes the mutator's commit, whatever slow readers
      store and whenever pages expire. */
  lemma ListsAreFresh(states: seq<State>, labels: seq<Label>, j: nat, k: nat, m: nat, i: nat)
    requires Run(states, labels) && Inv(states[0]) && j < k <= m <= |labels| && Bumps(states, labels, j)
    requires i < |states[k].procs| && states[k].procs[i].ListStart? && OneRequest(labels, i, k, m)
    requires i < |states[m].procs| && states[m].procs[i].ListDone?
    ensures var p := states[m].procs[i];
      From(states[m], states[j].procs[labels[j].i].n, p.offset, p.limit, p.page)
  {
    SinceBump(states, labels, j, j + 1);
    ListKeepsSince(states, labels, j + 1, k, m, i, states[j + 1].version.value, states[j].procs[labels[j].i].n);
  }

  // ---------- exactly when lists are fresh ----------

  /** In every continuation, each get_all that starts from here on answers from snapshot n or later. */
  ghost predicate FreshLists(s: State, n: nat) {
    forall states: seq<State>, labels: seq<Label>, k: nat, i: nat ::
      Run(states, labels) && states[0] == s && k <= |labels| && i < |states[k].procs| && states[k].procs[i].ListStart?
      && OneRequest(labels, i, k, |labels|) && i < |states[|labels|].procs| && states[|labels|].procs[i].ListDone?
      ==> var p := states[|labels|].procs[i]; From(states[|labels|], n, p.offset, p.limit, p.page)
  }

  /** The lowest version that a get_all can still come to work under: a reader that has found no
      version, and waits to set it, takes it back to 1. */
  ghost function Floor(s: State): nat {
    if s.version.Some? && (s.version.value <= 1 || !AnyUnset(s)) then s.version.value else 1
  }

  lemma FreshStep(s: State, l: Label, s': State, n: nat)
    requires Step(s, l) == Some(s') && FreshLists(s, n)
    ensures FreshLists(s', n)
  {
    forall states: seq<State>, labels: seq<Label>, k: nat, i: nat |
      Run(states, labels) && states[0] == s' && k <= |labels| && i < |states[k].procs| && states[k].procs[i].ListStart?
      && OneRequest(labels, i, k, |labels|) && i < |states[|labels|].procs| && states[|labels|].procs[i].ListDone?
      ensures var p := states[|labels|].procs[i]; From(states[|labels|], n, p.offset, p.limit, p.page)
    {
      Preceded(s, l, states, labels, i, k);
      var states', labels' := [s] + states, [l] + labels;
      assert states'[k + 1] == states[k] && states'[|labels'|] == states[|labels|];
    }
  }

  /** A page that is served under the current version to a request that begins now. */
  lemma Served(s: State, i: nat, key: PageKey, n: nat)
    requires s.history != [] && i < |s.procs| && key in s.pages && s.version == Some(key.version) && FreshLists(s, n)
    ensures From(s, n, key.offset, key.limit, s.pages[key])
  {
    var s1 := s.Put(i, Idle);
    var s2 := s1.Put(i, ListStart(key.offset, key.limit));
    var s3 := s2.Put(i, ListVersioned(key.offset, key.limit, key.version));
    var s4 := s3.Put(i, ListDone(key.offset, key.limit, s.pages[key]));
    FreshStep(s, Label(i, Die), s1, n);
    assert Step(s1, Label(i, Begin(ListStart(key.offset, key.limit)))) == Some(s2);
    FreshStep(s1, Label(i, Begin(ListStart(key.offset, key.limit))), s2, n);
    var states, labels := [s2, s3, s4], [Label(i, Move), Label(i, Move)];
    assert Step(s2, labels[0]) == Some(s3) && Step(s3, labels[1]) == Some(s4);
    assert Run(states, labels) && states[0].procs[i].ListStart? && OneRequest(labels, i, 0, |labels|);
    assert states[|labels|].procs[i].ListDone?;
  }

  /** A mutator that changes nothing, at process i, from start to end. */
  lemma EmptyChange(s: State, i: nat, n: nat) returns (s': State)
    requires s.history != [] && n < |s.history| && i < |s.procs| && s.version.Some? && FreshLists(s, n)
    ensures FreshLists(s', n) && s'.pages == s.pages && s'.version == Some(s.version.value + 1) && |s'.procs| == |s.procs|
    ensures s'.history == s.history + [Now(s)]
  {
    var s1 := s.Put(i, Idle);
    var s2 := s1.Put(i, MutStart(0));
    var s3 := s2.(history := s.history + [Now(s)]).Put(i, MutCommitted(0, |s.history|));
    var s4 := s3.(details := s.details - {0}).Put(i, MutDeleted(0, |s.history|));
    s' := s4.(version := Some(s.version.value + 1)).Put(i, MutDone);
    FreshStep(s, Label(i, Die), s1, n);
    assert Step(s1, Label(i, Begin(MutStart(0)))) == Some(s2);
    FreshStep(s1, Label(i, Begin(MutStart(0))), s2, n);
    assert Step(s2, Label(i, Commit(Now(s)))) == Some(s3);
    FreshStep(s2, Label(i, Commit(Now(s))), s3, n);
    assert Step(s3, Label(i, Move)) == Some(s4);
    FreshStep(s3, Label(i, Move), s4, n);
    assert Step(s4, Label(i, Move)) == Some(s');
    FreshStep(s4, Label(i, Move), s', n);
  }

  /** A stored page is served sooner or later unless its version is below the current one. */
  lemma {:induction false} Reached(s: State, i: nat, key: PageKey, n: nat)
    requires n < |s.history| && i < |s.procs| && key in s.pages && s.version.Some? && s.version.value <= key.version && FreshLists(s, n)
    ensures From(s, n, key.offset, key.limit, s.pages[key])
    decreases key.version - s.version.value
  {
    if s.version.value == key.version {
      Served(s, i, key, n);
    } else {
      var s' := EmptyChange(s, i, n);
      Reached(s', i, key, n);
      var k :| n <= k < |s'.history| && s.pages[key] == Page(s'.history[k].events, key.offset, key.limit);
      assert s'.history[k] == s.history[if k < |s.history| then k else k - 1];
    }
  }

  /** The version comes down to its floor. */
  lemma Lowered(s: State, n: nat) returns (s': State)
    requires s.history != [] && s.procs != [] && FreshLists(s, n)
    ensures FreshLists(s', n) && s'.pages == s.pages && s'.history == s.history && s'.procs != [] && s'.version == Some(Floor(s))
  {
    if s.version == Some(Floor(s)) {
      s' := s;
    } else if AnyUnset(s) {
      var r :| 0 <= r < |s.procs| && s.procs[r].ListUnset?;
      s' := Move1(s, r).value;
      FreshStep(s, Label(r, Move), s', n);
    } else {
      var s1 := s.Put(0, Idle);
      var s2 := s1.Put(0, ListStart(0, 0));
      var s3 := s2.Put(0, ListUnset(0, 0));
      s' := s3.(version := Some(1)).Put(0, ListVersioned(0, 0, 1));
      FreshStep(s, Label(0, Die), s1, n);
      assert Step(s1, Label(0, Begin(ListStart(0, 0)))) == Some(s2);
      FreshStep(s1, Label(0, Begin(ListStart(0, 0))), s2, n);
      assert Step(s2, Label(0, Move)) == Some(s3);
      FreshStep(s2, Label(0, Move), s3, n);
      assert Step(s3, Label(0, Move)) == Some(s');
      FreshStep(s3, Label(0, Move), s', n);
    }
  }

  lemma StoredIsFresh(s: State, n: nat, key: PageKey)
    requires n < |s.history| && s.procs != [] && FreshLists(s, n) && key in s.pages && key.version >= Floor(s)
    ensures From(s, n, key.offset, key.limit, s.pages[key])
  {
    var s' := Lowered(s, n);
    Reached(s', 0, key, n);
  }

  lemma HeldIsFresh(s: State, n: nat, j: nat)
    requires n < |s.history| && j < |s.procs| && FreshLists(s, n)
    ensures ReaderSince(s, Floor(s), n, s.procs[j])
  {
    var p := s.procs[j];
    if p.ListRead? && p.v >= Floor(s) {
      var s' := Move1(s, j).value;
      FreshStep(s, Label(j, Move), s', n);
      if AnyUnset(s) {
        var r :| 0 <= r < |s.procs| && s.procs[r].ListUnset?;
        assert s'.procs[r].ListUnset?;
      }
      StoredIsFresh(s', n, PageKey(p.v, p.offset, p.limit));
    }
  }

  /** From any state whatever, all later list reads include commit n if and only if every page stored or
      held under the floor or a later version does. With the version set and no reader about to set it
      the floor is the version itself; a reader between its GET and its SET takes it down to 1. */
  lemma ListsFreshExactly(s: State, n: nat)
    requires n < |s.history| && s.procs != []
    ensures FreshLists(s, n) <==> PagesSince(s, Floor(s), n)
  {
    if FreshLists(s, n) {
      forall k | k in s.pages && k.version >= Floor(s) ensures From(s, n, k.offset, k.limit, s.pages[k]) { StoredIsFresh(s, n, k); }
      forall j | 0 <= j < |s.procs| ensures ReaderSince(s, Floor(s), n, s.procs[j]) { HeldIsFresh(s, n, j); }
    }
    if PagesSince(s, Floor(s), n) {
      forall states: seq<State>, labels: seq<Label>, k: nat, i: nat |
        Run(states, labels) && states[0] == s && k <= |labels| && i < |states[k].procs| && states[k].procs[i].ListStart?
        && OneRequest(labels, i, k, |labels|) && i < |states[|labels|].procs| && states[|labels|].procs[i].ListDone?
        ensures var p := states[|labels|].procs[i]; From(states[|labels|], n, p.offset, p.limit, p.page)
      {
        ListKeepsSince(states, labels, 0, k, |labels|, i, Floor(s), n);
      }
    }
  }

  /** The start of the service: no version, nothing cached; two list reads and a change to come. */
  function Unversioned(before: Db, o: nat, l: nat): State {
    State([before], None, map[], map[], [ListStart(o, l), ListStart(o, l), MutStart(0)])
  }

  lemma Followed(states: seq<State>, labels: seq<Label>, l: Label, s': State)
    requires Run(states, labels) && Step(states[|labels|], l) == Some(s')
    ensures Run(states + [s'], labels + [l])
  {
    var states', labels' := states + [s'], labels + [l];
    forall m {:trigger labels'[m]} | 0 <= m < |labels'| ensures Step(states'[m], labels'[m]) == Some(states'[m + 1]) {
      if m < |labels| { RunStep(states, labels, m); }
    }
  }

  /** The first read waits to set the version; the second has set it and stored its page. */
  lemma ReadersRace(before: Db, o: nat, l: nat) returns (states: seq<State>, labels: seq<Label>)
    ensures Run(states, labels) && states[0] == Unversioned(before, o, l)
    ensures var s, page := states[|labels|], Page(before.events, o, l);
      s == State([before], Some(1), map[PageKey(1, o, l) := page], map[], s.procs) && |s.procs| == 3 &&
      s.procs[0].ListUnset? && s.procs[2] == MutStart(0)
  {
    var page, s0 := Page(before.events, o, l), Unversioned(before, o, l);
    var s1 := s0.Put(0, ListUnset(o, l));
    var s2 := s1.Put(1, ListUnset(o, l));
    var s3 := s2.(version := Some(1)).Put(1, ListVersioned(o, l, 1));
    var s4 := s3.Put(1, ListMissed(o, l, 1));
    var s5 := s4.Put(1, ListRead(o, l, 1, page));
    var s6 := s5.(pages := s5.pages[PageKey(1, o, l) := page]).Put(1, ListDone(o, l, page));
    states := [s0, s1, s2, s3, s4, s5, s6];
    labels := [Label(0, Move), Label(1, Move), Label(1, Move), Label(1, Move), Label(1, Move), Label(1, Move)];
    assert Step(s0, labels[0]) == Some(s1) && Step(s1, labels[1]) == Some(s2) && Step(s2, labels[2]) == Some(s3);
    assert Step(s3, labels[3]) == Some(s4) && Step(s4, labels[4]) == Some(s5) && Step(s5, labels[5]) == Some(s6);
  }

  /** Then a change commits and bumps. */
  lemma RaceHappens(before: Db, after: Db, o: nat, l: nat) returns (states: seq<State>, labels: seq<Label>)
    ensures Run(states, labels) && states[0] == Unversioned(before, o, l)
    ensures var s := states[|labels|];
      s.history == [before, after] && s.version == Some(2) && |s.procs| == 3 && s.procs[0].ListUnset? && s.procs[2] == MutDone &&
      PageKey(1, o, l) in s.pages && s.pages[PageKey(1, o, l)] == Page(before.events, o, l)
  {
    states, labels := ReadersRace(before, o, l);
    hide Run;
    var s6 := states[|labels|];
    var s7 := s6.(history := s6.history + [after]).Put(2, MutCommitted(0, 1));
    var s8 := s7.(details := s7.details - {0}).Put(2, MutDeleted(0, 1));
    var s9 := s8.(version := Some(2)).Put(2, MutDone);
    Followed(states, labels, Label(2, Commit(after)), s7);
    states, labels := states + [s7], labels + [Label(2, Commit(after))];
    Followed(states, labels, Label(2, Move), s8);
    states, labels := states + [s8], labels + [Label(2, Move)];
    Followed(states, labels, Label(2, Move), s9);
    states, labels := states + [s9], labels + [Label(2, Move)];
  }

  /** The version is first set by a GET and a SET. Two readers both find none, and a mutator bumps between
      their SETs: its bump is undone, and a page from before its commit is served after it. */
  lemma BumpIsLost(before: Db, after: Db, o: nat, l: nat) returns (states: seq<State>, labels: seq<Label>)
    requires before.events != after.events
    ensures Run(states, labels) && states[0] == Unversioned(before, o, l)
    ensures var s := states[|labels|];
      s.history == [before, after] && |s.procs| == 3 && s.procs[2] == MutDone && !FreshLists(s, 1)
  {
    states, labels := RaceHappens(before, after, o, l);
    var s := states[|labels|];
    hide Run;
    ListsFreshExactly(s, 1);
    assert AnyUnset(s) && Floor(s) == 1 && !From(s, 1, o, l, s.pages[PageKey(1, o, l)]);
  }

  // ---------- detail entries ----------

  ghost predicate AttrsFrom(s: State, n: nat, e: nat, attrs: map<string, string>) {
    exists k :: n <= k < |s.history| && e in s.history[k].events && attrs == s.history[k].events[e].attrs
  }

  ghost predicate ViewsFrom(s: State, n: nat, e: nat, views: map<nat, TypeView>) {
    exists k :: n <= k < |s.history| && views == ViewsOf(s.history[k], e)
  }

  /** The two halves of the detail were each read from snapshot n or a later one. */
  ghost predicate DetailFrom(s: State, n: nat, e: nat, d: Detail) {
    AttrsFrom(s, n, e, d.attrs) && ViewsFrom(s, n, e, d.types)
  }

  lemma AttrsFromLater(s: State, s': State, n: nat, e: nat, attrs: map<string, string>)
    requires AttrsFrom(s, n, e, attrs) && s.history <= s'.history
    ensures AttrsFrom(s', n, e, attrs)
  {
    var k :| n <= k < |s.history| && e in s.history[k].events && attrs == s.history[k].events[e].attrs;
    assert s'.history[k] == s.history[k];
  }

  lemma DetailFromLater(s: State, s': State, n: nat, e: nat, d: Detail)
    requires DetailFrom(s, n, e, d) && s.history <= s'.history
    ensures DetailFrom(s', n, e, d)
  {
    AttrsFromLater(s, s', n, e, d.attrs);
    var k :| n <= k < |s.history| && d.types == ViewsOf(s.history[k], e);
    assert s'.history[k] == s.history[k];
  }

  /** A reader of event e with attributes or a detail in hand that are older than snapshot n. */
  ghost predicate HoldsOld(s: State, n: nat, e: nat, p: Proc) {
    (p.GetAttrs? && p.e == e && !AttrsFrom(s, n, e, p.attrs)) || (p.GetRead? && p.e == e && !DetailFrom(s, n, e, p.detail))
  }

  ghost predicate NoOldFill(s: State, n: nat, e: nat) {
    forall j :: 0 <= j < |s.procs| ==> !HoldsOld(s, n, e, s.procs[j])
  }

  ghost predicate DetailSince(s: State, n: nat, e: nat) {
    n < |s.history| && NoOldFill(s, n, e) && (e in s.details ==> DetailFrom(s, n, e, s.details[e]))
  }

  /** What a reader reads now. */
  lemma ReadNow(s: State, s': State, n: nat, e: nat, p: Proc, p': Proc)
    requires n < |s.history| && s'.history == s.history && !HoldsOld(s, n, e, p)
    requires (p == GetMissed(e) && e in Now(s).events && p' == GetAttrs(e, Now(s).events[e].attrs))
      || (p.GetAttrs? && p.e == e && p' == GetRead(e, Detail(p.attrs, ViewsOf(Now(s), e))))
    ensures !HoldsOld(s', n, e, p')
  {
    var now := |s.history| - 1;
    assert s'.history[now] == Now(s);
    if p.GetAttrs? { AttrsFromLater(s, s', n, e, p.attrs); }
  }

  lemma StepKeepsFill(s: State, l: Label, s': State, n: nat, e: nat, j: nat)
    requires Step(s, l) == Some(s') && DetailSince(s, n, e) && j < |s.procs| && |s'.procs| == |s.procs|
    ensures !HoldsOld(s', n, e, s'.procs[j])
  {
    StepGrows(s, l, s');
    var p, p' := s.procs[j], s'.procs[j];
    assert !HoldsOld(s, n, e, p);
    if p' == p {
      if p.GetAttrs? && p.e == e { AttrsFromLater(s, s', n, e, p.attrs); }
      if p.GetRead? && p.e == e { DetailFromLater(s, s', n, e, p.detail); }
    } else if (p'.GetAttrs? || p'.GetRead?) && p'.e == e {
      ReadNow(s, s', n, e, p, p');
    }
  }

  lemma StepKeepsDetail(s: State, l: Label, s': State, n: nat, e: nat)
    requires Step(s, l) == Some(s') && DetailSince(s, n, e)
    ensures DetailSince(s', n, e)
  {
    StepGrows(s, l, s');
    forall j: nat | j < |s'.procs| ensures !HoldsOld(s', n, e, s'.procs[j]) { StepKeepsFill(s, l, s', n, e, j); }
    if e in s'.details {
      if e in s.details && s'.details[e] == s.details[e] {
        DetailFromLater(s, s', n, e, s.details[e]);
      } else {
        assert !HoldsOld(s, n, e, s.procs[l.i]);
        DetailFromLater(s, s', n, e, s'.details[e]);
      }
    }
  }

  ghost predicate GetSince(s: State, n: nat, e: nat, p: Proc) {
    match p
    case GetStart(x) => x == e
    case GetMissed(x) => x == e
    case GetAttrs(x, _) => x == e
    case GetRead(x, _) => x == e
    case GetDone(x, d) => x == e && DetailFrom(s, n, e, d)
    case GetAbsent(x) => x == e
    case _ => false
  }

  lemma StepGetSince(s: State, l: Label, s': State, n: nat, e: nat, i: nat)
    requires Step(s, l) == Some(s') && DetailSince(s, n, e) && i < |s.procs| && GetSince(s, n, e, s.procs[i])
    requires l.i == i ==> !l.act.Begin? && !l.act.Die?
    ensures i < |s'.procs| && GetSince(s', n, e, s'.procs[i])
  {
    StepGrows(s, l, s');
    var p, p' := s.procs[i], s'.procs[i];
    if p'.GetDone? {
      if p.GetDone? {
        DetailFromLater(s, s', n, e, p.detail);
      } else {
        assert !HoldsOld(s, n, e, p);
        DetailFromLater(s, s', n, e, p'.detail);
      }
    }
  }

  lemma {:induction false} RunKeepsDetail(states: seq<State>, labels: seq<Label>, n: nat, e: nat, m: nat)
    requires Run(states, labels) && DetailSince(states[0], n, e) && m <= |labels|
    ensures DetailSince(states[m], n, e)
  {
    if m > 0 {
      RunKeepsDetail(states, labels, n, e, m - 1);
      RunStep(states, labels, m - 1);
      StepKeepsDetail(states[m - 1], labels[m - 1], states[m], n, e);
    }
  }

  lemma {:induction false} GetKeepsSince(states: seq<State>, labels: seq<Label>, n: nat, e: nat, k: nat, m: nat, i: nat)
    requires Run(states, labels) && DetailSince(states[0], n, e) && k <= m <= |labels|
    requires i < |states[k].procs| && states[k].procs[i] == GetStart(e) && OneRequest(labels, i, k, m)
    ensures i < |states[m].procs| && GetSince(states[m], n, e, states[m].procs[i])
  {
    if m > k {
      GetKeepsSince(states, labels, n, e, k, m - 1, i);
      RunKeepsDetail(states, labels, n, e, m - 1);
      RunStep(states, labels, m - 1);
      StepGetSince(states[m - 1], labels[m - 1], states[m], n, e, i);
    }
  }

  /** In every continuation, each get of event e that starts from here on answers from snapshot n or later. */
  ghost predicate FreshGets(s: State, n: nat, e: nat) {
    forall states: seq<State>, labels: seq<Label>, k: nat, i: nat ::
      Run(states, labels) && states[0] == s && k <= |labels| && i < |states[k].procs| && states[k].procs[i] == GetStart(e)
      && OneRequest(labels, i, k, |labels|) && i < |states[|labels|].procs| && states[|labels|].procs[i].GetDone?
      ==> DetailFrom(states[|labels|], n, e, states[|labels|].procs[i].detail)
  }

  lemma FreshGetsStep(s: State, l: Label, s': State, n: nat, e: nat)
    requires Step(s, l) == Some(s') && FreshGets(s, n, e)
    ensures FreshGets(s', n, e)
  {
    forall states: seq<State>, labels: seq<Label>, k: nat, i: nat |
      Run(states, labels) && states[0] == s' && k <= |labels| && i < |states[k].procs| && states[k].procs[i] == GetStart(e)
      && OneRequest(labels, i, k, |labels|) && i < |states[|labels|].procs| && states[|labels|].procs[i].GetDone?
      ensures DetailFrom(states[|labels|], n, e, states[|labels|].procs[i].detail)
    {
      Preceded(s, l, states, labels, i, k);
      var states', labels' := [s] + states, [l] + labels;
      assert states'[k + 1] == states[k] && states'[|labels'|] == states[|labels|];
    }
  }

  lemma OldFillShows(s: State, n: nat, e: nat, r: nat)
    requires s.history != [] && r < |s.procs| && HoldsOld(s, n, e, s.procs[r])
    ensures !FreshGets(s, n, e)
    decreases Left(s.procs[r])
  {
    if FreshGets(s, n, e) {
      var s1 := Move1(s, r).value;
      FreshGetsStep(s, Label(r, Move), s1, n, e);
      if s.procs[r].GetAttrs? {
        OldFillShows(s1, n, e, r);
      } else {
        OldEntryShows(s1, n, e, r);
      }
    }
  }

  lemma OldEntryShows(s: State, n: nat, e: nat, r: nat)
    requires s.history != [] && r < |s.procs| && Over(s.procs[r]) && e in s.details && !DetailFrom(s, n, e, s.details[e])
    ensures !FreshGets(s, n, e)
  {
    var d := s.details[e];
    var s1 := s.Put(r, GetStart(e));
    var states := [s, s1, s1.Put(r, GetDone(e, d))];
    var labels := [Label(r, Begin(GetStart(e))), Label(r, Move)];
    assert Step(s, labels[0]) == Some(states[1]) && Step(states[1], labels[1]) == Some(states[2]);
    assert Run(states, labels) && states[1].procs[r] == GetStart(e) && OneRequest(labels, r, 1, |labels|);
    assert states[|labels|].procs[r] == GetDone(e, d);
    assert !DetailFrom(states[2], n, e, d);
  }

  /** Detail entries are weaker than pages. Right after a mutator with commit n has deleted the entry
      of e, all later gets are fresh exactly when no reader in flight holds attributes or a detail of e
      that are older: such a reader still stores them, and they are served until they expire. */
  lemma DetailsFreshExactly(s: State, n: nat, e: nat)
    requires n < |s.history| && e !in s.details
    ensures FreshGets(s, n, e) <==> NoOldFill(s, n, e)
  {
    if NoOldFill(s, n, e) {
      forall states: seq<State>, labels: seq<Label>, k: nat, i: nat |
        Run(states, labels) && states[0] == s && k <= |labels| && i < |states[k].procs| && states[k].procs[i] == GetStart(e)
        && OneRequest(labels, i, k, |labels|) && i < |states[|labels|].procs| && states[|labels|].procs[i].GetDone?
        ensures DetailFrom(states[|labels|], n, e, states[|labels|].procs[i].detail)
      {
        GetKeepsSince(states, labels, n, e, k, |labels|, i);
      }
    } else {
      var r :| 0 <= r < |s.procs| && HoldsOld(s, n, e, s.procs[r]);
      OldFillShows(s, n, e, r);
    }
  }
}
