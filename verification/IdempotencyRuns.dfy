/** Concurrent callers of the idempotency lock, one Redis command at a time, with records that expire.
    The name of a record and the hash of a payload are functions of the request. */
module IdempotencyRuns {
  import opened Stores
  import opened Idempotency
  import RedisKeys

  datatype Request = Request(userId: nat, action: string, key: string, payload: Option<map<string, string>>)

  datatype Config = Config(ttl: nat, name: Request -> string, hash: Request -> string)

  datatype Proc =
    | Idle
    | Ready(req: Request)
    | Blocked(req: Request)
      // the endpoint runs under a lock taken at time `since`, or without one after a saved null response
    | Running(req: Request, since: int)
    | Unguarded(req: Request)
      // over: answered by its own execution, by a saved response, or refused; or failed
    | Answered(req: Request, own: Option<string>)
    | Replayed(req: Request, saved: string)
    | Refusal(req: Request, why: Check)
    | Failed(req: Request)

  datatype Action = Tick | Arrive(req: Request) | SetNx | Get | Save(response: Option<string>) | Unlock | Die

  datatype Label = Label(i: nat, act: Action)

  datatype State = State(now: int, records: Records, procs: seq<Proc>)
  {
    function Move(i: nat, p: Proc): State
      requires i < |procs|
    {
      this.(procs := procs[i := p])
    }
  }

  predicate Over(p: Proc) {
    p.Idle? || p.Answered? || p.Replayed? || p.Refusal? || p.Failed?
  }

  predicate Executing(p: Proc) {
    p.Running? || p.Unguarded?
  }

  function CommandStep(c: Config, s: State, i: nat, a: Action): Option<State>
    requires i < |s.procs|
  {
    var p := s.procs[i];
    if p.Ready? && a.SetNx? then
      if Present(s.records, s.now, c.name(p.req)) then Some(s.Move(i, Blocked(p.req)))
      else Some(s.(records := Put(s.records, s.now, c.ttl, c.name(p.req), Record(InProgress, c.hash(p.req))))
                 .Move(i, Running(p.req, s.now)))
    else if p.Blocked? && a.Get? then
      var check := Inspect(s.records, s.now, c.name(p.req), c.hash(p.req));
      Some(s.Move(i, if !check.Replay? then Refusal(p.req, check)
                     else if check.response.Some? then Replayed(p.req, check.response.value)
                     else Unguarded(p.req)))
    else if Executing(p) && a.Save? then
      Some(s.(records := Put(s.records, s.now, c.ttl, c.name(p.req), Record(Completed(a.response), c.hash(p.req))))
            .Move(i, Answered(p.req, a.response)))
    else if Executing(p) && a.Unlock? then
      Some(s.(records := s.records - {c.name(p.req)}).Move(i, Failed(p.req)))
    else None
  }

  function Step(c: Config, s: State, l: Label): Option<State> {
    if l.act.Tick? then Some(s.(now := s.now + 1))
    else if l.i >= |s.procs| then None
    else if l.act.Arrive? then
      if Over(s.procs[l.i]) then Some(s.Move(l.i, Ready(l.act.req))) else None
    else if l.act.Die? then
      if Over(s.procs[l.i]) then None else Some(s.Move(l.i, Idle))
    else CommandStep(c, s, l.i, l.act)
  }

  ghost predicate Run(c: Config, states: seq<State>, labels: seq<Label>) {
    |states| == |labels| + 1 &&
    forall k {:trigger labels[k]} :: 0 <= k < |labels| ==> Step(c, states[k], labels[k]) == Some(states[k + 1])
  }

  // ---------- exclusion ----------

  /** Every execution under a lock ends before its lock expires: a lasting one is still in time. */
  ghost predicate Prompt(c: Config, s: State) {
    forall j :: 0 <= j < |s.procs| && s.procs[j].Running? ==> s.now < s.procs[j].since + c.ttl
  }

  /** Endpoints never answer null. */
  predicate NonNull(l: Label) {
    l.act.Save? ==> l.act.response.Some?
  }

  /** An execution owns the record of its name, in progress, with its own hash. */
  predicate Owns(c: Config, s: State, p: Proc) {
    !p.Unguarded? &&
    (p.Running? ==>
      c.name(p.req) in s.records &&
      s.records[c.name(p.req)] == Stored(Json(Record(InProgress, c.hash(p.req))), p.since + c.ttl))
  }

  ghost predicate OwnAll(c: Config, s: State) {
    forall j :: 0 <= j < |s.procs| ==> Owns(c, s, s.procs[j])
  }

  ghost predicate OnePerName(c: Config, s: State) {
    forall i, j :: (0 <= i < |s.procs| && 0 <= j < |s.procs| && Executing(s.procs[i]) && Executing(s.procs[j])
                    && c.name(s.procs[i].req) == c.name(s.procs[j].req)) ==> i == j
  }

  predicate NotNullRecord(x: Stored) {
    x.value.Json? && x.value.record.status.Completed? ==> x.value.record.status.response.Some?
  }

  ghost predicate NoNullRecords(s: State) {
    forall k :: k in s.records ==> NotNullRecord(s.records[k])
  }

  ghost predicate Exclusive(c: Config, s: State) {
    OwnAll(c, s) && OnePerName(c, s) && NoNullRecords(s)
  }

  /** Nobody else executes under the name of a process that may take or free it. */
  lemma OthersKeepOwning(c: Config, s: State, s': State, i: nat, name: string)
    requires OwnAll(c, s) && i < |s.procs| && |s'.procs| == |s.procs|
    requires forall j :: 0 <= j < |s.procs| && j != i ==> s'.procs[j] == s.procs[j]
    requires forall k :: k != name && k in s.records ==> k in s'.records && s'.records[k] == s.records[k]
    requires forall j :: 0 <= j < |s.procs| && j != i && s.procs[j].Running? ==> c.name(s.procs[j].req) != name
    requires Owns(c, s', s'.procs[i])
    ensures OwnAll(c, s')
  {
    forall j | 0 <= j < |s'.procs| ensures Owns(c, s', s'.procs[j]) {
      if j != i { assert Owns(c, s, s.procs[j]); }
    }
  }

  lemma SetNxExclusive(c: Config, s: State, i: nat, s': State)
    requires Exclusive(c, s) && Prompt(c, s) && i < |s.procs| && s.procs[i].Ready? && CommandStep(c, s, i, SetNx) == Some(s')
    ensures Exclusive(c, s')
  {
    var name := c.name(s.procs[i].req);
    forall j | 0 <= j < |s.procs| && s.procs[j].Running? && c.name(s.procs[j].req) == name
      ensures Present(s.records, s.now, name)
    {
      assert Owns(c, s, s.procs[j]);
    }
    assert forall j :: 0 <= j < |s.procs| ==> Owns(c, s, s.procs[j]);
    if !Present(s.records, s.now, name) {
      OthersKeepOwning(c, s, s', i, name);
    } else {
      forall j | 0 <= j < |s'.procs| ensures Owns(c, s', s'.procs[j]) { assert j != i ==> Owns(c, s, s.procs[j]); }
    }
  }

  lemma EndExclusive(c: Config, s: State, i: nat, a: Action, s': State)
    requires Exclusive(c, s) && i < |s.procs| && Executing(s.procs[i]) && CommandStep(c, s, i, a) == Some(s')
    requires NonNull(Label(i, a))
    ensures Exclusive(c, s')
  {
    assert forall j :: 0 <= j < |s.procs| ==> Owns(c, s, s.procs[j]);
    OthersKeepOwning(c, s, s', i, c.name(s.procs[i].req));
  }

  lemma StepExclusive(c: Config, s: State, l: Label, s': State)
    requires Exclusive(c, s) && Prompt(c, s) && NonNull(l) && Step(c, s, l) == Some(s')
    ensures Exclusive(c, s')
  {
    if !l.act.Tick? && l.i < |s.procs| {
      if Executing(s.procs[l.i]) && !l.act.Die? && !l.act.Arrive? {
        EndExclusive(c, s, l.i, l.act, s');
      } else if s.procs[l.i].Ready? && l.act.SetNx? {
        SetNxExclusive(c, s, l.i, s');
      } else {
        assert s'.records == s.records && !s'.procs[l.i].Running?;
        assert Owns(c, s', s'.procs[l.i]);
        forall j | 0 <= j < |s'.procs| ensures Owns(c, s', s'.procs[j]) { assert j != l.i ==> Owns(c, s, s.procs[j]); }
      }
    } else {
      forall j | 0 <= j < |s'.procs| ensures Owns(c, s', s'.procs[j]) { assert Owns(c, s, s.procs[j]); }
    }
  }

  /** Nobody executes at the start, and no null response is stored. */
  ghost predicate Opening(s: State) {
    NoNullRecords(s) && forall j :: 0 <= j < |s.procs| ==> !Executing(s.procs[j])
  }

  ghost predicate InTime(c: Config, states: seq<State>, labels: seq<Label>, k: nat)
    requires |states| == |labels| + 1 && k <= |labels|
  {
    (forall x :: 0 <= x < k ==> Prompt(c, states[x])) && (forall x :: 0 <= x < k ==> NonNull(labels[x]))
  }

  /** Exclusion: while every execution saves or unlocks before its lock expires, at most one execution
      of a name is active, and it owns an IN_PROGRESS record with the hash of its own payload. */
  lemma {:induction false} ExclusionHolds(c: Config, states: seq<State>, labels: seq<Label>, k: nat)
    requires Run(c, states, labels) && Opening(states[0]) && k <= |labels| && InTime(c, states, labels, k)
    ensures Exclusive(c, states[k])
  {
    if k > 0 {
      ExclusionHolds(c, states, labels, k - 1);
      assert Step(c, states[k - 1], labels[k - 1]) == Some(states[k - 1 + 1]);
      assert Prompt(c, states[k - 1]) && NonNull(labels[k - 1]);
      StepExclusive(c, states[k - 1], labels[k - 1], states[k]);
    }
  }

  // ---------- after a save ----------

  /** The saved record of a name stands until `until`, and nobody executes under the name. */
  ghost predicate Kept(c: Config, s: State, name: string, x: Stored) {
    name in s.records && s.records[name] == x &&
    forall j :: 0 <= j < |s.procs| && Executing(s.procs[j]) ==> c.name(s.procs[j].req) != name
  }

  lemma SaveKeeps(c: Config, s: State, i: nat, response: Option<string>, s': State)
    requires Exclusive(c, s) && i < |s.procs| && Executing(s.procs[i]) && CommandStep(c, s, i, Save(response)) == Some(s')
    ensures var req := s.procs[i].req;
      Kept(c, s', c.name(req), Stored(Json(Record(Completed(response), c.hash(req))), s.now + c.ttl))
  {
  }

  lemma StepKeeps(c: Config, s: State, l: Label, s': State, name: string, x: Stored)
    requires Kept(c, s, name, x) && NotNullRecord(x) && s.now < x.expiresAt && Step(c, s, l) == Some(s')
    ensures Kept(c, s', name, x)
  {
    if l.act.SetNx? && l.i < |s.procs| && s.procs[l.i].Ready? && c.name(s.procs[l.i].req) == name {
      assert Present(s.records, s.now, name);
    }
  }

  lemma {:induction false} SavedStands(c: Config, states: seq<State>, labels: seq<Label>, a: nat, b: nat)
    requires Run(c, states, labels) && Opening(states[0]) && a < b <= |labels| && InTime(c, states, labels, a + 1)
    requires labels[a].act.Save? && labels[a].i < |states[a].procs|
    requires forall k :: a < k < b ==> states[k].now < states[a].now + c.ttl
    ensures Executing(states[a].procs[labels[a].i])
    ensures var req := states[a].procs[labels[a].i].req;
      Kept(c, states[b], c.name(req), Stored(Json(Record(Completed(labels[a].act.response), c.hash(req))), states[a].now + c.ttl))
  {
    assert Step(c, states[b - 1], labels[b - 1]) == Some(states[b - 1 + 1]);
    if b == a + 1 {
      ExclusionHolds(c, states, labels, a);
      SaveKeeps(c, states[a], labels[a].i, labels[a].act.response, states[b]);
    } else {
      SavedStands(c, states, labels, a, b - 1);
      assert NonNull(labels[a]);
      var req := states[a].procs[labels[a].i].req;
      StepKeeps(c, states[b - 1], labels[b - 1], states[b], c.name(req),
                Stored(Json(Record(Completed(labels[a].act.response), c.hash(req))), states[a].now + c.ttl));
    }
  }

  /** After a save no execution of the same name starts until the saved record expires. */
  lemma NoRerunAfterSave(c: Config, states: seq<State>, labels: seq<Label>, a: nat, b: nat, i: nat)
    requires Run(c, states, labels) && Opening(states[0]) && a < b <= |labels| && InTime(c, states, labels, a + 1)
    requires labels[a].act.Save? && labels[a].i < |states[a].procs|
    requires i < |states[b].procs| && Executing(states[b].procs[i]) && Executing(states[a].procs[labels[a].i])
    requires c.name(states[b].procs[i].req) == c.name(states[a].procs[labels[a].i].req)
    ensures exists k :: a < k < b && states[k].now >= states[a].now + c.ttl
  {
    if forall k :: a < k < b ==> states[k].now < states[a].now + c.ttl {
      SavedStands(c, states, labels, a, b);
    }
  }

  /** Promptness is needed: an execution that outlives its lock is joined by a second one. */
  lemma LateExecutionIsJoined(c: Config, s: State, i: nat, j: nat) returns (states: seq<State>, labels: seq<Label>)
    requires Exclusive(c, s) && i < |s.procs| && s.procs[i].Running? && s.now >= s.procs[i].since + c.ttl
    requires j < |s.procs| && j != i && Over(s.procs[j])
    ensures Run(c, states, labels) && states[0] == s && !OnePerName(c, states[|labels|])
  {
    var req := s.procs[i].req;
    assert Owns(c, s, s.procs[i]);
    var s1 := s.Move(j, Ready(req));
    var s2 := s1.(records := Put(s.records, s.now, c.ttl, c.name(req), Record(InProgress, c.hash(req)))).Move(j, Running(req, s.now));
    states := [s, s1, s2];
    labels := [Label(j, Arrive(req)), Label(j, SetNx)];
    assert Step(c, s, labels[0]) == Some(s1) && Step(c, s1, labels[1]) == Some(s2);
    assert Executing(s2.procs[i]) && Executing(s2.procs[j]);
  }

  // ---------- replay ----------

  /** The response was saved earlier, by an execution with this record name and this hash. */
  ghost predicate SavedBefore(c: Config, states: seq<State>, labels: seq<Label>, k: nat, name: string, hash: string, response: string)
    requires |states| == |labels| + 1 && k <= |labels|
  {
    exists j :: 0 <= j < k && SavesAt(c, states[j], labels[j], name, hash, response)
  }

  predicate SavesAt(c: Config, s: State, l: Label, name: string, hash: string, response: string) {
    l.act == Save(Some(response)) && l.i < |s.procs| && Executing(s.procs[l.i]) &&
    c.name(s.procs[l.i].req) == name && c.hash(s.procs[l.i].req) == hash
  }

  /** The text of a stored record that a replay would answer with. */
  predicate Offers(r: Records, name: string, hash: string, response: string) {
    name in r && r[name].value == Json(Record(Completed(Some(response)), hash))
  }

  lemma OfferedIsSaved(c: Config, s: State, l: Label, s': State, name: string, hash: string, response: string)
    requires Step(c, s, l) == Some(s') && Offers(s'.records, name, hash, response)
    ensures Offers(s.records, name, hash, response) || SavesAt(c, s, l, name, hash, response)
  {
  }

  lemma {:induction false} OffersWereSaved(c: Config, states: seq<State>, labels: seq<Label>, k: nat, name: string, hash: string, response: string)
    requires Run(c, states, labels) && states[0].records == map[] && k <= |labels|
    requires Offers(states[k].records, name, hash, response)
    ensures SavedBefore(c, states, labels, k, name, hash, response)
  {
    if k > 0 {
      assert Step(c, states[k - 1], labels[k - 1]) == Some(states[k - 1 + 1]);
      OfferedIsSaved(c, states[k - 1], labels[k - 1], states[k], name, hash, response);
      if Offers(states[k - 1].records, name, hash, response) {
        OffersWereSaved(c, states, labels, k - 1, name, hash, response);
      }
    }
  }

  lemma {:induction false} ReplayedWasSaved(c: Config, states: seq<State>, labels: seq<Label>, k: nat, i: nat)
    requires Run(c, states, labels) && states[0].records == map[] && k <= |labels|
    requires i < |states[k].procs| && states[k].procs[i].Replayed?
    requires forall j :: 0 <= j < |states[0].procs| ==> states[0].procs[j] == Idle
    ensures var p := states[k].procs[i];
      SavedBefore(c, states, labels, k, c.name(p.req), c.hash(p.req), p.saved)
  {
    if k > 0 {
      var s, p := states[k - 1], states[k].procs[i];
      assert Step(c, s, labels[k - 1]) == Some(states[k - 1 + 1]);
      if s.procs[i] == p {
        ReplayedWasSaved(c, states, labels, k - 1, i);
      } else {
        assert Offers(s.records, c.name(p.req), c.hash(p.req), p.saved);
        OffersWereSaved(c, states, labels, k - 1, c.name(p.req), c.hash(p.req), p.saved);
      }
    }
  }

  // ---------- a call by itself ----------

  function AnswerOf(p: Proc): Answer {
    match p
    case Answered(_, own) => Fresh(own)
    case Replayed(_, saved) => Saved(saved)
    case Refusal(_, why) => Refused(why)
    case _ => Raised
  }

  function EndAct(run: Endpoint): Action {
    if run.Raises? then Unlock else Save(run.response)
  }

  /** The commands of one caller while nobody else moves and no time passes. */
  function CallActs(c: Config, s: State, req: Request, run: Endpoint): seq<Action> {
    var check := Inspect(s.records, s.now, c.name(req), c.hash(req));
    if !Present(s.records, s.now, c.name(req)) then [Arrive(req), SetNx, EndAct(run)]
    else if check.Replay? && check.response == None then [Arrive(req), SetNx, Get, EndAct(run)]
    else [Arrive(req), SetNx, Get]
  }

  function Exec(c: Config, s: State, i: nat, acts: seq<Action>): Option<State>
    decreases |acts|
  {
    if acts == [] then Some(s)
    else
      match Step(c, s, Label(i, acts[0]))
      case None => None
      case Some(m) => Exec(c, m, i, acts[1..])
  }

  lemma Next(c: Config, s: State, i: nat, a: Action, acts: seq<Action>)
    requires Step(c, s, Label(i, a)).Some?
    ensures Exec(c, s, i, [a] + acts) == Exec(c, Step(c, s, Label(i, a)).value, i, acts)
  {
    assert ([a] + acts)[1..] == acts;
  }

  lemma EndsAlone(c: Config, s: State, i: nat, run: Endpoint)
    requires i < |s.procs| && Executing(s.procs[i])
    ensures var name, hash := c.name(s.procs[i].req), c.hash(s.procs[i].req); var end := Exec(c, s, i, [EndAct(run)]);
      end.Some? && i < |end.value.procs| && AnswerOf(end.value.procs[i]) == (if run.Raises? then Raised else Fresh(run.response)) &&
      end.value.records == if run.Raises? then s.records - {name}
                           else Put(s.records, s.now, c.ttl, name, Record(Completed(run.response), hash))
  {
    Next(c, s, i, EndAct(run), []);
  }

  /** An undisturbed caller gets, command by command, to the records and the answer of the decorated call. */
  lemma CallAlone(c: Config, s: State, i: nat, req: Request, run: Endpoint)
    requires i < |s.procs| && Over(s.procs[i])
    ensures var end := Exec(c, s, i, CallActs(c, s, req, run));
      end.Some? && i < |end.value.procs| &&
      (end.value.records, AnswerOf(end.value.procs[i])) ==
        Outcome(s.records, c.ttl, c.name(req), c.hash(req), run, s.now, s.now, s.now)
  {
    var name, hash := c.name(req), c.hash(req);
    var ready := s.Move(i, Ready(req));
    var check := Inspect(s.records, s.now, name, hash);
    if !Present(s.records, s.now, name) {
      var held := Step(c, ready, Label(i, SetNx)).value;
      assert CallActs(c, s, req, run) == [Arrive(req)] + ([SetNx] + [EndAct(run)]);
      Next(c, s, i, Arrive(req), [SetNx] + [EndAct(run)]);
      Next(c, ready, i, SetNx, [EndAct(run)]);
      EndsAlone(c, held, i, run);
    } else {
      var blocked := Step(c, ready, Label(i, SetNx)).value;
      var rest := if check.Replay? && check.response == None then [EndAct(run)] else [];
      assert CallActs(c, s, req, run) == [Arrive(req), SetNx, Get] + rest;
      assert [Arrive(req), SetNx, Get] + rest == [Arrive(req)] + ([SetNx] + ([Get] + rest));
      Next(c, s, i, Arrive(req), [SetNx] + ([Get] + rest));
      Next(c, ready, i, SetNx, [Get] + rest);
      Next(c, blocked, i, Get, rest);
      if rest != [] { EndsAlone(c, Step(c, blocked, Label(i, Get)).value, i, run); }
    }
  }

  // ---------- names and hashes of real requests ----------

  function NameOf(r: Request): string {
    KeyText(r.userId, r.action, r.key)
  }

  /** The lock as the service uses it. */
  function ServiceConfig(ttl: nat, d: Digest): Config {
    Config(ttl, NameOf, (r: Request) => d(Fields(r.payload)))
  }

  predicate PlainAction(r: Request) {
    ':' !in r.action
  }

  lemma NamesTellRequests(a: Request, b: Request)
    requires PlainAction(a) && PlainAction(b) && NameOf(a) == NameOf(b)
    ensures a.userId == b.userId && a.action == b.action && a.key == b.key
  {
    RedisKeys.IdempotencyKeyInjective(RedisKeys.Idempotency(a.userId, a.action, a.key), RedisKeys.Idempotency(b.userId, b.action, b.key));
  }

  /** Faithful replay: in every run, expiry, races and late saves included, a response given without
      running the endpoint was saved by an execution with the same user, action, key and payload. */
  lemma ReplayIsFaithful(ttl: nat, d: Digest, states: seq<State>, labels: seq<Label>, k: nat, i: nat) returns (j: nat, first: Request)
    requires var c := ServiceConfig(ttl, d);
      InjectiveDigest(d) && Run(c, states, labels) && states[0].records == map[] && k <= |labels|
    requires forall x :: 0 <= x < |states[0].procs| ==> states[0].procs[x] == Idle
    requires forall x, y :: 0 <= x <= k && 0 <= y < |states[x].procs| && !states[x].procs[y].Idle? ==> PlainAction(states[x].procs[y].req)
    requires i < |states[k].procs| && states[k].procs[i].Replayed?
    ensures var req := states[k].procs[i].req;
      j < k && labels[j].act == Save(Some(states[k].procs[i].saved)) && labels[j].i < |states[j].procs| &&
      Executing(states[j].procs[labels[j].i]) && first == states[j].procs[labels[j].i].req &&
      first.userId == req.userId && first.action == req.action && first.key == req.key && Fields(first.payload) == Fields(req.payload)
  {
    var c, p := ServiceConfig(ttl, d), states[k].procs[i];
    ReplayedWasSaved(c, states, labels, k, i);
    j :| 0 <= j < k && SavesAt(c, states[j], labels[j], c.name(p.req), c.hash(p.req), p.saved);
    first := states[j].procs[labels[j].i].req;
    NamesTellRequests(first, p.req);
  }

  /** ... and with the same business arguments: whatever the calls of a run were made with, a response is
      shared only between calls that agree in every body and plain value. */
  lemma ReplayHasSameArguments(ttl: nat, d: Digest, states: seq<State>, labels: seq<Label>, k: nat, i: nat,
                               kwargs: Request -> map<string, Arg>, keyName: string, arg: string, text: string) returns (j: nat, first: Request)
    requires var c := ServiceConfig(ttl, d);
      InjectiveDigest(d) && Run(c, states, labels) && states[0].records == map[] && k <= |labels|
    requires forall x :: 0 <= x < |states[0].procs| ==> states[0].procs[x] == Idle
    requires forall x, y :: 0 <= x <= k && 0 <= y < |states[x].procs| && !states[x].procs[y].Idle? ==>
      var req := states[x].procs[y].req; PlainAction(req) && Extracted(kwargs(req), keyName, req.payload)
    requires i < |states[k].procs| && states[k].procs[i].Replayed?
    ensures j < k && labels[j].act == Save(Some(states[k].procs[i].saved)) && labels[j].i < |states[j].procs|
    ensures Executing(states[j].procs[labels[j].i]) && first == states[j].procs[labels[j].i].req
    ensures var req := states[k].procs[i].req;
      !Differs(kwargs(first), kwargs(req), keyName, arg, text) && !Differs(kwargs(req), kwargs(first), keyName, arg, text)
  {
    j, first := ReplayIsFaithful(ttl, d, states, labels, k, i);
    var req := states[k].procs[i].req;
    if Differs(kwargs(first), kwargs(req), keyName, arg, text) || Differs(kwargs(req), kwargs(first), keyName, arg, text) {
      ArgumentsTell(kwargs(first), kwargs(req), keyName, arg, text, first.payload, req.payload, d);
    }
  }
}
