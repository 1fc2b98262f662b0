/** The idempotency record of a request: absent, IN_PROGRESS or COMPLETED, with a time to live, and
    the service and decorator that move it. */
module Idempotency {
  import opened Stores
  import RedisKeys

  /** A keyword argument of an endpoint: a request body, a plain value (both in their JSON form), or an
      injected dependency. */
  datatype Arg = Body(json: string) | Plain(json: string) | Injected

  /** SHA-256 of the JSON text with sorted keys; only its injectivity matters. An empty payload is
      hashed as an empty text, whether it is missing or has no fields. */
  type Digest = map<string, string> -> string

  datatype Status = InProgress | Completed(response: Option<string>)

  datatype Record = Record(status: Status, hash: string)

  /** A stored value is the text of a record, or something that is not one. */
  datatype Value = Json(record: Record) | Garbage

  datatype Stored = Stored(value: Value, expiresAt: int)

  /** Redis strings with expiry. */
  type Records = map<string, Stored>

  predicate Present(r: Records, now: int, key: string) {
    key in r && now < r[key].expiresAt
  }

  /** SET key value EX ttl. */
  function Put(r: Records, now: int, ttl: nat, key: string, record: Record): Records {
    r[key := Stored(Json(record), now + ttl)]
  }

  /** The answer of check_and_lock when SET NX found the key taken. */
  datatype Check = Locked | Replay(response: Option<string>) | Retry | Corrupted | OtherPayload | Busy

  function Inspect(r: Records, now: int, key: string, hash: string): Check {
    if !Present(r, now, key) then Retry
    else if r[key].value.Garbage? then Corrupted
    else
      var record := r[key].value.record;
      if record.hash != hash then OtherPayload
      else if record.status.InProgress? then Busy
      else Replay(record.status.response)
  }

  function KeyText(userId: nat, action: string, key: string): string {
    RedisKeys.Text(RedisKeys.Idempotency(userId, action, key))
  }

  function Fields(payload: Option<map<string, string>>): map<string, string> {
    if payload.Some? then payload.value else map[]
  }

  /** The arguments that identify a request: every body and plain value except the key itself, each with
      its text; None when there is none. */
  ghost predicate Extracted(kwargs: map<string, Arg>, keyName: string, payload: Option<map<string, string>>) {
    var fields := Fields(payload);
    (payload.Some? <==> exists k :: k in kwargs && k != keyName && (kwargs[k].Body? || kwargs[k].Plain?)) &&
    (forall k :: k in fields <==> k in kwargs && k != keyName && (kwargs[k].Body? || kwargs[k].Plain?)) &&
    forall k :: k in fields ==> kwargs[k] == Body(fields[k]) || kwargs[k] == Plain(fields[k])
  }

  method ExtractBusinessPayload(kwargs: map<string, Arg>, keyName: string) returns (payload: Option<map<string, string>>)
    ensures Extracted(kwargs, keyName, payload)
  {
    var fields: map<string, string> := map[];
    var rest := kwargs.Keys;
    while rest != {}
      invariant rest <= kwargs.Keys
      invariant forall k :: k in fields <==> k in kwargs && k !in rest && k != keyName && (kwargs[k].Body? || kwargs[k].Plain?)
      invariant forall k :: k in fields ==> kwargs[k] == Body(fields[k]) || kwargs[k] == Plain(fields[k])
      decreases |rest|
    {
      var key :| key in rest;
      rest := rest - {key};
      if key == keyName { continue; }
      match kwargs[key]
      case Body(json) => fields := fields[key := json];
      case Plain(json) => fields := fields[key := json];
      case Injected =>
    }
    if fields == map[] {
      assert forall k :: k !in fields;
      return None;
    }
    var k :| k in fields;
    return Some(fields);
  }

  ghost predicate InjectiveDigest(d: Digest) {
    forall x, y :: d(x) == d(y) ==> x == y
  }

  /** An argument of the one call that the other call does not have with the same text. */
  predicate Differs(kwargs: map<string, Arg>, other: map<string, Arg>, keyName: string, k: string, text: string) {
    k != keyName && k in kwargs && (kwargs[k] == Body(text) || kwargs[k] == Plain(text)) &&
    !(k in other && (other[k] == Body(text) || other[k] == Plain(text)))
  }

  /** Calls that differ in one business argument have different payloads, so their hashes differ. */
  lemma ArgumentsTell(kwargs: map<string, Arg>, other: map<string, Arg>, keyName: string, k: string, text: string,
                      payload: Option<map<string, string>>, payload': Option<map<string, string>>, d: Digest)
    requires Extracted(kwargs, keyName, payload) && Extracted(other, keyName, payload') && InjectiveDigest(d)
    requires Differs(kwargs, other, keyName, k, text) || Differs(other, kwargs, keyName, k, text)
    ensures d(Fields(payload)) != d(Fields(payload'))
  {
    if Differs(kwargs, other, keyName, k, text) { assert k in Fields(payload); } else { assert k in Fields(payload'); }
  }

  /** IdempotencyService over one Redis database. Times are passed in, one for each command. */
  class Service {
    var records: Records
    const ttl: nat
    const digest: Digest

    constructor (ttl: nat, digest: Digest)
      ensures records == map[] && this.ttl == ttl && this.digest == digest
    {
      records := map[];
      this.ttl := ttl;
      this.digest := digest;
    }

    /** SET NX and then, on failure, a separate GET, at two moments. */
    method CheckAndLock(userId: nat, action: string, key: string, payload: Option<map<string, string>>, now: int, later: int)
        returns (check: Check)
      modifies this
      ensures var name, hash := KeyText(userId, action, key), digest(Fields(payload));
        if Present(old(records), now, name) then
          records == old(records) && check == Inspect(old(records), later, name, hash)
        else
          records == Put(old(records), now, ttl, name, Record(InProgress, hash)) && check == Locked
    {
      var redisKey := KeyText(userId, action, key);
      var currentHash := digest(Fields(payload));
      var lockAcquired := SetNx(redisKey, Record(InProgress, currentHash), now);
      if lockAcquired {
        return Locked;
      }
      var raw := Get(redisKey, later);
      if raw == None {
        return Retry;
      }
      if raw.value.Garbage? {
        return Corrupted;
      }
      var data := raw.value.record;
      if data.hash != currentHash {
        return OtherPayload;
      }
      if data.status.InProgress? {
        return Busy;
      }
      return Replay(data.status.response);
    }

    method SaveResponse(userId: nat, action: string, key: string, response: Option<string>, payload: Option<map<string, string>>, now: int)
      modifies this
      ensures records == Put(old(records), now, ttl, KeyText(userId, action, key), Record(Completed(response), digest(Fields(payload))))
    {
      var redisKey := KeyText(userId, action, key);
      records := Put(records, now, ttl, redisKey, Record(Completed(response), digest(Fields(payload))));
    }

    method Unlock(userId: nat, action: string, key: string)
      modifies this
      ensures records == old(records) - {KeyText(userId, action, key)}
    {
      records := records - {KeyText(userId, action, key)};
    }

    method SetNx(key: string, record: Record, now: int) returns (done: bool)
      modifies this
      ensures done <==> !Present(old(records), now, key)
      ensures records == if done then Put(old(records), now, ttl, key, record) else old(records)
    {
      done := !Present(records, now, key);
      if done {
        records := Put(records, now, ttl, key, record);
      }
    }

    method Get(key: string, now: int) returns (raw: Option<Value>)
      ensures raw == if Present(records, now, key) then Some(records[key].value) else None
    {
      return if Present(records, now, key) then Some(records[key].value) else None;
    }
  }

  /** How the endpoint ends when it is called: with a response in JSON form, or an exception. */
  datatype Endpoint = Returns(response: Option<string>) | Raises

  /** What the caller gets: an answer of the endpoint, a saved answer, the endpoint's exception, or a
      refusal by the lock. */
  datatype Answer = Fresh(response: Option<string>) | Saved(text: string) | Raised | Refused(why: Check)

  /** The records after a call by itself, and its answer. The endpoint runs unless the lock refuses it
      or a saved non-null response is there; a saved null response does not stop it. */
  function Outcome(r: Records, ttl: nat, name: string, hash: string, run: Endpoint, now: int, later: int, end: int): (Records, Answer) {
    var check := if Present(r, now, name) then Inspect(r, later, name, hash) else Locked;
    var held := if check.Locked? then Put(r, now, ttl, name, Record(InProgress, hash)) else r;
    if check.Replay? && check.response.Some? then (r, Saved(check.response.value))
    else if !check.Locked? && !check.Replay? then (r, Refused(check))
    else if run.Raises? then (held - {name}, Raised)
    else (Put(held, end, ttl, name, Record(Completed(run.response), hash)), Fresh(run.response))
  }

  /** A retry after a success, while the record lives: the same payload gets the saved response and the
      endpoint does not run, whatever it would have done; another payload is refused. */
  lemma RetryAfterSuccess(r: Records, ttl: nat, name: string, hash: string, other: string, response: string, again: Endpoint,
                          first: (int, int, int), second: (int, int, int))
    requires !Present(r, first.0, name) && second.0 <= second.1 < first.2 + ttl && other != hash
    ensures var saved := Outcome(r, ttl, name, hash, Returns(Some(response)), first.0, first.1, first.2).0;
      Outcome(saved, ttl, name, hash, again, second.0, second.1, second.2) == (saved, Saved(response)) &&
      Outcome(saved, ttl, name, other, again, second.0, second.1, second.2) == (saved, Refused(OtherPayload))
  {
    var held := Put(r, first.0, ttl, name, Record(InProgress, hash));
    var saved := Put(held, first.2, ttl, name, Record(Completed(Some(response)), hash));
    assert Outcome(r, ttl, name, hash, Returns(Some(response)), first.0, first.1, first.2).0 == saved;
    assert Inspect(saved, second.1, name, hash) == Replay(Some(response));
    assert Inspect(saved, second.1, name, other) == OtherPayload;
  }

  /** A retry after a failure runs the endpoint again, with any payload. */
  lemma RetryAfterFailure(r: Records, ttl: nat, name: string, hash: string, other: string, again: Endpoint,
                          first: (int, int, int), second: (int, int, int))
    requires !Present(r, first.0, name)
    ensures var freed := Outcome(r, ttl, name, hash, Raises, first.0, first.1, first.2).0;
      name !in freed &&
      Outcome(freed, ttl, name, other, again, second.0, second.1, second.2).1 == if again.Raises? then Raised else Fresh(again.response)
  {
    var freed := Outcome(r, ttl, name, hash, Raises, first.0, first.1, first.2).0;
    assert !Present(freed, second.0, name);
  }

  /** With another business argument a used key is refused, as long as its record lives: neither is the
      saved response given nor does the endpoint run. */
  lemma OtherArgumentsAreRefused(r: Records, ttl: nat, d: Digest, name: string, keyName: string, kwargs: map<string, Arg>, other: map<string, Arg>,
      payload: Option<map<string, string>>, payload': Option<map<string, string>>, k: string, text: string, response: string,
      again: Endpoint, first: (int, int, int), second: (int, int, int))
    requires !Present(r, first.0, name) && second.0 <= second.1 < first.2 + ttl && InjectiveDigest(d)
    requires Extracted(kwargs, keyName, payload) && Extracted(other, keyName, payload')
    requires Differs(kwargs, other, keyName, k, text) || Differs(other, kwargs, keyName, k, text)
    ensures var saved := Outcome(r, ttl, name, d(Fields(payload)), Returns(Some(response)), first.0, first.1, first.2).0;
      Outcome(saved, ttl, name, d(Fields(payload')), again, second.0, second.1, second.2) == (saved, Refused(OtherPayload))
  {
    ArgumentsTell(kwargs, other, keyName, k, text, payload, payload', d);
    RetryAfterSuccess(r, ttl, name, d(Fields(payload)), d(Fields(payload')), response, again, first, second);
  }

  /** While an execution holds the lock a second call is refused: as busy with the same payload, and as
      another payload otherwise, which is tested first. */
  lemma WhileRunning(r: Records, ttl: nat, name: string, hash: string, other: string, run: Endpoint, since: int, now: int, later: int, end: int)
    requires now <= later < since + ttl && other != hash
    ensures var held := Put(r, since, ttl, name, Record(InProgress, hash));
      Outcome(held, ttl, name, hash, run, now, later, end) == (held, Refused(Busy)) &&
      Outcome(held, ttl, name, other, run, now, later, end) == (held, Refused(OtherPayload))
  {
    var held := Put(r, since, ttl, name, Record(InProgress, hash));
    assert Inspect(held, later, name, hash) == Busy && Inspect(held, later, name, other) == OtherPayload;
  }

  /** A record lives exactly `ttl` from its last write: after that, saved or held, it answers nobody. */
  lemma AfterExpiry(r: Records, ttl: nat, name: string, record: Record, hash: string, run: Endpoint, written: int, now: int, later: int, end: int)
    requires now >= written + ttl
    ensures var (r', answer) := Outcome(Put(r, written, ttl, name, record), ttl, name, hash, run, now, later, end);
      answer == (if run.Raises? then Raised else Fresh(run.response)) &&
      (run.Returns? ==> r' == r[name := Stored(Json(Record(Completed(run.response), hash)), end + ttl)])
  {
  }

  /** A saved null response is no answer: the endpoint runs again. */
  lemma NullIsNotReplayed(r: Records, ttl: nat, name: string, hash: string, run: Endpoint, first: (int, int, int), second: (int, int, int))
    requires !Present(r, first.0, name) && second.0 <= second.1 < first.2 + ttl
    ensures var saved := Outcome(r, ttl, name, hash, Returns(None), first.0, first.1, first.2).0;
      Outcome(saved, ttl, name, hash, run, second.0, second.1, second.2).1 == if run.Raises? then Raised else Fresh(run.response)
  {
    var saved := Outcome(r, ttl, name, hash, Returns(None), first.0, first.1, first.2).0;
    assert Inspect(saved, second.1, name, hash) == Replay(None);
  }

  /** The wrapper of the decorator: lock, call, save, and unlock on failure. Without a key the endpoint
      is just called. */
  method Idempotent(service: Service, userId: nat, action: string, key: string, keyName: string, kwargs: map<string, Arg>,
                    run: Endpoint, now: int, later: int, end: int) returns (answer: Answer)
    modifies service
    ensures key == "" ==> service.records == old(service.records) && answer == if run.Raises? then Raised else Fresh(run.response)
    ensures key != "" ==> (exists payload ::
      Extracted(kwargs, keyName, payload) &&
      (service.records, answer) == Outcome(old(service.records), service.ttl, KeyText(userId, action, key),
                                           service.digest(Fields(payload)), run, now, later, end))
  {
    if key == "" {
      return if run.Raises? then Raised else Fresh(run.response);
    }
    var payload := ExtractBusinessPayload(kwargs, keyName);
    var cached := service.CheckAndLock(userId, action, key, payload, now, later);
    if !cached.Locked? && !cached.Replay? {
      return Refused(cached);
    }
    if cached.Replay? && cached.response.Some? {
      return Saved(cached.response.value);
    }
    match run
    case Returns(response) =>
      service.SaveResponse(userId, action, key, response, payload, end);
      return Fresh(response);
    case Raises =>
      service.Unlock(userId, action, key);
      return Raised;
  }
}
