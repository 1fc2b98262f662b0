/** The key registry and the textual forms that go into Redis: decimal numbers, the value of a
    reservation, and every family of keys. Distinct keys never print alike. */
module RedisKeys {
  import opened Stores

  // ---------- decimal numbers ----------

  predicate IsDigit(c: char) {
    '0' <= c <= '9'
  }

  predicate AllDigits(s: string) {
    forall i :: 0 <= i < |s| ==> IsDigit(s[i])
  }

  function Dec(n: nat): (s: string)
    ensures s != [] && AllDigits(s)
  {
    var d := ['0' + (n % 10) as char];
    if n < 10 then d else Dec(n / 10) + d
  }

  function DigitValue(c: char): nat
    requires IsDigit(c)
  {
    (c - '0') as nat
  }

  function Value(s: string): nat
    requires AllDigits(s)
  {
    if s == [] then 0 else 10 * Value(s[..|s| - 1]) + DigitValue(s[|s| - 1])
  }

  /** int(...) on the digits that str(...) of a natural number prints. */
  function ParseDec(s: string): Option<nat> {
    if s != [] && AllDigits(s) then Some(Value(s)) else None
  }

  lemma {:induction false} DecValue(n: nat)
    ensures Value(Dec(n)) == n
  {
    var c := '0' + (n % 10) as char;
    assert DigitValue(c) == n % 10;
    if n < 10 {
      assert Dec(n) == [c] && [c][..0] == [];
    } else {
      DecValue(n / 10);
      assert Dec(n) == Dec(n / 10) + [c];
      assert Dec(n)[..|Dec(n)| - 1] == Dec(n / 10);
    }
  }

  /** Printing and parsing naturals are inverse. */
  lemma ParseDecOfDec(n: nat)
    ensures ParseDec(Dec(n)) == Some(n)
  {
    DecValue(n);
  }

  lemma DecInjective(a: nat, b: nat)
    requires Dec(a) == Dec(b)
    ensures a == b
  {
    DecValue(a);
    DecValue(b);
  }

  /** A number ends where its digits end. */
  lemma DigitsThenRest(u: string, x: string, v: string, y: string)
    requires AllDigits(u) && AllDigits(v) && u + x == v + y
    requires (x == [] || !IsDigit(x[0])) && (y == [] || !IsDigit(y[0]))
    ensures u == v && x == y
  {
    var s := u + x;
    assert forall i :: 0 <= i < |u| ==> s[i] == u[i];
    assert forall i :: 0 <= i < |v| ==> s[i] == v[i];
    assert |u| < |s| ==> s[|u|] == x[0];
    assert |v| < |s| ==> s[|v|] == y[0];
    assert |u| == |v|;
    assert u == s[..|u|] == v;
    assert x == s[|u|..] == y;
  }

  lemma DecThenRest(a: nat, x: string, b: nat, y: string)
    requires Dec(a) + x == Dec(b) + y
    requires (x == [] || !IsDigit(x[0])) && (y == [] || !IsDigit(y[0]))
    ensures a == b && x == y
  {
    DigitsThenRest(Dec(a), x, Dec(b), y);
    DecInjective(a, b);
  }

  /** Ten digits, most significant first. */
  lemma DecDigits(n: nat, d: nat)
    requires d < 10
    ensures Dec(d) == [d as char + '0'] && (n > 0 ==> Dec(10 * n + d) == Dec(n) + Dec(d))
    ensures Dec(0) == "0" && Dec(9) == "9" && Dec(1024) == "1024"
  {
    assert n > 0 ==> (10 * n + d) / 10 == n && (10 * n + d) % 10 == d;
    assert Dec(10) == Dec(1) + "0" == "10";
    assert Dec(102) == Dec(10) + "2" == "102";
    assert Dec(1024) == Dec(102) + "4";
  }

  // ---------- values of the reservations hash ----------

  function Split(s: string, sep: char): (parts: seq<string>)
    ensures parts != []
  {
    if s == [] then [[]]
    else
      var rest := Split(s[1..], sep);
      if s[0] == sep then [[]] + rest else [[s[0]] + rest[0]] + rest[1..]
  }

  lemma {:induction false} SplitNone(s: string, sep: char)
    requires forall i :: 0 <= i < |s| ==> s[i] != sep
    ensures Split(s, sep) == [s]
  {
    if s != [] {
      SplitNone(s[1..], sep);
      assert [s[0]] + s[1..] == s;
    }
  }

  lemma {:induction false} SplitOnce(a: string, sep: char, b: string)
    requires forall i :: 0 <= i < |a| ==> a[i] != sep
    requires forall i :: 0 <= i < |b| ==> b[i] != sep
    ensures Split(a + [sep] + b, sep) == [a, b]
  {
    if a == [] {
      SplitNone(b, sep);
      assert (a + [sep] + b)[1..] == b;
    } else {
      SplitOnce(a[1..], sep, b);
      assert (a + [sep] + b)[1..] == a[1..] + [sep] + b;
      assert [a[0]] + a[1..] == a;
    }
  }

  function Print(r: Reservation): string {
    Dec(r.typeId) + ":" + Dec(r.timestamp)
  }

  /** Exactly two parts, both numbers; anything else raises ValueError. */
  function ParseReservation(s: string): Option<Reservation> {
    var parts := Split(s, ':');
    if |parts| != 2 then None
    else
      match (ParseDec(parts[0]), ParseDec(parts[1]))
      case (Some(t), Some(ts)) => Some(Reservation(t, ts))
      case _ => None
  }

  lemma ParseOfPrint(r: Reservation)
    ensures ParseReservation(Print(r)) == Some(r)
  {
    SplitOnce(Dec(r.typeId), ':', Dec(r.timestamp));
    assert Print(r) == Dec(r.typeId) + [':'] + Dec(r.timestamp);
    ParseDecOfDec(r.typeId);
    ParseDecOfDec(r.timestamp);
  }

  /** Two parts are what is before and after the only separator. */
  lemma {:induction false} SplitsInTwo(s: string, sep: char)
    ensures |Split(s, sep)| == 1 ==> Split(s, sep) == [s] && sep !in s
    ensures |Split(s, sep)| == 2 ==> s == Split(s, sep)[0] + [sep] + Split(s, sep)[1] && sep !in Split(s, sep)[0] && sep !in Split(s, sep)[1]
  {
    if s != [] {
      SplitsInTwo(s[1..], sep);
      assert s == [s[0]] + s[1..];
      assert sep in s <==> s[0] == sep || sep in s[1..];
    }
  }

  /** Exactly which texts are read, and as what: digits, one colon, digits. */
  lemma ParseExactly(s: string, t: nat, ts: nat)
    ensures ParseReservation(s) == Some(Reservation(t, ts)) <==>
      exists a, b :: s == a + ":" + b && a != [] && b != [] && AllDigits(a) && AllDigits(b) && Value(a) == t && Value(b) == ts
  {
    if ParseReservation(s) == Some(Reservation(t, ts)) {
      SplitsInTwo(s, ':');
      var parts := Split(s, ':');
      assert s == parts[0] + ":" + parts[1];
    }
    forall a, b | s == a + ":" + b && a != [] && b != [] && AllDigits(a) && AllDigits(b) && Value(a) == t && Value(b) == ts
      ensures ParseReservation(s) == Some(Reservation(t, ts))
    {
      SplitOnce(a, ':', b);
      assert s == a + [':'] + b;
    }
  }

  /** A hash whose field names and values are printed forms of the keys and values of a map. */
  ghost predicate PrintedBy(name: nat -> string, show: Reservation -> string, raw: map<string, string>, m: map<nat, Reservation>) {
    (forall id {:trigger name(id)} :: id in m ==> name(id) in raw && raw[name(id)] == show(m[id])) &&
    forall f :: f in raw ==> exists id {:trigger name(id)} :: id in m && f == name(id)
  }

  ghost predicate Injective(name: nat -> string) {
    forall a, b :: name(a) == name(b) ==> a == b
  }

  lemma PrintedHset(name: nat -> string, show: Reservation -> string, raw: map<string, string>, m: map<nat, Reservation>, id: nat, r: Reservation)
    requires Injective(name) && PrintedBy(name, show, raw, m)
    ensures PrintedBy(name, show, raw[name(id) := show(r)], m[id := r])
  {
    var raw', m' := raw[name(id) := show(r)], m[id := r];
    forall f | f in raw' ensures exists x :: x in m' && f == name(x) {
      if f == name(id) { assert id in m'; } else { var x :| x in m && f == name(x); assert x in m'; }
    }
  }

  lemma PrintedHdel(name: nat -> string, show: Reservation -> string, raw: map<string, string>, m: map<nat, Reservation>, id: nat)
    requires Injective(name) && PrintedBy(name, show, raw, m)
    ensures PrintedBy(name, show, raw - {name(id)}, m - {id})
  {
    var raw', m' := raw - {name(id)}, m - {id};
    forall f | f in raw' ensures exists x :: x in m' && f == name(x) {
      var x :| x in m && f == name(x);
      assert x in m';
    }
  }

  /** The raw hash of a map of reservations. */
  ghost predicate Encodes(raw: map<string, string>, m: map<nat, Reservation>) {
    PrintedBy(Dec, Print, raw, m)
  }

  lemma DecIsInjective()
    ensures Injective(Dec)
  {
    forall a, b | Dec(a) == Dec(b) ensures a == b { DecInjective(a, b); }
  }

  /** One active lock, as the worker sees it. */
  datatype Lock = Lock(ticketId: nat, typeId: nat, timestamp: nat)

  /** The list holds each entry of the map once, and nothing else. */
  ghost predicate Lists(locks: seq<Lock>, m: map<nat, Reservation>) {
    (forall i :: 0 <= i < |locks| ==>
      locks[i].ticketId in m && m[locks[i].ticketId] == Reservation(locks[i].typeId, locks[i].timestamp)) &&
    (forall id :: id in m ==> exists i :: 0 <= i < |locks| && locks[i].ticketId == id) &&
    (forall i, j :: 0 <= i < j < |locks| ==> locks[i].ticketId != locks[j].ticketId)
  }

  function ParseEntry(field: string, val: string): Option<Lock> {
    match (ParseDec(field), ParseReservation(val))
    case (Some(id), Some(r)) => Some(Lock(id, r.typeId, r.timestamp))
    case _ => None
  }

  lemma ParseEntryOfPrint(id: nat, r: Reservation)
    ensures ParseEntry(Dec(id), Print(r)) == Some(Lock(id, r.typeId, r.timestamp))
  {
    ParseDecOfDec(id);
    ParseOfPrint(r);
  }

  /** The part of the map whose fields have been read. */
  ghost function ReadPart(name: nat -> string, m: map<nat, Reservation>, rest: set<string>): map<nat, Reservation> {
    map id | id in m && name(id) !in rest :: m[id]
  }

  lemma ReadPartShrinks(name: nat -> string, m: map<nat, Reservation>, rest: set<string>, id: nat)
    requires Injective(name) && id in m && name(id) in rest
    ensures id !in ReadPart(name, m, rest)
    ensures ReadPart(name, m, rest - {name(id)}) == ReadPart(name, m, rest)[id := m[id]]
  {
    forall x | x in m && name(x) == name(id) ensures x == id { }
  }

  lemma FieldName(name: nat -> string, show: Reservation -> string, raw: map<string, string>, m: map<nat, Reservation>, f: string)
      returns (id: nat)
    requires PrintedBy(name, show, raw, m) && f in raw
    ensures id in m && f == name(id) && raw[f] == show(m[id])
  {
    id :| id in m && f == name(id);
  }

  /** One turn of the loop: the field parses, and the list grows by the entry of that name. */
  lemma ReadField(raw: map<string, string>, m: map<nat, Reservation>, rest: set<string>, locks: seq<Lock>, f: string)
    requires Encodes(raw, m) && rest <= raw.Keys && f in rest && Lists(locks, ReadPart(Dec, m, rest))
    ensures var parsed := ParseEntry(f, raw[f]);
      parsed.Some? && Lists(locks + [parsed.value], ReadPart(Dec, m, rest - {f}))
  {
    var id := FieldName(Dec, Print, raw, m, f);
    DecIsInjective();
    ParseEntryOfPrint(id, m[id]);
    ReadPartShrinks(Dec, m, rest, id);
    ListsSnoc(locks, ReadPart(Dec, m, rest), id, m[id]);
  }

  lemma ReadNothing(raw: map<string, string>, m: map<nat, Reservation>)
    requires Encodes(raw, m)
    ensures ReadPart(Dec, m, raw.Keys) == map[]
  {
  }

  lemma ReadAll(m: map<nat, Reservation>)
    ensures ReadPart(Dec, m, {}) == m
  {
  }

  /** Every way of reading the hash as a map is listed by the locks read so far. */
  ghost predicate ReadsAs(raw: map<string, string>, rest: set<string>, locks: seq<Lock>) {
    forall m :: Encodes(raw, m) ==> Lists(locks, ReadPart(Dec, m, rest))
  }

  lemma ReadFieldOfAny(raw: map<string, string>, rest: set<string>, locks: seq<Lock>, f: string)
    requires rest <= raw.Keys && f in rest && ReadsAs(raw, rest, locks) && ParseEntry(f, raw[f]).Some?
    ensures ReadsAs(raw, rest - {f}, locks + [ParseEntry(f, raw[f]).value])
  {
    forall m | Encodes(raw, m) ensures Lists(locks + [ParseEntry(f, raw[f]).value], ReadPart(Dec, m, rest - {f})) {
      ReadField(raw, m, rest, locks, f);
    }
  }

  lemma NoReadingOfGarbage(raw: map<string, string>, f: string, m: map<nat, Reservation>)
    requires f in raw && ParseEntry(f, raw[f]) == None
    ensures !Encodes(raw, m)
  {
    if Encodes(raw, m) {
      var id := FieldName(Dec, Print, raw, m, f);
      ParseEntryOfPrint(id, m[id]);
    }
  }

  /** The list has one lock for each field that is no longer to be read, as the field and its value parse. */
  ghost predicate ReadFields(raw: map<string, string>, rest: set<string>, locks: seq<Lock>) {
    |locks| == |raw.Keys - rest| &&
    (forall f :: f in raw && f !in rest ==> ParseEntry(f, raw[f]).Some? && ParseEntry(f, raw[f]).value in locks) &&
    forall x :: x in locks ==> exists f :: f in raw && f !in rest && ParseEntry(f, raw[f]) == Some(x)
  }

  lemma ReadFieldsSnoc(raw: map<string, string>, rest: set<string>, locks: seq<Lock>, f: string)
    requires ReadFields(raw, rest, locks) && rest <= raw.Keys && f in rest && ParseEntry(f, raw[f]).Some?
    ensures ReadFields(raw, rest - {f}, locks + [ParseEntry(f, raw[f]).value])
  {
    assert raw.Keys - (rest - {f}) == (raw.Keys - rest) + {f};
    var x := ParseEntry(f, raw[f]).value;
    forall y | y in locks + [x] ensures exists g :: g in raw && g !in rest - {f} && ParseEntry(g, raw[g]) == Some(y) {
      if y in locks {
        var g :| g in raw && g !in rest && ParseEntry(g, raw[g]) == Some(y);
        assert g !in rest - {f};
      } else {
        assert f in raw && f !in rest - {f};
      }
    }
  }

  /** get_all_active_reservations: parses every field, in whatever order the hash yields them. None is
      the ValueError of an unreadable field; a hash written by HSET reads back as the map written. */
  method GetAllActiveReservations(raw: map<string, string>) returns (locks: Option<seq<Lock>>)
    ensures locks == None <==> exists f :: f in raw && ParseEntry(f, raw[f]) == None
    ensures locks.Some? ==> ReadFields(raw, {}, locks.value)
    ensures forall m :: Encodes(raw, m) ==> locks.Some? && Lists(locks.value, m)
  {
    var reservations: seq<Lock> := [];
    var rest := raw.Keys;
    forall m | Encodes(raw, m) ensures Lists(reservations, ReadPart(Dec, m, rest)) { ReadNothing(raw, m); }
    while rest != {}
      invariant rest <= raw.Keys
      invariant ReadFields(raw, rest, reservations)
      invariant ReadsAs(raw, rest, reservations)
      invariant forall f :: f in raw && f !in rest ==> ParseEntry(f, raw[f]).Some?
      decreases |rest|
    {
      var field :| field in rest;
      var parsed := ParseEntry(field, raw[field]);
      if parsed == None {
        forall m ensures !Encodes(raw, m) { NoReadingOfGarbage(raw, field, m); }
        return None;
      }
      ReadFieldOfAny(raw, rest, reservations, field);
      ReadFieldsSnoc(raw, rest, reservations, field);
      reservations := reservations + [parsed.value];
      rest := rest - {field};
    }
    forall m | Encodes(raw, m) ensures Lists(reservations, m) { ReadAll(m); }
    return Some(reservations);
  }

  lemma ListsSnoc(locks: seq<Lock>, m: map<nat, Reservation>, id: nat, r: Reservation)
    requires Lists(locks, m) && id !in m
    ensures Lists(locks + [Lock(id, r.typeId, r.timestamp)], m[id := r])
  {
    var locks', m' := locks + [Lock(id, r.typeId, r.timestamp)], m[id := r];
    forall x | x in m' ensures exists i :: 0 <= i < |locks'| && locks'[i].ticketId == x {
      if x == id { assert locks'[|locks|].ticketId == x; }
      else { var i :| 0 <= i < |locks| && locks[i].ticketId == x; assert locks'[i].ticketId == x; }
    }
  }

  // ---------- key families ----------

  datatype Key =
    | EventStatic(eventId: nat)
    | Inventory(typeId: nat)
    | EventList(version: nat, offset: nat, limit: nat)
    | ListVersion
    | CanceledTickets
    | ActiveReservations
    | Idempotency(userId: nat, action: string, key: string)

  function Text(k: Key): string {
    match k
    case EventStatic(e) => "ticketcore:events:static:" + Dec(e)
    case Inventory(t) => "ticketcore:inventory:ticket_type:" + Dec(t)
    case EventList(v, o, l) => "ticketcore:events:list:v:" + (Dec(v) + (":o:" + (Dec(o) + (":l:" + Dec(l)))))
    case ListVersion => "ticketcore:events:list_version"
    case CanceledTickets => "system:canceled_tickets"
    case ActiveReservations => "system:active_reservations"
    case Idempotency(u, action, key) => "idem:u" + (Dec(u) + (":" + (action + (":" + key))))
  }

  /** The names that another client of the same Redis would see. */
  lemma KeyTexts()
    ensures Text(EventStatic(7)) == "ticketcore:events:static:7" && Text(Inventory(7)) == "ticketcore:inventory:ticket_type:7"
    ensures Text(EventList(1, 2, 3)) == "ticketcore:events:list:v:1:o:2:l:3" && Text(ListVersion) == "ticketcore:events:list_version"
    ensures Text(CanceledTickets) == "system:canceled_tickets" && Text(ActiveReservations) == "system:active_reservations"
    ensures Text(Idempotency(7, "pay", "k")) == "idem:u7:pay:k"
    ensures Print(Reservation(3, 5)) == "3:5"
  {
    forall d: nat | d < 10 ensures Dec(d) == [d as char + '0'] { DecDigits(0, d); }
  }

  /** Actions are fixed words of the code, such as create_ticket. */
  predicate PlainAction(k: Key) {
    k.Idempotency? ==> ':' !in k.action
  }

  lemma CutPrefix(p: string, x: string, y: string)
    requires p + x == p + y
    ensures x == y
  {
    assert x == (p + x)[|p|..] == y;
  }

  lemma CutWord(a: string, x: string, b: string, y: string)
    requires ':' !in a && ':' !in b && a + (":" + x) == b + (":" + y)
    ensures a == b && x == y
  {
    var s := a + (":" + x);
    assert s[|a|] == ':' && s[|b|] == ':';
    assert forall i :: 0 <= i < |a| ==> s[i] == a[i];
    assert forall i :: 0 <= i < |b| ==> s[i] == b[i];
    assert |a| == |b|;
    assert a == s[..|a|] == b;
    CutPrefix(a, ":" + x, ":" + y);
    CutPrefix(":", x, y);
  }

  lemma ListKeyInjective(a: Key, b: Key)
    requires a.EventList? && b.EventList? && Text(a) == Text(b)
    ensures a == b
  {
    var ra, rb := Dec(a.offset) + (":l:" + Dec(a.limit)), Dec(b.offset) + (":l:" + Dec(b.limit));
    CutPrefix("ticketcore:events:list:v:", Dec(a.version) + (":o:" + ra), Dec(b.version) + (":o:" + rb));
    DecThenRest(a.version, ":o:" + ra, b.version, ":o:" + rb);
    CutPrefix(":o:", ra, rb);
    DecThenRest(a.offset, ":l:" + Dec(a.limit), b.offset, ":l:" + Dec(b.limit));
    CutPrefix(":l:", Dec(a.limit), Dec(b.limit));
    DecInjective(a.limit, b.limit);
  }

  lemma IdempotencyKeyInjective(a: Key, b: Key)
    requires a.Idempotency? && b.Idempotency? && PlainAction(a) && PlainAction(b) && Text(a) == Text(b)
    ensures a == b
  {
    var ra, rb := a.action + (":" + a.key), b.action + (":" + b.key);
    CutPrefix("idem:u", Dec(a.userId) + (":" + ra), Dec(b.userId) + (":" + rb));
    DecThenRest(a.userId, ":" + ra, b.userId, ":" + rb);
    CutPrefix(":", ra, rb);
    CutWord(a.action, a.key, b.action, b.key);
  }

  /** The family of a printed key, told by a few of its characters. */
  function FamilyOf(s: string): nat {
    if |s| < 6 then 0
    else if s[0] == 'i' then 1
    else if s[0] == 's' then (if |s| > 7 && s[7] == 'c' then 2 else 3)
    else if |s| > 11 && s[11] == 'i' then 4
    else if |s| > 18 && s[18] == 's' then 5
    else if |s| > 22 && s[22] == ':' then 6
    else 7
  }

  lemma FamilyOfText(k: Key)
    ensures FamilyOf(Text(k)) ==
      match k {
        case EventStatic(_) => 5 case Inventory(_) => 4 case EventList(_, _, _) => 6 case ListVersion => 7
        case CanceledTickets => 2 case ActiveReservations => 3 case Idempotency(_, _, _) => 1
      }
  {
    match k
    case EventStatic(_) => assert "ticketcore:events:static:" <= Text(k);
    case Inventory(_) => assert "ticketcore:inventory:ticket_type:" <= Text(k);
    case EventList(_, _, _) => assert "ticketcore:events:list:v:" <= Text(k);
    case Idempotency(_, _, _) => assert "idem:u" <= Text(k);
    case _ =>
  }

  /** Key families are disjoint and each is injective: no two keys share a Redis name. */
  lemma KeysNeverCollide(a: Key, b: Key)
    requires PlainAction(a) && PlainAction(b) && Text(a) == Text(b)
    ensures a == b
  {
    FamilyOfText(a);
    FamilyOfText(b);
    match a
    case EventStatic(e) => CutPrefix("ticketcore:events:static:", Dec(e), Dec(b.eventId)); DecInjective(e, b.eventId);
    case Inventory(t) => CutPrefix("ticketcore:inventory:ticket_type:", Dec(t), Dec(b.typeId)); DecInjective(t, b.typeId);
    case EventList(_, _, _) => ListKeyInjective(a, b);
    case Idempotency(_, _, _) => IdempotencyKeyInjective(a, b);
    case _ =>
  }

  /** With a colon inside an action the idempotency key is no longer injective. */
  lemma ColonInActionCollides()
    ensures Text(Idempotency(1, "a:b", "c")) == Text(Idempotency(1, "a", "b:c"))
  {
    assert "a:b" + (":" + "c") == "a" + (":" + "b:c");
  }
}
