/** Rows of the PostgreSQL tables and the Redis values of the reservation protocol.
    Redis commands and Lua scripts are functions on the Redis value: each one is atomic. */
module Stores {

  datatype Option<+T> = None | Some(value: T)

  datatype Status = RESERVED | SOLD | CANCELED

  /** An event row; its attributes (title, date, country, ...) are set one by one by name. */
  datatype EventRow = EventRow(attrs: map<string, string>)

  datatype TypeRow = TypeRow(eventId: nat, name: string, price: int, quantity: int, sold: int)
  {
    /** The CHECK constraints of the ticket_types table. */
    predicate Ok() {
      0 <= price && 0 < quantity && 0 <= sold <= quantity
    }
  }

  datatype Ticket = Ticket(typeId: nat, owner: nat, status: Status, createdAt: int)
  {
    predicate Live() {
      status != CANCELED
    }
  }

  /** Committed tables. The three `next` fields are the id sequences: they never go back. */
  datatype Db = Db(events: map<nat, EventRow>, types: map<nat, TypeRow>, tickets: map<nat, Ticket>,
                   nextEvent: nat, nextType: nat, nextTicket: nat)

  /** Fields set in a ticket-type update. */
  datatype TypeUpdate = TypeUpdate(name: Option<string>, price: Option<int>, quantity: Option<int>)
  {
    predicate Empty() {
      name == None && price == None && quantity == None
    }
  }

  function Merge(row: TypeRow, u: TypeUpdate): TypeRow {
    row.(name := if u.name.Some? then u.name.value else row.name,
         price := if u.price.Some? then u.price.value else row.price,
         quantity := if u.quantity.Some? then u.quantity.value else row.quantity)
  }

  predicate IsReserved(db: Db, id: nat) {
    id in db.tickets && db.tickets[id].status == RESERVED
  }

  /** The tickets_sold CHECK lets n units go. */
  predicate CanSubtract(db: Db, t: nat, n: int) {
    t in db.types ==> n <= db.types[t].sold
  }

  /** RESERVED or SOLD tickets of a type. */
  function LiveOf(db: Db, t: nat): set<nat> {
    set id | id in db.tickets && db.tickets[id].typeId == t && db.tickets[id].Live()
  }

  /** Adds `delta` to tickets_sold of one type; an UPDATE that matches no row changes nothing. */
  function AddSold(types: map<nat, TypeRow>, t: nat, delta: int): map<nat, TypeRow> {
    if t in types then types[t := types[t].(sold := types[t].sold + delta)] else types
  }

  /** Value of one field of the active-reservations hash. */
  datatype Reservation = Reservation(typeId: nat, timestamp: nat)

  /** Inventory counters by type id, active reservations by ticket id, processed ticket ids. */
  datatype Redis = Redis(counters: map<nat, int>, reservations: map<nat, Reservation>, processed: set<nat>)
  {
    /** The reserve script's return value: -1 no counter, 0 empty, 1 decremented. */
    function ReserveResult(t: nat): int {
      if t !in counters then -1 else if counters[t] > 0 then 1 else 0
    }

    /** The reserve script's effect. */
    function Reserve(t: nat): Redis {
      if ReserveResult(t) == 1 then this.(counters := counters[t := counters[t] - 1]) else this
    }

    function SetCounter(t: nat, v: int): Redis {
      this.(counters := counters[t := v])
    }

    function DeleteCounter(t: nat): Redis {
      this.(counters := counters - {t})
    }

    /** INCR starts a missing key at zero. */
    function Incr(t: nat): Redis {
      this.(counters := counters[t := (if t in counters then counters[t] else 0) + 1])
    }

    /** The safe-increment script: a missing key stays missing. */
    function SafeIncr(t: nat): Redis {
      if t in counters then Incr(t) else this
    }

    function Hset(id: nat, r: Reservation): Redis {
      this.(reservations := reservations[id := r])
    }

    function Hdel(id: nat): Redis {
      this.(reservations := reservations - {id})
    }

    /** The idempotent refund script. */
    function Refund(t: nat, id: nat): Redis {
      if id in processed then this
      else this.(processed := processed + {id}).SafeIncr(t).Hdel(id)
    }
  }

  function Bit(b: bool): int { if b then 1 else 0 }

  /** Two sets that agree except about one element. */
  lemma SwapOne(a: set<nat>, b: set<nat>, x: nat)
    requires a - {x} == b - {x}
    ensures |b| - |a| == Bit(x in b) - Bit(x in a)
  {
    SizeWithout(a, x);
    SizeWithout(b, x);
  }

  lemma SizeWithout(a: set<nat>, x: nat)
    ensures |a - {x}| == |a| - Bit(x in a)
  {
    if x in a { assert a == (a - {x}) + {x}; } else { assert a == a - {x}; }
  }

  /** Any finite set can be listed. */
  lemma Enumerate<T>(s: set<T>) returns (list: seq<T>)
    ensures forall x :: x in list <==> x in s
    decreases |s|
  {
    list := [];
    if s != {} {
      var x :| x in s;
      var rest := Enumerate(s - {x});
      list := rest + [x];
    }
  }

  const EmptyRedis := Redis(map[], map[], {})
}
