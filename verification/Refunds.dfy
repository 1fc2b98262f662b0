/** The idempotent refund script over any sequence of calls: what matters is the set of calls. */
module Refunds {
  import opened Stores

  /** One call of the script: the type whose counter is meant, and the ticket id. */
  datatype Credit = Credit(t: nat, id: nat)

  function RefundAll(r: Redis, calls: seq<Credit>): Redis {
    if calls == [] then r
    else
      var k := calls[|calls| - 1];
      RefundAll(r, calls[..|calls| - 1]).Refund(k.t, k.id)
  }

  function CallSet(calls: seq<Credit>): set<Credit> {
    set k | k in calls
  }

  function Ids(calls: set<Credit>): set<nat> {
    set k | k in calls :: k.id
  }

  /** Ids of one type called for and not processed before. */
  function NewIds(calls: set<Credit>, processed: set<nat>, t: nat): set<nat> {
    set k | k in calls && k.t == t && k.id !in processed :: k.id
  }

  /** A ticket has one type. */
  ghost predicate OneType(calls: set<Credit>) {
    forall a, b :: a in calls && b in calls && a.id == b.id ==> a.t == b.t
  }

  function AddNew(counters: map<nat, int>, calls: set<Credit>, processed: set<nat>): map<nat, int> {
    map t | t in counters :: counters[t] + |NewIds(calls, processed, t)|
  }

  /** The state after refunding a set of calls, in no order at all. */
  function RefundSet(r: Redis, calls: set<Credit>): Redis {
    Redis(AddNew(r.counters, calls, r.processed), r.reservations - (Ids(calls) - r.processed), r.processed + Ids(calls))
  }

  lemma CallSetSnoc(calls: seq<Credit>)
    requires calls != []
    ensures CallSet(calls) == CallSet(calls[..|calls| - 1]) + {calls[|calls| - 1]}
  {
    var n := |calls| - 1;
    assert calls == calls[..n] + [calls[n]];
  }

  lemma NewIdsSnoc(calls: set<Credit>, k: Credit, processed: set<nat>, t: nat)
    requires OneType(calls + {k})
    ensures |NewIds(calls + {k}, processed, t)|
         == |NewIds(calls, processed, t)| + if k.t == t && k.id !in processed + Ids(calls) then 1 else 0
  {
    var before, after := NewIds(calls, processed, t), NewIds(calls + {k}, processed, t);
    if k.t == t && k.id !in processed {
      assert after == before + {k.id};
      if k.id in Ids(calls) {
        var b :| b in calls && b.id == k.id;
        assert b in calls + {k} && k in calls + {k};
        assert b == k;
        assert after == before;
      } else {
        assert k.id !in before;
      }
    } else {
      assert after == before;
    }
  }

  lemma AddNewSnoc(counters: map<nat, int>, calls: set<Credit>, k: Credit, processed: set<nat>)
    requires OneType(calls + {k})
    ensures AddNew(counters, calls + {k}, processed)
         == if k.t in counters && k.id !in processed + Ids(calls)
            then AddNew(counters, calls, processed)[k.t := AddNew(counters, calls, processed)[k.t] + 1]
            else AddNew(counters, calls, processed)
  {
    forall t | t in counters
      ensures |NewIds(calls + {k}, processed, t)|
           == |NewIds(calls, processed, t)| + if k.t == t && k.id !in processed + Ids(calls) then 1 else 0
    {
      NewIdsSnoc(calls, k, processed, t);
    }
    AddNewFrom(counters, calls, calls + {k}, processed, k.t, k.id !in processed + Ids(calls));
  }

  lemma AddNewFrom(counters: map<nat, int>, calls: set<Credit>, calls': set<Credit>, processed: set<nat>, t: nat, isNew: bool)
    requires forall u :: u in counters ==>
      |NewIds(calls', processed, u)| == |NewIds(calls, processed, u)| + if u == t && isNew then 1 else 0
    ensures var a := AddNew(counters, calls, processed);
      AddNew(counters, calls', processed) == if t in counters && isNew then a[t := a[t] + 1] else a
  {
  }

  lemma RefundSetSnoc(r: Redis, calls: set<Credit>, k: Credit)
    requires OneType(calls + {k})
    ensures RefundSet(r, calls).Refund(k.t, k.id) == RefundSet(r, calls + {k})
  {
    var a := RefundSet(r, calls);
    assert Ids(calls + {k}) == Ids(calls) + {k.id};
    AddNewSnoc(r.counters, calls, k, r.processed);
    if k.id in r.processed + Ids(calls) {
      assert (Ids(calls) + {k.id}) - r.processed == Ids(calls) - r.processed;
      assert r.processed + (Ids(calls) + {k.id}) == r.processed + Ids(calls);
    } else {
      HashSnoc(r.reservations, Ids(calls), r.processed, k.id);
      assert r.processed + (Ids(calls) + {k.id}) == r.processed + Ids(calls) + {k.id};
    }
  }

  lemma HashSnoc(hash: map<nat, Reservation>, ids: set<nat>, processed: set<nat>, id: nat)
    requires id !in processed
    ensures hash - (ids + {id} - processed) == hash - (ids - processed) - {id}
  {
  }

  /** Refunds are at most once: a sequence of calls, with retries and repeats, does what its set does.
      Every existing counter grows by the number of distinct ids of its type not processed before. */
  lemma {:induction false} RefundsAreASet(r: Redis, calls: seq<Credit>)
    requires OneType(CallSet(calls))
    ensures RefundAll(r, calls) == RefundSet(r, CallSet(calls))
  {
    if calls == [] {
      assert Ids({}) == {};
      forall t | t in r.counters ensures NewIds({}, r.processed, t) == {} { }
      assert AddNew(r.counters, {}, r.processed) == r.counters;
    } else {
      var n := |calls| - 1;
      CallSetSnoc(calls);
      assert OneType(CallSet(calls[..n]));
      RefundsAreASet(r, calls[..n]);
      RefundSetSnoc(r, CallSet(calls[..n]), calls[n]);
    }
  }

  /** Any permutation or repetition of the same calls leaves the same state. */
  lemma RefundsAreOrderFree(r: Redis, calls: seq<Credit>, other: seq<Credit>)
    requires CallSet(calls) == CallSet(other) && OneType(CallSet(calls))
    ensures RefundAll(r, calls) == RefundAll(r, other)
  {
    RefundsAreASet(r, calls);
    RefundsAreASet(r, other);
  }

  lemma {:induction false} RefundFirstOfSeq(r: Redis, k: Credit, calls: seq<Credit>)
    ensures RefundAll(r, [k] + calls) == RefundAll(r.Refund(k.t, k.id), calls)
  {
    if calls == [] {
      assert ([k] + calls)[..0] == [];
    } else {
      RefundFirstOfSeq(r, k, calls[..|calls| - 1]);
      assert ([k] + calls)[..|calls|] == [k] + calls[..|calls| - 1];
    }
  }

  /** Any one call can go first. */
  lemma RefundFirst(r: Redis, k: Credit, calls: set<Credit>)
    requires OneType(calls + {k})
    ensures RefundSet(r.Refund(k.t, k.id), calls) == RefundSet(r, calls + {k})
  {
    var list := Enumerate(calls);
    assert CallSet(list) == calls;
    assert CallSet([k] + list) == calls + {k};
    assert OneType(calls);
    RefundFirstOfSeq(r, k, list);
    RefundsAreASet(r, [k] + list);
    RefundsAreASet(r.Refund(k.t, k.id), list);
  }

  /** One type per id is needed: with two types for one id the first call wins. */
  lemma OrderMattersAcrossTypes()
    ensures var r := Redis(map[1 := 0, 2 := 0], map[], {});
      RefundAll(r, [Credit(1, 7), Credit(2, 7)]) != RefundAll(r, [Credit(2, 7), Credit(1, 7)])
  {
    var r := Redis(map[1 := 0, 2 := 0], map[], {});
    var a, b := [Credit(1, 7), Credit(2, 7)], [Credit(2, 7), Credit(1, 7)];
    assert a[..1] == [Credit(1, 7)] && b[..1] == [Credit(2, 7)];
    assert a[..1][..0] == [] && b[..1][..0] == [] && RefundAll(r, []) == r;
    assert RefundAll(r, a[..1]) == r.Refund(1, 7) && RefundAll(r, b[..1]) == r.Refund(2, 7);
    assert RefundAll(r, a).counters[1] == 1;
    assert RefundAll(r, b).counters[1] == 0;
  }
}
