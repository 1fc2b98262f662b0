/** Where runs may begin: any history of complete operations ends in a state from which the results
    about interleavings apply. */
module Quiescence {
  import opened Stores
  import opened Protocol
  import O = Operations
  import S = Consistency
  import I = Invariants
  import A = Alone
  import G = Collector
  import R = ConservationRuns
  import Sale = SellOut
  import L = Ledger
  import F = RefundRuns
  import H = HungRuns
  import D = Admission

  /** Requests and jobs that have ended or not begun, and a worker's own database with nothing but
      processed ids. */
  predicate AtRest(s: State) {
    (forall j :: 0 <= j < |s.procs| ==> s.procs[j].Done? || Start(s.procs[j])) &&
    s.wrk.counters == map[] && s.wrk.reservations == map[] && forall id :: id in s.wrk.processed ==> id < s.db.nextTicket
  }

  lemma SoundStoresAreOk(c: Config, s: State, cache: O.Cache)
    requires AtRest(s) && S.Sound(A.WorldIn(s, cache))
    ensures I.RedisOk(c, s)
  {
    var w := A.WorldIn(s, cache);
    forall id | id in s.api.reservations ensures I.EntryOk(s, id, s.api.reservations[id]) && id !in s.api.processed {
      assert S.EntryOk(w, id, w.redis.reservations[id]);
    }
  }

  lemma NothingHeld(c: Config, s: State)
    requires AtRest(s)
    ensures I.Exclusive(s.procs) && (forall j :: 0 <= j < |s.procs| ==> I.ProcOk(c, s, s.procs[j])) && G.GcSafe(s) && G.Timely(s)
  {
  }

  /** A sound world at rest satisfies the base invariant and the premises about collectors and refunds. */
  lemma SoundWorldStarts(c: Config, s: State, cache: O.Cache)
    requires AtRest(s) && S.Sound(A.WorldIn(s, cache))
    ensures I.Inv(c, s) && G.GcSafe(s) && G.Timely(s) && F.Agree(s) && F.Traced(c, s) && H.AllLateOnly(c, s) && D.AllBacked(s)
    ensures forall t :: t in s.db.types ==> L.Gap(s.db, t) == 0
  {
    SoundStoresAreOk(c, s, cache);
    NothingHeld(c, s);
    forall id, t, u | F.Names(s, id, t) && F.Names(s, id, u) ensures t == u {
      NamedInStores(s, id, t);
      NamedInStores(s, id, u);
    }
  }

  lemma NamedInStores(s: State, id: nat, t: nat)
    requires AtRest(s) && F.Names(s, id, t)
    ensures (id in s.db.tickets && s.db.tickets[id].typeId == t) || (id in s.api.reservations && s.api.reservations[id].typeId == t)
  {
    assert forall j :: 0 <= j < |s.procs| ==> !F.ProcNames(s.procs[j], id, t);
  }

  /** When the stores agree and everybody is done, each warm type is ready for conservation. */
  lemma ConsistentWorldIsExact(c: Config, s: State, cache: O.Cache, t: nat)
    requires AtRest(s) && S.Consistent(A.WorldIn(s, cache)) && t in s.api.counters
    requires forall j :: 0 <= j < |s.procs| ==> s.procs[j].Done?
    ensures R.Exact(c, s, t)
  {
    var w := A.WorldIn(s, cache);
    SoundWorldStarts(c, s, cache);
    S.ConsistentMeans(w, s.now, O.Runs);
    forall id | id in s.api.processed && id in s.db.tickets ensures !s.db.tickets[id].Live() {
      assert !S.LiveIn(w, id);
    }
  }

  /** ... and with nothing but creates on one type about to begin, for the sale, warm or cold. */
  lemma ConsistentWorldOpensSale(c: Config, s: State, cache: O.Cache, t: nat)
    requires AtRest(s) && S.Consistent(A.WorldIn(s, cache)) && t in s.db.types
    requires forall j :: 0 <= j < |s.procs| ==> s.procs[j].CreateStart? && s.procs[j].t == t
    ensures Sale.Opening(c, s, t)
  {
    SoundWorldStarts(c, s, cache);
    S.ConsistentMeans(A.WorldIn(s, cache), s.now, O.Runs);
  }

  /** The first state of all: no rows, no keys. */
  lemma EmptyWorldIsConsistent()
    ensures S.Consistent(O.World(Db(map[], map[], map[], 1, 1, 1), EmptyRedis, O.Cache(map[], map[], None)))
  {
  }
}
