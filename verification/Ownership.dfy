/**
 What a producer call keeps, moves and counts, with the whole call as one step
 (redis_queue/v1_0/utils.py). The two ownership maps are one relation, and pending counts
 exist exactly for the pairs of that relation.
 */
module Ownership {
  import opened Wrappers
  import opened Collections
  import opened Shards

  ghost predicate Consistent(db: Db) {
    && (forall k :: k in db.owner ==> db.owner[k] in db.keys && k in db.keys[db.owner[k]])
    && (forall u, k :: u in db.keys && k in db.keys[u] ==> k in db.owner && db.owner[k] == u)
  }

  ghost predicate Counted(db: Db) {
    forall u, k :: (u, k) in db.pending <==> k in db.owner && db.owner[k] == u
  }

  ghost predicate Sound(db: Db) {
    Wf(db) && Consistent(db) && Counted(db)
  }

  /** The pending count of a key at its owner; 0 while the key is unassigned. */
  function Count(db: Db, k: Key): nat {
    if k in db.owner && (db.owner[k], k) in db.pending then db.pending[(db.owner[k], k)] else 0
  }

  /** From `a` to `b` only the keys `ks` may have changed owner, and no count changed. */
  ghost predicate Moved(a: Db, b: Db, ks: set<Key>) {
    && Sound(b) && b.uids == a.uids && b.keys.Keys == a.keys.Keys && b.stamps == a.stamps
    && b.owner.Keys == a.owner.Keys
    && (forall k :: k in a.owner ==> Count(b, k) == Count(a, k))
    && (forall k :: k in a.owner && k !in ks ==> b.owner[k] == a.owner[k])
    && Sum(b.pending) == Sum(a.pending)
  }

  lemma SelectRegistered(db: Db, ignore: Option<Uid>)
    requires Wf(db) && db.uids != []
    ensures var s := Select(db, ignore);
      && s.uid in db.keys
      && (ignore.Some? && |db.uids| > 1 ==> s.uid != ignore.value)
      && s.db == db.(rr := s.db.rr)
  {
    if ignore.Some? {
      WithoutLists(db.uids, ignore.value);
    }
    assert forall u :: u in db.uids ==> u in (set x | x in db.uids);
  }

  /** The uid at place `i` of `c`, or the head if there is none; next comes the next place, or 0 past the end. */
  predicate TakenFrom(c: seq<Uid>, i: nat, u: Uid, next: nat) {
    c != [] && u == (if i < |c| then c[i] else c[0]) && next == if i + 1 < |c| then i + 1 else 0
  }

  /**
   What one selection over the registry `uids` with the stored iterator `rr` yields: a uid of the
   registry without the ignored one, in its order, unless that is the only one; and the iterator
   it stores.
   */
  ghost predicate Yields(uids: seq<Uid>, rr: Option<nat>, ignore: Option<Uid>, u: Uid, next: nat) {
    var i := if rr.Some? then rr.value else 0;
    if ignore.Some? && |uids| > 1 && ignore.value in uids then
      forall x :: 0 <= x < |uids| && uids[x] == ignore.value ==> TakenFrom(uids[..x] + uids[x + 1..], i, u, next)
    else TakenFrom(uids, i, u, next)
  }

  lemma WithoutAt(uids: seq<Uid>, x: nat)
    requires NoDup(uids) && x < |uids|
    ensures Without(uids, uids[x]) == uids[..x] + uids[x + 1..]
  {
    assert uids == uids[..x] + [uids[x]] + uids[x + 1..];
    WithoutSplit(uids[..x], uids[x], uids[x + 1..]);
  }

  lemma SelectTakes(db: Db, ignore: Option<Uid>)
    requires db.uids != []
    ensures var s := Select(db, ignore);
      && s.db.rr.Some? && s.db == db.(rr := s.db.rr)
      && TakenFrom(Candidates(db.uids, ignore), if db.rr.Some? then db.rr.value else 0, s.uid, s.db.rr.value)
  {
    hide Candidates;
  }

  lemma SelectYields(db: Db, ignore: Option<Uid>)
    requires Wf(db) && db.uids != []
    ensures var s := Select(db, ignore);
      s.db.rr.Some? && Yields(db.uids, db.rr, ignore, s.uid, s.db.rr.value) && s.db == db.(rr := s.db.rr)
  {
    SelectTakes(db, ignore);
    hide Select, TakenFrom, Without;
    var uids := db.uids;
    if ignore.Some? && |uids| > 1 && ignore.value in uids {
      forall x | 0 <= x < |uids| && uids[x] == ignore.value
        ensures Candidates(uids, ignore) == uids[..x] + uids[x + 1..]
      {
        WithoutAt(uids, x);
      }
      hide Candidates;
    }
  }

  /** With two uids registered a selection that ignores one finds another. */
  lemma CandidatesOthers(db: Db, u: Uid, other: Uid)
    requires Wf(db) && u in db.keys && other in db.keys && other != u
    ensures db.uids != [] && Candidates(db.uids, Some(u)) != [] && u !in Candidates(db.uids, Some(u))
  {
    ListsElems(db.uids, db.keys.Keys);
    WithoutLists(db.uids, u);
    var x :| 0 <= x < |db.uids| && db.uids[x] == u;
    var y :| 0 <= y < |db.uids| && db.uids[y] == other;
    assert x != y;
  }

  /** `b` is `a` with the unassigned key `k` given to `u` at count 0. */
  ghost predicate Given(a: Db, b: Db, u: Uid, k: Key) {
    && u in a.keys && b.uids == a.uids && b.stamps == a.stamps && b.owner == a.owner[k := u]
    && b.keys == a.keys[u := a.keys[u] + {k}] && b.pending == a.pending[(u, k) := 0]
  }

  lemma AssignGives(db: Db, k: Key)
    requires Sound(db) && db.uids != [] && k !in db.owner
    ensures Given(db, Assign(db, k).db, Assign(db, k).uid, k)
  {
    SelectRegistered(db, None);
  }

  lemma GivenConsistent(a: Db, b: Db, u: Uid, k: Key)
    requires Sound(a) && k !in a.owner && Given(a, b, u, k)
    ensures Consistent(b) && b.keys.Keys == a.keys.Keys
  {
    hide NoDup, Counted;
  }

  lemma GivenCounted(a: Db, b: Db, u: Uid, k: Key)
    requires Sound(a) && k !in a.owner && Given(a, b, u, k)
    ensures Counted(b) && Count(b, k) == 0 && (forall j :: j in a.owner ==> Count(b, j) == Count(a, j))
    ensures Sum(b.pending) == Sum(a.pending)
  {
    hide NoDup, Consistent;
    SumPut(a.pending, (u, k), 0);
    SumDrop(a.pending, (u, k));
  }

  lemma AssignSound(db: Db, k: Key)
    requires Sound(db) && db.uids != [] && k !in db.owner
    ensures var a := Assign(db, k);
      && Sound(a.db) && a.db.uids == db.uids && a.db.keys.Keys == db.keys.Keys && a.db.stamps == db.stamps
      && a.uid in db.keys && a.db.owner == db.owner[k := a.uid]
      && Count(a.db, k) == 0 && (forall j :: j in db.owner ==> Count(a.db, j) == Count(db, j))
      && Sum(a.db.pending) == Sum(db.pending)
  {
    hide Assign, NoDup, Sum, Consistent, Counted, Count;
    AssignGives(db, k);
    var a := Assign(db, k);
    GivenConsistent(db, a.db, a.uid, k);
    GivenCounted(db, a.db, a.uid, k);
  }

  /** `b` is `a` with `k` carried from `src` to `dst`, its count along with it. */
  ghost predicate Shifted(a: Db, b: Db, src: Uid, dst: Uid, k: Key) {
    && src in a.keys && dst in a.keys && (src, k) in a.pending
    && b.uids == a.uids && b.stamps == a.stamps && b.owner == a.owner[k := dst]
    && b.keys == a.keys[src := a.keys[src] - {k}][dst := a.keys[dst] + {k}]
    && b.pending == (a.pending - {(src, k)})[(dst, k) := a.pending[(src, k)]]
  }

  lemma ReassignShifts(db: Db, oldUid: Uid, k: Key)
    requires Sound(db) && k in db.owner && db.owner[k] == oldUid
    ensures db.uids != []
    ensures var m := Reassign(db, oldUid, k);
      Shifted(db, m.db, oldUid, m.uid, k) && (|db.uids| > 1 ==> m.uid != oldUid)
  {
    assert oldUid in (set x | x in db.uids);
    SelectRegistered(db, Some(oldUid));
    var m := Reassign(db, oldUid, k);
    assert (m.uid, k) !in db.pending - {(oldUid, k)};
  }

  lemma ShiftConsistent(a: Db, b: Db, src: Uid, dst: Uid, k: Key)
    requires Sound(a) && Shifted(a, b, src, dst, k)
    ensures Consistent(b) && b.keys.Keys == a.keys.Keys
  {
    assert k in a.owner && a.owner[k] == src;
    forall u, j | u in b.keys && j in b.keys[u] ensures j in b.owner && b.owner[j] == u {
      if j != k {
        assert j in a.keys[u];
      }
    }
  }

  lemma ShiftSum(a: Db, b: Db, src: Uid, dst: Uid, k: Key)
    requires Sound(a) && Shifted(a, b, src, dst, k)
    ensures Sum(b.pending) == Sum(a.pending)
  {
    var rest := a.pending - {(src, k)};
    SumDrop(a.pending, (src, k));
    SumPut(rest, (dst, k), a.pending[(src, k)]);
    assert (dst, k) !in rest;
    assert rest - {(dst, k)} == rest;
  }

  lemma ShiftCounted(a: Db, b: Db, src: Uid, dst: Uid, k: Key)
    requires Sound(a) && Shifted(a, b, src, dst, k)
    ensures Counted(b) && forall j :: j in a.owner ==> Count(b, j) == Count(a, j)
  {
  }

  /** One move: counts and registrations stay, the key goes to the selected uid. */
  lemma ReassignMoves(db: Db, oldUid: Uid, k: Key)
    requires Sound(db) && k in db.owner && db.owner[k] == oldUid
    ensures db.uids != []
    ensures var m := Reassign(db, oldUid, k);
      && Moved(db, m.db, {k}) && m.uid in db.keys && m.db.owner[k] == m.uid
      && (|db.uids| > 1 ==> m.uid != oldUid)
      && (m.uid == oldUid ==> m.db == db.(rr := m.db.rr))
  {
    hide Reassign, NoDup, Consistent, Counted, Count;
    ReassignShifts(db, oldUid, k);
    var m := Reassign(db, oldUid, k);
    ShiftConsistent(db, m.db, oldUid, m.uid, k);
    ShiftCounted(db, m.db, oldUid, m.uid, k);
    ShiftSum(db, m.db, oldUid, m.uid, k);
    if m.uid == oldUid {
      ReassignRestores(db, oldUid, k);
    }
  }

  /** With the new uid equal to the old one a move changes the iterator only. */
  lemma ReassignRestores(db: Db, oldUid: Uid, k: Key)
    requires Sound(db) && k in db.owner && db.owner[k] == oldUid && db.uids != []
    requires Reassign(db, oldUid, k).uid == oldUid
    ensures var m := Reassign(db, oldUid, k); m.db == db.(rr := m.db.rr)
  {
    ReassignShifts(db, oldUid, k);
    var m := Reassign(db, oldUid, k);
    assert db.keys[oldUid] - {k} + {k} == db.keys[oldUid];
    assert m.db.pending == db.pending && m.db.keys == db.keys && m.db.owner == db.owner;
  }

  lemma MovedTrans(a: Db, b: Db, c: Db, ks: set<Key>, js: set<Key>)
    requires Moved(a, b, ks) && Moved(b, c, js)
    ensures Moved(a, c, ks + js)
  {
  }

  /** Draining a uid: counts stay, and with another uid registered it keeps none of its listed keys. */
  lemma {:induction false} DrainMoves(db: Db, oldUid: Uid, listed: seq<Key>, k: Key, plugin: Uid)
    requires Sound(db) && db.uids != [] && NoDup(listed)
    requires forall j :: j in listed ==> j in db.owner && db.owner[j] == oldUid
    ensures var d := Drain(db, oldUid, listed, k, plugin);
      && Moved(db, d.db, set j | j in listed)
      && d.uid == (if k in listed then d.db.owner[k] else plugin)
      && (|db.uids| > 1 ==> forall j :: j in listed ==> d.db.owner[j] != oldUid)
    decreases listed
  {
    hide Sound, Reassign, Count;
    if listed != [] {
      var j := listed[0];
      var rest := listed[1..];
      assert listed == [j] + rest;
      assert j !in rest;
      ReassignMoves(db, oldUid, j);
      var m := Reassign(db, oldUid, j);
      var p := if j == k then m.uid else plugin;
      assert forall i :: i in rest ==> m.db.owner[i] == db.owner[i];
      DrainMoves(m.db, oldUid, rest, k, p);
      var d := Drain(m.db, oldUid, rest, k, p);
      assert d.db.owner[j] == m.uid;
      MovedTrans(db, m.db, d.db, {j}, set x | x in rest);
      assert {j} + (set x | x in rest) == set x | x in listed;
    }
  }

  /** With a single worker the old and the new uid are the same, and a drain restores everything but the iterator. */
  lemma {:induction false} DrainAlone(db: Db, oldUid: Uid, listed: seq<Key>, k: Key, plugin: Uid)
    requires Sound(db) && |db.uids| == 1
    requires forall j :: j in listed ==> j in db.owner && db.owner[j] == oldUid
    ensures var d := Drain(db, oldUid, listed, k, plugin); d.db == db.(rr := d.db.rr)
    decreases listed
  {
    hide Reassign, Count, Sum, NoDup, Counted;
    if listed != [] {
      var j := listed[0];
      ReassignMoves(db, oldUid, j);
      var m := Reassign(db, oldUid, j);
      assert m.uid in (set x | x in db.uids) && oldUid in (set x | x in db.uids);
      DrainAlone(m.db, oldUid, listed[1..], k, if j == k then m.uid else plugin);
    }
  }

  /** The owner a call starts from: the stored one, or the one it assigns. */
  lemma RouteSound(db: Db, k: Key)
    requires Sound(db) && (k in db.owner || db.uids != [])
    ensures var r := Route(db, k);
      && Sound(r.db) && r.db.uids == db.uids && r.db.uids != [] && r.db.keys.Keys == db.keys.Keys
      && r.db.stamps == db.stamps
      && r.uid in db.keys && r.db.owner == db.owner[k := r.uid]
      && Count(r.db, k) == Count(db, k) && (forall j :: j in db.owner ==> Count(r.db, j) == Count(db, j))
      && Sum(r.db.pending) == Sum(db.pending)
  {
    if k in db.owner {
      assert db.owner[k] in (set x | x in db.uids);
    } else {
      AssignSound(db, k);
    }
  }

  /** What a call does before it counts the message: `r` is the owner it starts from, `drained` the keys it drains. */
  ghost predicate SettledFrom(db: Db, k: Key, r: Routed, drained: set<Key>, s: Routed) {
    && Sound(s.db) && s.db.uids != [] && s.db.stamps == db.stamps && s.db.keys.Keys <= db.keys.Keys
    && s.db.owner.Keys == db.owner.Keys + {k} && s.db.owner[k] == s.uid
    && Count(s.db, k) == Count(db, k) && (forall j :: j in db.owner ==> Count(s.db, j) == Count(db, j))
    && Sum(s.db.pending) == Sum(db.pending)
    && (forall j :: j in db.owner && j !in drained ==> s.db.owner[j] == db.owner[j])
    && (drained == {} ==> s == r)
    && (drained != {} && |db.uids| == 1 ==> s.db == r.db.(rr := s.db.rr))
    && (drained != {} && |db.uids| > 1 ==> s.db.keys.Keys == db.keys.Keys - {r.uid})
    && (|db.uids| == 1 || drained == {} ==> s.db.keys.Keys == db.keys.Keys)
  }

  ghost predicate Settled(db: Db, k: Key, now: real, s: Routed)
    requires k in db.owner || db.uids != []
  {
    var r := Route(db, k);
    SettledFrom(db, k, r, if MustDrain(r.db, r.uid, now) then KeysOf(r.db, r.uid) else {}, s)
  }

  lemma DeregisterSound(db: Db, u: Uid, order: seq<Uid>)
    requires Sound(db) && |db.uids| > 1 && u in db.keys && db.keys[u] == {}
    requires Lists(order, db.keys.Keys - {u})
    ensures var d := Deregister(db, u, order);
      Sound(d) && d.uids != [] && forall k :: k in db.owner ==> Count(d, k) == Count(db, k)
  {
    ListsSize(db.uids, db.keys.Keys);
    ListsSize(order, db.keys.Keys - {u});
  }

  /** The drained uid's list is empty exactly when it was not alone. */
  lemma DrainEmpties(db: Db, u: Uid, listed: seq<Key>, k: Key)
    requires Sound(db) && |db.uids| > 1 && u in db.keys && Lists(listed, db.keys[u])
    ensures var d := Drain(db, u, listed, k, u);
      && Moved(db, d.db, db.keys[u]) && KeysOf(d.db, u) == {}
      && (k in db.keys[u] ==> d.uid == d.db.owner[k])
  {
    hide Drain, NoDup, Lists, Counted, Count;
    ListsElems(listed, db.keys[u]);
    DrainMoves(db, u, listed, k, u);
    assert (set j | j in listed) == db.keys[u];
    var d := Drain(db, u, listed, k, u).db;
    assert forall j :: j in d.keys[u] ==> j in db.owner && (j in listed <==> db.owner[j] == u);
  }

  lemma DrainKeepsUids(db: Db, u: Uid, listed: seq<Key>, k: Key)
    requires Sound(db) && u in db.keys && Lists(listed, db.keys[u])
    ensures db.uids != []
    ensures Drain(db, u, listed, k, u).db.keys.Keys == db.keys.Keys
  {
    hide Drain;
    ListsElems(db.uids, db.keys.Keys);
    ListsElems(listed, db.keys[u]);
    DrainMoves(db, u, listed, k, u);
  }

  lemma SoundButIterator(a: Db, b: Db)
    requires Sound(a) && b == a.(rr := b.rr)
    ensures Sound(b)
  {
  }

  lemma EvacuateSettlesAlone(db: Db, k: Key, now: real, c: Choice)
    requires Sound(db) && (k in db.owner || db.uids != []) && Allowed(db, k, now, c)
    requires MustDrain(Route(db, k).db, Route(db, k).uid, now) && |db.uids| == 1
    ensures Settled(db, k, now, Evacuate(Route(db, k).db, Route(db, k).uid, k, c))
  {
    hide Evacuate, Route, Stale, Lists, Allowed, Wf, Counted;
    RouteSound(db, k);
    DrainAloneEvacuates(db, k, now, c);
    var r := Route(db, k);
    var s := Evacuate(r.db, r.uid, k, c);
    SoundButIterator(r.db, s.db);
    assert forall j :: Count(s.db, j) == Count(r.db, j);
    hide Sound, Count;
  }

  lemma ListedOwned(db: Db, u: Uid, k: Key)
    requires Sound(db) && u in db.keys && k in db.keys[u]
    ensures k in db.owner && db.owner[k] == u
  {
  }

  /** Evacuating a uid that is not alone: it is gone, its keys are elsewhere, no count changed. */
  lemma EvacuateAmong(db: Db, u: Uid, k: Key, c: Choice)
    requires Sound(db) && |db.uids| > 1 && u in db.keys && k in db.keys[u]
    requires Lists(c.listed, db.keys[u]) && Lists(c.order, db.keys.Keys - {u})
    ensures var s := Evacuate(db, u, k, c); k in db.owner && SettledFrom(db, k, Routed(db, u), db.keys[u], s)
  {
    hide Drain, Lists, Wf, Counted, Consistent, Count;
    DrainEmpties(db, u, c.listed, k);
    var d := Drain(db, u, c.listed, k, u).db;
    assert u in d.keys && KeysOf(d, u) == d.keys[u];
    DeregisterSound(d, u, c.order);
    ListedOwned(db, u, k);
  }

  /** Settling carries over from the routed database to the one the call began with. */
  lemma SettledBefore(db: Db, k: Key, r: Routed, drained: set<Key>, s: Routed)
    requires SettledFrom(r.db, k, r, drained, s) && k in drained && |db.uids| > 1
    requires r.db.uids == db.uids && r.db.stamps == db.stamps && r.db.keys.Keys == db.keys.Keys
    requires r.db.owner == db.owner[k := r.uid] && Sum(r.db.pending) == Sum(db.pending)
    requires Count(r.db, k) == Count(db, k) && forall j :: j in db.owner ==> Count(r.db, j) == Count(db, j)
    ensures SettledFrom(db, k, r, drained, s)
  {
    hide Sound, Count, Sum;
  }

  lemma EvacuateSettlesAmong(db: Db, k: Key, now: real, c: Choice)
    requires Sound(db) && (k in db.owner || db.uids != []) && Allowed(db, k, now, c)
    requires MustDrain(Route(db, k).db, Route(db, k).uid, now) && |db.uids| > 1
    ensures Settled(db, k, now, Evacuate(Route(db, k).db, Route(db, k).uid, k, c))
  {
    hide Evacuate, Route, Lists, Stale, SettledFrom, Count, Sum;
    RouteSound(db, k);
    var r := Route(db, k);
    assert k in r.db.owner && r.db.owner[k] == r.uid;
    assert k in r.db.keys[r.uid];
    EvacuateAmong(r.db, r.uid, k, c);
    SettledBefore(db, k, r, r.db.keys[r.uid], Evacuate(r.db, r.uid, k, c));
  }

  lemma EvacuateSettles(db: Db, k: Key, now: real, c: Choice)
    requires Sound(db) && (k in db.owner || db.uids != []) && Allowed(db, k, now, c)
    requires MustDrain(Route(db, k).db, Route(db, k).uid, now)
    ensures Settled(db, k, now, Evacuate(Route(db, k).db, Route(db, k).uid, k, c))
  {
    hide *;
    RouteSound(db, k);
    if |db.uids| == 1 {
      EvacuateSettlesAlone(db, k, now, c);
    } else {
      EvacuateSettlesAmong(db, k, now, c);
    }
  }

  lemma DrainAloneEvacuates(db: Db, k: Key, now: real, c: Choice)
    requires Sound(db) && (k in db.owner || db.uids != []) && Allowed(db, k, now, c) && |db.uids| == 1
    requires MustDrain(Route(db, k).db, Route(db, k).uid, now)
    ensures var s := Evacuate(Route(db, k).db, Route(db, k).uid, k, c);
      s.uid == Route(db, k).uid && s.db == Route(db, k).db.(rr := s.db.rr)
  {
    hide Route, Stale, NoDup, Drain;
    RouteSound(db, k);
    var r := Route(db, k);
    ListsElems(c.listed, r.db.keys[r.uid]);
    DrainAlone(r.db, r.uid, c.listed, k, r.uid);
    DrainMoves(r.db, r.uid, c.listed, k, r.uid);
  }

  /** A call that neither assigns nor drains, or assigns only. */
  lemma KeptBy(db: Db, k: Key, r: Routed)
    requires (k in db.owner || db.uids != []) && r == Route(db, k)
    ensures forall j :: j in db.owner ==> j in r.db.owner && r.db.owner[j] == db.owner[j]
  {
  }

  lemma SettleSettles(db: Db, k: Key, now: real, c: Choice)
    requires Sound(db) && (k in db.owner || db.uids != []) && Allowed(db, k, now, c)
    ensures Settled(db, k, now, Settle(db, k, now, c))
  {
    hide Evacuate, Route, Allowed, Stale, Consistent, Counted, Count, Sum;
    var r := Route(db, k);
    if MustDrain(r.db, r.uid, now) {
      EvacuateSettles(db, k, now, c);
      hide SettledFrom;
    } else {
      RouteSound(db, k);
      KeptBy(db, k, r);
    }
  }
}
