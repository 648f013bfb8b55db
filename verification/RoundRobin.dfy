/**
 Fairness of the round-robin iterator (redis_queue/v1_0/utils.py:67-96): repeated selection over
 one candidate list, and the spread of a drained worker's keys over the survivors.
 */
module RoundRobin {
  import opened Wrappers
  import opened Collections
  import opened Shards
  import opened Ownership

  /** The uids `m` successive selections yield from candidates `c` and iterator `i`. */
  function Picks(c: seq<Uid>, i: nat, m: nat): (p: seq<Uid>)
    requires c != []
    ensures |p| == m
    decreases m
  {
    if m == 0 then [] else [Pick(c, i)] + Picks(c, Advance(|c|, i), m - 1)
  }

  /** Where the iterator stands after `m` selections. */
  function After(c: seq<Uid>, i: nat, m: nat): nat
    decreases m
  {
    if m == 0 then i else After(c, Advance(|c|, i), m - 1)
  }

  lemma {:induction false} PicksSplit(c: seq<Uid>, i: nat, a: nat, b: nat)
    requires c != []
    ensures Picks(c, i, a + b) == Picks(c, i, a) + Picks(c, After(c, i, a), b)
    decreases a
  {
    if a > 0 {
      PicksSplit(c, Advance(|c|, i), a - 1, b);
    }
  }

  function Rotated(c: seq<Uid>, i: nat): seq<Uid>
    requires i <= |c|
  {
    c[i..] + c[..i]
  }

  /** Up to one full round, selection walks the rotated list. */
  lemma {:induction false} PicksRotate(c: seq<Uid>, i: nat, m: nat)
    requires i < |c| && m <= |c|
    ensures Picks(c, i, m) == Rotated(c, i)[..m]
    ensures After(c, i, m) == if i + m < |c| then i + m else i + m - |c|
    decreases m
  {
    if m > 0 {
      var next := Advance(|c|, i);
      PicksRotate(c, next, m - 1);
      var rest := c[i + 1..] + c[..i];
      assert Rotated(c, i) == [c[i]] + rest;
      if i + 1 < |c| {
        assert c[..i + 1] == c[..i] + [c[i]];
        assert Rotated(c, next) == rest + [c[i]];
      } else {
        assert rest == c[..i] && Rotated(c, next) == c && c == rest + [c[i]];
      }
      assert Rotated(c, next)[..m - 1] == rest[..m - 1];
    }
  }

  ghost predicate Balanced(c: seq<Uid>, picks: seq<Uid>, slack: nat) {
    forall u, v :: u in c && v in c ==> multiset(picks)[u] <= multiset(picks)[v] + slack
  }

  lemma {:induction false} NoDupOnce<T>(s: seq<T>)
    requires NoDup(s)
    ensures forall x :: x in s ==> multiset(s)[x] == 1
  {
    if s != [] {
      assert s == [s[0]] + s[1..];
      NoDupOnce(s[1..]);
      assert s[0] !in multiset(s[1..]);
    }
  }

  /** From an in-range iterator, a full round picks every candidate once and returns the iterator. */
  lemma FullRound(c: seq<Uid>, i: nat)
    requires NoDup(c) && i < |c|
    ensures multiset(Picks(c, i, |c|)) == multiset(c) && After(c, i, |c|) == i
    ensures forall u :: u in c ==> multiset(Picks(c, i, |c|))[u] == 1
  {
    PicksRotate(c, i, |c|);
    assert Rotated(c, i)[..|c|] == Rotated(c, i);
    assert c == c[..i] + c[i..];
    NoDupOnce(c);
  }

  /** Within one round nobody is picked twice. */
  lemma PartRound(c: seq<Uid>, i: nat, m: nat)
    requires NoDup(c) && i < |c| && m <= |c|
    ensures forall u :: multiset(Picks(c, i, m))[u] <= 1
  {
    hide Picks, After, NoDup;
    PicksSplit(c, i, m, |c| - m);
    FullRound(c, i);
    NoDupOnce(c);
    var rest := Picks(c, After(c, i, m), |c| - m);
    assert multiset(c) == multiset(Picks(c, i, m)) + multiset(rest);
    forall u ensures multiset(Picks(c, i, m))[u] <= 1 {
      assert u in multiset(c) ==> u in c;
    }
  }

  /** From an in-range iterator, any number of selections is balanced to within one. */
  lemma {:induction false} PicksBalanced(c: seq<Uid>, i: nat, m: nat)
    requires NoDup(c) && i < |c|
    ensures Balanced(c, Picks(c, i, m), 1)
    decreases m
  {
    hide Picks, After;
    if m <= |c| {
      PartRound(c, i, m);
    } else {
      FullRound(c, i);
      PicksSplit(c, i, |c|, m - |c|);
      PicksBalanced(c, i, m - |c|);
      assert multiset(Picks(c, i, m)) == multiset(Picks(c, i, |c|)) + multiset(Picks(c, i, m - |c|));
    }
  }

  /** From any iterator the balance is within two: an overshooting one repeats the head once. */
  lemma PicksNearlyBalanced(c: seq<Uid>, i: nat, m: nat)
    requires NoDup(c) && c != []
    ensures Balanced(c, Picks(c, i, m), if i < |c| then 1 else 2)
  {
    if i < |c| {
      PicksBalanced(c, i, m);
    } else if m > 0 {
      PicksBalanced(c, 0, m - 1);
      assert multiset(Picks(c, i, m)) == multiset{c[0]} + multiset(Picks(c, 0, m - 1));
    }
  }

  /** From any iterator out of range the head is picked twice and then every other candidate once: the bound of two is met. */
  lemma OvershootRepeatsHead(c: seq<Uid>, i: nat)
    requires NoDup(c) && c != [] && i >= |c|
    ensures Picks(c, i, |c| + 1) == [c[0]] + c
    ensures multiset(Picks(c, i, 2))[c[0]] == 2 && !(|c| > 1 && Balanced(c, Picks(c, i, 2), 1))
  {
    PicksRotate(c, 0, |c|);
    assert Rotated(c, 0)[..|c|] == c;
    assert Picks(c, i, 2) == [c[0]] + ([Pick(c, 0)] + Picks(c, Advance(|c|, 0), 0));
    assert Picks(c, i, 2) == [c[0], c[0]];
    if |c| > 1 {
      assert c[1] != c[0] && c[1] in c;
      assert multiset(Picks(c, i, 2))[c[1]] == 0;
    }
  }

  /** The new owners of the drained keys, in the order they were moved. */
  function NewOwners(db: Db, listed: seq<Key>): seq<Uid>
    requires forall j :: j in listed ==> j in db.owner
  {
    seq(|listed|, i requires 0 <= i < |listed| => db.owner[listed[i]])
  }

  /** The first key of a drain stays with the uid it was given. */
  lemma DrainHead(db: Db, oldUid: Uid, listed: seq<Key>, k: Key, plugin: Uid)
    requires Sound(db) && db.uids != [] && NoDup(listed) && listed != []
    requires forall j :: j in listed ==> j in db.owner && db.owner[j] == oldUid
    ensures var m := Reassign(db, oldUid, listed[0]); var d := Drain(db, oldUid, listed, k, plugin).db;
      && Sound(m.db) && m.db.uids == db.uids && NoDup(listed[1..])
      && (forall j :: j in listed[1..] ==> j in m.db.owner && m.db.owner[j] == oldUid)
      && listed[0] in d.owner && d.owner[listed[0]] == m.uid
  {
    hide Sound, Reassign, Candidates, Count;
    var j := listed[0];
    var rest := listed[1..];
    assert listed == [j] + rest;
    assert j !in rest;
    ReassignMoves(db, oldUid, j);
    var m := Reassign(db, oldUid, j);
    DrainMoves(m.db, oldUid, rest, k, if j == k then m.uid else plugin);
  }

  /** A drain hands its keys out by successive selections over one list of survivors. */
  lemma {:induction false} DrainFollowsPicks(db: Db, oldUid: Uid, listed: seq<Key>, k: Key, plugin: Uid)
    requires Sound(db) && db.uids != [] && NoDup(listed)
    requires forall j :: j in listed ==> j in db.owner && db.owner[j] == oldUid
    ensures var d := Drain(db, oldUid, listed, k, plugin).db;
      && (forall j :: j in listed ==> j in d.owner)
      && NewOwners(d, listed) == Picks(Candidates(db.uids, Some(oldUid)), Iterator(db), |listed|)
    decreases listed
  {
    hide Sound, Reassign, Candidates, NoDup, Iterator;
    if listed != [] {
      var j := listed[0];
      var rest := listed[1..];
      assert listed == [j] + rest;
      DrainHead(db, oldUid, listed, k, plugin);
      SelectedNext(db, oldUid, j);
      var m := Reassign(db, oldUid, j);
      var p := if j == k then m.uid else plugin;
      DrainFollowsPicks(m.db, oldUid, rest, k, p);
      var d := Drain(m.db, oldUid, rest, k, p).db;
      assert NewOwners(d, listed) == [d.owner[j]] + NewOwners(d, rest);
    }
  }

  lemma SelectedNext(db: Db, oldUid: Uid, j: Key)
    requires db.uids != []
    ensures var m := Reassign(db, oldUid, j); var c := Candidates(db.uids, Some(oldUid));
      m.uid == Pick(c, Iterator(db)) && Iterator(m.db) == Advance(|c|, Iterator(db))
  {
  }

  /** Draining spreads the keys evenly: within one, or two when the iterator overshoots the survivors. */
  lemma DrainSpreadsEvenly(db: Db, oldUid: Uid, listed: seq<Key>, k: Key)
    requires Sound(db) && oldUid in db.keys && Lists(listed, db.keys[oldUid])
    ensures db.uids != []
    ensures var d := Drain(db, oldUid, listed, k, oldUid).db; var c := Candidates(db.uids, Some(oldUid));
      && (forall j :: j in listed ==> j in d.owner)
      && Balanced(c, NewOwners(d, listed), if Iterator(db) < |c| then 1 else 2)
      && (|db.uids| > 1 ==> forall u :: u in c <==> u in db.keys && u != oldUid)
  {
    assert oldUid in (set x | x in db.uids);
    ListsElems(listed, db.keys[oldUid]);
    ListsElems(db.uids, db.keys.Keys);
    DrainFollowsPicks(db, oldUid, listed, k, oldUid);
    WithoutLists(db.uids, oldUid);
    PicksNearlyBalanced(Candidates(db.uids, Some(oldUid)), Iterator(db), |listed|);
  }
}
