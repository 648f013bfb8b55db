/**
 Two overlapping calls of which one drains (redis_queue/v1_0/utils.py:117-156, 175-208). From every
 database, whatever the keys of the two calls, some schedule with worker commands leaves the maps
 in disagreement: only calls that do not drain can be safe, and OverlapSchedules says which are.
 */
module OverlapDrains {
  import opened Wrappers
  import opened Collections
  import opened Shards
  import opened Ownership
  import opened ShardCommands
  import opened CallRefinement
  import opened OverlappingCalls
  import opened OverlapSchedules

  /** Every schedule of the two whole calls at one instant, `since` or later, leaves the maps in agreement, drains included. */
  ghost predicate SafeWhole(db: Db, j: Key, k: Key, since: real) {
    forall turns, now: real | since <= now && Schedule(BothBegin(db, j, k), turns) && AtInstant(turns, now) ::
      BothDone(End(BothBegin(db, j, k), turns)) ==> Agrees(End(BothBegin(db, j, k), turns).db)
  }

  /** Registrations and drains at any time, the clock at `now`. */
  function Any(now: real): Limit {
    Limit(false, false, now)
  }

  // ---- A disagreement that stays ----

  /** The maps disagree on whether `w` owns `j`. */
  ghost predicate Off(db: Db, j: Key, w: Uid) {
    j in db.owner && (db.owner[j] == w) != (j in KeysOf(db, w))
  }

  lemma OffDisagrees(db: Db, j: Key, w: Uid)
    requires Off(db, j, w)
    ensures !Agrees(db)
  {
  }

  lemma ReassignOff(db: Db, src: Uid, x: Key, j: Key, w: Uid)
    requires Off(db, j, w) && x != j && db.uids != []
    ensures Off(Reassign(db, src, x).db, j, w)
  {
    hide Candidates, Pick;
  }

  lemma {:induction false} DrainOff(db: Db, src: Uid, listed: seq<Key>, k: Key, plugin: Uid, j: Key, w: Uid)
    requires Off(db, j, w) && j !in listed && db.uids != []
    ensures Off(Drain(db, src, listed, k, plugin).db, j, w)
    decreases listed
  {
    hide Off, Reassign;
    if listed != [] {
      ReassignOff(db, src, listed[0], j, w);
      var m := Reassign(db, src, listed[0]);
      DrainOff(m.db, src, listed[1..], k, if listed[0] == k then m.uid else plugin, j, w);
    }
  }

  // ---- One call runs while the rest stands still ----

  /** A run of one call's own commands is a schedule of the two. */
  lemma {:induction false} RunsAlone(s: Duo, y: Duo, t: Turn, acts: seq<Act>) returns (z: Duo)
    requires !t.Worker? && Reaches(s, y, Any(t.now))
    requires var v := View(y, t);
      Alone(acts, t.now, t.c) && Trace(Sys(State(v.db, v.a.pc), v.a.key), acts)
    ensures Reaches(s, z, Any(t.now))
    ensures var v := View(y, t); var e := Final(Sys(State(v.db, v.a.pc), v.a.key), acts);
      z.db == e.s.db && View(z, t).a.pc == e.s.pc && View(z, t).a.key == v.a.key && View(z, t).b == v.b
    decreases acts
  {
    hide Reaches, Command, Possible, Busy;
    z := y;
    if acts != [] {
      assert acts[0] in acts;
      forall a | a in acts[1..] ensures a == Producer(t.now, t.c) {
        assert a in acts;
      }
      z := Go(s, y, t, Any(t.now));
      z := RunsAlone(s, z, t, acts[1..]);
    }
  }

  lemma LeadsAlone(s: Duo, y: Duo, t: Turn, e: State) returns (z: Duo)
    requires !t.Worker? && Reaches(s, y, Any(t.now))
    requires Leads(State(y.db, View(y, t).a.pc), e, View(y, t).a.key, t.now, t.c)
    ensures Reaches(s, z, Any(t.now)) && z.db == e.db
    ensures View(z, t).a.pc == e.pc && View(z, t).a.key == View(y, t).a.key && View(z, t).b == View(y, t).b
  {
    hide Reaches;
    var x := Sys(State(y.db, View(y, t).a.pc), View(y, t).a.key);
    var acts :| Alone(acts, t.now, t.c) && Trace(x, acts) && Final(x, acts) == Sys(e, x.k);
    z := RunsAlone(s, y, t, acts);
  }

  lemma FindsOwner(s: Duo, y: Duo, t: Turn, u: Uid) returns (z: Duo)
    requires !t.Worker? && Reaches(s, y, Any(t.now)) && View(y, t).a.pc.Exists?
    requires View(y, t).a.key in y.db.owner && y.db.owner[View(y, t).a.key] == u
    ensures Reaches(s, z, Any(t.now)) && z.db == y.db
    ensures View(z, t).a.pc == ReadStamp(u) && View(z, t).a.key == View(y, t).a.key && View(z, t).b == View(y, t).b
  {
    hide Reaches;
    z := Go(s, y, t, Any(t.now));
    z := Go(s, z, t, Any(t.now));
  }

  /** A call finds its owner stale and its first listed key backlogged. */
  lemma StartsDrain(s: Duo, y: Duo, t: Turn, u: Uid) returns (z: Duo)
    requires !t.Worker? && Reaches(s, y, Any(t.now)) && View(y, t).a.pc.Exists?
    requires View(y, t).a.key in y.db.owner && y.db.owner[View(y, t).a.key] == u
    requires Stale(y.db, u, t.now) && Lists(t.c.listed, KeysOf(y.db, u)) && t.c.listed != []
    requires Backlogged(y.db, u, t.c.listed[0])
    ensures Reaches(s, z, Any(t.now)) && z.db == y.db
    ensures View(z, t).a.pc == Probe(ForMove(Job(u, t.c.listed, 0, u))) && View(z, t).a.key == View(y, t).a.key
    ensures View(z, t).b == View(y, t).b
  {
    hide Reaches, Stale, Backlogged, Lists;
    z := FindsOwner(s, y, t, u);
    z := Go(s, z, t, Any(t.now));
    z := Go(s, z, t, Any(t.now));
    z := Go(s, z, t, Any(t.now));
  }

  lemma MovesOne(s: Duo, y: Duo, t: Turn, job: Job) returns (z: Duo)
    requires !t.Worker? && Reaches(s, y, Any(t.now)) && View(y, t).a.pc == Probe(ForMove(job))
    requires job.j < |job.listed| && y.db.uids != []
    ensures Reaches(s, z, Any(t.now))
    ensures var m := Reassign(y.db, job.src, job.listed[job.j]);
      z.db == m.db && View(z, t).a.pc == Advanced(job, m.uid, View(y, t).a.key)
    ensures View(z, t).a.key == View(y, t).a.key && View(z, t).b == View(y, t).b
  {
    hide Reaches, Leads, Reassign;
    var m := Reassign(y.db, job.src, job.listed[job.j]);
    MoveLeads(y.db, job, View(y, t).a.key, t.now, t.c);
    z := LeadsAlone(s, y, t, State(m.db, Advanced(job, m.uid, View(y, t).a.key)));
  }

  lemma Listing<T>(elems: set<T>) returns (s: seq<T>)
    ensures Lists(s, elems)
    decreases elems
  {
    s := [];
    if elems != {} {
      var x :| x in elems;
      var rest := Listing(elems - {x});
      AppendLists(rest, elems - {x}, x);
      assert elems - {x} + {x} == elems;
      s := rest + [x];
    }
  }

  lemma CountsOff(s: Duo, y: Duo, t: Turn, j: Key, w: Uid) returns (z: Duo)
    requires !t.Worker? && Reaches(s, y, Any(t.now)) && View(y, t).a.pc.CountMsg? && Off(y.db, j, w)
    ensures Reaches(s, z, Any(t.now)) && Off(z.db, j, w)
    ensures View(z, t).a.pc.Done? && View(z, t).b == View(y, t).b
  {
    hide Reaches, Lists, Bump;
    z := Go(s, y, t, Any(t.now));
  }

  lemma DropsOff(s: Duo, y: Duo, t: Turn, j: Key, w: Uid) returns (z: Duo)
    requires !t.Worker? && Reaches(s, y, Any(t.now)) && View(y, t).a.pc.DropUid? && Off(y.db, j, w)
    requires KeysOf(y.db, View(y, t).a.pc.job.src) == {}
    requires Lists(t.c.order, y.db.keys.Keys - {View(y, t).a.pc.job.src})
    ensures Reaches(s, z, Any(t.now)) && Off(z.db, j, w)
    ensures View(z, t).a.pc.Done? && View(z, t).b == View(y, t).b
  {
    hide Reaches, Lists;
    z := Go(s, y, t, Any(t.now));
    z := CountsOff(s, z, t, j, w);
  }

  /** The end of a drain: the list is looked at once more, the uid removed if it is empty. */
  lemma ClosesDrain(s: Duo, y: Duo, t: Turn, j: Key, w: Uid) returns (z: Duo)
    requires !t.Worker? && Reaches(s, y, Any(t.now)) && View(y, t).a.pc.CheckEmpty? && Off(y.db, j, w)
    ensures Reaches(s, z, Any(t.now)) && Off(z.db, j, w)
    ensures View(z, t).a.pc.Done? && View(z, t).b == View(y, t).b
  {
    hide Reaches, Lists, Off;
    var src := View(y, t).a.pc.job.src;
    var order := Listing(y.db.keys.Keys - {src});
    var last := if t.First? then First(t.now, Choice([], order)) else Second(t.now, Choice([], order));
    z := Go(s, y, last, Any(t.now));
    if KeysOf(y.db, src) == {} {
      z := DropsOff(s, z, last, j, w);
    } else {
      z := CountsOff(s, z, last, j, w);
    }
  }

  /** The rest of a drain that does not list `j`, down to the end of the call. */
  lemma EndsDrain(s: Duo, y: Duo, t: Turn, job: Job, j: Key, w: Uid) returns (z: Duo)
    requires !t.Worker? && Reaches(s, y, Any(t.now)) && y.db.uids != [] && Off(y.db, j, w)
    requires job.j <= |job.listed| && j !in job.listed[job.j..]
    requires View(y, t).a.pc == if job.j < |job.listed| then Probe(ForMove(job)) else CheckEmpty(job)
    ensures Reaches(s, z, Any(t.now)) && Off(z.db, j, w)
    ensures View(z, t).a.pc.Done? && View(z, t).b == View(y, t).b
  {
    hide Reaches, Leads, Drain, Off;
    z := y;
    if job.j < |job.listed| {
      var k := View(y, t).a.key;
      DrainLeads(y.db, job, k, t.now, t.c);
      var d := Drain(y.db, job.src, job.listed[job.j..], k, job.plugin);
      DrainOff(y.db, job.src, job.listed[job.j..], k, job.plugin, j, w);
      z := LeadsAlone(s, y, t, State(d.db, CheckEmpty(Job(job.src, job.listed, |job.listed|, d.uid))));
    }
    z := ClosesDrain(s, z, t, j, w);
  }

  // ---- Workers prepare the ground ----

  lemma ListingFrom(elems: set<Key>, x: Key) returns (s: seq<Key>)
    requires x in elems
    ensures Lists(s, elems) && s != [] && s[0] == x && x !in s[1..]
  {
    var rest := Listing(elems - {x});
    ListsElems(rest, elems - {x});
    s := [x] + rest;
    assert s[1..] == rest;
    assert forall y :: y in s <==> y in elems;
  }

  /** Another message for `j` is counted at its owner. */
  lemma Loads(s: Duo, y: Duo, u: Uid, j: Key, now: real) returns (z: Duo)
    requires Reaches(s, y, Any(now))
    ensures Reaches(s, z, Any(now)) && Backlogged(z.db, u, j)
    ensures z == y.(db := y.db.(pending := z.db.pending))
    ensures forall v, x :: Backlogged(y.db, v, x) ==> Backlogged(z.db, v, x)
  {
    hide Reaches;
    var n := if (u, j) in y.db.pending then y.db.pending[(u, j)] else 0;
    z := Go(s, y, Turn.Worker(PutCount(u, j, n + 1)), Any(now));
  }

  /** By `now` nobody has stamped for 15 seconds. */
  ghost predicate AllStale(db: Db, now: real) {
    forall u :: Stale(db, u, now)
  }

  lemma StillStale(d: Db, e: Db, now: real)
    requires AllStale(d, now) && e.stamps == d.stamps
    ensures AllStale(e, now)
  {
    forall u ensures Stale(e, u, now) {
      assert Stale(d, u, now);
    }
  }

  lemma {:induction false} LastStamp(stamps: map<Uid, int>) returns (t: int)
    ensures forall u :: u in stamps ==> stamps[u] <= t
    decreases |stamps|
  {
    t := 0;
    if u :| u in stamps {
      t := LastStamp(stamps - {u});
      assert forall v :: v in stamps && v != u ==> v in stamps - {u};
      t := if stamps[u] > t then stamps[u] else t;
    }
  }

  lemma LateEnough(db: Db, since: real) returns (now: real)
    ensures since <= now && AllStale(db, now)
  {
    var t := LastStamp(db.stamps);
    now := if since <= (t + 15) as real then (t + 15) as real else since;
    assert now.Floor >= t + 15;
  }

  /** A registration that leaves the rest alone and shows HKEYS in the order `order`. */
  ghost predicate Reordered(y: Duo, z: Duo) {
    && z == y.(db := y.db.(keys := z.db.keys, uids := z.db.uids))
    && Wf(z.db) && y.db.keys.Keys <= z.db.keys.Keys && z.db.uids != []
    && forall w :: KeysOf(z.db, w) == KeysOf(y.db, w)
  }

  /** `target` at the place of `rest` the iterator `i` points to. */
  function Aimed(rest: seq<Uid>, target: Uid, i: nat): (r: seq<Uid>)
    ensures r != [] && Pick(r, i) == target
  {
    if i <= |rest| then Inserted(rest, target, i) else [target] + rest
  }

  lemma AimedLists(rest: seq<Uid>, us: set<Uid>, target: Uid, i: nat)
    requires Lists(rest, us) && target !in us
    ensures Lists(Aimed(rest, target, i), us + {target})
  {
    if i <= |rest| {
      InsertedLists(rest, us, target, i);
    } else {
      InsertedLists(rest, us, target, 0);
      assert rest[..0] + [target] + rest[0..] == [target] + rest;
    }
  }

  /** A registration after which the next assignment goes to `target`. */
  lemma SteersAssign(s: Duo, y: Duo, target: Uid, now: real) returns (z: Duo)
    requires Reaches(s, y, Any(now)) && Wf(y.db) && target in y.db.keys
    ensures Reaches(s, z, Any(now)) && Reordered(y, z) && Pick(z.db.uids, Iterator(z.db)) == target
    ensures exists v :: v in z.db.keys && v != target
  {
    hide Reaches, Lists, NoDup, Inserted;
    var v := FreshUid(y.db.keys.Keys);
    var us := y.db.keys.Keys + {v} - {target};
    var rest := Listing(us);
    var order := Aimed(rest, target, Iterator(y.db));
    AimedLists(rest, us, target, Iterator(y.db));
    assert us + {target} == y.db.keys.Keys + {v};
    assert y.db.keys[v := {}].Keys == y.db.keys.Keys + {v};
    z := Go(s, y, Turn.Worker(PutUid(v, order)), Any(now));
    assert v in z.db.keys;
  }

  lemma WithoutLast(s: seq<Uid>, x: Uid)
    requires x !in s
    ensures Without(s + [x], x) == s
  {
    if s != [] {
      assert (s + [x])[1..] == s[1..] + [x];
      WithoutLast(s[1..], x);
    }
  }

  /** A registration after which the next key moved from `u` goes to `target`, a newcomer or not. */
  lemma SteersMove(s: Duo, y: Duo, u: Uid, target: Uid, now: real) returns (z: Duo)
    requires Reaches(s, y, Any(now)) && Wf(y.db) && u in y.db.keys && target != u
    ensures Reaches(s, z, Any(now)) && Reordered(y, z) && target in z.db.keys
    ensures forall x :: Reassign(z.db, u, x).uid == target
  {
    hide Reaches, Lists, NoDup, Inserted, Without;
    var v := target;
    if target in y.db.keys {
      v := FreshUid(y.db.keys.Keys);
    }
    var us := y.db.keys.Keys + {v} - {u, target};
    var rest := Listing(us);
    var arr := Aimed(rest, target, Iterator(y.db));
    AimedLists(rest, us, target, Iterator(y.db));
    AppendLists(arr, us + {target}, u);
    assert us + {target} + {u} == y.db.keys.Keys + {v};
    assert y.db.keys[v := {}].Keys == y.db.keys.Keys + {v};
    ListsElems(arr, us + {target});
    WithoutLast(arr, u);
    z := Go(s, y, Turn.Worker(PutUid(v, arr + [u])), Any(now));
    assert Candidates(z.db.uids, Some(u)) == arr;
  }

  // ---- One key owned: the other is assigned to its owner during the drain ----

  lemma MovesAway(db: Db, u: Uid, v: Uid, x: Key)
    requires Wf(db) && u in db.keys && v in db.keys && v != u
    ensures db.uids != [] && Reassign(db, u, x).uid != u
  {
    CandidatesOthers(db, u, v);
  }

  /** The second call has read the list it will write, which still holds the first call's key. */
  lemma AssignsToOwner(db: Db, j: Key, k: Key, now: real) returns (y: Duo, other: Uid)
    requires Wf(db) && Agrees(db) && j in db.owner && k !in db.owner
    ensures var u := db.owner[j];
      && Reaches(BothBegin(db, j, k), y, Any(now)) && Wf(y.db) && y.db.stamps == db.stamps && u in y.db.keys && other in y.db.keys && other != u
      && y.a == Call(j, Exists, None) && y.b == Call(k, WriteAssigned(u, KeysOf(y.db, u)), None)
      && j in KeysOf(y.db, u) && j != k && j in y.db.owner && y.db.owner[j] == u && Backlogged(y.db, u, j)
  {
    hide Reaches, Lists, NoDup;
    var u := db.owner[j];
    var s := BothBegin(db, j, k);
    assert j in KeysOf(db, u) && k !in KeysOf(db, u);
    Here(s, Any(now));
    y := Loads(s, s, u, j, now);
    y := SteersAssign(s, y, u, now);
    assert KeysOf(y.db, u) == KeysOf(db, u);
    other :| other in y.db.keys && other != u;
    y := Go(s, y, B(now), Any(now));
    y := SelectsAlone(s, y, B(now), Any(now));
    assert KeysOf(y.db, u) == KeysOf(db, u);
    y := ClaimsAlone(s, y, B(now), Any(now));
  }

  /** The drain moves the key; the late write puts it back into the old owner's list. */
  lemma AssignDuringDrain(db: Db, j: Key, k: Key, now: real) returns (z: Duo)
    requires AllStale(db, now) && Wf(db) && Agrees(db) && j in db.owner && k !in db.owner
    ensures Reaches(BothBegin(db, j, k), z, Any(now)) && BothDone(z) && !Agrees(z.db)
  {
    hide Reaches, Lists, NoDup, Agrees, Reassign, Drain;
    var s := BothBegin(db, j, k);
    var u := db.owner[j];
    var other;
    z, other := AssignsToOwner(db, j, k, now);
    var listed := ListingFrom(KeysOf(z.db, u), j);
    var t := First(now, Choice(listed, []));
    StillStale(db, z.db, now);
    z := StartsDrain(s, z, t, u);
    MovesAway(z.db, u, other, j);
    var m := Reassign(z.db, u, j);
    ReassignOwner(z.db, u, j);
    z := MovesOne(s, z, t, Job(u, listed, 0, u));
    z := LandsAlone(s, z, B(now), Any(now));
    assert Off(z.db, j, u);
    z := EndsAlone(s, z, B(now), Any(now));
    z := EndsDrain(s, z, t, Job(u, listed, 1, m.uid), j, u);
    OffDisagrees(z.db, j, u);
  }

  lemma ReassignOwner(db: Db, src: Uid, x: Key)
    requires db.uids != []
    ensures var m := Reassign(db, src, x);
      m.db.owner == db.owner[x := m.uid] && m.db.uids != [] && x in KeysOf(m.db, m.uid)
  {
  }

  // ---- Both keys owned ----

  /** Another newcomer: somebody is registered. */
  lemma Refills(s: Duo, y: Duo, j: Key, w: Uid, now: real) returns (z: Duo)
    requires Reaches(s, y, Any(now)) && Off(y.db, j, w)
    ensures Reaches(s, z, Any(now)) && Off(z.db, j, w) && z.db.uids != [] && z.a == y.a && z.b == y.b
  {
    hide Reaches, Lists;
    var v := FreshUid(y.db.keys.Keys);
    var order := Listing(y.db.keys.Keys + {v});
    ListsElems(order, y.db.keys.Keys + {v});
    assert v in order;
    z := Go(s, y, Turn.Worker(PutUid(v, order)), Any(now));
  }

  /** Both drains run to their ends, one after the other. */
  lemma BothEndDrains(s: Duo, y: Duo, a: Turn, b: Turn, mine: Job, others: Job, j: Key, w: Uid, now: real)
    returns (z: Duo)
    requires Reaches(s, y, Any(now)) && a.First? && b.Second? && a.now == now && b.now == now && y.db.uids != [] && Off(y.db, j, w)
    requires mine.j <= |mine.listed| && j !in mine.listed[mine.j..]
    requires others.j <= |others.listed| && j !in others.listed[others.j..]
    requires y.a.pc == if mine.j < |mine.listed| then Probe(ForMove(mine)) else CheckEmpty(mine)
    requires y.b.pc == if others.j < |others.listed| then Probe(ForMove(others)) else CheckEmpty(others)
    ensures Reaches(s, z, Any(now)) && BothDone(z) && !Agrees(z.db)
  {
    hide Reaches, Off, Agrees;
    z := EndsDrain(s, y, a, mine, j, w);
    z := Refills(s, z, j, w, now);
    z := EndsDrain(s, z, b, others, j, w);
    OffDisagrees(z.db, j, w);
  }

  /** Both calls have begun to drain their owners, nothing moved yet. */
  ghost predicate BothDrain(db: Db, j: Key, k: Key, y: Duo, mine: seq<Key>, others: seq<Key>)
    requires j in db.owner && k in db.owner
  {
    var u, w := db.owner[j], db.owner[k];
    && y.db == db.(pending := y.db.pending) && y.a.key == j && y.b.key == k
    && Lists(mine, KeysOf(db, u)) && mine != [] && mine[0] == j && j !in mine[1..]
    && Lists(others, KeysOf(db, w)) && others != [] && others[0] == (if u == w then j else k)
    && j !in others[1..]
    && y.a.pc == Probe(ForMove(Job(u, mine, 0, u))) && y.b.pc == Probe(ForMove(Job(w, others, 0, w)))
  }

  lemma BothStart(db: Db, j: Key, k: Key, now: real) returns (y: Duo, mine: seq<Key>, others: seq<Key>)
    requires AllStale(db, now) && Wf(db) && Agrees(db) && j in db.owner && k in db.owner
    ensures Reaches(BothBegin(db, j, k), y, Any(now)) && BothDrain(db, j, k, y, mine, others)
  {
    hide Reaches, Lists, NoDup, Agrees, Backlogged, KeysOf;
    var s := BothBegin(db, j, k);
    var u, w := db.owner[j], db.owner[k];
    InOwnersList(db, j);
    InOwnersList(db, k);
    var x := if u == w then j else k;
    Here(s, Any(now));
    y := Loads(s, s, u, j, now);
    y := Loads(s, y, w, x, now);
    StillStale(db, y.db, now);
    SameKeysOf(db, y.db);
    mine := ListingFrom(KeysOf(y.db, u), j);
    others := ListingFrom(KeysOf(y.db, w), x);
    ListsElems(others, KeysOf(y.db, w));
    if u != w {
      NotInOthersList(db, j, w);
    }
    assert j !in others[1..];
    y := StartsDrain(s, y, First(now, Choice(mine, [])), u);
    y := StartsDrain(s, y, Second(now, Choice(others, [])), w);
  }

  lemma SameKeysOf(d: Db, e: Db)
    requires e.keys == d.keys
    ensures forall u :: KeysOf(e, u) == KeysOf(d, u)
  {
  }

  /** One owner: each move finds another newcomer, and the key stays in both lists. */
  lemma DrainedTwice(db: Db, j: Key, k: Key, now: real) returns (z: Duo)
    requires AllStale(db, now) && Wf(db) && Agrees(db) && j in db.owner && k in db.owner && db.owner[j] == db.owner[k]
    ensures Reaches(BothBegin(db, j, k), z, Any(now)) && BothDone(z) && !Agrees(z.db)
  {
    hide Reaches, Lists, NoDup, Agrees, Reassign;
    var s := BothBegin(db, j, k);
    var u := db.owner[j];
    var mine, others;
    z, mine, others := BothStart(db, j, k, now);
    InOwnersList(db, j);
    var a, b := First(now, Choice([], [])), Second(now, Choice([], []));
    var v := FreshUid(z.db.keys.Keys);
    z := SteersMove(s, z, u, v, now);
    ReassignOwner(z.db, u, j);
    ReassignWf(z.db, u, j);
    z := MovesOne(s, z, a, Job(u, mine, 0, u));
    var x := FreshUid(z.db.keys.Keys);
    z := SteersMove(s, z, u, x, now);
    ReassignOwner(z.db, u, j);
    ReassignKeeps(z.db, u, j, v);
    z := MovesOne(s, z, b, Job(u, others, 0, u));
    assert Off(z.db, j, v);
    z := BothEndDrains(s, z, a, b, Job(u, mine, 1, v), Job(u, others, 1, if j == k then x else u), j, v, now);
  }

  lemma InOwnersList(db: Db, j: Key)
    requires Agrees(db) && j in db.owner
    ensures db.owner[j] in db.keys && j in KeysOf(db, db.owner[j])
  {
    assert j in KeysOf(db, db.owner[j]);
  }

  lemma ReassignWf(db: Db, src: Uid, x: Key)
    requires Wf(db) && db.uids != [] && src in db.keys
    ensures var m := Reassign(db, src, x); Wf(m.db) && m.db.keys.Keys == db.keys.Keys
  {
    SelectRegistered(db, Some(src));
  }

  /** A move leaves every list but its two uids' alone. */
  lemma ReassignKeeps(db: Db, src: Uid, x: Key, w: Uid)
    requires db.uids != [] && w != src && w != Reassign(db, src, x).uid
    ensures KeysOf(Reassign(db, src, x).db, w) == KeysOf(db, w)
  {
  }

  // ---- Two owners: one drain moves a key into the list the other is about to write ----

  /** The second call has read its owner's list and selected where its key goes. */
  lemma ReadsBeforeMove(s: Duo, y: Duo, t: Turn, job: Job, other: Uid) returns (z: Duo, v: Uid)
    requires !t.Worker? && Reaches(s, y, Any(t.now)) && View(y, t).a.pc == Probe(ForMove(job)) && job.j < |job.listed|
    requires Wf(y.db) && job.src in y.db.keys && other in y.db.keys && other != job.src
    ensures Reaches(s, z, Any(t.now)) && z.db == y.db.(rr := z.db.rr) && v != job.src
    ensures View(z, t).a.pc == MoveWriteOld(job, v, KeysOf(y.db, job.src), KeysOf(y.db, v))
    ensures View(z, t).a.key == View(y, t).a.key && View(z, t).b == View(y, t).b
  {
    hide Reaches, Leads, Lists, NoDup, Candidates;
    CandidatesOthers(y.db, job.src, other);
    var r := Select(y.db, Some(job.src));
    SelectLeads(y.db, ForMove(job), View(y, t).a.key, t.now, t.c);
    v := r.uid;
    z := LeadsAlone(s, y, t, State(r.db, MoveReadOld(job, v)));
    z := Go(s, z, t, Any(t.now));
    z := Go(s, z, t, Any(t.now));
  }

  /** Its write of the old list drops the key the other call has moved there meanwhile. */
  lemma DropsMoved(s: Duo, y: Duo, t: Turn, job: Job, v: Uid, oldKeys: set<Key>, newKeys: set<Key>, j: Key) returns (z: Duo)
    requires !t.Worker? && Reaches(s, y, Any(t.now)) && View(y, t).a.pc == MoveWriteOld(job, v, oldKeys, newKeys)
    requires job.j < |job.listed| && job.listed[job.j] != j && v != job.src
    requires j !in oldKeys && j in y.db.owner && y.db.owner[j] == job.src && job.src in y.db.keys && y.db.uids != []
    ensures Reaches(s, z, Any(t.now)) && Off(z.db, j, job.src) && z.db.uids != []
    ensures View(z, t).a.pc == Advanced(job, v, View(y, t).a.key)
    ensures View(z, t).a.key == View(y, t).a.key && View(z, t).b == View(y, t).b
  {
    hide Reaches, Leads, Bump;
    z := Go(s, y, t, Any(t.now));
    z := Go(s, z, t, Any(t.now));
    var n := View(z, t).a.pc.n;
    var k := View(y, t).a.key;
    MoveWritesLead(z.db, job, v, newKeys, n, k, t.now, t.c);
    var key := job.listed[job.j];
    var d1 := z.db.(pending := z.db.pending - {(job.src, key)}, owner := z.db.owner[key := v]);
    var d2 := PutKeys(d1, v, newKeys + {key});
    var d3 := if n.Some? then d2.(pending := Bump(d2.pending, (v, key), n.value)) else d2;
    z := LeadsAlone(s, z, t, State(d3, Advanced(job, v, k)));
  }

  lemma DrainIntoDrain(db: Db, j: Key, k: Key, now: real) returns (z: Duo)
    requires AllStale(db, now) && Wf(db) && Agrees(db) && j in db.owner && k in db.owner && db.owner[j] != db.owner[k]
    ensures Reaches(BothBegin(db, j, k), z, Any(now)) && BothDone(z) && !Agrees(z.db)
  {
    hide Reaches, Lists, NoDup, Agrees, Reassign;
    var s := BothBegin(db, j, k);
    var u, w := db.owner[j], db.owner[k];
    var mine, others;
    z, mine, others := BothStart(db, j, k, now);
    InOwnersList(db, j);
    InOwnersList(db, k);
    NotInOthersList(db, j, w);
    var a, b := First(now, Choice([], [])), Second(now, Choice([], []));
    var v;
    z, v := ReadsBeforeMove(s, z, b, Job(w, others, 0, w), u);
    var oldKeys, newKeys := KeysOf(z.db, w), KeysOf(z.db, v);
    z := SteersMove(s, z, u, w, now);
    ReassignOwner(z.db, u, j);
    ReassignWf(z.db, u, j);
    z := MovesOne(s, z, a, Job(u, mine, 0, u));
    z := DropsMoved(s, z, b, Job(w, others, 0, w), v, oldKeys, newKeys, j);
    z := BothEndDrains(s, z, a, b, Job(u, mine, 1, w), Job(w, others, 1, v), j, w, now);
  }

  lemma NotInOthersList(db: Db, j: Key, w: Uid)
    requires Agrees(db) && j in db.owner && db.owner[j] != w
    ensures j !in KeysOf(db, w)
  {
  }

  // ---- No condition on the database is enough ----

  lemma {:induction false} FlipInstant(turns: seq<Turn>, now: real)
    requires AtInstant(turns, now)
    ensures AtInstant(FlipAll(turns), now)
    decreases turns
  {
    if turns != [] {
      assert Punctual(turns[0], now) && AtInstant(turns[1..], now);
      FlipInstant(turns[1..], now);
      assert Punctual(FlipTurn(turns[0]), now);
    }
  }

  lemma FlipReaches(y: Duo, z: Duo, now: real)
    requires Reaches(y, z, Any(now))
    ensures Reaches(Flip(y), Flip(z), Any(now))
  {
    hide Schedule, End, NeverDrains;
    var turns :| Schedule(y, turns) && End(y, turns) == z && AtInstant(turns, now);
    FlipSchedule(y, turns);
    FlipInstant(turns, now);
    assert Within(Flip(y), FlipAll(turns), Any(now));
  }

  lemma BreakingSchedule(db: Db, j: Key, k: Key, now: real) returns (z: Duo)
    requires AllStale(db, now) && Wf(db) && Agrees(db)
    ensures Reaches(BothBegin(db, j, k), z, Any(now)) && BothDone(z) && !Agrees(z.db)
  {
    hide Reaches, Agrees, Wf;
    if j in db.owner && k in db.owner {
      if db.owner[j] == db.owner[k] {
        z := DrainedTwice(db, j, k, now);
      } else {
        z := DrainIntoDrain(db, j, k, now);
      }
    } else if j in db.owner {
      z := AssignDuringDrain(db, j, k, now);
    } else if k in db.owner {
      z := AssignDuringDrain(db, k, j, now);
      FlipReaches(BothBegin(db, k, j), z, now);
      z := Flip(z);
    } else {
      z := BreakingAssigns(db, j, k, now);
      Looser(BothBegin(db, j, k), z, now);
    }
  }

  lemma Looser(y: Duo, z: Duo, now: real)
    requires Reaches(y, z, Limit(false, true, now))
    ensures Reaches(y, z, Any(now))
  {
    hide Schedule, End, NeverDrains;
    var turns :| Schedule(y, turns) && End(y, turns) == z && AtInstant(turns, now);
    assert Within(y, turns, Any(now));
  }

  /**
   Two overlapping whole calls are safe under every schedule from no database at all, however late
   and even if the clock stands still: where a key has an owner a drain can break the maps, where
   none has, the assignments can.
   */
  lemma DrainsBreakEveryPair(db: Db, j: Key, k: Key, since: real)
    requires Wf(db) && Agrees(db)
    ensures !SafeWhole(db, j, k, since)
  {
    hide Agrees, Wf, Schedule, End, NeverDrains;
    var s := BothBegin(db, j, k);
    var now := LateEnough(db, since);
    var z := BreakingSchedule(db, j, k, now);
    var turns :| Schedule(s, turns) && End(s, turns) == z && AtInstant(turns, now);
  }
}
