/**
 Which pairs of overlapping calls are safe under every schedule in which neither drains a worker
 (redis_queue/v1_0/utils.py:67-114, 171-210). With workers free to register, exactly the pairs of
 which one key already has an owner; among the workers registered when both begin, two calls for
 one unassigned key as well, if there is one worker only or the iterator is out of range.
 */
module OverlapSchedules {
  import opened Wrappers
  import opened Collections
  import opened Shards
  import opened ShardCommands
  import opened OverlappingCalls

  /** Every schedule of the two calls in which neither drains leaves the maps in agreement. */
  ghost predicate Safe(db: Db, j: Key, k: Key) {
    forall turns | Schedule(BothBegin(db, j, k), turns) && NeverDrains(BothBegin(db, j, k), turns) ::
      BothDone(End(BothBegin(db, j, k), turns)) ==> Agrees(End(BothBegin(db, j, k), turns).db)
  }

  predicate Registers(t: Turn) {
    t.Worker? && t.wc.PutUid?
  }

  predicate Still(turns: seq<Turn>) {
    forall t :: t in turns ==> !Registers(t)
  }

  /** Every such schedule in which no worker registers does. */
  ghost predicate SafeAmongRegistered(db: Db, j: Key, k: Key) {
    forall turns | Schedule(BothBegin(db, j, k), turns) && NeverDrains(BothBegin(db, j, k), turns) && Still(turns) ::
      BothDone(End(BothBegin(db, j, k), turns)) ==> Agrees(End(BothBegin(db, j, k), turns).db)
  }

  // ---- A key with an owner ----

  ghost predicate FirstOwned(y: Duo, u: Uid) {
    && y.a.key in y.db.owner && y.db.owner[y.a.key] == u && Reads(u, y.a) && !y.clash
    && (y.a.key == y.b.key ==> Reads(u, y.b))
  }

  lemma FirstOwnedNext(y: Duo, u: Uid, now: real, c: Choice)
    requires FirstOwned(y, u) && Busy(y.a.pc) && Calm(y.a.pc) && Calm(Next(y, now, c).a.pc)
    ensures FirstOwned(Next(y, now, c), u)
  {
    hide Stale, Backlogged;
  }

  lemma FirstOwnedOther(y: Duo, u: Uid, now: real, c: Choice)
    requires FirstOwned(y, u) && Busy(y.b.pc) && Calm(y.b.pc) && Calm(Next(Flip(y), now, c).a.pc)
    ensures FirstOwned(Flip(Next(Flip(y), now, c)), u)
  {
    hide Stale, Backlogged;
  }

  lemma FirstOwnedStep(y: Duo, u: Uid, t: Turn)
    requires FirstOwned(y, u) && MayTake(y, t) && BothCalm(y) && BothCalm(Take(y, t))
    ensures FirstOwned(Take(y, t), u) && SameKeys(y, Take(y, t))
  {
    match t
    case First(now, c) =>
      FirstOwnedNext(y, u, now, c);
      hide FirstOwned, Command;
    case Second(now, c) =>
      FirstOwnedOther(y, u, now, c);
      hide FirstOwned, Command;
    case Worker(wc) =>
  }

  lemma {:induction false} FirstOwnedRun(y: Duo, u: Uid, turns: seq<Turn>)
    requires FirstOwned(y, u) && Schedule(y, turns) && NeverDrains(y, turns)
    ensures FirstOwned(End(y, turns), u) && SameKeys(y, End(y, turns))
    decreases turns
  {
    hide FirstOwned, MayTake, Take, BothCalm;
    if turns != [] {
      FirstOwnedStep(y, u, turns[0]);
      FirstOwnedRun(Take(y, turns[0]), u, turns[1..]);
    }
  }

  lemma FirstOwnedAgrees(db: Db, j: Key, k: Key, turns: seq<Turn>)
    requires Agrees(db) && j in db.owner
    requires Schedule(BothBegin(db, j, k), turns) && NeverDrains(BothBegin(db, j, k), turns)
    requires BothDone(End(BothBegin(db, j, k), turns))
    ensures Agrees(End(BothBegin(db, j, k), turns).db)
  {
    hide Agrees, Schedule, End, NeverDrains;
    FirstOwnedRun(BothBegin(db, j, k), db.owner[j], turns);
    DoneIsRouted(db, j, k, turns);
    if j == k {
      SameKeyAgrees(db, j, turns);
    } else {
      DifferentKeysAgree(db, j, k, turns);
    }
  }

  // ---- Turning a schedule around ----

  function FlipTurn(t: Turn): Turn {
    match t
    case First(now, c) => Second(now, c)
    case Second(now, c) => First(now, c)
    case Worker(_) => t
  }

  function FlipAll(turns: seq<Turn>): seq<Turn> {
    if turns == [] then [] else [FlipTurn(turns[0])] + FlipAll(turns[1..])
  }

  lemma {:induction false} FlipSchedule(y: Duo, turns: seq<Turn>)
    requires Schedule(y, turns)
    ensures Schedule(Flip(y), FlipAll(turns)) && (NeverDrains(y, turns) ==> NeverDrains(Flip(y), FlipAll(turns)))
    ensures End(Flip(y), FlipAll(turns)) == Flip(End(y, turns))
    decreases turns
  {
    hide Next, Obey, Issuable, Calm;
    if turns != [] {
      FlipSchedule(Take(y, turns[0]), turns[1..]);
      assert FlipAll(turns)[1..] == FlipAll(turns[1..]);
      assert Take(Flip(y), FlipTurn(turns[0])) == Flip(Take(y, turns[0]));
    }
  }

  /** A pair of which one key has an owner is safe. */
  lemma OwnedSafe(db: Db, j: Key, k: Key)
    requires Agrees(db) && (j in db.owner || k in db.owner)
    ensures Safe(db, j, k)
  {
    hide Agrees, Schedule, End, NeverDrains;
    var s := BothBegin(db, j, k);
    forall turns | Schedule(s, turns) && NeverDrains(s, turns) && BothDone(End(s, turns))
      ensures Agrees(End(s, turns).db)
    {
      if j in db.owner {
        FirstOwnedAgrees(db, j, k, turns);
      } else {
        FlipSchedule(s, turns);
        FirstOwnedAgrees(db, k, j, FlipAll(turns));
      }
    }
  }

  // ---- Reaching a state ----

  /** Which schedules count: without registrations if `still`, without drains if `calm`, all at the instant `now`. */
  datatype Limit = Limit(still: bool, calm: bool, now: real)

  predicate Punctual(t: Turn, now: real) {
    match t
    case First(n, _) => n == now
    case Second(n, _) => n == now
    case Worker(wc) => wc.PutStamp? ==> wc.t <= now.Floor
  }

  /** The clock stands at `now`, and no stamp is from the future. */
  predicate AtInstant(turns: seq<Turn>, now: real) {
    forall t :: t in turns ==> Punctual(t, now)
  }

  ghost predicate Within(y: Duo, turns: seq<Turn>, lim: Limit)
    requires Schedule(y, turns)
  {
    (lim.still ==> Still(turns)) && (lim.calm ==> NeverDrains(y, turns)) && AtInstant(turns, lim.now)
  }

  /** Some schedule within the limit leads from `y` to `z`. */
  ghost predicate Reaches(y: Duo, z: Duo, lim: Limit) {
    exists turns :: Schedule(y, turns) && End(y, turns) == z && Within(y, turns, lim)
  }

  lemma Here(y: Duo, lim: Limit)
    requires BothCalm(y)
    ensures Reaches(y, y, lim)
  {
    assert Schedule(y, []) && End(y, []) == y && Within(y, [], lim);
  }

  lemma {:induction false} ScheduleMore(y: Duo, turns: seq<Turn>, t: Turn)
    requires Schedule(y, turns) && MayTake(End(y, turns), t)
    ensures Schedule(y, turns + [t]) && End(y, turns + [t]) == Take(End(y, turns), t)
    ensures NeverDrains(y, turns) && BothCalm(Take(End(y, turns), t)) ==> NeverDrains(y, turns + [t])
    decreases turns
  {
    hide MayTake, Take, BothCalm;
    if turns == [] {
      assert (turns + [t])[1..] == [];
    } else {
      assert (turns + [t])[1..] == turns[1..] + [t];
      ScheduleMore(Take(y, turns[0]), turns[1..], t);
    }
  }

  lemma Go(s: Duo, y: Duo, t: Turn, lim: Limit) returns (z: Duo)
    requires Reaches(s, y, lim) && MayTake(y, t)
    requires (lim.still ==> !Registers(t)) && (lim.calm ==> BothCalm(Take(y, t))) && Punctual(t, lim.now)
    ensures z == Take(y, t) && Reaches(s, z, lim) && (lim.calm ==> BothCalm(z))
  {
    hide MayTake, Take, BothCalm;
    var turns :| Schedule(s, turns) && End(s, turns) == y && Within(s, turns, lim);
    ScheduleMore(s, turns, t);
    z := Take(y, t);
    assert Within(s, turns + [t], lim);
  }

  lemma {:induction false} CalmAtEnd(y: Duo, turns: seq<Turn>)
    requires Schedule(y, turns) && NeverDrains(y, turns)
    ensures BothCalm(End(y, turns))
    decreases turns
  {
    hide MayTake, Take, BothCalm;
    if turns != [] {
      CalmAtEnd(Take(y, turns[0]), turns[1..]);
    }
  }

  lemma ReachedCalm(s: Duo, y: Duo, lim: Limit)
    requires Reaches(s, y, lim) && lim.calm
    ensures BothCalm(y)
  {
    var turns :| Schedule(s, turns) && End(s, turns) == y && Within(s, turns, lim);
    CalmAtEnd(s, turns);
  }

  /** A command of the first or the second call that reads no open order. */
  function A(now: real): Turn {
    First(now, Choice([], []))
  }

  function B(now: real): Turn {
    Second(now, Choice([], []))
  }

  predicate Solo(t: Turn, now: real) {
    t == A(now) || t == B(now)
  }

  /** The state as call `t` sees it: itself first. */
  function View(y: Duo, t: Turn): Duo {
    if t.First? then y else Flip(y)
  }

  /** The uid the next selection yields. */
  function Chosen(db: Db): Uid
    requires db.uids != []
  {
    Pick(db.uids, Iterator(db))
  }

  /** Call `t` makes sure there is an iterator. */
  lemma PrimesAlone(s: Duo, y: Duo, t: Turn, lim: Limit) returns (z: Duo)
    requires Reaches(s, y, lim) && Solo(t, lim.now) && View(y, t).a.pc == Probe(ForAssign)
    ensures Reaches(s, z, lim)
    ensures View(z, t) ==
      Duo(y.db.(rr := Some(Iterator(y.db))), View(y, t).a.(pc := ReadIter(ForAssign)), View(y, t).b, y.clash)
  {
    if lim.calm {
      ReachedCalm(s, y, lim);
    }
    hide Reaches;
    z := Go(s, y, t, lim);
    if y.db.rr.None? {
      z := Go(s, z, t, lim);
    }
  }

  /** Call `t` selects a uid while the rest stands still. */
  lemma SelectsAlone(s: Duo, y: Duo, t: Turn, lim: Limit) returns (z: Duo)
    requires Reaches(s, y, lim) && Solo(t, lim.now) && View(y, t).a.pc == Probe(ForAssign) && y.db.uids != []
    ensures Reaches(s, z, lim)
    ensures var n, i := |y.db.uids|, Iterator(y.db);
      View(z, t) == Duo(y.db.(rr := Some(i)), View(y, t).a.(pc := WriteIter(ForAssign, Pick(y.db.uids, i), Advance(n, i))),
                        View(y, t).b, y.clash)
  {
    hide Reaches, Pick, Advance;
    z := PrimesAlone(s, y, t, lim);
    if lim.calm {
      ReachedCalm(s, z, lim);
    }
    z := Go(s, z, t, lim);
    z := Go(s, z, t, lim);
  }

  /** From its selection to the point where it has read the list it will write. */
  lemma ClaimsAlone(s: Duo, y: Duo, t: Turn, lim: Limit) returns (z: Duo)
    requires Reaches(s, y, lim) && Solo(t, lim.now)
    requires View(y, t).a.pc.WriteIter? && View(y, t).a.pc.p.ForAssign?
    requires View(y, t).a.key !in KeysOf(y.db, View(y, t).a.pc.u)
    ensures Reaches(s, z, lim)
    ensures var v := View(y, t); var u := v.a.pc.u; var pc := WriteAssigned(u, KeysOf(y.db, u));
      View(z, t) == Duo(y.db.(rr := Some(v.a.pc.next), owner := y.db.owner[v.a.key := u]), v.a.(pc := pc), v.b,
                        y.clash || Clash(pc, v.b.pc))
  {
    if lim.calm {
      ReachedCalm(s, y, lim);
    }
    hide Reaches;
    z := Go(s, y, t, lim);
    z := Go(s, z, t, lim);
    z := Go(s, z, t, lim);
  }

  lemma LandsAlone(s: Duo, y: Duo, t: Turn, lim: Limit) returns (z: Duo)
    requires Reaches(s, y, lim) && Solo(t, lim.now) && View(y, t).a.pc.WriteAssigned?
    ensures Reaches(s, z, lim)
    ensures var v := View(y, t); var u, k := v.a.pc.u, v.a.key; var d := PutKeys(y.db, u, v.a.pc.ks + {k});
      View(z, t) == Duo(d.(pending := d.pending[(u, k) := 0]), v.a.(pc := ReadStamp(u), got := Some(u)), v.b, y.clash)
  {
    if lim.calm {
      ReachedCalm(s, y, lim);
    }
    hide Reaches;
    z := Go(s, y, t, lim);
    z := Go(s, z, t, lim);
  }

  /** A whole assignment while the rest stands still is the one-step one. */
  lemma AssignsAlone(s: Duo, y: Duo, t: Turn, lim: Limit) returns (z: Duo)
    requires Reaches(s, y, lim) && Solo(t, lim.now) && View(y, t).a.pc == Probe(ForAssign) && y.db.uids != []
    requires !View(y, t).b.pc.WriteAssigned?
    requires View(y, t).a.key !in KeysOf(y.db, Pick(y.db.uids, Iterator(y.db)))
    ensures Reaches(s, z, lim)
    ensures var v := View(y, t); var a := Assign(y.db, v.a.key);
      View(z, t) == Duo(a.db, v.a.(pc := ReadStamp(Chosen(y.db)), got := Some(Chosen(y.db))), v.b, y.clash)
  {
    hide Reaches, Pick, Advance;
    z := SelectsAlone(s, y, t, lim);
    z := ClaimsAlone(s, z, t, lim);
    z := LandsAlone(s, z, t, lim);
  }

  /** A call that finds its owner's stamp fresh counts its message and is done. */
  lemma CountsAlone(s: Duo, y: Duo, t: Turn, lim: Limit) returns (z: Duo)
    requires Reaches(s, y, lim) && Solo(t, lim.now) && View(y, t).a.pc.ReadStamp? && !Stale(y.db, View(y, t).a.pc.u, lim.now)
    ensures Reaches(s, z, lim) && z.db.owner == y.db.owner && z.db.keys == y.db.keys && z.db.uids == y.db.uids
    ensures View(z, t) == Duo(z.db, View(y, t).a.(pc := Done), View(y, t).b, y.clash)
  {
    if lim.calm {
      ReachedCalm(s, y, lim);
    }
    hide Reaches, Bump, Lists, Stale;
    z := Go(s, y, t, lim);
    z := Go(s, z, t, lim);
  }

  /** Its owner stamps, and the call ends. */
  lemma EndsAlone(s: Duo, y: Duo, t: Turn, lim: Limit) returns (z: Duo)
    requires Reaches(s, y, lim) && Solo(t, lim.now) && View(y, t).a.pc.ReadStamp?
    ensures Reaches(s, z, lim) && z.db.owner == y.db.owner && z.db.keys == y.db.keys && z.db.uids == y.db.uids
    ensures View(z, t) == Duo(z.db, View(y, t).a.(pc := Done), View(y, t).b, y.clash)
  {
    if lim.calm {
      ReachedCalm(s, y, lim);
    }
    hide Reaches, Lists;
    z := Go(s, y, Turn.Worker(PutStamp(View(y, t).a.pc.u, lim.now.Floor)), lim);
    z := CountsAlone(s, z, t, lim);
  }

  lemma BothEnd(s: Duo, y: Duo, lim: Limit) returns (z: Duo)
    requires Reaches(s, y, lim) && y.a.pc.ReadStamp? && y.b.pc.ReadStamp?
    ensures Reaches(s, z, lim) && BothDone(z) && z.clash == y.clash
    ensures z.a.got == y.a.got && z.b.got == y.b.got && z.db.owner == y.db.owner && z.db.keys == y.db.keys
  {
    hide Reaches;
    z := EndsAlone(s, y, A(lim.now), lim);
    z := EndsAlone(s, z, B(lim.now), lim);
  }

  // ---- Different keys ----

  /** Both calls read the iterator and the registry before either writes. */
  lemma BothSelect(s: Duo, y: Duo, lim: Limit) returns (z: Duo)
    requires Reaches(s, y, lim) && y.a.pc.Exists? && y.b.pc.Exists? && y.db.uids != []
    requires y.a.key !in y.db.owner && y.b.key !in y.db.owner
    ensures Reaches(s, z, lim)
    ensures var n, i := |y.db.uids|, Iterator(y.db); var pc := WriteIter(ForAssign, Pick(y.db.uids, i), Advance(n, i));
      z == Duo(y.db.(rr := Some(i)), y.a.(pc := pc), y.b.(pc := pc), y.clash)
  {
    hide Reaches, Pick, Advance;
    z := Go(s, y, A(lim.now), lim);
    z := Go(s, z, B(lim.now), lim);
    z := SelectsAlone(s, z, A(lim.now), lim);
    z := SelectsAlone(s, z, B(lim.now), lim);
  }

  /** Then both read the list of the uid they share before either writes it. */
  lemma DifferentKeysClash(s: Duo, y: Duo, lim: Limit) returns (z: Duo)
    requires Reaches(s, y, lim) && y.a.pc.Exists? && y.b.pc.Exists? && y.a.key != y.b.key && y.db.uids != []
    requires Agrees(y.db) && y.a.key !in y.db.owner && y.b.key !in y.db.owner
    ensures Reaches(s, z, lim) && BothDone(z) && z.clash
  {
    hide Reaches, Pick, Advance;
    var u := Pick(y.db.uids, Iterator(y.db));
    assert y.a.key !in KeysOf(y.db, u) && y.b.key !in KeysOf(y.db, u);
    z := BothSelect(s, y, lim);
    z := ClaimsAlone(s, z, A(lim.now), lim);
    z := ClaimsAlone(s, z, B(lim.now), lim);
    z := LandsAlone(s, z, A(lim.now), lim);
    z := LandsAlone(s, z, B(lim.now), lim);
    z := BothEnd(s, z, lim);
  }

  // ---- The same key ----

  /** Both find the key unassigned; the first call assigns it. */
  lemma FirstAssigns(s: Duo, y: Duo, lim: Limit) returns (z: Duo)
    requires Reaches(s, y, lim) && y.a.pc.Exists? && y.b.pc.Exists? && y.a.key == y.b.key && y.db.uids != []
    requires Agrees(y.db) && y.a.key !in y.db.owner
    ensures Reaches(s, z, lim)
    ensures var a := Assign(y.db, y.a.key);
      z == Duo(a.db, y.a.(pc := ReadStamp(Chosen(y.db)), got := Some(Chosen(y.db))), y.b.(pc := Probe(ForAssign)), y.clash)
  {
    hide Reaches, Pick, Advance, Assign;
    assert y.a.key !in KeysOf(y.db, Pick(y.db.uids, Iterator(y.db)));
    z := Go(s, y, A(lim.now), lim);
    z := Go(s, z, B(lim.now), lim);
    z := AssignsAlone(s, z, A(lim.now), lim);
  }

  /** The first call's assignment leaves the registry, moves the iterator and fills one list. */
  lemma AssignShape(db: Db, k: Key)
    requires Wf(db) && db.uids != [] && Agrees(db) && k !in db.owner
    ensures var a := Assign(db, k);
      && a.db.uids == db.uids && a.db.keys.Keys == db.keys.Keys && Wf(a.db)
      && Iterator(a.db) == Advance(|db.uids|, Iterator(db))
      && (forall u :: k in KeysOf(a.db, u) ==> u == Pick(db.uids, Iterator(db)))
  {
    PickRegistered(db);
    var u := Pick(db.uids, Iterator(db));
    assert forall w :: k !in KeysOf(db, w);
    assert forall w :: KeysOf(Assign(db, k).db, w) == if w == u then KeysOf(db, u) + {k} else KeysOf(db, w);
  }

  /** The second call, still believing the key unassigned, assigns it to another uid. */
  lemma SecondAssigns(s: Duo, y: Duo, lim: Limit) returns (z: Duo)
    requires Reaches(s, y, lim) && y.a.pc.ReadStamp? && y.b.pc == Probe(ForAssign) && y.db.uids != []
    requires y.b.key !in KeysOf(y.db, Pick(y.db.uids, Iterator(y.db)))
    ensures Reaches(s, z, lim) && BothDone(z) && z.a.got == y.a.got && z.b.got == Some(Chosen(y.db))
  {
    hide Reaches, Pick, Advance, Assign;
    z := AssignsAlone(s, y, B(lim.now), lim);
    z := BothEnd(s, z, lim);
  }

  lemma SameKeySplits(s: Duo, y: Duo, lim: Limit) returns (z: Duo)
    requires Reaches(s, y, lim) && y.a.pc.Exists? && y.b.pc.Exists? && y.a.key == y.b.key
    requires Wf(y.db) && Agrees(y.db) && y.a.key !in y.db.owner
    requires 1 < |y.db.uids| && Iterator(y.db) < |y.db.uids|
    ensures Reaches(s, z, lim) && BothDone(z) && z.a.got != z.b.got
  {
    hide Reaches, Assign, Agrees;
    var n, i := |y.db.uids|, Iterator(y.db);
    z := FirstAssigns(s, y, lim);
    AssignShape(y.db, y.a.key);
    assert y.db.uids[i] != y.db.uids[Advance(n, i)];
    z := SecondAssigns(s, z, lim);
  }

  lemma FreshUid(us: set<Uid>) returns (v: Uid)
    ensures v !in us
  {
    var n := LongestText(us);
    v := Uid(seq(n + 1, _ => 'x'));
  }

  lemma {:induction false} LongestText(us: set<Uid>) returns (n: nat)
    ensures forall u :: u in us ==> |u.text| <= n
    decreases us
  {
    n := 0;
    if us != {} {
      var u :| u in us;
      var m := LongestText(us - {u});
      n := if |u.text| > m then |u.text| else m;
    }
  }

  lemma PickRegistered(db: Db)
    requires Wf(db) && db.uids != []
    ensures Pick(db.uids, Iterator(db)) in db.keys
  {
    ListsElems(db.uids, db.keys.Keys);
  }

  function Inserted(uids: seq<Uid>, v: Uid, i: nat): (r: seq<Uid>)
    requires i <= |uids|
    ensures r != [] && Pick(r, i) == v
  {
    uids[..i] + [v] + uids[i..]
  }

  /** A newcomer may turn up at any place of the HKEYS order. */
  lemma InsertedLists(uids: seq<Uid>, us: set<Uid>, v: Uid, i: nat)
    requires Lists(uids, us) && v !in us && i <= |uids|
    ensures Lists(Inserted(uids, v, i), us + {v})
  {
    ListsElems(uids, us);
    var order := Inserted(uids, v, i);
    assert forall x :: 0 <= x < |order| ==> order[x] == if x < i then uids[x] else if x == i then v else uids[x - 1];
    assert order[i] == v;
    forall u | u in us ensures u in order {
      var x :| 0 <= x < |uids| && uids[x] == u;
      assert order[if x < i then x else x + 1] == u;
    }
  }

  /** A worker that registers between the two selections can get the key a second time. */
  lemma NewcomerSplits(s: Duo, y: Duo, lim: Limit) returns (z: Duo)
    requires !lim.still && Reaches(s, y, lim) && y.a.pc.Exists? && y.b.pc.Exists? && y.a.key == y.b.key
    requires Wf(y.db) && Agrees(y.db) && y.a.key !in y.db.owner && y.db.uids != []
    ensures Reaches(s, z, lim) && BothDone(z) && z.a.got != z.b.got
  {
    hide Reaches, Assign, Agrees, NoDup, Lists;
    z := FirstAssigns(s, y, lim);
    AssignShape(y.db, y.a.key);
    PickRegistered(y.db);
    var v := FreshUid(z.db.keys.Keys);
    var i := Iterator(z.db);
    var order := Inserted(z.db.uids, v, i);
    InsertedLists(z.db.uids, z.db.keys.Keys, v, i);
    z := Go(s, z, Turn.Worker(PutUid(v, order)), lim);
    z := SecondAssigns(s, z, lim);
  }

  // ---- The exact condition ----

  /** With nobody registered, somebody registers first. */
  lemma Inhabited(db: Db, j: Key, k: Key, lim: Limit) returns (y: Duo)
    requires Wf(db) && Agrees(db) && !lim.still
    ensures Reaches(BothBegin(db, j, k), y, lim)
    ensures y == BothBegin(y.db, j, k) && y.db.uids != [] && Wf(y.db) && Agrees(y.db) && y.db.owner == db.owner
  {
    var s := BothBegin(db, j, k);
    Here(s, lim);
    if db.uids != [] {
      y := s;
    } else {
      ListsElems(db.uids, db.keys.Keys);
      var v := FreshUid({});
      assert Lists([v], db.keys.Keys + {v});
      y := Go(s, s, Turn.Worker(PutUid(v, [v])), lim);
      assert forall u :: KeysOf(y.db, u) == KeysOf(db, u);
    }
  }

  /** From a database in which neither key has an owner, at any instant. */
  lemma BreakingAssigns(db: Db, j: Key, k: Key, now: real) returns (z: Duo)
    requires Wf(db) && Agrees(db) && j !in db.owner && k !in db.owner
    ensures Reaches(BothBegin(db, j, k), z, Limit(false, true, now)) && BothDone(z) && !Agrees(z.db)
  {
    hide Agrees, Wf;
    var lim := Limit(false, true, now);
    var s := BothBegin(db, j, k);
    var y := Inhabited(db, j, k, lim);
    if j == k {
      z := NewcomerSplits(s, y, lim);
    } else {
      z := DifferentKeysClash(s, y, lim);
    }
    var turns :| Schedule(s, turns) && End(s, turns) == z && NeverDrains(s, turns);
    DoneIsRouted(db, j, k, turns);
    if j == k {
      SameKeyAgrees(db, k, turns);
    } else {
      DifferentKeysAgree(db, j, k, turns);
    }
  }

  lemma Unsafe(db: Db, j: Key, k: Key)
    requires Wf(db) && Agrees(db) && j !in db.owner && k !in db.owner
    ensures !Safe(db, j, k)
  {
    hide Agrees, Wf, Schedule, End, NeverDrains;
    var s := BothBegin(db, j, k);
    var z := BreakingAssigns(db, j, k, 0.0);
    var turns :| Schedule(s, turns) && End(s, turns) == z && NeverDrains(s, turns);
  }

  /**
   Whatever the schedule of two whole calls of which neither drains, the maps agree when both are
   done, if and only if one of the two keys has an owner when they begin.
   */
  lemma SafePairs(db: Db, j: Key, k: Key)
    requires Wf(db) && Agrees(db)
    ensures Safe(db, j, k) <==> j in db.owner || k in db.owner
  {
    hide Safe, Agrees, Wf;
    if j in db.owner || k in db.owner {
      OwnedSafe(db, j, k);
    } else {
      Unsafe(db, j, k);
    }
  }

  // ---- Among the workers registered when both begin ----

  predicate Past(c: Call) {
    c.pc.SetOwner? || Claim(c).Some?
  }

  /** Whatever this call has chosen is the head of the registry. */
  ghost predicate Heads(db: Db, c: Call) {
    && (c.got.Some? ==> Late(c.pc))
    && (Claim(c).Some? ==> db.uids != [] && Claim(c).value == db.uids[0])
    && (c.pc.SetOwner? || c.pc.WriteIter? ==> db.uids != [] && c.pc.u == db.uids[0])
    && (|db.uids| > 1 ==> !c.pc.Reset? && (c.pc.ReadUids? ==> c.pc.i == 0 || c.pc.i >= |db.uids|))
  }

  /** Both calls see an iterator that yields the head: out of range, or reset to 0 by the other call. */
  ghost predicate HeadOnly(y: Duo) {
    && y.a.key == y.b.key && Wf(y.db) && Heads(y.db, y.a) && Heads(y.db, y.b)
    && (y.a.key in y.db.owner ==>
         y.db.uids != [] && y.db.owner[y.a.key] == y.db.uids[0] && (Past(y.a) || Past(y.b)))
    && (|y.db.uids| > 1 && !(Past(y.a) && Past(y.b)) ==>
         && y.db.rr.Some?
         && (if Past(y.a) || Past(y.b) then y.db.rr.value == 0
             else y.db.rr.value >= |y.db.uids| && LeavesZero(y.a.pc) && LeavesZero(y.b.pc)
                  && LateRead(y.db, y.a.pc) && LateRead(y.db, y.b.pc)))
  }

  predicate LeavesZero(pc: Pc) {
    pc.WriteIter? ==> pc.next == 0
  }

  predicate LateRead(db: Db, pc: Pc) {
    pc.ReadUids? ==> pc.i >= |db.uids|
  }

  lemma HeadRegistered(db: Db)
    requires Wf(db) && db.uids != []
    ensures db.uids[0] in db.keys
  {
    ListsElems(db.uids, db.keys.Keys);
  }

  lemma WfKept(d: Db, e: Db)
    requires e.uids == d.uids && e.keys.Keys == d.keys.Keys
    ensures Wf(d) ==> Wf(e)
  {
  }

  lemma HeadSelects(y: Duo, now: real, c: Choice)
    requires HeadOnly(y) && Calm(y.a.pc) && Selecting(y.a.pc)
    ensures HeadOnly(Next(y, now, c))
  {
    hide Wf;
    WfKept(y.db, Next(y, now, c).db);
  }

  lemma HeadAssigns(y: Duo, now: real, c: Choice)
    requires HeadOnly(y) && AssigningPc(y.a.pc)
    ensures HeadOnly(Next(y, now, c))
  {
    if y.a.pc.WriteAssigned? {
      HeadRegistered(y.db);
    }
    hide Wf;
    WfKept(y.db, Next(y, now, c).db);
  }

  /** A late command leaves owners, registry and iterator alone. */
  lemma LateShape(y: Duo, now: real, c: Choice)
    requires Late(y.a.pc) && Busy(y.a.pc) && Late(Next(y, now, c).a.pc)
    ensures var z := Next(y, now, c);
      && z.b == y.b && z.a.key == y.a.key && z.a.got == y.a.got
      && z.db.uids == y.db.uids && z.db.keys == y.db.keys && z.db.owner == y.db.owner && z.db.rr == y.db.rr
  {
  }

  lemma HeadLate(y: Duo, z: Duo)
    requires HeadOnly(y) && Late(y.a.pc) && Late(z.a.pc) && z.b == y.b && z.a.key == y.a.key && z.a.got == y.a.got
    requires z.db.uids == y.db.uids && z.db.keys == y.db.keys && z.db.owner == y.db.owner && z.db.rr == y.db.rr
    ensures HeadOnly(z)
  {
    assert Claim(z.a) == z.a.got && Claim(y.a) == y.a.got;
    assert Past(z.a) == Past(y.a);
    hide Wf, Claim;
    WfKept(y.db, z.db);
  }

  lemma HeadNext(y: Duo, now: real, c: Choice)
    requires HeadOnly(y) && Calm(y.a.pc) && Busy(y.a.pc) && Calm(Next(y, now, c).a.pc)
    ensures HeadOnly(Next(y, now, c))
  {
    hide HeadOnly;
    if Selecting(y.a.pc) {
      HeadSelects(y, now, c);
    } else if AssigningPc(y.a.pc) {
      HeadAssigns(y, now, c);
    } else {
      LateShape(y, now, c);
      HeadLate(y, Next(y, now, c));
    }
  }

  lemma HeadFlips(y: Duo)
    requires HeadOnly(y)
    ensures HeadOnly(Flip(y))
  {
  }

  lemma HeadUnmoved(y: Duo, wc: WorkerCommand)
    requires HeadOnly(y) && !wc.PutUid?
    ensures HeadOnly(y.(db := Obey(y.db, wc)))
  {
    hide Wf;
    WfKept(y.db, Obey(y.db, wc));
  }

  lemma HeadTakes(y: Duo, t: Turn)
    requires HeadOnly(y) && MayTake(y, t) && !Registers(t) && BothCalm(y) && BothCalm(Take(y, t))
    ensures HeadOnly(Take(y, t))
  {
    hide HeadOnly, Issuable, Obey, Command, Possible;
    match t {
      case First(now, c) => HeadNext(y, now, c);
      case Second(now, c) =>
        HeadFlips(y);
        HeadNext(Flip(y), now, c);
        HeadFlips(Next(Flip(y), now, c));
      case Worker(wc) => HeadUnmoved(y, wc);
    }
  }

  lemma {:induction false} HeadRun(y: Duo, turns: seq<Turn>)
    requires HeadOnly(y) && Schedule(y, turns) && NeverDrains(y, turns) && Still(turns)
    ensures HeadOnly(End(y, turns))
    decreases turns
  {
    hide HeadOnly, MayTake, Take, BothCalm;
    if turns != [] {
      assert !Registers(turns[0]);
      assert Still(turns[1..]);
      HeadTakes(y, turns[0]);
      HeadRun(Take(y, turns[0]), turns[1..]);
    }
  }

  lemma HeadSafe(db: Db, k: Key)
    requires Wf(db) && Agrees(db) && k !in db.owner && (|db.uids| <= 1 || Iterator(db) >= |db.uids|)
    ensures SafeAmongRegistered(db, k, k)
  {
    hide Schedule, End, NeverDrains, Agrees;
    var s := BothBegin(db, k, k);
    forall turns | Schedule(s, turns) && NeverDrains(s, turns) && Still(turns) && BothDone(End(s, turns))
      ensures Agrees(End(s, turns).db)
    {
      HeadRun(s, turns);
      DoneIsRouted(db, k, k, turns);
      SameKeyAgrees(db, k, turns);
    }
  }

  predicate Waits(pc: Pc) {
    pc.Exists? || (Selecting(pc) && !pc.WriteIter?)
  }

  /** With nobody registered neither call gets past its selection loop. */
  ghost predicate BothWait(y: Duo) {
    y.db.uids == [] && y.a.key !in y.db.owner && y.b.key !in y.db.owner && Waits(y.a.pc) && Waits(y.b.pc)
  }

  lemma {:induction false} WaitRun(y: Duo, turns: seq<Turn>)
    requires BothWait(y) && Schedule(y, turns) && NeverDrains(y, turns) && Still(turns)
    ensures BothWait(End(y, turns))
    decreases turns
  {
    if turns != [] {
      assert !Registers(turns[0]);
      assert Still(turns[1..]);
      WaitRun(Take(y, turns[0]), turns[1..]);
    }
  }

  lemma EmptySafe(db: Db, j: Key, k: Key)
    requires db.uids == [] && j !in db.owner && k !in db.owner
    ensures SafeAmongRegistered(db, j, k)
  {
    var s := BothBegin(db, j, k);
    forall turns | Schedule(s, turns) && NeverDrains(s, turns) && Still(turns)
      ensures !BothDone(End(s, turns))
    {
      WaitRun(s, turns);
    }
  }

  lemma UnsafeAmongRegistered(db: Db, j: Key, k: Key)
    requires Wf(db) && Agrees(db) && j !in db.owner && k !in db.owner && db.uids != []
    requires j == k ==> 1 < |db.uids| && Iterator(db) < |db.uids|
    ensures !SafeAmongRegistered(db, j, k)
  {
    hide Agrees, Wf;
    var s := BothBegin(db, j, k);
    Here(s, Limit(true, true, 0.0));
    var z;
    if j == k {
      z := SameKeySplits(s, s, Limit(true, true, 0.0));
    } else {
      z := DifferentKeysClash(s, s, Limit(true, true, 0.0));
    }
    var turns :| Schedule(s, turns) && End(s, turns) == z && NeverDrains(s, turns) && Still(turns);
    DoneIsRouted(db, j, k, turns);
    if j == k {
      SameKeyAgrees(db, k, turns);
    } else {
      DifferentKeysAgree(db, j, k, turns);
    }
  }

  /**
   If no worker registers meanwhile, two calls for one unassigned key are safe too when there is one
   worker only, or when the iterator is out of range: both then pick the head of the registry. With
   nobody registered both wait.
   */
  lemma SafePairsAmongRegistered(db: Db, j: Key, k: Key)
    requires Wf(db) && Agrees(db)
    ensures SafeAmongRegistered(db, j, k) <==>
      || j in db.owner || k in db.owner || db.uids == []
      || (j == k && (|db.uids| == 1 || Iterator(db) >= |db.uids|))
  {
    if j in db.owner || k in db.owner {
      OwnedSafe(db, j, k);
    } else if db.uids == [] {
      EmptySafe(db, j, k);
    } else if j == k && (|db.uids| == 1 || Iterator(db) >= |db.uids|) {
      HeadSafe(db, k);
    } else {
      UnsafeAmongRegistered(db, j, k);
    }
  }
}
