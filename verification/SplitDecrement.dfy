/**
 The worker's decrement is an HGET and a later HSET (redis_queue/v1_0/inbound.py:124-135). Runs in
 which the two are separate steps, with any steps of ShardRuns in between: which of them are runs
 of ShardRuns, and what exactly a late HSET loses.
 */
module SplitDecrement {
  import opened Wrappers
  import opened Collections
  import opened Shards
  import opened Ownership
  import opened ShardRuns

  /** A world, and the count each worker has read and not yet written back. */
  datatype Fine = Fine(w: World, seen: map<Uid, Option<nat>>)

  datatype Step =
    | Whole(a: Action)    // any step of ShardRuns but Account
    | HGet(u: Uid)
    | HSet(u: Uid)        // no command if the count read was missing or 0

  function CountAt(w: World, u: Uid): Option<nat>
    requires u in w.hands
  {
    var p := (u, w.hands[u].key);
    if p in w.db.pending then Some(w.db.pending[p]) else None
  }

  /** The HSET half: `read` is what the HGET half saw some steps ago. */
  function Written(w: World, u: Uid, read: Option<nat>): World
    requires u in w.hands
  {
    var p := (u, w.hands[u].key);
    var pending := if read.Some? && read.value >= 1 then w.db.pending[p := read.value - 1] else w.db.pending;
    w.(db := w.db.(pending := pending), hands := w.hands - {u})
  }

  ghost predicate May(f: Fine, s: Step) {
    match s
    case Whole(a) => !a.Account? && Enabled(f.w, a)
    case HGet(u) => u in f.w.hands && f.w.hands[u].stamped && u !in f.seen
    case HSet(u) => u in f.w.hands && u in f.seen
  }

  function Next(f: Fine, s: Step): Fine
    requires May(f, s)
  {
    match s
    case Whole(a) => f.(w := Apply(f.w, a))
    case HGet(u) => f.(seen := f.seen[u := CountAt(f.w, u)])
    case HSet(u) => Fine(Written(f.w, u, f.seen[u]), f.seen - {u})
  }

  ghost predicate Run(f: Fine, steps: seq<Step>)
    decreases steps
  {
    steps == [] || (May(f, steps[0]) && Run(Next(f, steps[0]), steps[1..]))
  }

  ghost function End(f: Fine, steps: seq<Step>): Fine
    requires Run(f, steps)
    decreases steps
  {
    if steps == [] then f else End(Next(f, steps[0]), steps[1..])
  }

  function Begin(clock: real): Fine {
    Fine(Start(clock), map[])
  }

  // ---- When a late write is the atomic decrement ----

  predicate Spent(n: Option<nat>) {
    n == None || n == Some(0)
  }

  /** The count found at the HSET is the one read at the HGET, or both leave nothing to lower. */
  predicate Unmoved(read: Option<nat>, now: Option<nat>) {
    now == read || (Spent(now) && Spent(read)) || (now == Some(0) && read == Some(1))
  }

  /** The two halves do what one atomic decrement would do at the HSET if and only if the count has not moved. */
  lemma LateWriteIsAtomic(w: World, u: Uid, read: Option<nat>)
    requires Enabled(w, Account(u))
    ensures Written(w, u, read) == Apply(w, Account(u)) <==> Unmoved(read, CountAt(w, u))
  {
    var p := (u, w.hands[u].key);
    var v, a := Written(w, u, read).db.pending, Apply(w, Account(u)).db.pending;
    assert v == a <==> Unmoved(read, CountAt(w, u)) by {
      assert p in v && p in a && v[p] == a[p] ==> v == a;
    }
  }

  /** Every HSET of the run finds the count its worker read. */
  ghost predicate Steady(f: Fine, steps: seq<Step>)
    requires Run(f, steps)
    decreases steps
  {
    steps == [] ||
    ((steps[0].HSet? ==> Unmoved(f.seen[steps[0].u], CountAt(f.w, steps[0].u))) && Steady(Next(f, steps[0]), steps[1..]))
  }

  /** The run of ShardRuns behind a steady one: each decrement happens at its HSET. */
  function Atomic(steps: seq<Step>): seq<Action> {
    if steps == [] then [] else
      (match steps[0]
       case Whole(a) => [a]
       case HGet(_) => []
       case HSet(u) => [Account(u)]) + Atomic(steps[1..])
  }

  ghost predicate Held(f: Fine) {
    forall u :: u in f.seen ==> u in f.w.hands && f.w.hands[u].stamped
  }

  lemma HandsKept(w: World, a: Action, u: Uid)
    requires Enabled(w, a) && !a.Account? && u in w.hands && w.hands[u].stamped
    ensures var v := Apply(w, a); u in v.hands && v.hands[u].stamped
  {
    hide Allowed, Lists, ProducerCall;
  }

  lemma HeldKept(f: Fine, s: Step)
    requires Held(f) && May(f, s)
    ensures Held(Next(f, s))
  {
    if s.Whole? {
      hide Enabled, Apply;
      forall u | u in f.seen ensures u in Next(f, s).w.hands && Next(f, s).w.hands[u].stamped {
        HandsKept(f.w, s.a, u);
      }
    } else {
      hide Enabled, Apply;
    }
  }

  lemma {:induction false} SteadyRefines(f: Fine, steps: seq<Step>)
    requires Held(f) && Run(f, steps) && Steady(f, steps)
    ensures Legal(f.w, Atomic(steps)) && Exec(f.w, Atomic(steps)) == End(f, steps).w
    decreases steps
  {
    if steps != [] {
      HeldKept(f, steps[0]);
      if steps[0].HSet? {
        LateWriteIsAtomic(f.w, steps[0].u, f.seen[steps[0].u]);
      }
      hide Held, Enabled, Apply, Written, Unmoved;
      SteadyRefines(Next(f, steps[0]), steps[1..]);
      if !steps[0].HGet? {
        assert Atomic(steps)[1..] == Atomic(steps[1..]);
      } else {
        assert Atomic(steps) == Atomic(steps[1..]);
      }
    }
  }

  /** A steady run ends in a world ShardRuns can reach, so all that ShardTheorems says holds of it. */
  lemma SteadyRunsReach(clock: real, steps: seq<Step>)
    requires Run(Begin(clock), steps) && Steady(Begin(clock), steps)
    ensures Reachable(End(Begin(clock), steps).w) && Inv(End(Begin(clock), steps).w)
  {
    hide Inv;
    SteadyRefines(Begin(clock), steps);
    var w := End(Begin(clock), steps).w;
    assert Legal(Start(clock), Atomic(steps)) && w == Exec(Start(clock), Atomic(steps));
    ReachableInv(w);
  }

  // ---- What a late write loses ----

  /** Ownership of the counts survives a late write if and only if the worker still owns the key. */
  lemma LateWriteSound(w: World, u: Uid, read: nat)
    requires Inv(w) && u in w.hands && read >= 1
    ensures var k := w.hands[u].key;
      Sound(Written(w, u, Some(read)).db) <==> k in w.db.owner && w.db.owner[k] == u
  {
    hide Covered, Fifo, Stamped;
    var k := w.hands[u].key;
    var v := Written(w, u, Some(read));
    assert (u, k) in v.db.pending;
  }

  /** While the worker owns the key, every message stays counted if and only if no more were on their way than it read. */
  lemma LateWriteCovers(w: World, u: Uid, read: nat)
    requires Inv(w) && u in w.hands && read >= 1
    requires w.hands[u].key in w.db.owner && w.db.owner[w.hands[u].key] == u
    ensures Covered(Written(w, u, Some(read))) <==> Load(w, w.hands[u].key) <= read
  {
    hide Fifo, Stamped, Sound;
    var k := w.hands[u].key;
    var v := Written(w, u, Some(read));
    assert HandsOn(v, k) == HandsOn(w, k) - {u} && u in HandsOn(w, k);
    assert Load(v, k) == Load(w, k) - 1 && Count(v.db, k) == read - 1;
    if Load(w, k) <= read {
      forall j ensures Load(v, j) <= Count(v.db, j) {
        assert Load(w, j) <= Count(w.db, j);
        assert j != k ==> HandsOn(v, j) == HandsOn(w, j);
      }
    }
  }

  /** Where the count was exact, a late write leaves a message uncounted if and only if the count has risen since the HGET. */
  lemma RisenCountLoses(w: World, u: Uid, read: nat)
    requires Inv(w) && u in w.hands && read >= 1
    requires w.hands[u].key in w.db.owner && w.db.owner[w.hands[u].key] == u
    requires Load(w, w.hands[u].key) == Count(w.db, w.hands[u].key)
    ensures CountAt(w, u).Some?
    ensures Covered(Written(w, u, Some(read))) <==> CountAt(w, u).value <= read
  {
    hide Covered, Fifo, Stamped, Load, Written;
    LateWriteCovers(w, u, read);
  }

  // ---- It happens ----

  lemma {:induction false} RunMore(f: Fine, steps: seq<Step>, s: Step)
    requires Run(f, steps) && May(End(f, steps), s)
    ensures Run(f, steps + [s]) && End(f, steps + [s]) == Next(End(f, steps), s)
    decreases steps
  {
    hide May, Next;
    if steps == [] {
      assert (steps + [s])[1..] == [];
    } else {
      assert (steps + [s])[1..] == steps[1..] + [s];
      RunMore(Next(f, steps[0]), steps[1..], s);
    }
  }

  /** A worker pops a first message and reads its count, a second one is sent, and the worker writes. */
  function LosingRun(u: Uid, k: Key, m: Msg): seq<Step> {
    var send := [Whole(Allocate(k, Choice([], []))), Whole(Push(k, m))];
    [Whole(Register(u, [u]))] + send + [Whole(Read(u)), Whole(Pop(u, k)), Whole(Stamp(u, 0.0)), HGet(u)] + send + [HSet(u)]
  }

  lemma Extend(f: Fine, steps: seq<Step>, g: Fine, s: Step) returns (h: Fine)
    requires Run(f, steps) && End(f, steps) == g && May(g, s)
    ensures Run(f, steps + [s]) && End(f, steps + [s]) == h && h == Next(g, s)
  {
    hide May, Next;
    RunMore(f, steps, s);
    h := Next(g, s);
  }

  function Lone(u: Uid, k: Key, n: nat, stamps: map<Uid, int>): Db {
    Db([u], map[u := {k}], map[k := u], map[(u, k) := n], stamps, Some(0))
  }

  lemma FirstCall(u: Uid, k: Key, c: Choice)
    ensures var db := Db([u], map[u := {}], map[], map[], map[], None);
      && Wf(db) && Allowed(db, k, 0.0, c) && ProducerCall(db, k, 0.0, c) == Lone(u, k, 1, map[])
  {
    var db := Db([u], map[u := {}], map[], map[], map[], None);
    assert Lists([u], {u});
    var a := Assign(db, k);
    assert a == Routed(Lone(u, k, 0, map[]), u) by {
      assert KeysOf(db, u) + {k} == {k};
      assert a.db.pending == map[(u, k) := 0];
    }
    assert !Backlogged(a.db, u, k);
  }

  lemma SecondCall(u: Uid, k: Key, c: Choice)
    ensures var db := Lone(u, k, 1, map[u := 0]);
      && Wf(db) && Allowed(db, k, 0.0, c) && ProducerCall(db, k, 0.0, c) == Lone(u, k, 2, map[u := 0])
  {
    assert Lists([u], {u});
    assert !Stale(Lone(u, k, 1, map[u := 0]), u, 0.0);
    assert map[(u, k) := 1][(u, k) := 2] == map[(u, k) := 2];
  }

  /** The first message sent to the only worker. */
  lemma FirstSent(u: Uid, k: Key, m: Msg) returns (g: Fine)
    ensures var steps := LosingRun(u, k, m)[..3]; Run(Begin(0.0), steps) && g == End(Begin(0.0), steps)
    ensures g == Fine(World(Lone(u, k, 1, map[]), 0.0, map[k := [m]], multiset{}, map[], map[], {u},
                            map[k := [m]], map[], map[]), map[])
  {
    hide ProducerCall, Allowed;
    var f := Begin(0.0);
    var r := LosingRun(u, k, m);
    assert Run(f, []) && End(f, []) == f;
    assert Lists([u], {u}) && {} + {u} == {u};
    hide Run, End, Lists;
    g := Extend(f, [], f, r[0]);
    assert g.w.db == Db([u], map[u := {}], map[], map[], map[], None);
    FirstCall(u, k, Choice([], []));
    g := Extend(f, [] + [r[0]], g, r[1]);
    g := Extend(f, [] + [r[0]] + [r[1]], g, r[2]);
    assert r[..3] == [] + [r[0]] + [r[1]] + [r[2]];
    assert multiset{k} - multiset{k} == multiset{};
    assert [] + [m] == [m] && {} + {u} == {u};
  }

  /** The worker pops it, stamps, and reads the count. */
  lemma FirstRead(u: Uid, k: Key, m: Msg) returns (g: Fine)
    requires m.valid
    ensures var steps := LosingRun(u, k, m)[..7]; Run(Begin(0.0), steps) && g == End(Begin(0.0), steps)
    ensures g == Fine(World(Lone(u, k, 1, map[u := 0]), 0.0, map[k := []], multiset{}, map[u := Hand(k, true)],
                            map[u := {k}], {u}, map[k := [m]], map[k := [m]], map[u := 0.0]), map[u := Some(1)])
  {
    hide Run, End, ProducerCall, Allowed;
    var f := Begin(0.0);
    var r := LosingRun(u, k, m);
    g := FirstSent(u, k, m);
    g := Extend(f, r[..3], g, r[3]);
    g := Extend(f, r[..3] + [r[3]], g, r[4]);
    assert [m][1..] == [] && [] + [m] == [m];
    assert g.w.queues == map[k := []] && g.w.popped == map[k := [m]];
    g := Extend(f, r[..3] + [r[3]] + [r[4]], g, r[5]);
    g := Extend(f, r[..3] + [r[3]] + [r[4]] + [r[5]], g, r[6]);
    assert r[..7] == r[..3] + [r[3]] + [r[4]] + [r[5]] + [r[6]];
  }

  /** After it a queued message is in nobody's count: the owner's count is 0. */
  lemma LostUpdate(u: Uid, k: Key, m: Msg)
    requires m.valid
    ensures Run(Begin(0.0), LosingRun(u, k, m))
    ensures var w := End(Begin(0.0), LosingRun(u, k, m)).w;
      At(w.queues, k) == [m] && Count(w.db, k) == 0 && !Covered(w)
  {
    hide Run, End, ProducerCall, Allowed;
    var f := Begin(0.0);
    var r := LosingRun(u, k, m);
    var g := FirstRead(u, k, m);
    SecondCall(u, k, Choice([], []));
    g := Extend(f, r[..7], g, r[7]);
    g := Extend(f, r[..7] + [r[7]], g, r[8]);
    g := Extend(f, r[..7] + [r[7]] + [r[8]], g, r[9]);
    assert r == r[..7] + [r[7]] + [r[8]] + [r[9]];
    assert Load(g.w, k) > Count(g.w.db, k);
  }
}
