/**
 Runs of the sharded queue. Producers call the allocator and push, workers register, read
 their keys, pop, stamp and account. A producer call is one step and so is a worker's
 decrement (its HGET and HSET together); everything else is one Redis command a step.

 Producers: redis_relay/relay/relay.py and the mediator branch of redis_queue/v1_0/outbound.py.
 Workers: redis_queue/v1_0/inbound.py.
 */
module ShardRuns {
  import opened Wrappers
  import opened Collections
  import opened Shards
  import opened Ownership

  /** A queued record; `valid` says whether the worker can decode it. */
  datatype Msg = Msg(body: string, valid: bool)

  /** A popped message its worker has not accounted for yet. */
  datatype Hand = Hand(key: Key, stamped: bool)

  datatype World = World(
    db: Db,
    clock: real,
    queues: map<Key, seq<Msg>>,     // the lists {topic}_{key}
    tickets: multiset<Key>,         // allocated, neither pushed nor given up
    hands: map<Uid, Hand>,          // a worker that dies keeps its hand for ever
    lists: map<Uid, set<Key>>,      // the key list each worker last read
    // history
    used: set<Uid>,
    pushed: map<Key, seq<Msg>>,
    popped: map<Key, seq<Msg>>,
    stampedAt: map<Uid, real>)

  datatype Action =
    | Register(u: Uid, order: seq<Uid>)
    | Allocate(k: Key, c: Choice)
    | Push(k: Key, m: Msg)
    | GiveUp(k: Key)
    | Read(u: Uid)
    | Pop(u: Uid, k: Key)
    | Stamp(u: Uid, at: real)      // with the text of the instant `at`, maybe some time ago
    | Account(u: Uid)
    | Tick(now: real)

  function At<T>(m: map<Key, seq<T>>, k: Key): seq<T> {
    if k in m then m[k] else []
  }

  function Start(clock: real): World {
    World(Db([], map[], map[], map[], map[], None), clock, map[], multiset{}, map[], map[], {}, map[], map[], map[])
  }

  ghost predicate Enabled(w: World, a: Action) {
    match a
    case Register(u, order) => u !in w.used && Lists(order, w.db.keys.Keys + {u})
    case Allocate(k, c) => Wf(w.db) && (k in w.db.owner || w.db.uids != []) && Allowed(w.db, k, w.clock, c)
    case Push(k, _) => k in w.tickets
    case GiveUp(k) => k in w.tickets
    case Read(u) => u in w.used
    case Pop(u, k) => u in w.lists && k in w.lists[u] && u !in w.hands && At(w.queues, k) != []
    case Stamp(u, at) => u in w.hands && !w.hands[u].stamped && at <= w.clock
    case Account(u) => u in w.hands && w.hands[u].stamped
    case Tick(now) => w.clock <= now
  }

  /** The worker lowers the count under its own uid, if it still finds one there. */
  function Decrement(pending: map<(Uid, Key), nat>, p: (Uid, Key)): map<(Uid, Key), nat> {
    if p in pending && pending[p] >= 1 then pending[p := pending[p] - 1] else pending
  }

  function Apply(w: World, a: Action): World
    requires Enabled(w, a)
  {
    match a
    case Register(u, order) =>
      w.(db := w.db.(keys := w.db.keys[u := {}], uids := order), used := w.used + {u})
    case Allocate(k, c) =>
      w.(db := ProducerCall(w.db, k, w.clock, c), tickets := w.tickets + multiset{k})
    case Push(k, m) =>
      w.(queues := w.queues[k := At(w.queues, k) + [m]],
         pushed := w.pushed[k := At(w.pushed, k) + [m]],
         tickets := w.tickets - multiset{k})
    case GiveUp(k) => w.(tickets := w.tickets - multiset{k})
    case Read(u) => if u in w.db.keys then w.(lists := w.lists[u := w.db.keys[u]]) else w
    case Pop(u, k) =>
      var q := w.queues[k];
      w.(queues := w.queues[k := q[1..]],
         popped := w.popped[k := At(w.popped, k) + [q[0]]],
         hands := if q[0].valid then w.hands[u := Hand(k, false)] else w.hands)
    case Stamp(u, at) =>
      w.(db := w.db.(stamps := w.db.stamps[u := at.Floor]),
         stampedAt := w.stampedAt[u := at],
         hands := w.hands[u := w.hands[u].(stamped := true)])
    case Account(u) =>
      w.(db := w.db.(pending := Decrement(w.db.pending, (u, w.hands[u].key))), hands := w.hands - {u})
    case Tick(now) => w.(clock := now)
  }

  ghost predicate Legal(w: World, acts: seq<Action>)
    decreases acts
  {
    acts == [] || (Enabled(w, acts[0]) && Legal(Apply(w, acts[0]), acts[1..]))
  }

  ghost function Exec(w: World, acts: seq<Action>): World
    requires Legal(w, acts)
    decreases acts
  {
    if acts == [] then w else Exec(Apply(w, acts[0]), acts[1..])
  }

  ghost predicate Reachable(w: World) {
    exists clock, acts :: Legal(Start(clock), acts) && w == Exec(Start(clock), acts)
  }

  // ---- The invariant ----

  function HandsOn(w: World, k: Key): set<Uid> {
    set u | u in w.hands && w.hands[u].key == k
  }

  /** Messages of a key on their way: queued, allocated but not pushed, popped but not accounted. */
  function Load(w: World, k: Key): nat {
    |At(w.queues, k)| + w.tickets[k] + |HandsOn(w, k)|
  }

  ghost predicate Covered(w: World) {
    forall k :: Load(w, k) <= Count(w.db, k)
  }

  ghost predicate Fifo(w: World) {
    forall k :: At(w.popped, k) + At(w.queues, k) == At(w.pushed, k)
  }

  ghost predicate Stamped(w: World) {
    && w.db.stamps.Keys == w.stampedAt.Keys
    && forall u :: u in w.stampedAt ==> w.stampedAt[u] <= w.clock && w.db.stamps[u] == w.stampedAt[u].Floor
  }

  ghost predicate Inv(w: World) {
    Sound(w.db) && Covered(w) && Fifo(w) && Stamped(w) && w.db.keys.Keys <= w.used
  }

  lemma RegisterKeeps(w: World, u: Uid, order: seq<Uid>)
    requires Inv(w) && Enabled(w, Register(u, order))
    ensures Inv(Apply(w, Register(u, order)))
  {
    var v := Apply(w, Register(u, order));
    assert u !in w.db.keys;
    assert Sound(v.db);
    forall k ensures Load(v, k) <= Count(v.db, k) {
      assert Load(v, k) == Load(w, k) && Count(v.db, k) == Count(w.db, k);
    }
  }

  /** The pending hash and the counts after the message is counted. */
  lemma BumpCounts(db: Db, k: Key, u: Uid)
    requires Sound(db) && k in db.owner && db.owner[k] == u
    ensures var d := db.(pending := Bump(db.pending, (u, k), 1));
      && Sound(d) && Count(d, k) == Count(db, k) + 1 && (forall j :: j != k ==> Count(d, j) == Count(db, j))
      && Sum(d.pending) == Sum(db.pending) + 1
  {
    SumDrop(db.pending, (u, k));
    SumPut(db.pending, (u, k), db.pending[(u, k)] + 1);
  }

  /** A producer call raises the count of its own key by one, and leaves every other count and their sum otherwise alone. */
  lemma CallConserves(db: Db, k: Key, now: real, c: Choice)
    requires Sound(db) && (k in db.owner || db.uids != []) && Allowed(db, k, now, c)
    ensures var d := ProducerCall(db, k, now, c);
      && Sound(d) && d.uids != [] && d.stamps == db.stamps && d.keys.Keys <= db.keys.Keys
      && d.owner.Keys == db.owner.Keys + {k}
      && Count(d, k) == Count(db, k) + 1
      && (forall j :: j != k ==> Count(d, j) == Count(db, j))
      && Sum(d.pending) == Sum(db.pending) + 1
  {
    hide Settle, Allowed, Stale, Consistent, Counted;
    SettleSettles(db, k, now, c);
    var s := Settle(db, k, now, c);
    assert Sound(s.db);
    BumpCounts(s.db, k, s.uid);
  }

  lemma AllocateKeeps(w: World, k: Key, c: Choice)
    requires Inv(w) && Enabled(w, Allocate(k, c))
    ensures Inv(Apply(w, Allocate(k, c)))
  {
    hide Sound, ProducerCall, Allowed;
    CallConserves(w.db, k, w.clock, c);
    var v := Apply(w, Allocate(k, c));
    forall j ensures Load(v, j) <= Count(v.db, j) {
      assert HandsOn(v, j) == HandsOn(w, j);
      assert Load(w, j) <= Count(w.db, j);
    }
  }

  lemma PushCovers(w: World, k: Key, m: Msg)
    requires Covered(w) && Enabled(w, Push(k, m))
    ensures Covered(Apply(w, Push(k, m)))
  {
    hide Count;
    var v := Apply(w, Push(k, m));
    forall j ensures Load(v, j) <= Count(v.db, j) {
      assert HandsOn(v, j) == HandsOn(w, j);
      assert Load(w, j) <= Count(w.db, j);
    }
  }

  lemma PushFifo(w: World, k: Key, m: Msg)
    requires Fifo(w) && Enabled(w, Push(k, m))
    ensures Fifo(Apply(w, Push(k, m)))
  {
    var v := Apply(w, Push(k, m));
    assert At(v.popped, k) + At(v.queues, k) == At(w.popped, k) + At(w.queues, k) + [m];
    forall j ensures At(v.popped, j) + At(v.queues, j) == At(v.pushed, j) {
      assert At(w.popped, j) + At(w.queues, j) == At(w.pushed, j);
    }
  }

  lemma PushKeeps(w: World, k: Key, m: Msg)
    requires Inv(w) && Enabled(w, Push(k, m))
    ensures Inv(Apply(w, Push(k, m)))
  {
    hide Covered, Fifo, Sound;
    PushCovers(w, k, m);
    PushFifo(w, k, m);
  }

  lemma PopCovers(w: World, u: Uid, k: Key)
    requires Covered(w) && Enabled(w, Pop(u, k))
    ensures Covered(Apply(w, Pop(u, k)))
  {
    hide Count, Allowed, Lists;
    var v := Apply(w, Pop(u, k));
    var valid := w.queues[k][0].valid;
    forall j ensures Load(v, j) <= Count(v.db, j) {
      assert Load(w, j) <= Count(w.db, j);
      assert HandsOn(v, j) == if j == k && valid then HandsOn(w, j) + {u} else HandsOn(w, j);
    }
  }

  lemma PopFifo(w: World, u: Uid, k: Key)
    requires Fifo(w) && Enabled(w, Pop(u, k))
    ensures Fifo(Apply(w, Pop(u, k)))
  {
    var v := Apply(w, Pop(u, k));
    var q := w.queues[k];
    assert At(v.popped, k) + At(v.queues, k) == At(w.popped, k) + ([q[0]] + q[1..]) && [q[0]] + q[1..] == q;
    forall j ensures At(v.popped, j) + At(v.queues, j) == At(v.pushed, j) {
      assert At(w.popped, j) + At(w.queues, j) == At(w.pushed, j);
    }
  }

  lemma PopKeeps(w: World, u: Uid, k: Key)
    requires Inv(w) && Enabled(w, Pop(u, k))
    ensures Inv(Apply(w, Pop(u, k)))
  {
    hide Covered, Fifo, Sound;
    PopCovers(w, u, k);
    PopFifo(w, u, k);
  }

  lemma DecrementCounts(db: Db, u: Uid, k: Key)
    requires Sound(db)
    ensures var d := db.(pending := Decrement(db.pending, (u, k)));
      && Sound(d) && (forall j :: j != k ==> Count(d, j) == Count(db, j))
      && Count(d, k) == if k in db.owner && db.owner[k] == u && Count(db, k) > 0 then Count(db, k) - 1 else Count(db, k)
  {
  }

  /** The decrement hits the current owner's count or nothing: an old owner finds no entry of its own. */
  lemma AccountKeeps(w: World, u: Uid)
    requires Inv(w) && Enabled(w, Account(u))
    ensures Inv(Apply(w, Account(u)))
  {
    hide Sound, Decrement, Count;
    var v := Apply(w, Account(u));
    var k := w.hands[u].key;
    DecrementCounts(w.db, u, k);
    forall j ensures Load(v, j) <= Count(v.db, j) {
      assert Load(w, j) <= Count(w.db, j);
      if j == k {
        assert u in HandsOn(w, k) && HandsOn(v, k) == HandsOn(w, k) - {u};
      } else {
        assert HandsOn(v, j) == HandsOn(w, j);
      }
    }
  }

  lemma SoundButStamps(a: Db, b: Db)
    requires Sound(a) && b == a.(stamps := b.stamps)
    ensures Sound(b)
  {
  }

  /** Counts, queues and hands as before, no more tickets: every message is still counted. */
  lemma CoveredStill(w: World, v: World)
    requires Covered(w) && v.db.owner == w.db.owner && v.db.pending == w.db.pending && v.queues == w.queues
    requires v.tickets <= w.tickets && v.hands.Keys == w.hands.Keys
    requires forall u :: u in w.hands ==> v.hands[u].key == w.hands[u].key
    ensures Covered(v)
  {
    forall j ensures Load(v, j) <= Count(v.db, j) {
      assert Load(w, j) <= Count(w.db, j);
      assert HandsOn(v, j) == HandsOn(w, j);
    }
  }

  /** Neither the database, stamps aside, nor the queues changed. */
  lemma InvStill(w: World, v: World)
    requires Inv(w) && Stamped(v) && v.db == w.db.(stamps := v.db.stamps)
    requires v.queues == w.queues && v.popped == w.popped && v.pushed == w.pushed && v.used == w.used
    requires v.tickets <= w.tickets && v.hands.Keys == w.hands.Keys
    requires forall u :: u in w.hands ==> v.hands[u].key == w.hands[u].key
    ensures Inv(v)
  {
    hide Covered, Sound, Stamped;
    SoundButStamps(w.db, v.db);
    CoveredStill(w, v);
  }

  lemma StampKeeps(w: World, u: Uid, at: real)
    requires Inv(w) && Enabled(w, Stamp(u, at))
    ensures Inv(Apply(w, Stamp(u, at)))
  {
    hide Covered, Sound, Fifo;
    var v := Apply(w, Stamp(u, at));
    assert Stamped(v);
    hide Inv, Stamped;
    InvStill(w, v);
  }

  /** Neither stamps nor the database change, and the clock does not go back. */
  lemma IdleKeeps(w: World, v: World)
    requires Inv(w) && v == w.(clock := v.clock, tickets := v.tickets, lists := v.lists)
    requires w.clock <= v.clock && v.tickets <= w.tickets
    ensures Inv(v)
  {
    hide Covered, Sound, Fifo;
    assert Stamped(v);
    hide Inv, Stamped;
    InvStill(w, v);
  }

  lemma OthersKeep(w: World, a: Action)
    requires Inv(w) && Enabled(w, a) && (a.GiveUp? || a.Read? || a.Stamp? || a.Tick?)
    ensures Inv(Apply(w, a))
  {
    hide Inv, Lists, Allowed, ProducerCall;
    if a.Stamp? {
      StampKeeps(w, a.u, a.at);
    } else {
      IdleKeeps(w, Apply(w, a));
    }
  }

  lemma StepKeeps(w: World, a: Action)
    requires Inv(w) && Enabled(w, a)
    ensures Inv(Apply(w, a))
  {
    hide Inv, Enabled, Apply;
    match a
    case Register(u, order) => RegisterKeeps(w, u, order);
    case Allocate(k, c) => AllocateKeeps(w, k, c);
    case Push(k, m) => PushKeeps(w, k, m);
    case Pop(u, k) => PopKeeps(w, u, k);
    case Account(u) => AccountKeeps(w, u);
    case _ => OthersKeep(w, a);
  }

  lemma {:induction false} RunKeeps(w: World, acts: seq<Action>)
    requires Inv(w) && Legal(w, acts)
    ensures Inv(Exec(w, acts))
    decreases acts
  {
    hide Inv, Enabled, Apply;
    if acts != [] {
      StepKeeps(w, acts[0]);
      RunKeeps(Apply(w, acts[0]), acts[1..]);
    }
  }

  lemma StartInv(clock: real)
    ensures Inv(Start(clock))
  {
    assert forall k :: HandsOn(Start(clock), k) == {};
  }

  lemma ReachableInv(w: World)
    requires Reachable(w)
    ensures Inv(w)
  {
    hide Inv, Start;
    var clock, acts :| Legal(Start(clock), acts) && w == Exec(Start(clock), acts);
    StartInv(clock);
    RunKeeps(Start(clock), acts);
  }
}
