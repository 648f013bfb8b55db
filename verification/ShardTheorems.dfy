/** What holds in every run of the sharded queue, at the granularity of ShardRuns. */
module ShardTheorems {
  import opened Wrappers
  import opened Collections
  import opened Shards
  import opened Ownership
  import opened ShardRuns

  /** No message is uncounted: the owner's pending count covers everything still on its way. */
  lemma PendingCoversLoad(w: World, k: Key)
    requires Reachable(w)
    ensures |At(w.queues, k)| + w.tickets[k] + |HandsOn(w, k)| <= Count(w.db, k)
  {
    hide Sound, Fifo, Stamped;
    ReachableInv(w);
    assert Load(w, k) <= Count(w.db, k);
  }

  /** No queue without a consumer, no count without an owner, no key in two lists. */
  lemma NoOrphans(w: World)
    requires Reachable(w)
    ensures forall k :: At(w.queues, k) != [] ==>
      k in w.db.owner && w.db.owner[k] in w.db.keys && k in w.db.keys[w.db.owner[k]]
    ensures forall u, k :: (u, k) in w.db.pending ==> k in w.db.owner && w.db.owner[k] == u
    ensures forall u, v, k :: k in KeysOf(w.db, u) && k in KeysOf(w.db, v) ==> u == v
  {
    hide Reachable, Fifo, Stamped, Load;
    ReachableInv(w);
    forall k | At(w.queues, k) != [] ensures k in w.db.owner {
      PendingCoversLoad(w, k);
    }
    forall u, v, k | k in KeysOf(w.db, u) && k in KeysOf(w.db, v) ensures u == v {
      assert w.db.owner[k] == u;
    }
  }

  /** Per key, messages come out in the order they went in, whoever owned the key meanwhile. */
  lemma PerKeyFifo(w: World, k: Key)
    requires Reachable(w)
    ensures At(w.popped, k) + At(w.queues, k) == At(w.pushed, k)
  {
    ReachableInv(w);
  }

  lemma CallEvacuates(db: Db, k: Key, waiting: Key, now: real, c: Choice)
    requires Sound(db) && k in db.owner && Allowed(db, k, now, c)
    requires Stale(db, db.owner[k], now) && |db.uids| > 1
    requires waiting in db.keys[db.owner[k]] && Count(db, waiting) >= 1
    ensures var u := db.owner[k]; var d := ProducerCall(db, k, now, c);
      && u !in d.keys && (forall j :: j in d.owner ==> d.owner[j] != u)
      && (forall j :: j in db.keys[u] ==> j in d.owner && d.owner[j] in d.keys)
  {
    hide Settle, Allowed, Stale, Wf, Counted;
    SettleSettles(db, k, now, c);
    assert Backlogged(db, db.owner[k], waiting);
    assert Consistent(Settle(db, k, now, c).db);
  }

  /** A stale owner with one message waiting loses all its keys at the next call for any of them. */
  lemma FailoverNeverMissed(w: World, k: Key, waiting: Key, c: Choice)
    requires Reachable(w) && Enabled(w, Allocate(k, c)) && k in w.db.owner
    requires Stale(w.db, w.db.owner[k], w.clock) && |w.db.uids| > 1
    requires waiting in KeysOf(w.db, w.db.owner[k]) && At(w.queues, waiting) != []
    ensures var u := w.db.owner[k]; var d := Apply(w, Allocate(k, c)).db;
      && u !in d.keys && (forall j :: j in d.owner ==> d.owner[j] != u)
      && (forall j :: j in KeysOf(w.db, u) ==> j in d.owner && d.owner[j] in d.keys)
  {
    hide ProducerCall, Allowed, Stale, Sound, Reachable, Covered, Fifo, Stamped;
    ReachableInv(w);
    PendingCoversLoad(w, waiting);
    CallEvacuates(w.db, k, waiting, w.clock, c);
  }

  lemma MovedWasDrained(db: Db, k: Key, r: Routed, drained: set<Key>, s: Routed, j: Key)
    requires SettledFrom(db, k, r, drained, s) && j in db.owner && s.db.owner[j] != db.owner[j]
    requires j in r.db.owner && r.db.owner[j] == db.owner[j] && db.uids != []
    ensures j in drained && |db.uids| > 1
  {
    hide Sound, Count, Sum;
  }

  /** Only the keys of one stale, backlogged owner can change hands in a call. */
  lemma OnlyStaleBackloggedMove(db: Db, k: Key, now: real, c: Choice, j: Key)
    requires Sound(db) && (k in db.owner || db.uids != []) && Allowed(db, k, now, c) && j in db.owner
    ensures j in ProducerCall(db, k, now, c).owner
    ensures var u := db.owner[j]; ProducerCall(db, k, now, c).owner[j] != u ==>
      && Stale(db, u, now) && u == Route(db, k).uid && |db.uids| > 1
      && exists i :: i in db.keys[u] && Count(db, i) >= 1
  {
    RouteSound(db, k);
    SettleSettles(db, k, now, c);
    KeptBy(db, k, Route(db, k));
    hide Settle, Allowed, Route, Wf;
    var r := Route(db, k);
    var u := db.owner[j];
    var s := Settle(db, k, now, c);
    assert j in s.db.owner;
    if s.db.owner[j] != u {
      MovedWasDrained(db, k, r, if MustDrain(r.db, r.uid, now) then KeysOf(r.db, r.uid) else {}, s, j);
      hide SettledFrom;
      assert j in r.db.keys[r.uid] && r.uid == u;
      var i :| i in KeysOf(r.db, u) && Backlogged(r.db, u, i);
      assert Count(r.db, i) >= 1;
      assert i in db.owner && Count(db, i) >= 1;
    }
  }

  // ---- Removed for good ----

  ghost predicate Retired(w: World, u: Uid) {
    u in w.used && u !in w.db.keys
  }

  lemma StepRetires(w: World, a: Action, u: Uid)
    requires Inv(w) && Enabled(w, a) && Retired(w, u)
    ensures Retired(Apply(w, a), u)
  {
    if a.Allocate? {
      hide Sound, ProducerCall, Allowed, Covered, Fifo, Stamped;
      CallConserves(w.db, a.k, w.clock, a.c);
    }
  }

  /** A deregistered uid never owns a key again. */
  lemma {:induction false} RetiredForEver(w: World, acts: seq<Action>, u: Uid)
    requires Inv(w) && Legal(w, acts) && Retired(w, u)
    ensures Retired(Exec(w, acts), u)
    ensures forall k :: k in Exec(w, acts).db.owner ==> Exec(w, acts).db.owner[k] != u
    decreases acts
  {
    if acts == [] {
    } else {
      hide Inv, Enabled, Apply, Retired;
      StepRetires(w, acts[0], u);
      StepKeeps(w, acts[0]);
      RetiredForEver(Apply(w, acts[0]), acts[1..], u);
    }
  }

  // ---- The registry ----

  ghost predicate Inhabited(w: World) {
    w.used != {} ==> w.db.uids != []
  }

  lemma StepInhabited(w: World, a: Action)
    requires Inv(w) && Enabled(w, a) && Inhabited(w)
    ensures Inhabited(Apply(w, a))
  {
    if a.Allocate? {
      hide Sound, ProducerCall, Allowed, Covered, Fifo, Stamped;
      CallConserves(w.db, a.k, w.clock, a.c);
    } else if a.Register? {
      assert a.u in (set x | x in a.order);
    }
  }

  lemma {:induction false} RunInhabited(w: World, acts: seq<Action>)
    requires Inv(w) && Legal(w, acts) && Inhabited(w)
    ensures Inhabited(Exec(w, acts))
    decreases acts
  {
    hide Inv, Enabled, Apply, Inhabited;
    if acts != [] {
      StepInhabited(w, acts[0]);
      StepKeeps(w, acts[0]);
      RunInhabited(Apply(w, acts[0]), acts[1..]);
    }
  }

  lemma ReachableInhabited(w: World)
    requires Reachable(w)
    ensures Inhabited(w)
  {
    var clock, acts :| Legal(Start(clock), acts) && w == Exec(Start(clock), acts);
    assert forall k :: HandsOn(Start(clock), k) == {};
    RunInhabited(Start(clock), acts);
  }

  /** Once a worker has registered the registry stays inhabited, and a selection yields a registered uid at once. */
  lemma SelectionNeverWaits(w: World, ignore: Option<Uid>)
    requires Reachable(w) && w.used != {}
    ensures w.db.uids != [] && Select(w.db, ignore).uid in w.db.keys
    ensures ignore.Some? && |w.db.uids| > 1 ==> Select(w.db, ignore).uid != ignore.value
  {
    hide Covered, Fifo, Stamped, Consistent, Counted, NoDup;
    ReachableInv(w);
    ReachableInhabited(w);
    SelectRegistered(w.db, ignore);
  }

  // ---- Staleness ----

  /** Truncation to seconds: stale exactly when 15 s have passed since the second of the stamp began. */
  lemma StaleWindow(t: real, now: real)
    ensures now.Floor - t.Floor >= 15 <==> now >= t.Floor as real + 15.0
    ensures now - t >= 15.0 ==> now.Floor - t.Floor >= 15
    ensures now - t <= 14.0 ==> now.Floor - t.Floor < 15
  {
  }

  /** The owner a call for `k` starts from was stamped at most 14 seconds ago. */
  ghost predicate Fresh(w: World, k: Key)
    requires k in w.db.owner || w.db.uids != []
  {
    var u := Route(w.db, k).uid;
    u in w.stampedAt && w.clock - w.stampedAt[u] <= 14.0
  }

  ghost predicate Calm(w: World, acts: seq<Action>)
    requires Legal(w, acts)
    decreases acts
  {
    acts == [] ||
    ((acts[0].Allocate? ==> Fresh(w, acts[0].k)) && Calm(Apply(w, acts[0]), acts[1..]))
  }

  ghost predicate Keeps(w: World, v: World) {
    forall k :: k in w.db.owner ==> k in v.db.owner && v.db.owner[k] == w.db.owner[k]
  }

  lemma StepKeepsOwners(w: World, a: Action)
    requires Inv(w) && Enabled(w, a) && (a.Allocate? ==> Fresh(w, a.k))
    ensures Keeps(w, Apply(w, a))
  {
    if a.Allocate? {
      RouteSound(w.db, a.k);
      var r := Route(w.db, a.k);
      StaleWindow(w.stampedAt[r.uid], w.clock);
      assert !Stale(r.db, r.uid, w.clock);
    }
  }

  /** While every call finds its owner freshly stamped, no key changes owner. */
  lemma {:induction false} CalmRunsKeepOwners(w: World, acts: seq<Action>)
    requires Inv(w) && Legal(w, acts) && Calm(w, acts)
    ensures Keeps(w, Exec(w, acts))
    decreases acts
  {
    if acts != [] {
      hide Inv, Enabled, Apply;
      StepKeepsOwners(w, acts[0]);
      StepKeeps(w, acts[0]);
      CalmRunsKeepOwners(Apply(w, acts[0]), acts[1..]);
    }
  }

  /** A gap of 15 seconds or more is always judged stale, and so is a worker never stamped. */
  lemma LongGapIsStale(w: World, u: Uid)
    requires Reachable(w)
    requires u in w.stampedAt ==> w.clock - w.stampedAt[u] >= 15.0
    ensures Stale(w.db, u, w.clock)
  {
    hide Sound, Covered, Fifo;
    ReachableInv(w);
  }

  /**
   In every run a worker is judged stale exactly if it has no stamp, or 15 seconds have passed since
   the beginning of the second in which its last stamp was made.
   */
  lemma StaleExactly(w: World, u: Uid)
    requires Reachable(w)
    ensures Stale(w.db, u, w.clock) <==>
      u !in w.stampedAt || w.clock >= w.stampedAt[u].Floor as real + 15.0
  {
    hide Sound, Covered, Fifo;
    ReachableInv(w);
  }

  /** A lone worker keeps its keys even when drained: only the iterator and the message's count change. */
  lemma LoneWorkerKeepsAll(db: Db, k: Key, now: real, c: Choice)
    requires Sound(db) && k in db.owner && |db.uids| == 1 && Allowed(db, k, now, c)
    ensures var d := ProducerCall(db, k, now, c); var p := (db.owner[k], k);
      d == db.(rr := d.rr, pending := db.pending[p := db.pending[p] + 1])
  {
    hide Settle, Allowed, Stale;
    SettleSettles(db, k, now, c);
  }
}
