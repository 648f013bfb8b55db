/**
 Pending counts at the granularity of single commands: ShardRuns with the producer call taken
 apart into the commands of ShardCommands (redis_queue/v1_0/utils.py:67-211). One call is in
 flight; pushes, the commands of any number of workers and the clock run between any two of its
 commands. A worker's HGET and HSET are two steps, and the HSET finds the count the HGET read
 (SplitDecrement says what happens if it does not). The count a move carries from one field to
 the other is in no field for a while; it still covers the key's messages.
 */
module CommandCounts {
  import opened Wrappers
  import opened Collections
  import opened Shards
  import opened Ownership
  import opened ShardRuns
  import opened ShardCommands
  import SplitDecrement

  /** A world with one call in flight (or `Done`), for key `k`, and the counts workers have read. */
  datatype Live = Live(w: World, pc: Pc, k: Key, seen: map<Uid, Option<nat>>)

  datatype Turn =
    | Open(k: Key)          // a call begins
    | Issue(c: Choice)      // its next command
    | Other(a: Action)      // any step of ShardRuns but a whole call or a whole decrement
    | Look(u: Uid)          // a worker's HGET of its pending count
    | Lower(u: Uid)         // its HSET
    | Leave                 // a Redis error ends the call part way

  function NextState(l: Live, c: Choice): State
    requires Busy(l.pc)
  {
    Command(State(l.w.db, l.pc), l.k, l.w.clock, c)
  }

  /** The call after its next command; the count of the message and its ticket appear together. */
  function Issued(l: Live, c: Choice): Live
    requires Busy(l.pc)
  {
    var s := NextState(l, c);
    Live(l.w.(db := s.db, tickets := if l.pc.CountMsg? then l.w.tickets + multiset{l.k} else l.w.tickets), s.pc, l.k, l.seen)
  }

  ghost predicate CanGo(l: Live, t: Turn) {
    match t
    case Open(_) => l.pc.Done?
    case Issue(c) => Busy(l.pc) && Possible(State(l.w.db, l.pc), c)
    case Other(a) => !a.Allocate? && !a.Account? && Enabled(l.w, a)
    case Look(u) => Enabled(l.w, Account(u)) && u !in l.seen
    case Lower(u) =>
      Enabled(l.w, Account(u)) && u in l.seen && SplitDecrement.Unmoved(l.seen[u], SplitDecrement.CountAt(l.w, u))
    case Leave => Busy(l.pc) && !Midway(l.pc) && Missing(l.pc, l.k).None?
  }

  function Go(l: Live, t: Turn): Live
    requires CanGo(l, t)
  {
    match t
    case Open(k) => l.(pc := Exists, k := k)
    case Issue(c) => Issued(l, c)
    case Other(a) => l.(w := Apply(l.w, a))
    case Look(u) => l.(seen := l.seen[u := SplitDecrement.CountAt(l.w, u)])
    case Lower(u) => l.(w := SplitDecrement.Written(l.w, u, l.seen[u]), seen := l.seen - {u})
    case Leave => l.(pc := Done)
  }

  ghost predicate Path(l: Live, ts: seq<Turn>)
    decreases ts
  {
    ts == [] || (CanGo(l, ts[0]) && Path(Go(l, ts[0]), ts[1..]))
  }

  ghost function Last(l: Live, ts: seq<Turn>): Live
    requires Path(l, ts)
    decreases ts
  {
    if ts == [] then l else Last(Go(l, ts[0]), ts[1..])
  }

  // ---- Counts in flight ----

  /** The key whose count is in no field between two commands. */
  function Missing(pc: Pc, k: Key): Option<Key> {
    match pc
    case ReadAssigned(_) => Some(k)
    case WriteAssigned(_, _) => Some(k)
    case ZeroCount(_) => Some(k)
    case MoveOwner(job, _, _, _) => KeyAt(job)
    case MoveWriteNew(job, _, _, _) => KeyAt(job)
    case MoveAdd(job, _, _) => KeyAt(job)
    case _ => None
  }

  function KeyAt(job: Job): Option<Key> {
    if job.j < |job.listed| then Some(job.listed[job.j]) else None
  }

  /** The count the call carries meanwhile. */
  function Carried(pc: Pc): nat {
    match pc
    case MoveOwner(_, _, _, n) => if n.Some? then n.value else 0
    case MoveWriteNew(_, _, _, n) => if n.Some? then n.value else 0
    case MoveAdd(_, _, n) => n
    case _ => 0
  }

  /** Counts exist for owning pairs and cover what is on its way; `x` has none, and at most `n` messages. */
  ghost predicate CountsBut(w: World, x: Option<Key>, n: nat) {
    && (forall u, j :: Some(j) != x ==> ((u, j) in w.db.pending <==> j in w.db.owner && w.db.owner[j] == u))
    && (forall j :: Some(j) != x ==> Load(w, j) <= Count(w.db, j))
    && (x.Some? ==> x.value in w.db.owner && Load(w, x.value) <= n && forall u :: (u, x.value) !in w.db.pending)
  }

  /** What the call knows of owners and counts at its next command. */
  ghost predicate Knows(db: Db, pc: Pc, k: Key) {
    match pc
    case ReadAssigned(u) => OwnedBy(db, k, u)
    case WriteAssigned(u, _) => OwnedBy(db, k, u)
    case ZeroCount(u) => OwnedBy(db, k, u)
    case ReadStamp(u) => OwnedBy(db, k, u)
    case ReadList(u) => OwnedBy(db, k, u)
    case ReadCount(u, _, _) => OwnedBy(db, k, u)
    case Probe(p) => ForMoveKnows(db, p, k)
    case Reset(p) => ForMoveKnows(db, p, k)
    case ReadIter(p) => ForMoveKnows(db, p, k)
    case ReadUids(p, _) => ForMoveKnows(db, p, k)
    case WriteIter(p, _, _) => ForMoveKnows(db, p, k)
    case MoveReadOld(job, _) => OwnedBy(db, k, job.plugin)
    case MoveReadNew(job, _, _) => OwnedBy(db, k, job.plugin)
    case MoveWriteOld(job, _, _, _) => OwnedBy(db, k, job.plugin)
    case MoveReadCount(job, _, _) => OwnedBy(db, k, job.plugin)
    case MoveDropCount(job, _, _, n) =>
      OwnedBy(db, k, job.plugin) && n.Some? && KeyAt(job).Some?
      && forall u :: (u, KeyAt(job).value) in db.pending ==> db.pending[(u, KeyAt(job).value)] <= n.value
    case MoveOwner(job, _, _, n) => OwnedBy(db, k, job.plugin) && n.Some?
    case MoveWriteNew(job, u, _, n) => OwnedBy(db, k, Follower(job, u, k)) && n.Some?
    case MoveAdd(job, u, _) => OwnedBy(db, k, Follower(job, u, k)) && KeyAt(job).Some? && OwnedBy(db, KeyAt(job).value, u)
    case CheckEmpty(job) => OwnedBy(db, k, job.plugin)
    case DropUid(job) => OwnedBy(db, k, job.plugin)
    case CountMsg(u) => OwnedBy(db, k, u)
    case _ => true
  }

  ghost predicate OwnedBy(db: Db, k: Key, u: Uid) {
    k in db.owner && db.owner[k] == u
  }

  ghost predicate ForMoveKnows(db: Db, p: Purpose, k: Key) {
    p.ForMove? ==> OwnedBy(db, k, p.job.plugin)
  }

  /** Whom the message's key belongs to once key `j` of the drain has moved to `u`. */
  function Follower(job: Job, u: Uid, k: Key): Uid {
    if KeyAt(job) == Some(k) then u else job.plugin
  }

  ghost predicate LiveOk(l: Live) {
    && PcOk(State(l.w.db, l.pc), l.k)
    && CountsBut(l.w, Missing(l.pc, l.k), Carried(l.pc))
    && Knows(l.w.db, l.pc, l.k)
    && Fifo(l.w) && l.w.db.keys.Keys <= l.w.used
  }

  // ---- Steps of the others ----

  lemma PopHands(w: World, u: Uid, k: Key, j: Key)
    requires Enabled(w, Pop(u, k))
    ensures |HandsOn(Apply(w, Pop(u, k)), j)| <= |HandsOn(w, j)| + if j == k then 1 else 0
  {
    hide At;
    var v := Apply(w, Pop(u, k));
    assert HandsOn(v, j) == HandsOn(w, j) || (j == k && HandsOn(v, j) == HandsOn(w, j) + {u});
  }

  lemma PopQueue(w: World, u: Uid, k: Key, j: Key)
    requires Enabled(w, Pop(u, k))
    ensures var v := Apply(w, Pop(u, k));
      v.tickets == w.tickets && |At(v.queues, j)| + (if j == k then 1 else 0) == |At(w.queues, j)|
  {
  }

  lemma PopLoad(w: World, u: Uid, k: Key, j: Key)
    requires Enabled(w, Pop(u, k))
    ensures Load(Apply(w, Pop(u, k)), j) <= Load(w, j)
  {
    hide Enabled, Apply, HandsOn, At;
    PopHands(w, u, k, j);
    PopQueue(w, u, k, j);
  }

  lemma AccountLoad(w: World, u: Uid, j: Key)
    requires Enabled(w, Account(u))
    ensures Load(Apply(w, Account(u)), j) == Load(w, j) - if w.hands[u].key == j then 1 else 0
  {
    hide Decrement;
    var v := Apply(w, Account(u));
    assert HandsOn(v, j) == HandsOn(w, j) - {u};
    assert u in HandsOn(w, j) <==> w.hands[u].key == j;
  }

  lemma LoadStill(w: World, v: World, j: Key)
    requires |At(v.queues, j)| + v.tickets[j] <= |At(w.queues, j)| + w.tickets[j] && v.hands.Keys == w.hands.Keys
    requires forall u :: u in w.hands ==> v.hands[u].key == w.hands[u].key
    ensures Load(v, j) <= Load(w, j)
  {
    assert HandsOn(v, j) == HandsOn(w, j);
  }

  lemma PushLoad(w: World, k: Key, m: Msg, j: Key)
    requires Enabled(w, Push(k, m))
    ensures Load(Apply(w, Push(k, m)), j) <= Load(w, j)
  {
    hide Load;
    LoadStill(w, Apply(w, Push(k, m)), j);
  }

  lemma StampLoad(w: World, u: Uid, at: real, j: Key)
    requires Enabled(w, Stamp(u, at))
    ensures Load(Apply(w, Stamp(u, at)), j) <= Load(w, j)
  {
    hide Load;
    LoadStill(w, Apply(w, Stamp(u, at)), j);
  }

  lemma RestSame(w: World, a: Action)
    requires Enabled(w, a) && (a.Register? || a.GiveUp? || a.Read? || a.Tick?)
    ensures var v := Apply(w, a); v.queues == w.queues && v.tickets <= w.tickets && v.hands == w.hands
  {
    hide Lists, Allowed, ProducerCall, Decrement;
  }

  lemma LoadShrinks(w: World, a: Action, j: Key)
    requires Enabled(w, a) && !a.Allocate?
    ensures Load(Apply(w, a), j) <= Load(w, j)
  {
    hide Enabled, Apply, Load;
    if a.Pop? {
      PopLoad(w, a.u, a.k, j);
    } else if a.Account? {
      AccountLoad(w, a.u, j);
    } else if a.Push? {
      PushLoad(w, a.k, a.m, j);
    } else if a.Stamp? {
      StampLoad(w, a.u, a.at, j);
    } else {
      RestSame(w, a);
      LoadStill(w, Apply(w, a), j);
    }
  }

  lemma AccountCounts(w: World, u: Uid, x: Option<Key>, n: nat)
    requires CountsBut(w, x, n) && Enabled(w, Account(u))
    ensures CountsBut(Apply(w, Account(u)), x, n)
  {
    var v := Apply(w, Account(u));
    forall j ensures Load(v, j) <= Load(w, j) {
      AccountLoad(w, u, j);
    }
    forall j | Some(j) != x ensures Load(v, j) <= Count(v.db, j) {
      AccountLoad(w, u, j);
      assert Load(w, j) <= Count(w.db, j);
      hide Load;
    }
    hide Load;
  }

  lemma CountsStill(w: World, v: World, x: Option<Key>, n: nat)
    requires CountsBut(w, x, n) && v.db.owner == w.db.owner && v.db.pending == w.db.pending
    requires forall j :: Load(v, j) <= Load(w, j)
    ensures CountsBut(v, x, n)
  {
    hide Load;
    forall j | Some(j) != x ensures Load(v, j) <= Count(v.db, j) {
      assert Load(w, j) <= Count(w.db, j);
    }
  }

  lemma SameCounts(w: World, a: Action)
    requires Enabled(w, a) && !a.Allocate? && !a.Account?
    ensures Apply(w, a).db.owner == w.db.owner && Apply(w, a).db.pending == w.db.pending
  {
    hide Lists, Allowed, ProducerCall, Decrement, At;
  }

  lemma OtherCounts(w: World, a: Action, x: Option<Key>, n: nat)
    requires CountsBut(w, x, n) && Enabled(w, a) && !a.Allocate?
    ensures CountsBut(Apply(w, a), x, n)
  {
    hide Enabled, Apply, CountsBut, Load;
    if a.Account? {
      AccountCounts(w, a.u, x, n);
    } else {
      SameCounts(w, a);
      forall j ensures Load(Apply(w, a), j) <= Load(w, j) {
        LoadShrinks(w, a, j);
      }
      CountsStill(w, Apply(w, a), x, n);
    }
  }

  /** Owners stay, no count rises or appears. */
  ghost predicate CountsFall(d: Db, e: Db) {
    && e.owner == d.owner
    && forall p :: p in e.pending ==> p in d.pending && e.pending[p] <= d.pending[p]
  }

  lemma OtherFalls(w: World, a: Action)
    requires Enabled(w, a) && !a.Allocate?
    ensures CountsFall(w.db, Apply(w, a).db)
  {
    hide Lists, Allowed, ProducerCall;
  }

  lemma OtherKnows(d: Db, e: Db, pc: Pc, k: Key)
    requires Knows(d, pc, k) && CountsFall(d, e)
    ensures Knows(e, pc, k)
  {
    hide Follower;
  }

  /** To the call in flight every step of the others is a worker command, or none. */
  lemma OtherPcOk(w: World, a: Action, pc: Pc, k: Key)
    requires Enabled(w, a) && !a.Allocate? && PcOk(State(w.db, pc), k) && w.db.keys.Keys <= w.used
    ensures PcOk(State(Apply(w, a).db, pc), k)
  {
    hide PcOk, Lists, Allowed, ProducerCall;
    var s := State(w.db, pc);
    match a
    case Register(u, order) => WorkerKeeps(s, k, PutUid(u, order));
    case Stamp(u, at) => WorkerKeeps(s, k, PutStamp(u, at.Floor));
    case Account(u) =>
      var p := (u, w.hands[u].key);
      if p in w.db.pending && w.db.pending[p] >= 1 {
        WorkerKeeps(s, k, PutCount(p.0, p.1, w.db.pending[p] - 1));
      }
    case _ =>
  }

  lemma OtherFifo(w: World, a: Action)
    requires Enabled(w, a) && !a.Allocate? && Fifo(w)
    ensures Fifo(Apply(w, a)) && (w.db.keys.Keys <= w.used ==> Apply(w, a).db.keys.Keys <= Apply(w, a).used)
  {
    hide Lists, Allowed, ProducerCall, Fifo;
    if a.Pop? {
      PopFifo(w, a.u, a.k);
    } else if a.Push? {
      PushFifo(w, a.k, a.m);
    } else {
      FifoStill(w, Apply(w, a));
    }
  }

  lemma FifoStill(w: World, v: World)
    requires Fifo(w) && v.queues == w.queues && v.popped == w.popped && v.pushed == w.pushed
    ensures Fifo(v)
  {
  }

  lemma OtherKeeps(l: Live, a: Action)
    requires LiveOk(l) && Enabled(l.w, a) && !a.Allocate?
    ensures LiveOk(l.(w := Apply(l.w, a)))
  {
    hide PcOk, CountsBut, Knows, Fifo, Enabled, Apply;
    OtherPcOk(l.w, a, l.pc, l.k);
    OtherCounts(l.w, a, Missing(l.pc, l.k), Carried(l.pc));
    OtherFalls(l.w, a);
    OtherKnows(l.w.db, Apply(l.w, a).db, l.pc, l.k);
    OtherFifo(l.w, a);
  }

  // ---- Commands of the call ----

  /** Commands that touch neither owners nor counts. */
  predicate Plain(pc: Pc) {
    !pc.SetOwner? && !pc.ZeroCount? && !pc.MoveDropCount? && !pc.MoveOwner? && !pc.MoveAdd? && !pc.CountMsg?
  }

  lemma PlainSame(l: Live, c: Choice)
    requires Busy(l.pc) && Plain(l.pc)
    ensures var d := NextState(l, c).db; d.owner == l.w.db.owner && d.pending == l.w.db.pending
  {
  }

  lemma PlainMissing(l: Live, c: Choice)
    requires LiveOk(l) && Busy(l.pc) && Plain(l.pc)
    ensures Missing(NextState(l, c).pc, l.k) == Missing(l.pc, l.k)
    ensures Carried(NextState(l, c).pc) == Carried(l.pc)
  {
    hide PcOk, CountsBut, Fifo;
  }

  lemma SameLoad(w: World, d: Db)
    ensures forall j :: Load(w.(db := d), j) == Load(w, j)
  {
    forall j ensures Load(w.(db := d), j) == Load(w, j) {
      assert HandsOn(w.(db := d), j) == HandsOn(w, j);
    }
  }

  lemma PlainCounts(l: Live, c: Choice)
    requires LiveOk(l) && Busy(l.pc) && Plain(l.pc)
    ensures var m := Issued(l, c); CountsBut(m.w, Missing(m.pc, l.k), Carried(m.pc))
  {
    hide CountsBut, Command, PcOk;
    PlainSame(l, c);
    PlainMissing(l, c);
    SameLoad(l.w, NextState(l, c).db);
    CountsStill(l.w, Issued(l, c).w, Missing(l.pc, l.k), Carried(l.pc));
  }

  /** An owner recorded for a key without counts, or for one whose count the call carries. */
  lemma OwnerCounts(w: World, x: Key, u: Uid, n: nat)
    requires CountsBut(w, Some(x), n) || (CountsBut(w, None, 0) && x !in w.db.owner)
    ensures CountsBut(w.(db := w.db.(owner := w.db.owner[x := u])), Some(x), n)
  {
    var d := w.db.(owner := w.db.owner[x := u]);
    SameLoad(w, d);
    hide Load;
    assert Load(w, x) <= n by {
      assert CountsBut(w, None, 0) ==> Load(w, x) <= Count(w.db, x);
    }
    forall j | j != x ensures Load(w.(db := d), j) <= Count(d, j) {
      assert Load(w, j) <= Count(w.db, j);
    }
  }

  /** A count appears for the owner's pair: the one carried, or a zero. */
  lemma AddedCounts(w: World, x: Key, u: Uid, n: nat)
    requires CountsBut(w, Some(x), n) && OwnedBy(w.db, x, u)
    ensures CountsBut(w.(db := w.db.(pending := w.db.pending[(u, x) := n])), None, 0)
  {
    var d := w.db.(pending := w.db.pending[(u, x) := n]);
    SameLoad(w, d);
    hide Load;
    forall j ensures Load(w.(db := d), j) <= Count(d, j) {
      assert j != x ==> Load(w, j) <= Count(w.db, j);
    }
  }

  /** The count is taken out of its field; the call carries at least as much. */
  lemma TakenCounts(w: World, x: Key, u: Uid, n: nat)
    requires CountsBut(w, None, 0) && OwnedBy(w.db, x, u)
    requires (u, x) in w.db.pending ==> w.db.pending[(u, x)] <= n
    ensures CountsBut(w.(db := w.db.(pending := w.db.pending - {(u, x)})), Some(x), n)
  {
    var d := w.db.(pending := w.db.pending - {(u, x)});
    SameLoad(w, d);
    hide Load;
    assert Load(w, x) <= Count(w.db, x);
    forall j | j != x ensures Load(w.(db := d), j) <= Count(d, j) {
      assert Load(w, j) <= Count(w.db, j);
    }
  }

  /** The message is counted as its ticket appears. */
  lemma MessageCounts(w: World, k: Key, u: Uid)
    requires CountsBut(w, None, 0) && OwnedBy(w.db, k, u)
    ensures CountsBut(w.(db := w.db.(pending := Bump(w.db.pending, (u, k), 1)), tickets := w.tickets + multiset{k}), None, 0)
  {
    var d := w.db.(pending := Bump(w.db.pending, (u, k), 1));
    var v := w.(db := d, tickets := w.tickets + multiset{k});
    forall j ensures Load(v, j) <= Count(d, j) {
      assert Load(w, j) <= Count(w.db, j);
      assert HandsOn(v, j) == HandsOn(w, j);
    }
  }

  lemma AssignCounted(l: Live, c: Choice)
    requires LiveOk(l) && (l.pc.SetOwner? || l.pc.ZeroCount? || l.pc.CountMsg?)
    ensures var m := Issued(l, c); CountsBut(m.w, Missing(m.pc, l.k), Carried(m.pc))
  {
    hide CountsBut, Fifo, Bump;
    if l.pc.SetOwner? {
      OwnerCounts(l.w, l.k, l.pc.u, 0);
    } else if l.pc.ZeroCount? {
      AddedCounts(l.w, l.k, l.pc.u, 0);
    } else {
      MessageCounts(l.w, l.k, l.pc.u);
    }
  }

  lemma DropCounted(l: Live, c: Choice)
    requires LiveOk(l) && Busy(l.pc) && l.pc.MoveDropCount?
    ensures var m := Issued(l, c); CountsBut(m.w, Missing(m.pc, l.k), Carried(m.pc))
  {
    hide CountsBut, Fifo;
    var x := l.pc.job.listed[l.pc.job.j];
    assert OwnedBy(l.w.db, x, l.pc.job.src);
    hide PcOk;
    TakenCounts(l.w, x, l.pc.job.src, l.pc.n.value);
  }

  lemma OwnerCounted(l: Live, c: Choice)
    requires LiveOk(l) && Busy(l.pc) && l.pc.MoveOwner?
    ensures var m := Issued(l, c); CountsBut(m.w, Missing(m.pc, l.k), Carried(m.pc))
  {
    hide CountsBut, Fifo, PcOk;
    OwnerCounts(l.w, l.pc.job.listed[l.pc.job.j], l.pc.u, l.pc.n.value);
  }

  lemma AddCounted(l: Live, c: Choice)
    requires LiveOk(l) && Busy(l.pc) && l.pc.MoveAdd?
    ensures var m := Issued(l, c); CountsBut(m.w, Missing(m.pc, l.k), Carried(m.pc))
  {
    var x := l.pc.job.listed[l.pc.job.j];
    assert (l.pc.u, x) !in l.w.db.pending;
    hide CountsBut, Fifo, PcOk;
    AddedCounts(l.w, x, l.pc.u, l.pc.count);
  }

  lemma CommandCounted(l: Live, c: Choice)
    requires LiveOk(l) && Busy(l.pc)
    ensures var m := Issued(l, c); CountsBut(m.w, Missing(m.pc, l.k), Carried(m.pc))
  {
    hide LiveOk, Issued, CountsBut, Missing, Carried;
    if Plain(l.pc) {
      PlainCounts(l, c);
    } else if l.pc.MoveDropCount? {
      DropCounted(l, c);
    } else if l.pc.MoveOwner? {
      OwnerCounted(l, c);
    } else if l.pc.MoveAdd? {
      AddCounted(l, c);
    } else {
      AssignCounted(l, c);
    }
  }

  // ---- What the call knows after its next command ----

  lemma SelectKnows(l: Live, c: Choice)
    requires LiveOk(l) && Busy(l.pc) && Selecting(l.pc)
    ensures var s := NextState(l, c); Knows(s.db, s.pc, l.k)
  {
    hide PcOk, CountsBut, Fifo;
  }

  lemma AssignKnows(l: Live, c: Choice)
    requires LiveOk(l) && Busy(l.pc) && AssigningPc(l.pc)
    ensures var s := NextState(l, c); Knows(s.db, s.pc, l.k)
  {
    hide CountsBut, Fifo;
  }

  lemma CheckKnows(l: Live, c: Choice)
    requires LiveOk(l) && Busy(l.pc) && Checking(l.pc)
    ensures var s := NextState(l, c); Knows(s.db, s.pc, l.k)
  {
    hide PcOk, CountsBut, Fifo;
  }

  /** The count read is the only one the key has. */
  lemma ReadCountKnows(l: Live, c: Choice)
    requires LiveOk(l) && Busy(l.pc) && l.pc.MoveReadCount?
    ensures var s := NextState(l, c); Knows(s.db, s.pc, l.k)
  {
    hide Fifo;
    var job := l.pc.job;
    var x := job.listed[job.j];
    assert x in l.w.db.owner && l.w.db.owner[x] == job.src;
    assert (job.src, x) in l.w.db.pending;
    assert forall u :: (u, x) in l.w.db.pending ==> u == job.src;
  }

  lemma MoveKnows(l: Live, c: Choice)
    requires LiveOk(l) && Busy(l.pc) && !Selecting(l.pc) && !AssigningPc(l.pc) && !Checking(l.pc) && !l.pc.MoveReadCount?
    ensures var s := NextState(l, c); Knows(s.db, s.pc, l.k)
  {
    hide CountsBut, Fifo, Quiet, AgreeBut, Unlisted, JobFrom;
  }

  lemma CommandKnows(l: Live, c: Choice)
    requires LiveOk(l) && Busy(l.pc)
    ensures var s := NextState(l, c); Knows(s.db, s.pc, l.k)
  {
    hide LiveOk, NextState, Knows;
    if Selecting(l.pc) {
      SelectKnows(l, c);
    } else if AssigningPc(l.pc) {
      AssignKnows(l, c);
    } else if Checking(l.pc) {
      CheckKnows(l, c);
    } else if l.pc.MoveReadCount? {
      ReadCountKnows(l, c);
    } else {
      MoveKnows(l, c);
    }
  }

  lemma CommandKeysUsed(l: Live, c: Choice)
    requires LiveOk(l) && Busy(l.pc)
    ensures NextState(l, c).db.keys.Keys <= l.w.used
  {
    hide CountsBut, Fifo, Knows;
  }

  lemma IssueKeeps(l: Live, c: Choice)
    requires LiveOk(l) && CanGo(l, Issue(c))
    ensures LiveOk(Go(l, Issue(c)))
  {
    CommandCounted(l, c);
    CommandKnows(l, c);
    CommandKeysUsed(l, c);
    CommandKeeps(State(l.w.db, l.pc), l.k, l.w.clock, c);
    hide CountsBut, Knows, PcOk, Command;
  }

  // ---- Whole runs ----

  function Beginning(clock: real, k: Key): Live {
    Live(Start(clock), Done, k, map[])
  }

  lemma BeginningOk(clock: real, k: Key)
    ensures LiveOk(Beginning(clock, k))
  {
    assert forall j :: HandsOn(Start(clock), j) == {};
  }

  lemma SeenKeeps(l: Live, seen: map<Uid, Option<nat>>)
    requires LiveOk(l)
    ensures LiveOk(l.(seen := seen))
  {
  }

  lemma TurnKeeps(l: Live, t: Turn)
    requires LiveOk(l) && CanGo(l, t)
    ensures LiveOk(Go(l, t))
  {
    match t
    case Open(k) => EdgeKeeps(l, Exists, k);
    case Issue(c) => IssueKeeps(l, c);
    case Other(a) => OtherKeeps(l, a);
    case Look(u) => SeenKeeps(l, Go(l, t).seen);
    case Lower(u) =>
      SplitDecrement.LateWriteIsAtomic(l.w, u, l.seen[u]);
      OtherKeeps(l, Account(u));
      SeenKeeps(l.(w := Apply(l.w, Account(u))), l.seen - {u});
    case Leave => EdgeKeeps(l, Done, l.k);
  }

  /** Between calls nothing is missing and nothing is known. */
  lemma EdgeKeeps(l: Live, pc: Pc, k: Key)
    requires LiveOk(l) && !Midway(l.pc) && Missing(l.pc, l.k).None? && (pc.Done? || pc.Exists?)
    ensures LiveOk(l.(pc := pc, k := k))
  {
    AbandonKeeps(State(l.w.db, l.pc), l.k);
    hide CountsBut, Fifo;
  }

  lemma {:induction false} PathKeeps(l: Live, ts: seq<Turn>)
    requires LiveOk(l) && Path(l, ts)
    ensures LiveOk(Last(l, ts))
    decreases ts
  {
    hide LiveOk, CanGo, Go;
    if ts != [] {
      TurnKeeps(l, ts[0]);
      PathKeeps(Go(l, ts[0]), ts[1..]);
    }
  }

  /**
   Command by command: every message on its way is covered by its owner's pending count, or by the
   count the call is carrying from one owner to the next.
   */
  lemma CommandsCoverLoad(clock: real, k0: Key, ts: seq<Turn>, j: Key)
    requires Path(Beginning(clock, k0), ts)
    ensures var l := Last(Beginning(clock, k0), ts);
      |At(l.w.queues, j)| + l.w.tickets[j] + |HandsOn(l.w, j)|
        <= if Missing(l.pc, l.k) == Some(j) then Carried(l.pc) else Count(l.w.db, j)
    ensures var w := Last(Beginning(clock, k0), ts).w; At(w.popped, j) + At(w.queues, j) == At(w.pushed, j)
  {
    BeginningOk(clock, k0);
    PathKeeps(Beginning(clock, k0), ts);
    var l := Last(Beginning(clock, k0), ts);
    hide Path, Last, PcOk, Knows;
    assert Load(l.w, j) <= if Missing(l.pc, l.k) == Some(j) then Carried(l.pc) else Count(l.w.db, j);
  }

  lemma SoundUnlessBroken(l: Live)
    requires LiveOk(l)
    ensures Sound(l.w.db) <==> !Midway(l.pc) && Missing(l.pc, l.k).None?
  {
    var s := State(l.w.db, l.pc);
    if Missing(l.pc, l.k).Some? {
      var x := Missing(l.pc, l.k).value;
      hide PcOk;
      assert x in l.w.db.owner && (l.w.db.owner[x], x) !in l.w.db.pending;
    } else if Midway(l.pc) {
      MidwayStrands(s, l.k);
      hide PcOk, CountsBut;
      assert Consistent(l.w.db) ==> Agrees(l.w.db);
    } else {
      AbandonKeeps(s, l.k);
      assert Counted(l.w.db);
      hide CountsBut;
    }
  }

  /**
   Whenever no call is in flight the maps agree, counts exist exactly for owning pairs and no queue is
   orphaned; a call that stops part way leaves that so if and only if it stops outside an assignment's
   or a move's writes.
   */
  lemma CommandsStaySound(clock: real, k0: Key, ts: seq<Turn>)
    requires Path(Beginning(clock, k0), ts)
    ensures var l := Last(Beginning(clock, k0), ts); var db := l.w.db;
      && (Sound(db) <==> !Midway(l.pc) && Missing(l.pc, l.k).None?)
      && (Sound(db) ==> forall j :: At(l.w.queues, j) != [] ==>
            j in db.owner && db.owner[j] in db.keys && j in db.keys[db.owner[j]])
  {
    BeginningOk(clock, k0);
    PathKeeps(Beginning(clock, k0), ts);
    var l := Last(Beginning(clock, k0), ts);
    SoundUnlessBroken(l);
    hide LiveOk, Path, Last;
    if Sound(l.w.db) {
      forall j | At(l.w.queues, j) != [] ensures j in l.w.db.owner {
        CommandsCoverLoad(clock, k0, ts, j);
      }
    }
  }
}
