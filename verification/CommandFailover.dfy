/**
 Failover at the granularity of single commands, in the runs of CommandCounts
 (redis_queue/v1_0/utils.py:175-208): once a call has judged its owner stale, no command of a
 worker, not even the owner's own, keeps it from moving every key away and removing the owner.
 */
module CommandFailover {
  import opened Collections
  import opened Shards
  import opened Ownership
  import opened ShardRuns
  import opened ShardCommands
  import opened CommandCounts

  /** The owner `u` under failover, the keys it had when judged stale, and who else is registered. */
  datatype Case = Case(u: Uid, ks: set<Key>, waiting: Key, other: Uid)

  ghost predicate OwnsExactly(db: Db, u: Uid, ks: set<Key>) {
    forall j :: j in db.owner && db.owner[j] == u <==> j in ks
  }

  ghost predicate Gone(db: Db, u: Uid, ks: set<Key>) {
    forall j :: j in ks ==> j in db.owner && db.owner[j] != u
  }

  /** The first `n` listed keys have moved away from `u`; it owns no others than the rest. */
  ghost predicate Left(db: Db, f: Case, listed: seq<Key>, n: nat) {
    && Lists(listed, f.ks)
    && (forall x :: 0 <= x < n && x < |listed| ==> listed[x] in db.owner && db.owner[listed[x]] != f.u)
    && (forall j :: j in db.owner && db.owner[j] == f.u ==> exists x :: n <= x < |listed| && listed[x] == j)
  }

  ghost predicate Draining(db: Db, f: Case, job: Job, n: nat) {
    job.src == f.u && Left(db, f, job.listed, n)
  }

  ghost predicate DrainingFor(db: Db, f: Case, p: Purpose) {
    p.ForMove? && Draining(db, f, p.job, p.job.j)
  }

  /** Where the failover stands at each command. */
  ghost predicate Progress(db: Db, f: Case, pc: Pc) {
    match pc
    case ReadList(v) => v == f.u && OwnsExactly(db, f.u, f.ks)
    case ReadCount(v, listed, i) =>
      v == f.u && OwnsExactly(db, f.u, f.ks) && Lists(listed, f.ks)
      && exists x :: i <= x < |listed| && listed[x] == f.waiting
    case Probe(p) => DrainingFor(db, f, p)
    case Reset(p) => DrainingFor(db, f, p)
    case ReadIter(p) => DrainingFor(db, f, p)
    case ReadUids(p, _) => DrainingFor(db, f, p)
    case WriteIter(p, v, _) => DrainingFor(db, f, p) && v != f.u
    case MoveReadOld(job, v) => Draining(db, f, job, job.j) && v != f.u
    case MoveReadNew(job, v, _) => Draining(db, f, job, job.j) && v != f.u
    case MoveWriteOld(job, v, _, _) => Draining(db, f, job, job.j) && v != f.u
    case MoveReadCount(job, v, _) => Draining(db, f, job, job.j) && v != f.u
    case MoveDropCount(job, v, _, _) => Draining(db, f, job, job.j) && v != f.u
    case MoveOwner(job, v, _, _) => Draining(db, f, job, job.j) && v != f.u
    case MoveWriteNew(job, v, _, _) => Draining(db, f, job, job.j + 1) && v != f.u
    case MoveAdd(job, v, _) => Draining(db, f, job, job.j + 1) && v != f.u
    case CheckEmpty(job) => Draining(db, f, job, |job.listed|)
    case DropUid(job) => job.src == f.u && Gone(db, f.u, f.ks)
    case CountMsg(_) => f.u !in db.keys && Gone(db, f.u, f.ks)
    case Done => f.u !in db.keys && Gone(db, f.u, f.ks)
    case _ => false
  }

  ghost predicate Failing(l: Live, f: Case) {
    && LiveOk(l) && Progress(l.w.db, f, l.pc)
    && f.u in l.w.used && f.other in l.w.db.keys && f.other != f.u && f.waiting in f.ks
  }

  // ---- Steps of the others ----

  lemma OtherProgress(d: Db, e: Db, f: Case, pc: Pc)
    requires Progress(d, f, pc) && e.owner == d.owner && (f.u !in d.keys ==> f.u !in e.keys)
    ensures Progress(e, f, pc)
  {
    hide Lists;
  }

  lemma KeysStay(w: World, a: Action)
    requires Enabled(w, a) && !a.Allocate? && w.db.keys.Keys <= w.used
    ensures var v := Apply(w, a);
      && v.db.owner == w.db.owner && w.db.keys.Keys <= v.db.keys.Keys && w.used <= v.used
      && forall u :: u in w.used && u !in w.db.keys ==> u !in v.db.keys
  {
    hide Lists, Allowed, ProducerCall, Decrement, At;
  }

  lemma OtherFailing(l: Live, f: Case, a: Action)
    requires Failing(l, f) && Enabled(l.w, a) && !a.Allocate?
    ensures Failing(l.(w := Apply(l.w, a)), f)
  {
    hide LiveOk, Progress, Enabled, Apply;
    OtherKeeps(l, a);
    LiveKeysUsed(l);
    KeysStay(l.w, a);
    OtherProgress(l.w.db, Apply(l.w, a).db, f, l.pc);
  }

  lemma LiveKeysUsed(l: Live)
    requires LiveOk(l)
    ensures l.w.db.keys.Keys <= l.w.used
  {
  }

  // ---- Commands of the call ----

  /** The waiting message is counted, so the scan cannot pass its key. */
  lemma ScanProgress(l: Live, f: Case, c: Choice)
    requires Failing(l, f) && l.pc.ReadCount? && Busy(l.pc) && At(l.w.queues, f.waiting) != []
    ensures var s := NextState(l, c); Progress(s.db, f, s.pc)
  {
    var listed, i := l.pc.listed, l.pc.i;
    hide PcOk, Fifo, NoDup;
    assert Load(l.w, f.waiting) <= Count(l.w.db, f.waiting);
    assert listed[i] == f.waiting ==> Backlogged(l.w.db, f.u, f.waiting);
    hide CountsBut, Load;
    var x :| i <= x < |listed| && listed[x] == f.waiting;
    if NextState(l, c).pc.Probe? {
      ListsElems(listed, f.ks);
      forall j | j in l.w.db.owner && l.w.db.owner[j] == f.u ensures exists y :: 0 <= y < |listed| && listed[y] == j {
        assert j in listed;
      }
    } else {
      assert x != i;
    }
  }

  lemma ListProgress(l: Live, f: Case, c: Choice)
    requires Failing(l, f) && l.pc.ReadList? && Possible(State(l.w.db, l.pc), c)
    ensures var s := NextState(l, c); Progress(s.db, f, s.pc)
  {
    assert KeysOf(l.w.db, f.u) == f.ks;
    hide LiveOk, OwnsExactly;
    ListsElems(c.listed, f.ks);
    assert f.waiting in c.listed;
  }

  lemma SelectProgress(l: Live, f: Case, c: Choice)
    requires Failing(l, f) && Selecting(l.pc)
    ensures Busy(l.pc)
    ensures var s := NextState(l, c); Progress(s.db, f, s.pc)
  {
    hide CountsBut, Fifo, Knows, Left, Lists, NoDup, Candidates, Consistent;
    assert Wf(l.w.db) && f.u in l.w.db.keys;
    CandidatesOthers(l.w.db, f.u, f.other);
    LeftStill(l.w.db, NextState(l, c).db, f);
  }

  /** Moving the next key leaves one fewer behind. */
  lemma OwnerProgress(db: Db, f: Case, listed: seq<Key>, n: nat, v: Uid)
    requires Left(db, f, listed, n) && n < |listed| && v != f.u
    ensures Left(db.(owner := db.owner[listed[n] := v]), f, listed, n + 1)
  {
    var d := db.(owner := db.owner[listed[n] := v]);
    forall j | j in d.owner && d.owner[j] == f.u ensures exists x :: n + 1 <= x < |listed| && listed[x] == j {
      var x :| n <= x < |listed| && listed[x] == j;
      assert x != n;
    }
  }

  lemma OwnerMoved(l: Live, f: Case, c: Choice)
    requires Failing(l, f) && Busy(l.pc) && l.pc.MoveOwner?
    ensures var s := NextState(l, c); Progress(s.db, f, s.pc)
  {
    hide LiveOk, Left;
    OwnerProgress(l.w.db, f, l.pc.job.listed, l.pc.job.j, l.pc.u);
  }

  lemma MoveProgress(l: Live, f: Case, c: Choice)
    requires Failing(l, f) && Busy(l.pc) && !l.pc.MoveOwner?
    requires !Selecting(l.pc) && !AssigningPc(l.pc) && !Checking(l.pc)
    ensures var s := NextState(l, c); Progress(s.db, f, s.pc)
  {
    hide LiveOk, Left, Bump;
    LeftStill(l.w.db, NextState(l, c).db, f);
  }

  lemma LeftStill(d: Db, e: Db, f: Case)
    ensures e.owner == d.owner ==> forall listed, n: nat :: Left(d, f, listed, n) ==> Left(e, f, listed, n)
  {
    hide Lists;
  }

  lemma ListedKeys(db: Db, u: Uid)
    requires Consistent(db) && u in db.keys
    ensures forall j :: j in db.keys[u] ==> j in db.owner && db.owner[j] == u
  {
  }

  /** With every listed key gone the owner has none, and its list is empty. */
  lemma AllGone(db: Db, f: Case, listed: seq<Key>)
    requires Consistent(db) && f.u in db.keys && Left(db, f, listed, |listed|)
    ensures Gone(db, f.u, f.ks) && KeysOf(db, f.u) == {}
  {
    ListedKeys(db, f.u);
    ListsElems(listed, f.ks);
    forall j | j in f.ks ensures j in db.owner && db.owner[j] != f.u {
      assert j in listed;
    }
    assert KeysOf(db, f.u) == {};
  }

  lemma EmptyProgress(l: Live, f: Case, c: Choice)
    requires Failing(l, f) && l.pc.CheckEmpty?
    ensures var s := NextState(l, c); Progress(s.db, f, s.pc)
  {
    assert Consistent(l.w.db) && f.u in l.w.db.keys by {
      hide CountsBut, Fifo, Knows, NoDup;
    }
    hide LiveOk, Consistent;
    AllGone(l.w.db, f, l.pc.job.listed);
    hide Lists, Left, KeysOf, Gone;
  }

  lemma CheckProgress(l: Live, f: Case, c: Choice)
    requires Failing(l, f) && (l.pc.CheckEmpty? || l.pc.DropUid? || l.pc.CountMsg?)
    ensures var s := NextState(l, c); Progress(s.db, f, s.pc)
  {
    if l.pc.CheckEmpty? {
      EmptyProgress(l, f, c);
    } else {
      hide LiveOk, Lists, Left, KeysOf, Bump;
    }
  }

  lemma CommandProgress(l: Live, f: Case, c: Choice)
    requires Failing(l, f) && CanGo(l, Issue(c)) && (l.pc.ReadCount? ==> At(l.w.queues, f.waiting) != [])
    ensures var s := NextState(l, c); Progress(s.db, f, s.pc)
  {
    hide LiveOk, NextState, Possible;
    if l.pc.ReadCount? {
      ScanProgress(l, f, c);
    } else if l.pc.ReadList? {
      ListProgress(l, f, c);
    } else if Selecting(l.pc) {
      SelectProgress(l, f, c);
    } else if l.pc.CheckEmpty? || l.pc.DropUid? || l.pc.CountMsg? {
      CheckProgress(l, f, c);
    } else if l.pc.MoveOwner? {
      OwnerMoved(l, f, c);
    } else {
      MoveProgress(l, f, c);
    }
  }

  /** The call removes no uid but the one it drains. */
  lemma CommandKeepsOther(l: Live, f: Case, c: Choice)
    requires Failing(l, f) && Busy(l.pc)
    ensures f.other in NextState(l, c).db.keys
  {
    hide LiveOk, Left, Lists;
  }

  lemma IssueFailing(l: Live, f: Case, c: Choice)
    requires Failing(l, f) && CanGo(l, Issue(c)) && (l.pc.ReadCount? ==> At(l.w.queues, f.waiting) != [])
    ensures Failing(Go(l, Issue(c)), f)
  {
    IssueKeeps(l, c);
    CommandProgress(l, f, c);
    CommandKeepsOther(l, f, c);
    hide LiveOk, Progress, NextState;
  }

  // ---- Whole runs ----

  /** The message of `waiting` is still there at each command of the backlog scan. */
  ghost predicate StillWaiting(l: Live, ts: seq<Turn>, waiting: Key)
    requires Path(l, ts)
    decreases ts
  {
    ts == [] ||
    ((ts[0].Issue? && l.pc.ReadCount? ==> At(l.w.queues, waiting) != [])
     && StillWaiting(Go(l, ts[0]), ts[1..], waiting))
  }

  predicate SameCall(ts: seq<Turn>) {
    forall t :: t in ts ==> !t.Open? && !t.Leave?
  }

  lemma TurnFailing(l: Live, f: Case, t: Turn)
    requires Failing(l, f) && CanGo(l, t) && !t.Open? && !t.Leave?
    requires t.Issue? && l.pc.ReadCount? ==> At(l.w.queues, f.waiting) != []
    ensures Failing(Go(l, t), f)
  {
    hide LiveOk, Progress, Enabled, Apply, Issued;
    match t
    case Issue(c) => IssueFailing(l, f, c);
    case Other(a) => OtherFailing(l, f, a);
    case Look(u) => SeenKeeps(l, Go(l, t).seen);
    case Lower(u) =>
      SplitDecrement.LateWriteIsAtomic(l.w, u, l.seen[u]);
      OtherFailing(l, f, Account(u));
      SeenKeeps(l.(w := Apply(l.w, Account(u))), l.seen - {u});
    case _ =>
  }

  lemma {:induction false} PathFailing(l: Live, f: Case, ts: seq<Turn>)
    requires Failing(l, f) && Path(l, ts) && SameCall(ts) && StillWaiting(l, ts, f.waiting)
    ensures Failing(Last(l, ts), f)
    decreases ts
  {
    hide Failing, CanGo, Go;
    if ts != [] {
      assert ts[0] in ts && SameCall(ts[1..]);
      TurnFailing(l, f, ts[0]);
      PathFailing(Go(l, ts[0]), f, ts[1..]);
    }
  }

  lemma FailedOver(m: Live, f: Case)
    requires Failing(m, f) && m.pc.Done?
    ensures var db := m.w.db;
      f.u !in db.keys && forall j :: j in f.ks ==> j in db.owner && db.owner[j] in db.keys && db.owner[j] != f.u
  {
    hide CountsBut, Fifo, NoDup;
  }

  lemma FailoverBegins(l: Live, f: Case)
    requires LiveOk(l) && l.pc == ReadList(f.u) && f.ks == KeysOf(l.w.db, f.u) && f.waiting in f.ks
    requires f.other in l.w.db.keys && f.other != f.u
    ensures Failing(l, f)
  {
    hide CountsBut, Fifo, NoDup;
  }

  /**
   A call that has judged its owner stale, while another worker is registered and a message of one of
   the owner's keys waits until the scan has read that key's count, ends with the owner removed and
   every key it had with another registered worker.
   */
  lemma FailoverByCommand(clock: real, k0: Key, before: seq<Turn>, ts: seq<Turn>, waiting: Key, other: Uid)
    requires Path(Beginning(clock, k0), before)
    requires var l := Last(Beginning(clock, k0), before);
      && l.pc.ReadList? && waiting in KeysOf(l.w.db, l.pc.u) && other in l.w.db.keys && other != l.pc.u
      && Path(l, ts) && SameCall(ts) && StillWaiting(l, ts, waiting) && Last(l, ts).pc.Done?
    ensures var l := Last(Beginning(clock, k0), before); var db := Last(l, ts).w.db;
      && l.pc.u !in db.keys
      && forall j :: j in KeysOf(l.w.db, l.pc.u) ==> j in db.owner && db.owner[j] in db.keys && db.owner[j] != l.pc.u
  {
    BeginningOk(clock, k0);
    PathKeeps(Beginning(clock, k0), before);
    var l := Last(Beginning(clock, k0), before);
    var f := Case(l.pc.u, KeysOf(l.w.db, l.pc.u), waiting, other);
    hide Path, Last, LiveOk, Failing;
    FailoverBegins(l, f);
    PathFailing(l, f, ts);
    FailedOver(Last(l, ts), f);
  }
}
