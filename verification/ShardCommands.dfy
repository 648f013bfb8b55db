/**
 The allocator at the granularity of single Redis commands (redis_queue/v1_0/utils.py:67-211):
 one producer call is in flight, and any number of worker commands (redis_queue/v1_0/inbound.py)
 run between any two of its commands. Workers may overwrite pending counts and stamps at will
 and register at any time.
 */
module ShardCommands {
  import opened Wrappers
  import opened Collections
  import opened Shards
  import opened Ownership

  /** A drain in progress: `listed` was read from `src`, its key `j` is next. */
  datatype Job = Job(src: Uid, listed: seq<Key>, j: nat, plugin: Uid)

  /** Who asked for a uid. */
  datatype Purpose = ForAssign | ForMove(job: Job)

  /** The next command of the call, with the local variables still needed. */
  datatype Pc =
    | Exists                                                      // HEXISTS recip_key_uid_map
    | ReadOwner                                                   // HGET recip_key_uid_map
    | Probe(p: Purpose)                                           // GET round_robin_iterator
    | Reset(p: Purpose)                                           // SET round_robin_iterator 0
    | ReadIter(p: Purpose)                                        // GET round_robin_iterator
    | ReadUids(p: Purpose, i: nat)                                // HKEYS uid_recip_keys_map
    | WriteIter(p: Purpose, u: Uid, next: nat)                    // SET round_robin_iterator
    | SetOwner(u: Uid)                                            // HSET recip_key_uid_map
    | ReadAssigned(u: Uid)                                        // HGET uid_recip_keys_map
    | WriteAssigned(u: Uid, ks: set<Key>)                         // HSET uid_recip_keys_map
    | ZeroCount(u: Uid)                                           // HSET pending count 0
    | ReadStamp(u: Uid)                                           // HGET uid_last_access_map
    | ReadList(u: Uid)                                            // HGET uid_recip_keys_map
    | ReadCount(u: Uid, listed: seq<Key>, i: nat)                 // HGET pending count
    | MoveReadOld(job: Job, u: Uid)                               // HGET uid_recip_keys_map
    | MoveReadNew(job: Job, u: Uid, oldKeys: set<Key>)            // HGET uid_recip_keys_map
    | MoveWriteOld(job: Job, u: Uid, oldKeys: set<Key>, newKeys: set<Key>) // HSET uid_recip_keys_map
    | MoveReadCount(job: Job, u: Uid, newKeys: set<Key>)          // HGET pending count
    | MoveDropCount(job: Job, u: Uid, newKeys: set<Key>, n: Option<nat>) // HDEL pending count
    | MoveOwner(job: Job, u: Uid, newKeys: set<Key>, n: Option<nat>)     // HSET recip_key_uid_map
    | MoveWriteNew(job: Job, u: Uid, newKeys: set<Key>, n: Option<nat>)  // HSET uid_recip_keys_map
    | MoveAdd(job: Job, u: Uid, count: nat)                       // HINCRBY pending count
    | CheckEmpty(job: Job)                                        // HGET uid_recip_keys_map
    | DropUid(job: Job)                                           // HDEL uid_recip_keys_map
    | CountMsg(u: Uid)                                            // HINCRBY pending count
    | Done

  datatype State = State(db: Db, pc: Pc)

  predicate Busy(pc: Pc) {
    match pc
    case ReadCount(_, listed, i) => i < |listed|
    case Probe(p) => p.ForMove? ==> p.job.j < |p.job.listed|
    case Reset(p) => p.ForMove? ==> p.job.j < |p.job.listed|
    case ReadIter(p) => p.ForMove? ==> p.job.j < |p.job.listed|
    case ReadUids(p, _) => p.ForMove? ==> p.job.j < |p.job.listed|
    case WriteIter(p, _, _) => p.ForMove? ==> p.job.j < |p.job.listed|
    case MoveReadOld(job, _) => job.j < |job.listed|
    case MoveReadNew(job, _, _) => job.j < |job.listed|
    case MoveWriteOld(job, _, _, _) => job.j < |job.listed|
    case MoveReadCount(job, _, _) => job.j < |job.listed|
    case MoveDropCount(job, _, _, _) => job.j < |job.listed|
    case MoveOwner(job, _, _, _) => job.j < |job.listed|
    case MoveWriteNew(job, _, _, _) => job.j < |job.listed|
    case MoveAdd(job, _, _) => job.j < |job.listed|
    case Done => false
    case _ => true
  }

  /** The loop of a drain: the next key, or the check that ends it. */
  function Advanced(job: Job, u: Uid, k: Key): Pc
    requires job.j < |job.listed|
  {
    var next := job.(j := job.j + 1, plugin := if job.listed[job.j] == k then u else job.plugin);
    if next.j < |next.listed| then Probe(ForMove(next)) else CheckEmpty(next)
  }

  /** One command of a call for key `k`; a selection on an empty registry starts over. */
  function Command(s: State, k: Key, now: real, c: Choice): State
    requires Busy(s.pc)
  {
    var db := s.db;
    match s.pc
    case Exists => s.(pc := if k in db.owner then ReadOwner else Probe(ForAssign))
    case ReadOwner => s.(pc := if k in db.owner then ReadStamp(db.owner[k]) else Done)
    case Probe(p) => s.(pc := if db.rr.None? then Reset(p) else ReadIter(p))
    case Reset(p) => State(db.(rr := Some(0)), ReadIter(p))
    case ReadIter(p) => s.(pc := ReadUids(p, Iterator(db)))
    case ReadUids(p, i) =>
      var cands := Candidates(db.uids, if p.ForMove? then Some(p.job.src) else None);
      s.(pc := if cands == [] then Probe(p) else WriteIter(p, Pick(cands, i), Advance(|cands|, i)))
    case WriteIter(p, u, next) =>
      State(db.(rr := Some(next)), if p.ForMove? then MoveReadOld(p.job, u) else SetOwner(u))
    case SetOwner(u) => State(db.(owner := db.owner[k := u]), ReadAssigned(u))
    case ReadAssigned(u) => s.(pc := if k in KeysOf(db, u) then ZeroCount(u) else WriteAssigned(u, KeysOf(db, u)))
    case WriteAssigned(u, ks) => State(PutKeys(db, u, ks + {k}), ZeroCount(u))
    case ZeroCount(u) => State(db.(pending := db.pending[(u, k) := 0]), ReadStamp(u))
    case ReadStamp(u) => s.(pc := if Stale(db, u, now) then ReadList(u) else CountMsg(u))
    case ReadList(u) => s.(pc := if c.listed == [] then CountMsg(u) else ReadCount(u, c.listed, 0))
    case ReadCount(u, listed, i) =>
      s.(pc := if Backlogged(db, u, listed[i]) then Probe(ForMove(Job(u, listed, 0, u)))
               else if i + 1 < |listed| then ReadCount(u, listed, i + 1) else CountMsg(u))
    case MoveReadOld(job, u) => s.(pc := MoveReadNew(job, u, KeysOf(db, job.src)))
    case MoveReadNew(job, u, oldKeys) => s.(pc := MoveWriteOld(job, u, oldKeys, KeysOf(db, u)))
    case MoveWriteOld(job, u, oldKeys, newKeys) =>
      State(PutKeys(db, job.src, oldKeys - {job.listed[job.j]}), MoveReadCount(job, u, newKeys))
    case MoveReadCount(job, u, newKeys) =>
      var f := (job.src, job.listed[job.j]);
      s.(pc := MoveDropCount(job, u, newKeys, if f in db.pending then Some(db.pending[f]) else None))
    case MoveDropCount(job, u, newKeys, n) =>
      State(db.(pending := db.pending - {(job.src, job.listed[job.j])}), MoveOwner(job, u, newKeys, n))
    case MoveOwner(job, u, newKeys, n) =>
      State(db.(owner := db.owner[job.listed[job.j] := u]), MoveWriteNew(job, u, newKeys, n))
    case MoveWriteNew(job, u, newKeys, n) =>
      State(PutKeys(db, u, newKeys + {job.listed[job.j]}),
            if n.Some? then MoveAdd(job, u, n.value) else Advanced(job, u, k))
    case MoveAdd(job, u, n) =>
      State(db.(pending := Bump(db.pending, (u, job.listed[job.j]), n)), Advanced(job, u, k))
    case CheckEmpty(job) => s.(pc := if KeysOf(db, job.src) == {} then DropUid(job) else CountMsg(job.plugin))
    case DropUid(job) => State(Deregister(db, job.src, c.order), CountMsg(job.plugin))
    case CountMsg(u) => State(db.(pending := Bump(db.pending, (u, k), 1)), Done)
  }

  /** The orders Python and Redis may produce where this command reads or changes one. */
  ghost predicate Possible(s: State, c: Choice) {
    && (s.pc.ReadList? ==> Lists(c.listed, KeysOf(s.db, s.pc.u)))
    && (s.pc.DropUid? ==> Lists(c.order, s.db.keys.Keys - {s.pc.job.src}))
  }

  // ---- Consistency between commands ----

  /** The two maps agree on every key but `k`. */
  ghost predicate AgreeBut(db: Db, k: Key) {
    && Wf(db)
    && (forall j :: j in db.owner && j != k ==> db.owner[j] in db.keys && j in db.keys[db.owner[j]])
    && (forall u, j :: u in db.keys && j in db.keys[u] && j != k ==> j in db.owner && db.owner[j] == u)
  }

  ghost predicate Quiet(db: Db) {
    Wf(db) && Consistent(db)
  }

  ghost predicate Unlisted(db: Db, k: Key) {
    forall u :: u in db.keys ==> k !in db.keys[u]
  }

  /** The keys from position `i` on are still in the drained uid's list. */
  ghost predicate JobFrom(db: Db, job: Job, i: nat) {
    && job.src in db.keys && NoDup(job.listed) && job.j < |job.listed|
    && forall x :: i <= x < |job.listed| ==> job.listed[x] in db.keys[job.src]
  }

  ghost predicate PurposeOk(db: Db, p: Purpose, k: Key) {
    Quiet(db) && match p case ForAssign => k !in db.owner case ForMove(job) => JobFrom(db, job, job.j)
  }

  /** Mid-move: the key is in no list, the recorded owner is `holder`, `newKeys` awaits its write. */
  ghost predicate Moving(db: Db, job: Job, u: Uid, newKeys: set<Key>, holder: Uid) {
    && JobFrom(db, job, job.j + 1) && u in db.keys
    && var key := job.listed[job.j];
      && AgreeBut(db, key) && Unlisted(db, key)
      && key in db.owner && db.owner[key] == holder
      && newKeys - {key} == db.keys[u]
  }

  ghost predicate Assigning(db: Db, k: Key, u: Uid) {
    AgreeBut(db, k) && Unlisted(db, k) && u in db.keys && k in db.owner && db.owner[k] == u
  }

  ghost predicate PcOk(s: State, k: Key) {
    var db := s.db;
    match s.pc
    case ReadOwner => Quiet(db) && k in db.owner
    case Probe(p) => PurposeOk(db, p, k)
    case Reset(p) => PurposeOk(db, p, k)
    case ReadIter(p) => PurposeOk(db, p, k)
    case ReadUids(p, _) => PurposeOk(db, p, k)
    case WriteIter(p, u, _) => PurposeOk(db, p, k) && u in db.keys
    case SetOwner(u) => Quiet(db) && k !in db.owner && u in db.keys
    case ReadAssigned(u) => Assigning(db, k, u)
    case WriteAssigned(u, ks) => Assigning(db, k, u) && ks == db.keys[u]
    case ReadCount(u, listed, i) => Quiet(db) && i < |listed| && JobFrom(db, Job(u, listed, 0, u), 0)
    case MoveReadOld(job, u) => Quiet(db) && JobFrom(db, job, job.j) && u in db.keys
    case MoveReadNew(job, u, oldKeys) => Quiet(db) && JobFrom(db, job, job.j) && u in db.keys && oldKeys == db.keys[job.src]
    case MoveWriteOld(job, u, oldKeys, newKeys) =>
      Quiet(db) && JobFrom(db, job, job.j) && u in db.keys && oldKeys == db.keys[job.src] && newKeys == db.keys[u]
    case MoveReadCount(job, u, newKeys) => Moving(db, job, u, newKeys, job.src)
    case MoveDropCount(job, u, newKeys, _) => Moving(db, job, u, newKeys, job.src)
    case MoveOwner(job, u, newKeys, _) => Moving(db, job, u, newKeys, job.src)
    case MoveWriteNew(job, u, newKeys, _) => Moving(db, job, u, newKeys, u)
    case MoveAdd(job, u, _) => Quiet(db) && JobFrom(db, job, job.j + 1)
    case CheckEmpty(job) => Quiet(db) && job.src in db.keys
    case DropUid(job) => Quiet(db) && job.src in db.keys && db.keys[job.src] == {}
    case _ => Quiet(db)
  }

  // ---- Every producer command keeps the invariant ----

  lemma SelectCommand(s: State, k: Key, now: real, c: Choice)
    requires PcOk(s, k)
    requires Selecting(s.pc)
    ensures Busy(s.pc) && PcOk(Command(s, k, now, c), k)
  {
    if s.pc.ReadUids? {
      ListsElems(s.db.uids, s.db.keys.Keys);
      if s.pc.p.ForMove? {
        WithoutLists(s.db.uids, s.pc.p.job.src);
      }
    }
  }

  lemma AssignCommand(s: State, k: Key, now: real, c: Choice)
    requires PcOk(s, k)
    requires AssigningPc(s.pc)
    ensures Busy(s.pc) && PcOk(Command(s, k, now, c), k)
  {
  }

  lemma CheckCommand(s: State, k: Key, now: real, c: Choice)
    requires PcOk(s, k) && Possible(s, c)
    requires Checking(s.pc)
    ensures Busy(s.pc) && PcOk(Command(s, k, now, c), k)
  {
    hide Stale, Backlogged;
    if s.pc.ReadList? {
      ListsElems(c.listed, KeysOf(s.db, s.pc.u));
      assert c.listed != [] ==> c.listed[0] in KeysOf(s.db, s.pc.u);
    } else if s.pc.DropUid? {
      DropCommand(s, k, now, c);
    }
  }

  lemma DropCommand(s: State, k: Key, now: real, c: Choice)
    requires PcOk(s, k) && Possible(s, c) && s.pc.DropUid?
    ensures PcOk(Command(s, k, now, c), k)
  {
    hide NoDup;
  }

  lemma MoveReadCommand(s: State, k: Key, now: real, c: Choice)
    requires PcOk(s, k) && (s.pc.MoveReadOld? || s.pc.MoveReadNew? || s.pc.MoveReadCount?)
    ensures Busy(s.pc) && PcOk(Command(s, k, now, c), k)
  {
    hide Quiet, AgreeBut, Unlisted;
  }

  lemma MoveCommand(s: State, k: Key, now: real, c: Choice)
    requires PcOk(s, k)
    requires PlainMove(s.pc)
    ensures Busy(s.pc) && PcOk(Command(s, k, now, c), k)
  {
    if s.pc.MoveReadOld? || s.pc.MoveReadNew? || s.pc.MoveReadCount? {
      MoveReadCommand(s, k, now, c);
    } else if s.pc.MoveAdd? {
      MoveAddCommand(s, k, now, c);
    } else {
      hide NoDup, Lists, Quiet;
    }
  }

  lemma MoveAddCommand(s: State, k: Key, now: real, c: Choice)
    requires PcOk(s, k) && s.pc.MoveAdd?
    ensures Busy(s.pc) && PcOk(Command(s, k, now, c), k)
  {
    hide NoDup, Lists, Bump;
  }

  lemma MoveWriteOldCommand(s: State, k: Key, now: real, c: Choice)
    requires PcOk(s, k) && s.pc.MoveWriteOld?
    ensures Busy(s.pc) && PcOk(Command(s, k, now, c), k)
  {
    var job := s.pc.job;
    var key := job.listed[job.j];
    var t := Command(s, k, now, c);
    assert t.db.keys == s.db.keys[job.src := s.db.keys[job.src] - {key}];
    assert s.db.owner[key] == job.src;
    assert forall u :: u in s.db.keys && key in s.db.keys[u] ==> u == job.src;
    assert s.pc.newKeys - {key} == t.db.keys[s.pc.u];
  }

  lemma MoveWriteNewCommand(s: State, k: Key, now: real, c: Choice)
    requires PcOk(s, k) && s.pc.MoveWriteNew?
    ensures Busy(s.pc) && PcOk(Command(s, k, now, c), k)
  {
    var job := s.pc.job;
    var key := job.listed[job.j];
    hide NoDup;
    var db := PutKeys(s.db, s.pc.u, s.pc.newKeys + {key});
    assert db.keys[s.pc.u] == s.db.keys[s.pc.u] + {key};
    assert Quiet(db);
  }

  predicate Selecting(pc: Pc) {
    pc.Probe? || pc.Reset? || pc.ReadIter? || pc.ReadUids? || pc.WriteIter?
  }

  predicate AssigningPc(pc: Pc) {
    pc.Exists? || pc.ReadOwner? || pc.SetOwner? || pc.ReadAssigned? || pc.WriteAssigned? || pc.ZeroCount?
  }

  predicate Checking(pc: Pc) {
    pc.ReadStamp? || pc.ReadList? || pc.ReadCount? || pc.CheckEmpty? || pc.DropUid? || pc.CountMsg?
  }

  predicate PlainMove(pc: Pc) {
    pc.MoveReadOld? || pc.MoveReadNew? || pc.MoveReadCount? || pc.MoveDropCount? || pc.MoveOwner? || pc.MoveAdd?
  }

  lemma CommandKeeps(s: State, k: Key, now: real, c: Choice)
    requires PcOk(s, k) && !s.pc.Done? && Possible(s, c)
    ensures Busy(s.pc) && PcOk(Command(s, k, now, c), k)
  {
    hide PcOk, Busy, Command, Possible;
    if Selecting(s.pc) {
      SelectCommand(s, k, now, c);
    } else if AssigningPc(s.pc) {
      AssignCommand(s, k, now, c);
    } else if Checking(s.pc) {
      CheckCommand(s, k, now, c);
    } else if PlainMove(s.pc) {
      MoveCommand(s, k, now, c);
    } else if s.pc.MoveWriteOld? {
      MoveWriteOldCommand(s, k, now, c);
    } else {
      MoveWriteNewCommand(s, k, now, c);
    }
  }

  // ---- So does every worker command ----

  datatype WorkerCommand =
    | PutUid(u: Uid, order: seq<Uid>)       // HSET uid_recip_keys_map: a new worker registers
    | PutStamp(u: Uid, t: int)              // HSET uid_last_access_map
    | PutCount(u: Uid, k: Key, n: nat)      // HSET pending count, computed from an earlier HGET

  ghost predicate Issuable(db: Db, wc: WorkerCommand) {
    wc.PutUid? ==> wc.u !in db.keys && Lists(wc.order, db.keys.Keys + {wc.u})
  }

  function Obey(db: Db, wc: WorkerCommand): Db {
    match wc
    case PutUid(u, order) => db.(keys := db.keys[u := {}], uids := order)
    case PutStamp(u, t) => db.(stamps := db.stamps[u := t])
    case PutCount(u, k, n) => db.(pending := db.pending[(u, k) := n])
  }

  /** A registration adds an empty list; the other worker commands touch neither ownership map. */
  lemma ObeyKeeps(db: Db, wc: WorkerCommand)
    requires Issuable(db, wc)
    ensures var d := Obey(db, wc);
      && d.owner == db.owner && (forall u :: u in db.keys ==> u in d.keys && d.keys[u] == db.keys[u])
      && (Quiet(db) ==> Quiet(d))
      && (forall k :: AgreeBut(db, k) ==> AgreeBut(d, k))
      && (forall k :: Unlisted(db, k) ==> Unlisted(d, k))
      && (forall job, i :: JobFrom(db, job, i) ==> JobFrom(d, job, i))
  {
    assert Wf(db) ==> Wf(Obey(db, wc));
  }

  lemma WorkerKeepsMoving(s: State, k: Key, wc: WorkerCommand)
    requires PcOk(s, k) && Issuable(s.db, wc) && !Selecting(s.pc) && !AssigningPc(s.pc) && !Checking(s.pc)
    ensures PcOk(s.(db := Obey(s.db, wc)), k)
  {
    hide Quiet, AgreeBut, Unlisted, NoDup, Obey, Issuable;
    ObeyKeeps(s.db, wc);
  }

  lemma WorkerKeepsElsewhere(s: State, k: Key, wc: WorkerCommand)
    requires PcOk(s, k) && Issuable(s.db, wc) && (Selecting(s.pc) || AssigningPc(s.pc) || Checking(s.pc))
    ensures PcOk(s.(db := Obey(s.db, wc)), k)
  {
    hide Quiet, AgreeBut, Unlisted, JobFrom, Obey, Issuable, Moving;
    ObeyKeeps(s.db, wc);
  }

  lemma WorkerKeeps(s: State, k: Key, wc: WorkerCommand)
    requires PcOk(s, k) && Issuable(s.db, wc)
    ensures PcOk(s.(db := Obey(s.db, wc)), k)
  {
    hide PcOk, Issuable, Obey;
    if Selecting(s.pc) || AssigningPc(s.pc) || Checking(s.pc) {
      WorkerKeepsElsewhere(s, k, wc);
    } else {
      WorkerKeepsMoving(s, k, wc);
    }
  }

  // ---- Whole runs: calls one after another, workers anywhere ----

  datatype Act =
    | Begin(k: Key)
    | Producer(now: real, c: Choice)
    | Worker(wc: WorkerCommand)
    | Abandon                               // a Redis error ends the call part way

  /** The call is between recording an owner and writing that owner's list. */
  predicate Midway(pc: Pc) {
    pc.ReadAssigned? || pc.WriteAssigned? || pc.MoveReadCount? || pc.MoveDropCount? || pc.MoveOwner? || pc.MoveWriteNew?
  }

  /** The database, the call in flight (or `Done`) and its key. */
  datatype Sys = Sys(s: State, k: Key)

  ghost predicate Can(y: Sys, a: Act) {
    match a
    case Begin(_) => y.s.pc.Done?
    case Producer(_, c) => Busy(y.s.pc) && Possible(y.s, c)
    case Worker(wc) => Issuable(y.s.db, wc)
    case Abandon => Busy(y.s.pc) && !Midway(y.s.pc)
  }

  function Do(y: Sys, a: Act): Sys
    requires Can(y, a)
  {
    match a
    case Begin(k) => Sys(y.s.(pc := Exists), k)
    case Producer(now, c) => y.(s := Command(y.s, y.k, now, c))
    case Worker(wc) => y.(s := y.s.(db := Obey(y.s.db, wc)))
    case Abandon => y.(s := y.s.(pc := Done))
  }

  ghost predicate Trace(y: Sys, acts: seq<Act>)
    decreases acts
  {
    acts == [] || (Can(y, acts[0]) && Trace(Do(y, acts[0]), acts[1..]))
  }

  ghost function Final(y: Sys, acts: seq<Act>): Sys
    requires Trace(y, acts)
    decreases acts
  {
    if acts == [] then y else Final(Do(y, acts[0]), acts[1..])
  }

  lemma ActKeeps(y: Sys, a: Act)
    requires PcOk(y.s, y.k) && Can(y, a)
    ensures PcOk(Do(y, a).s, Do(y, a).k)
  {
    hide PcOk, Command, Obey, Issuable, Possible;
    match a
    case Begin(k) => BeginKeeps(y.s, y.k, k);
    case Producer(now, c) => CommandKeeps(y.s, y.k, now, c);
    case Worker(wc) => WorkerKeeps(y.s, y.k, wc);
    case Abandon => AbandonKeeps(y.s, y.k);
  }

  lemma {:induction false} TraceKeeps(y: Sys, acts: seq<Act>)
    requires PcOk(y.s, y.k) && Trace(y, acts)
    ensures PcOk(Final(y, acts).s, Final(y, acts).k)
    decreases acts
  {
    hide PcOk, Can, Do;
    if acts != [] {
      ActKeeps(y, acts[0]);
      TraceKeeps(Do(y, acts[0]), acts[1..]);
    }
  }

  lemma BeginKeeps(s: State, k: Key, next: Key)
    requires PcOk(s, k) && s.pc.Done?
    ensures PcOk(s.(pc := Exists), next)
  {
  }

  lemma AbandonKeeps(s: State, k: Key)
    requires PcOk(s, k) && !Midway(s.pc)
    ensures PcOk(s.(pc := Done), k)
  {
    hide NoDup, Lists;
  }

  // ---- The two ownership maps say the same ----

  ghost predicate Agrees(db: Db) {
    forall x, u :: x in db.owner && db.owner[x] == u <==> x in KeysOf(db, u)
  }

  function Idle(): State {
    State(Db([], map[], map[], map[], map[], None), Done)
  }

  lemma MidwayStrands(s: State, k: Key)
    requires PcOk(s, k) && Midway(s.pc)
    ensures !Agrees(s.db)
  {
    var x := if s.pc.ReadAssigned? || s.pc.WriteAssigned? then k else s.pc.job.listed[s.pc.job.j];
    hide NoDup, AgreeBut;
    assert x in s.db.owner && x !in KeysOf(s.db, s.db.owner[x]);
  }

  lemma ElsewhereAgrees(s: State, k: Key)
    requires PcOk(s, k) && !Midway(s.pc)
    ensures Agrees(s.db)
  {
    hide NoDup, Lists;
  }

  /**
   A call that ends part way leaves the maps in agreement if and only if it does not stop between
   recording an owner and writing the owner's list, whatever workers did meanwhile.
   */
  lemma AgreesUnlessMidway(k0: Key, acts: seq<Act>)
    requires Trace(Sys(Idle(), k0), acts)
    ensures var y := Final(Sys(Idle(), k0), acts); Agrees(y.s.db) <==> !Midway(y.s.pc)
  {
    hide PcOk, Agrees;
    IdleOk(k0);
    TraceKeeps(Sys(Idle(), k0), acts);
    var y := Final(Sys(Idle(), k0), acts);
    if Midway(y.s.pc) {
      MidwayStrands(y.s, y.k);
    } else {
      ElsewhereAgrees(y.s, y.k);
    }
  }

  lemma IdleOk(k: Key)
    ensures PcOk(Idle(), k)
  {
  }

  /** Whenever no call is in flight the maps agree, and no key is in two lists. */
  lemma OwnershipAgrees(k0: Key, acts: seq<Act>)
    requires Trace(Sys(Idle(), k0), acts)
    ensures var y := Final(Sys(Idle(), k0), acts); var db := y.s.db;
      y.s.pc.Done? ==>
        && (forall k, u :: k in db.owner && db.owner[k] == u <==> k in KeysOf(db, u))
        && (forall u, v, k :: k in KeysOf(db, u) && k in KeysOf(db, v) ==> u == v)
  {
    AgreesUnlessMidway(k0, acts);
    var db := Final(Sys(Idle(), k0), acts).s.db;
    hide Trace, Final;
    if Agrees(db) {
      forall u, v, k | k in KeysOf(db, u) && k in KeysOf(db, v) ensures u == v {
        assert db.owner[k] == u;
      }
    }
  }
}
