/**
 The two granularities agree: a call whose commands run without interruption leaves exactly
 what the one-step description of Shards says.
 */
module CallRefinement {
  import opened Wrappers
  import opened Collections
  import opened Shards
  import opened Ownership
  import opened ShardCommands

  /** The call's own commands and nothing else. */
  ghost predicate Alone(acts: seq<Act>, now: real, c: Choice) {
    forall a :: a in acts ==> a == Producer(now, c)
  }

  /** A run of ShardCommands with nothing in between leads from `s` to `t`. */
  ghost predicate Leads(s: State, t: State, k: Key, now: real, c: Choice) {
    exists acts :: Alone(acts, now, c) && Trace(Sys(s, k), acts) && Final(Sys(s, k), acts) == Sys(t, k)
  }

  lemma Stay(s: State, k: Key, now: real, c: Choice)
    ensures Leads(s, s, k, now, c)
  {
    assert Alone([], now, c) && Trace(Sys(s, k), []) && Final(Sys(s, k), []) == Sys(s, k);
  }

  lemma Before(s: State, t: State, k: Key, now: real, c: Choice)
    requires Busy(s.pc) && Possible(s, c) && Leads(Command(s, k, now, c), t, k, now, c)
    ensures Leads(s, t, k, now, c)
  {
    hide Command, Possible, Busy;
    var acts :| Alone(acts, now, c) && Trace(Sys(Command(s, k, now, c), k), acts)
      && Final(Sys(Command(s, k, now, c), k), acts) == Sys(t, k);
    var all := [Producer(now, c)] + acts;
    assert all[1..] == acts;
    assert Alone(all, now, c) && Trace(Sys(s, k), all) && Final(Sys(s, k), all) == Sys(t, k);
  }

  lemma {:induction false} TraceAppend(y: Sys, acts: seq<Act>, more: seq<Act>)
    requires Trace(y, acts) && Trace(Final(y, acts), more)
    ensures Trace(y, acts + more) && Final(y, acts + more) == Final(Final(y, acts), more)
    decreases acts
  {
    hide Can, Do;
    if acts == [] {
      assert acts + more == more;
    } else {
      assert (acts + more)[1..] == acts[1..] + more;
      TraceAppend(Do(y, acts[0]), acts[1..], more);
    }
  }

  lemma Joined(s: State, t: State, u: State, k: Key, now: real, c: Choice)
    requires Leads(s, t, k, now, c) && Leads(t, u, k, now, c)
    ensures Leads(s, u, k, now, c)
  {
    var acts :| Alone(acts, now, c) && Trace(Sys(s, k), acts) && Final(Sys(s, k), acts) == Sys(t, k);
    var more :| Alone(more, now, c) && Trace(Sys(t, k), more) && Final(Sys(t, k), more) == Sys(u, k);
    TraceAppend(Sys(s, k), acts, more);
    assert Alone(acts + more, now, c);
  }

  function Ignored(p: Purpose): Option<Uid> {
    if p.ForMove? then Some(p.job.src) else None
  }

  lemma SelectLeads(db: Db, p: Purpose, k: Key, now: real, c: Choice)
    requires db.uids != [] && Busy(Probe(p))
    ensures var s := Select(db, Ignored(p));
      Leads(State(db, Probe(p)), State(s.db, if p.ForMove? then MoveReadOld(p.job, s.uid) else SetOwner(s.uid)), k, now, c)
  {
    hide Leads;
    var i := Iterator(db);
    var d := if db.rr.None? then db.(rr := Some(0)) else db;
    var cands := Candidates(db.uids, Ignored(p));
    var last := State(d, WriteIter(p, Pick(cands, i), Advance(|cands|, i)));
    var t := Command(last, k, now, c);
    Stay(t, k, now, c);
    Before(last, t, k, now, c);
    Before(State(d, ReadUids(p, i)), t, k, now, c);
    Before(State(d, ReadIter(p)), t, k, now, c);
    if db.rr.None? {
      Before(State(db, Reset(p)), t, k, now, c);
    }
    Before(State(db, Probe(p)), t, k, now, c);
  }

  lemma AssignLeads(db: Db, k: Key, now: real, c: Choice)
    requires Wf(db) && db.uids != []
    ensures var a := Assign(db, k);
      Leads(State(db, Probe(ForAssign)), State(a.db, ReadStamp(a.uid)), k, now, c)
  {
    hide Leads;
    SelectLeads(db, ForAssign, k, now, c);
    SelectRegistered(db, None);
    var s := Select(db, None);
    var u := s.uid;
    var d1 := s.db.(owner := s.db.owner[k := u]);
    var ks := KeysOf(d1, u);
    var d2 := PutKeys(d1, u, ks + {k});
    var t := State(d2.(pending := d2.pending[(u, k) := 0]), ReadStamp(u));
    Stay(t, k, now, c);
    Before(State(d2, ZeroCount(u)), t, k, now, c);
    if k in ks {
      assert ks + {k} == ks;
      assert d2 == d1;
    } else {
      Before(State(d1, WriteAssigned(u, ks)), t, k, now, c);
    }
    Before(State(d1, ReadAssigned(u)), t, k, now, c);
    Before(State(s.db, SetOwner(u)), t, k, now, c);
    Joined(State(db, Probe(ForAssign)), State(s.db, SetOwner(u)), t, k, now, c);
  }

  /** The reads of one move, up to the first write of a key list. */
  lemma MoveReadsLead(db: Db, job: Job, u: Uid, k: Key, now: real, c: Choice)
    requires job.j < |job.listed|
    ensures var f := (job.src, job.listed[job.j]);
      Leads(State(db, MoveReadOld(job, u)),
            State(PutKeys(db, job.src, KeysOf(db, job.src) - {f.1}),
                  MoveDropCount(job, u, KeysOf(db, u), if f in db.pending then Some(db.pending[f]) else None)), k, now, c)
  {
    hide Leads;
    var f := (job.src, job.listed[job.j]);
    var oldKeys, newKeys := KeysOf(db, job.src), KeysOf(db, u);
    var d := PutKeys(db, job.src, oldKeys - {f.1});
    var t := State(d, MoveDropCount(job, u, newKeys, if f in db.pending then Some(db.pending[f]) else None));
    Stay(t, k, now, c);
    Before(State(d, MoveReadCount(job, u, newKeys)), t, k, now, c);
    Before(State(db, MoveWriteOld(job, u, oldKeys, newKeys)), t, k, now, c);
    Before(State(db, MoveReadNew(job, u, oldKeys)), t, k, now, c);
    Before(State(db, MoveReadOld(job, u)), t, k, now, c);
  }

  /** The new owner's list is written, and its count if there was one to move. */
  lemma MoveEndLeads(db: Db, job: Job, u: Uid, newKeys: set<Key>, n: Option<nat>, k: Key, now: real, c: Choice)
    requires job.j < |job.listed|
    ensures var key := job.listed[job.j];
      var d := PutKeys(db, u, newKeys + {key});
      Leads(State(db, MoveWriteNew(job, u, newKeys, n)),
            State(if n.Some? then d.(pending := Bump(d.pending, (u, key), n.value)) else d, Advanced(job, u, k)), k, now, c)
  {
    hide Leads, Bump, PutKeys, Advanced;
    var key := job.listed[job.j];
    var d := PutKeys(db, u, newKeys + {key});
    var t := State(if n.Some? then d.(pending := Bump(d.pending, (u, key), n.value)) else d, Advanced(job, u, k));
    Stay(t, k, now, c);
    if n.Some? {
      Before(State(d, MoveAdd(job, u, n.value)), t, k, now, c);
    }
    Before(State(db, MoveWriteNew(job, u, newKeys, n)), t, k, now, c);
  }

  lemma MoveWritesLead(db: Db, job: Job, u: Uid, newKeys: set<Key>, n: Option<nat>, k: Key, now: real, c: Choice)
    requires job.j < |job.listed|
    ensures var key := job.listed[job.j];
      var d1 := db.(pending := db.pending - {(job.src, key)}, owner := db.owner[key := u]);
      var d2 := PutKeys(d1, u, newKeys + {key});
      var d3 := if n.Some? then d2.(pending := Bump(d2.pending, (u, key), n.value)) else d2;
      Leads(State(db, MoveDropCount(job, u, newKeys, n)), State(d3, Advanced(job, u, k)), k, now, c)
  {
    hide Leads, Bump, PutKeys, Advanced;
    var key := job.listed[job.j];
    var d0 := db.(pending := db.pending - {(job.src, key)});
    var d1 := d0.(owner := d0.owner[key := u]);
    var d2 := PutKeys(d1, u, newKeys + {key});
    var d3 := if n.Some? then d2.(pending := Bump(d2.pending, (u, key), n.value)) else d2;
    var t := State(d3, Advanced(job, u, k));
    MoveEndLeads(d1, job, u, newKeys, n, k, now, c);
    Before(State(d0, MoveOwner(job, u, newKeys, n)), t, k, now, c);
    Before(State(db, MoveDropCount(job, u, newKeys, n)), t, k, now, c);
  }

  lemma MoveLeads(db: Db, job: Job, k: Key, now: real, c: Choice)
    requires db.uids != [] && job.j < |job.listed|
    ensures var m := Reassign(db, job.src, job.listed[job.j]);
      Leads(State(db, Probe(ForMove(job))), State(m.db, Advanced(job, m.uid, k)), k, now, c)
  {
    hide Leads, Command, Candidates, Pick, Bump;
    var f := (job.src, job.listed[job.j]);
    var m := Reassign(db, job.src, f.1);
    var s := Select(db, Some(job.src)).db;
    var n := if f in db.pending then Some(db.pending[f]) else None;
    var d := PutKeys(s, job.src, KeysOf(s, job.src) - {f.1});
    SelectLeads(db, ForMove(job), k, now, c);
    MoveReadsLead(s, job, m.uid, k, now, c);
    MoveWritesLead(d, job, m.uid, KeysOf(s, m.uid), n, k, now, c);
    var t := State(m.db, Advanced(job, m.uid, k));
    var mid := State(d, MoveDropCount(job, m.uid, KeysOf(s, m.uid), n));
    Joined(State(s, MoveReadOld(job, m.uid)), mid, t, k, now, c);
    Joined(State(db, Probe(ForMove(job))), State(s, MoveReadOld(job, m.uid)), t, k, now, c);
  }

  lemma {:induction false} DrainLeads(db: Db, job: Job, k: Key, now: real, c: Choice)
    requires db.uids != [] && job.j < |job.listed|
    ensures var d := Drain(db, job.src, job.listed[job.j..], k, job.plugin);
      Leads(State(db, Probe(ForMove(job))),
            State(d.db, CheckEmpty(Job(job.src, job.listed, |job.listed|, d.uid))), k, now, c)
    decreases |job.listed| - job.j
  {
    hide Leads, Reassign;
    MoveLeads(db, job, k, now, c);
    var m := Reassign(db, job.src, job.listed[job.j]);
    var next := job.(j := job.j + 1, plugin := if job.listed[job.j] == k then m.uid else job.plugin);
    assert job.listed[job.j..][1..] == next.listed[next.j..];
    if next.j < |next.listed| {
      DrainLeads(m.db, next, k, now, c);
      var d := Drain(m.db, next.src, next.listed[next.j..], k, next.plugin);
      Joined(State(db, Probe(ForMove(job))), State(m.db, Probe(ForMove(next))),
             State(d.db, CheckEmpty(Job(next.src, next.listed, |next.listed|, d.uid))), k, now, c);
    }
  }

  /** The backlog scan stops at the first key with a pending message. */
  lemma {:induction false} ScanLeads(db: Db, u: Uid, listed: seq<Key>, i: nat, k: Key, now: real, c: Choice)
    requires i < |listed|
    ensures Leads(State(db, ReadCount(u, listed, i)),
                  State(db, if exists x :: i <= x < |listed| && Backlogged(db, u, listed[x])
                            then Probe(ForMove(Job(u, listed, 0, u))) else CountMsg(u)), k, now, c)
    decreases |listed| - i
  {
    hide Leads;
    var s := State(db, ReadCount(u, listed, i));
    var found := exists x :: i <= x < |listed| && Backlogged(db, u, listed[x]);
    var t := State(db, if found then Probe(ForMove(Job(u, listed, 0, u))) else CountMsg(u));
    if !Backlogged(db, u, listed[i]) && i + 1 < |listed| {
      ScanLeads(db, u, listed, i + 1, k, now, c);
      var rest := exists x :: i + 1 <= x < |listed| && Backlogged(db, u, listed[x]);
      assert found == rest by {
        if found {
          var x :| i <= x < |listed| && Backlogged(db, u, listed[x]);
          assert i + 1 <= x;
        }
      }
    } else {
      Stay(t, k, now, c);
    }
    Before(s, t, k, now, c);
  }

  /** The drain, the check that the list is empty, and the removal. */
  lemma EvacuateLeads(db: Db, u: Uid, k: Key, now: real, c: Choice)
    requires Sound(db) && u in db.keys && db.uids != []
    requires c.listed != [] && Lists(c.listed, db.keys[u]) && Lists(c.order, db.keys.Keys - {u})
    ensures var e := Evacuate(db, u, k, c);
      Leads(State(db, Probe(ForMove(Job(u, c.listed, 0, u)))), State(e.db, CountMsg(e.uid)), k, now, c)
  {
    hide Leads, Drain, Sound, Lists;
    var job := Job(u, c.listed, 0, u);
    DrainLeads(db, job, k, now, c);
    DrainKeepsUids(db, u, c.listed, k);
    var d := Drain(db, u, c.listed, k, u);
    assert c.listed[0..] == c.listed;
    var done := Job(u, c.listed, |c.listed|, d.uid);
    var e := Evacuate(db, u, k, c);
    var t := State(e.db, CountMsg(e.uid));
    Stay(t, k, now, c);
    if KeysOf(d.db, u) == {} {
      Before(State(d.db, DropUid(done)), t, k, now, c);
    }
    Before(State(d.db, CheckEmpty(done)), t, k, now, c);
    Joined(State(db, Probe(ForMove(job))), State(d.db, CheckEmpty(done)), t, k, now, c);
  }

  /** The scan of a stale owner's keys, and the drain if it finds a backlog. */
  lemma StaleLeads(db: Db, u: Uid, k: Key, now: real, c: Choice)
    requires Sound(db) && u in db.keys && db.uids != [] && Stale(db, u, now) && Lists(c.listed, db.keys[u])
    requires MustDrain(db, u, now) ==> Lists(c.order, db.keys.Keys - {u})
    ensures var s := if MustDrain(db, u, now) then Evacuate(db, u, k, c) else Routed(db, u);
      Leads(State(db, ReadList(u)), State(s.db, CountMsg(s.uid)), k, now, c)
  {
    hide Leads, Evacuate, Sound, Stale;
    var s := if MustDrain(db, u, now) then Evacuate(db, u, k, c) else Routed(db, u);
    var t := State(s.db, CountMsg(s.uid));
    ListsElems(c.listed, db.keys[u]);
    assert MustDrain(db, u, now) <==> exists x :: 0 <= x < |c.listed| && Backlogged(db, u, c.listed[x]) by {
      if MustDrain(db, u, now) {
        var j :| j in db.keys[u] && Backlogged(db, u, j);
        assert j in c.listed;
      }
    }
    hide Backlogged, MustDrain;
    if c.listed == [] {
      Stay(t, k, now, c);
    } else {
      ScanLeads(db, u, c.listed, 0, k, now, c);
      if MustDrain(db, u, now) {
        EvacuateLeads(db, u, k, now, c);
        Joined(State(db, ReadCount(u, c.listed, 0)), State(db, Probe(ForMove(Job(u, c.listed, 0, u)))), t, k, now, c);
      }
    }
    Before(State(db, ReadList(u)), t, k, now, c);
  }

  lemma RoutedLeads(db: Db, u: Uid, k: Key, now: real, c: Choice)
    requires Sound(db) && u in db.keys && db.uids != []
    requires Stale(db, u, now) ==> Lists(c.listed, db.keys[u])
    requires MustDrain(db, u, now) ==> Lists(c.order, db.keys.Keys - {u})
    ensures var s := if MustDrain(db, u, now) then Evacuate(db, u, k, c) else Routed(db, u);
      Leads(State(db, ReadStamp(u)), State(s.db.(pending := Bump(s.db.pending, (s.uid, k), 1)), Done), k, now, c)
  {
    hide Leads, Evacuate, Sound, Lists, Bump;
    var s := if MustDrain(db, u, now) then Evacuate(db, u, k, c) else Routed(db, u);
    var mid := State(s.db, CountMsg(s.uid));
    var t := State(s.db.(pending := Bump(s.db.pending, (s.uid, k), 1)), Done);
    Stay(t, k, now, c);
    Before(mid, t, k, now, c);
    if Stale(db, u, now) {
      StaleLeads(db, u, k, now, c);
      Joined(State(db, ReadList(u)), mid, t, k, now, c);
    }
    Before(State(db, ReadStamp(u)), t, k, now, c);
  }

  /** An uninterrupted call is a run of ShardCommands that ends in what the one-step ProducerCall leaves. */
  lemma CallRefines(db: Db, k: Key, now: real, c: Choice)
    requires Sound(db) && (k in db.owner || db.uids != []) && Allowed(db, k, now, c)
    requires var r := Route(db, k); Stale(r.db, r.uid, now) ==> Lists(c.listed, KeysOf(r.db, r.uid))
    ensures Leads(State(db, Exists), State(ProducerCall(db, k, now, c), Done), k, now, c)
  {
    hide Leads, Drain, Reassign, Stale, Consistent, Counted, Assign, MustDrain, Evacuate;
    RouteSound(db, k);
    var r := Route(db, k);
    var t := State(ProducerCall(db, k, now, c), Done);
    RoutedLeads(r.db, r.uid, k, now, c);
    if k in db.owner {
      Before(State(db, ReadOwner), t, k, now, c);
    } else {
      AssignLeads(db, k, now, c);
      Joined(State(db, Probe(ForAssign)), State(r.db, ReadStamp(r.uid)), t, k, now, c);
    }
    Before(State(db, Exists), t, k, now, c);
  }
}
