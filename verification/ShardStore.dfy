/**
 The allocator and the worker as programs over mutable Redis structures
 (redis_queue/v1_0/utils.py, redis_queue/v1_0/inbound.py, the send loops of
 redis_relay/relay/relay.py). Every method is tied to the steps of ShardRuns: `w` is the
 world the concrete fields stand for. The pending hash and the per-key lists are keyed by text.
 */
module ShardStore {
  import opened Wrappers
  import opened Collections
  import opened Shards
  import opened Ownership
  import opened FieldNames
  import opened ShardRuns

  class Redis {
    var uids: seq<Uid>                  // HKEYS uid_recip_keys_map
    var keys: map<Uid, set<Key>>        // uid_recip_keys_map
    var owner: map<Key, Uid>            // recip_key_uid_map
    var pending: map<string, nat>       // uid_recip_key_pending_msg_count
    var stamps: map<Uid, int>           // uid_last_access_map
    var rr: Option<nat>                 // round_robin_iterator
    var queues: map<string, seq<Msg>>   // the lists {topic}_{key}
    const topic: string
    var clock: real
    ghost var w: World

    /** The fields hold what the ghost world says. */
    ghost predicate Valid()
      reads this
    {
      && uids == w.db.uids && keys == w.db.keys && owner == w.db.owner
      && stamps == w.db.stamps && rr == w.db.rr && Queued(queues, topic, w.queues) && clock == w.clock
      && Stores(pending, w.db.pending)
      && (forall u :: u in w.used ==> UuidText(u)) && w.db.keys.Keys <= w.used
      && Wf(w.db)
    }

    constructor (now: real, topic: string)
      ensures Valid() && w == Start(now) && Inv(w) && this.topic == topic
    {
      this.topic := topic;
      uids, keys, owner, pending, stamps, rr, queues := [], map[], map[], map[], map[], None, map[];
      clock := now;
      w := Start(now);
      new;
      assert forall k :: HandsOn(w, k) == {};
    }

    // ---- The pending hash ----

    method HGetCount(u: Uid, k: Key) returns (n: Option<nat>)
      requires Valid() && UuidText(u)
      ensures n == if (u, k) in w.db.pending then Some(w.db.pending[(u, k)]) else None
    {
      GetField(pending, w.db.pending, (u, k));
      var f := u.text + "_" + k.text;
      n := if f in pending then Some(pending[f]) else None;
    }

    method HSetCount(u: Uid, k: Key, n: nat)
      requires Valid() && UuidText(u)
      modifies this`pending, this`w
      ensures Valid() && w == old(w).(db := old(w).db.(pending := old(w).db.pending[(u, k) := n]))
    {
      PutField(pending, w.db.pending, (u, k), n);
      pending := pending[u.text + "_" + k.text := n];
      w := w.(db := w.db.(pending := w.db.pending[(u, k) := n]));
    }

    method HDelCount(u: Uid, k: Key)
      requires Valid() && UuidText(u)
      modifies this`pending, this`w
      ensures Valid() && w == old(w).(db := old(w).db.(pending := old(w).db.pending - {(u, k)}))
    {
      DropField(pending, w.db.pending, (u, k));
      pending := pending - {u.text + "_" + k.text};
      w := w.(db := w.db.(pending := w.db.pending - {(u, k)}));
    }

    method HIncrCount(u: Uid, k: Key, n: nat)
      requires Valid() && UuidText(u)
      modifies this`pending, this`w
      ensures Valid() && w == old(w).(db := old(w).db.(pending := Bump(old(w).db.pending, (u, k), n)))
    {
      var c := HGetCount(u, k);
      HSetCount(u, k, n + if c.Some? then c.value else 0);
    }

    // ---- uid_recip_keys_map ----

    method HSetKeys(u: Uid, ks: set<Key>)
      requires Valid() && u in w.used
      modifies this`uids, this`keys, this`w
      ensures Valid() && w == old(w).(db := PutKeys(old(w).db, u, ks))
    {
      ListsElems(uids, keys.Keys);
      if u !in keys {
        uids := uids + [u];
      }
      keys := keys[u := ks];
      w := w.(db := PutKeys(w.db, u, ks));
      assert forall x :: x in uids <==> x in keys;
    }

    method HDelKeys(u: Uid) returns (ghost order: seq<Uid>)
      requires Valid()
      modifies this`uids, this`keys, this`w
      ensures Lists(order, old(w).db.keys.Keys - {u})
      ensures Valid() && w == old(w).(db := Deregister(old(w).db, u, order))
    {
      var rest := ListOf(keys.Keys - {u});
      uids, keys := rest, keys - {u};
      order := rest;
      w := w.(db := Deregister(w.db, u, order));
    }

    function KeyList(u: Uid): set<Key>
      reads this
    {
      if u in keys then keys[u] else {}
    }

    /** A worker starts: its uid appears with an empty list. */
    method RegisterUid(u: Uid)
      requires Valid() && UuidText(u) && u !in w.used
      modifies this`uids, this`keys, this`w
      ensures Lists(old(uids) + [u], old(w).db.keys.Keys + {u})
      ensures Valid() && w == Apply(old(w), Register(u, old(uids) + [u]))
    {
      hide Stores, Queued, UuidText, NoDup, Lists;
      AppendLists(uids, keys.Keys, u);
      ghost var order := uids + [u];
      assert keys[u := {}].Keys == keys.Keys + {u};
      uids, keys := uids + [u], keys[u := {}];
      w := Apply(w, Register(u, order));
    }

    // ---- get_new_valid_uid ----

    /** One pass of the selection loop: nothing is selected while nobody is registered. */
    method TrySelect(ignore: Option<Uid>) returns (r: Option<Uid>)
      requires Valid()
      modifies this`rr, this`w
      ensures Valid()
      ensures uids == [] ==> r.None? && SameButIterator(old(w), w)
      ensures uids != [] ==> r == Some(Select(old(w).db, ignore).uid) && w == old(w).(db := Select(old(w).db, ignore).db)
      ensures uids != [] ==> rr.Some? && Yields(uids, old(rr), ignore, r.value, rr.value)
    {
      hide Stores, Queued, UuidText, NoDup, Yields;
      if uids != [] {
        SelectYields(w.db, ignore);
      }
      if rr == None {
        rr := Some(0);
      }
      var nextIter := rr.value;
      var list := uids;
      if ignore.Some? && |list| > 1 {
        list := Without(list, ignore.value);
      }
      if |list| == 0 {
        w := w.(db := w.db.(rr := rr));
        return None;
      }
      var u := if nextIter < |list| then list[nextIter] else list[0];
      nextIter := nextIter + 1;
      if nextIter < |list| {
        rr := Some(nextIter);
      } else {
        rr := Some(0);
      }
      w := w.(db := w.db.(rr := rr));
      r := Some(u);
    }

    /**
     Select the next uid. With nobody registered the call sleeps; `newcomer` is the worker that
     registers meanwhile, and without one the call is still waiting when observed.
     */
    method GetNewValidUid(ignore: Option<Uid>, newcomer: Option<Uid>) returns (r: Option<Uid>)
      requires Valid()
      requires newcomer.Some? ==> UuidText(newcomer.value) && newcomer.value !in w.used
      modifies this`uids, this`keys, this`rr, this`w
      ensures Valid()
      ensures r.None? <==> old(uids) == [] && newcomer.None?
      ensures r.None? ==> SameButIterator(old(w), w)
      ensures r.Some? ==>
        (var v := Met(old(w), newcomer);
         v.db.uids != [] && r == Some(Select(v.db, ignore).uid) && w == v.(db := Select(v.db, ignore).db))
      ensures old(uids) != [] ==> r.Some? && rr.Some? && Yields(old(uids), old(rr), ignore, r.value, rr.value)
      ensures old(uids) == [] && newcomer.Some? ==> r == newcomer
    {
      hide Stores, Queued, UuidText, Candidates, Pick, Advance, Yields;
      if uids != [] {
        SelectYields(w.db, ignore);
      } else if newcomer.Some? {
        NewcomerSelected(w, newcomer.value, ignore);
      }
      var arriving := newcomer;
      r := None;
      while r == None
        invariant Valid()
        invariant arriving == newcomer || (arriving == None && old(uids) == [] && newcomer.Some? && uids != [])
        invariant r.None? ==> SameButIterator(if arriving == newcomer then old(w) else Met(old(w), newcomer), w)
        invariant r.Some? ==>
          (var v := Met(old(w), newcomer);
           v.db.uids != [] && r == Some(Select(v.db, ignore).uid) && w == v.(db := Select(v.db, ignore).db))
        decreases r.None?, arriving.Some?
      {
        r := TrySelect(ignore);
        if r == None {
          if arriving == None {
            return;
          }
          RegisterUid(arriving.value);
          arriving := None;
        }
      }
    }

    // ---- assign_recip_key_to_new_uid, reassign_recip_key_to_uid ----

    method AssignRecipKeyToNewUid(k: Key, newcomer: Option<Uid>) returns (r: Option<Uid>)
      requires Valid()
      requires newcomer.Some? ==> UuidText(newcomer.value) && newcomer.value !in w.used
      modifies this
      ensures Valid()
      ensures r.None? <==> old(uids) == [] && newcomer.None?
      ensures r.Some? ==>
        (var v := Met(old(w), newcomer);
         v.db.uids != [] && r == Some(Assign(v.db, k).uid) && w == v.(db := Assign(v.db, k).db))
      ensures r.None? ==> SameButIterator(old(w), w)
    {
      r := GetNewValidUid(None, newcomer);
      if r == None {
        return;
      }
      var u := r.value;
      ListsElems(uids, keys.Keys);
      owner := owner[k := u];
      w := w.(db := w.db.(owner := owner));
      var ks := KeyList(u);
      if k !in ks {
        HSetKeys(u, ks + {k});
      } else {
        assert ks + {k} == ks && keys[u := ks] == keys;
      }
      HSetCount(u, k, 0);
    }

    /** The old owner's side of a move: its list shrinks, its count is read and deleted. */
    method Detach(oldUid: Uid, oldKeys: set<Key>, k: Key) returns (count: Option<nat>)
      requires Valid() && oldUid in w.used
      modifies this`uids, this`keys, this`pending, this`w
      ensures count == if (oldUid, k) in old(w).db.pending then Some(old(w).db.pending[(oldUid, k)]) else None
      ensures Valid()
      ensures var d := PutKeys(old(w).db, oldUid, oldKeys - {k});
        w == old(w).(db := d.(pending := d.pending - {(oldUid, k)}))
    {
      HSetKeys(oldUid, oldKeys - {k});
      count := HGetCount(oldUid, k);
      HDelCount(oldUid, k);
    }

    /** The new owner's side: the key is its, its list grows, the count is added to its own. */
    method Attach(u: Uid, newKeys: set<Key>, k: Key, count: Option<nat>)
      requires Valid() && u in w.used
      modifies this`uids, this`keys, this`owner, this`pending, this`w
      ensures Valid()
      ensures var d := PutKeys(old(w).db.(owner := old(w).db.owner[k := u]), u, newKeys + {k});
        w == old(w).(db := if count.Some? then d.(pending := Bump(d.pending, (u, k), count.value)) else d)
    {
      owner := owner[k := u];
      w := w.(db := w.db.(owner := owner));
      HSetKeys(u, newKeys + {k});
      if count.Some? {
        HIncrCount(u, k, count.value);
      }
    }

    method ReassignRecipKeyToUid(oldUid: Uid, k: Key) returns (u: Uid)
      requires Valid() && uids != [] && oldUid in w.used
      modifies this
      ensures Valid()
      ensures u == Reassign(old(w).db, oldUid, k).uid && w == old(w).(db := Reassign(old(w).db, oldUid, k).db)
    {
      hide Stores, Queued, UuidText, NoDup, Candidates, Pick, Advance, Bump;
      var r := GetNewValidUid(Some(oldUid), None);
      u := r.value;
      SelectRegistered(old(w).db, Some(oldUid));
      var oldKeys := KeyList(oldUid);
      var newKeys := KeyList(u);
      var count := Detach(oldUid, oldKeys, k);
      Attach(u, newKeys, k, count);
    }

    // ---- process_payload_recip_key ----

    method IsStale(u: Uid) returns (stale: bool)
      requires Valid()
      ensures stale == Stale(w.db, u, clock)
    {
      stale := false;
      if u !in stamps {
        stale := true;
      } else if clock.Floor - stamps[u] >= 15 {
        stale := true;
      }
    }

    /** Is any of the listed keys waiting for `u`? The scan stops at the first one. */
    method HasBacklog(u: Uid, listed: seq<Key>) returns (found: bool)
      requires Valid() && UuidText(u)
      ensures found <==> exists j :: j in listed && Backlogged(w.db, u, j)
    {
      found := false;
      for i := 0 to |listed|
        invariant !found && forall x :: 0 <= x < i ==> !Backlogged(w.db, u, listed[x])
      {
        var n := HGetCount(u, listed[i]);
        if n.Some? && n.value >= 1 {
          assert listed[i] in listed;
          found := true;
          return;
        }
      }
    }

    /** Move every listed key away from `oldUid`; `plugin` follows the message's own key. */
    method DrainUid(oldUid: Uid, listed: seq<Key>, k: Key) returns (plugin: Uid)
      requires Valid() && uids != [] && oldUid in w.used
      modifies this
      ensures Valid()
      ensures plugin == Drain(old(w).db, oldUid, listed, k, oldUid).uid
      ensures w == old(w).(db := Drain(old(w).db, oldUid, listed, k, oldUid).db)
    {
      hide Stores, Queued, UuidText, NoDup, Reassign, Wf;
      plugin := oldUid;
      for i := 0 to |listed|
        invariant Valid() && uids != [] && w == old(w).(db := w.db)
        invariant Drain(w.db, oldUid, listed[i..], k, plugin) == Drain(old(w).db, oldUid, listed, k, oldUid)
      {
        assert listed[i..][0] == listed[i] && listed[i..][1..] == listed[i + 1..];
        var u := ReassignRecipKeyToUid(oldUid, listed[i]);
        if listed[i] == k {
          plugin := u;
        }
      }
    }

    /** The whole drain of a stale, backlogged uid, and its removal once its list is empty. */
    method EvacuateUid(u: Uid, listed: seq<Key>, k: Key) returns (plugin: Uid, ghost order: seq<Uid>)
      requires Valid() && uids != [] && u in w.used
      modifies this
      ensures Valid()
      ensures var e := Evacuate(old(w).db, u, k, Choice(listed, order));
        && plugin == e.uid && w == old(w).(db := e.db)
        && Lists(order, Drain(old(w).db, u, listed, k, u).db.keys.Keys - {u})
    {
      hide Stores, Queued, UuidText, NoDup, Drain, Wf;
      plugin := DrainUid(u, listed, k);
      var rest := KeyList(u);
      if rest == {} {
        order := HDelKeys(u);
      } else {
        var any := ListOf(keys.Keys - {u});
        order := any;
      }
    }

    /** The owner of `k`, assigning one if it has none. */
    method RouteKey(k: Key, newcomer: Option<Uid>) returns (r: Option<Uid>)
      requires Valid() && Inv(w)
      requires newcomer.Some? ==> UuidText(newcomer.value) && newcomer.value !in w.used
      modifies this
      ensures Valid()
      ensures r.None? <==> k !in old(owner) && old(uids) == [] && newcomer.None?
      ensures r.None? ==> SameButIterator(old(w), w)
      ensures r.Some? ==>
        (var v := MetFor(old(w), k, newcomer);
         (k in v.db.owner || v.db.uids != []) && r == Some(Route(v.db, k).uid) && w == v.(db := Route(v.db, k).db))
    {
      hide Stores, Queued, UuidText, NoDup, Assign, Inv;
      if k in owner {
        r := Some(owner[k]);
      } else {
        r := AssignRecipKeyToNewUid(k, newcomer);
      }
    }

    /** Drain the owner `u` if it is stale and some key of its is waiting. */
    method SettleKey(u: Uid, k: Key) returns (plugin: Uid, ghost c: Choice)
      requires Valid() && Sound(w.db) && u in w.db.keys && k in w.db.owner && w.db.owner[k] == u
      modifies this
      ensures Valid() && Allowed(old(w).db, k, clock, c)
      ensures plugin == Settle(old(w).db, k, clock, c).uid && w == old(w).(db := Settle(old(w).db, k, clock, c).db)
      ensures plugin in w.db.keys
    {
      hide Stores, Queued, UuidText, NoDup, Drain, Consistent, Counted, Stale, Backlogged;
      ghost var d := w.db;
      ListsElems(uids, keys.Keys);
      plugin := u;
      c := Choice([], []);
      var stale := IsStale(u);
      if stale {
        var listed := ListOf(KeyList(u));
        ListsElems(listed, keys[u]);
        var reassign := HasBacklog(u, listed);
        if reassign {
          ghost var order;
          plugin, order := EvacuateUid(u, listed, k);
          c := Choice(listed, order);
          DrainKeepsUids(d, u, listed, k);
        }
      }
      assert Allowed(d, k, clock, c);
      SettleSettles(d, k, clock, c);
      SettledOwner(w.db, k, plugin);
    }

    /** Route, settle and count one message; the ticket stands for the push to come. */
    method ProcessPayloadRecipKey(kids: seq<string>, newcomer: Option<Uid>)
      returns (name: Option<string>, ghost c: Choice)
      requires Valid() && Inv(w)
      requires newcomer.Some? ==> UuidText(newcomer.value) && newcomer.value !in w.used
      modifies this
      ensures Valid() && clock == old(clock)
      ensures name.None? <==> Key(Join(kids)) !in old(owner) && old(uids) == [] && newcomer.None?
      ensures name.None? ==> SameButIterator(old(w), w)
      ensures name.Some? ==>
        (var k := Key(Join(kids)); var v := MetFor(old(w), k, newcomer);
         && name == Some(topic + "_" + Join(kids))
         && Inv(v) && Enabled(v, Allocate(k, c)) && w == Apply(v, Allocate(k, c)) && Inv(w))
    {
      hide Stores, Queued, UuidText, NoDup, Settle, Consistent, Counted, Covered, Fifo, Stamped, MustDrain, Assign, Bump, Join, Count;
      var k := Key(Join(kids));
      c := Choice([], []);
      var r := RouteKey(k, newcomer);
      if r == None {
        return None, c;
      }
      ghost var v := MetFor(old(w), k, newcomer);
      MetKeepsInv(old(w), k, newcomer);
      RouteSound(v.db, k);
      var plugin;
      plugin, c := SettleKey(r.value, k);
      SettledRoute(v.db, k, clock, c);
      HIncrCount(plugin, k, 1);
      w := w.(tickets := w.tickets + multiset{k});
      name := Some(Topic(topic, k));
      AllocateKeeps(v, k, c);
    }

    // ---- The producer's send loop ----

    method Sleep(seconds: real)
      requires Valid() && seconds >= 0.0
      modifies this`clock, this`w
      ensures Valid() && clock == old(clock) + seconds && w == Apply(old(w), Tick(clock))
    {
      hide Stores, Queued, UuidText, Wf;
      clock := clock + seconds;
      w := Apply(w, Tick(clock));
    }

    /** RPUSH to the list of that name. */
    method RPush(name: string, m: Msg, ghost k: Key)
      requires Valid() && k in w.tickets && name == Topic(topic, k)
      modifies this`queues, this`w
      ensures Valid() && w == Apply(old(w), Push(k, m))
    {
      hide Stores, Queued, UuidText, Wf, Topic;
      GetQueue(queues, topic, w.queues, k);
      PutQueue(queues, topic, w.queues, k, At(w.queues, k) + [m]);
      queues := queues[name := (if name in queues then queues[name] else []) + [m]];
      w := Apply(w, Push(k, m));
    }

    /** A push that fails: the allocation is given up and the producer sleeps a second. */
    method FailPush(k: Key)
      requires Valid() && Inv(w) && k in w.tickets
      modifies this`clock, this`w
      ensures Valid() && Inv(w)
      ensures w == old(w).(tickets := old(w).tickets - multiset{k}, clock := clock)
    {
      hide Stores, Queued, UuidText, Wf, Inv;
      ghost var granted := w;
      OthersKeep(granted, GiveUp(k));
      w := Apply(w, GiveUp(k));
      ghost var given := w;
      Sleep(1.0);
      OthersKeep(given, Tick(clock));
    }

    method PushGranted(name: string, m: Msg, ghost k: Key)
      requires Valid() && Inv(w) && k in w.tickets && name == Topic(topic, k)
      modifies this`queues, this`w
      ensures Valid() && Inv(w) && w == Apply(old(w), Push(k, m))
    {
      hide Stores, Queued, UuidText, Wf, Inv;
      PushKeeps(w, k, m);
      RPush(name, m, k);
    }

    /** One pass of the send loop: allocate, then push or fail to. */
    method TrySend(kids: seq<string>, m: Msg, fails: bool, newcomer: Option<Uid>) returns (ok: bool)
      requires Valid() && Inv(w)
      requires newcomer.Some? ==> UuidText(newcomer.value) && newcomer.value !in w.used
      modifies this
      ensures Valid() && Inv(w)
      ensures ok <==> Key(Join(kids)) in old(owner) || old(uids) != [] || newcomer.Some?
      ensures ok ==> Attempted(old(w), w, Key(Join(kids)), if fails then [] else [m])
    {
      hide Stores, Queued, UuidText, Wf, Inv, ProducerCall, Allowed, Count, Enabled, Apply, Join;
      var k := Key(Join(kids));
      ghost var before := w;
      var name, c := ProcessPayloadRecipKey(kids, newcomer);
      ok := name.Some?;
      if !ok {
        IteratorKeepsInv(before, w);
        return;
      }
      AllocationCounts(before, k, newcomer, c);
      AllocationShape(before, k, newcomer, c);
      TicketReturns(before, w, k);
      ghost var granted := w;
      if fails {
        FailPush(k);
      } else {
        PushShape(granted, k, m);
        PushGranted(name.value, m, k);
      }
    }

    /**
     Allocate and push until the push succeeds; the first `faults` pushes fail and are given up.
     The message is queued once, every attempt is counted.
     */
    method SendMessage(kids: seq<string>, m: Msg, faults: nat, newcomer: Option<Uid>) returns (sent: bool)
      requires Valid() && Inv(w)
      requires newcomer.Some? ==> UuidText(newcomer.value) && newcomer.value !in w.used
      modifies this
      ensures Valid() && Inv(w)
      ensures sent <==> Key(Join(kids)) in old(owner) || old(uids) != [] || newcomer.Some?
      ensures sent ==>
        (var k := Key(Join(kids));
         && w.tickets == old(w).tickets
         && At(w.queues, k) == At(old(w).queues, k) + [m]
         && (forall j :: j != k ==> At(w.queues, j) == At(old(w).queues, j))
         && Count(w.db, k) == Count(old(w).db, k) + faults + 1
         && (forall j :: j != k ==> Count(w.db, j) == Count(old(w).db, j)))
    {
      hide Stores, Queued, UuidText, Wf, Inv, Count, At;
      var k := Key(Join(kids));
      ghost var start := w;
      var arriving := newcomer;
      var failures := 0;
      sent := false;
      while !sent
        invariant Valid() && Inv(w) && failures <= faults && (sent ==> failures == faults)
        invariant failures == 0 && !sent ==> w == start && arriving == newcomer
        invariant failures > 0 || sent ==>
          arriving.None? && k in w.db.owner && (k in start.db.owner || start.db.uids != [] || newcomer.Some?)
        invariant w.tickets == start.tickets
        invariant At(w.queues, k) == At(start.queues, k) + if sent then [m] else []
        invariant forall j :: j != k ==> At(w.queues, j) == At(start.queues, j) && Count(w.db, j) == Count(start.db, j)
        invariant Count(w.db, k) == Count(start.db, k) + failures + if sent then 1 else 0
        decreases !sent, faults - failures
      {
        var ok := TrySend(kids, m, failures < faults, arriving);
        if !ok {
          return;
        }
        arriving := None;
        if failures < faults {
          failures := failures + 1;
        } else {
          sent := true;
        }
      }
    }

    // ---- The worker's loop ----

    /** Read the worker's own key list; a removed uid finds none and keeps its old one. */
    method ReadKeys(u: Uid) returns (found: Option<set<Key>>)
      requires Valid() && u in w.used
      modifies this`w
      ensures Valid() && w == Apply(old(w), Read(u))
      ensures found == if u in w.db.keys then Some(w.db.keys[u]) else None
    {
      hide Stores, Queued, UuidText, Wf;
      found := if u in keys then Some(keys[u]) else None;
      w := Apply(w, Read(u));
    }

    method StampAccess(u: Uid)
      requires Valid() && UuidText(u) && Enabled(w, Stamp(u, clock))
      modifies this`stamps, this`w
      ensures Valid() && w == Apply(old(w), Stamp(u, clock))
    {
      hide Stores, Queued;
      stamps := stamps[u := clock.Floor];
      w := Apply(w, Stamp(u, clock));
    }

    method AccountMessage(u: Uid, k: Key)
      requires Valid() && UuidText(u) && Enabled(w, Account(u)) && w.hands[u].key == k
      modifies this`pending, this`w
      ensures Valid() && w == Apply(old(w), Account(u))
    {
      hide Stores, Queued, Wf;
      ghost var v := w;
      var n := HGetCount(u, k);
      if n.Some? && n.value >= 1 {
        HSetCount(u, k, n.value - 1);
      }
      w := Apply(v, Account(u));
    }

    /** Up to five failed pops are repeated a second later; the sixth ends the worker. */
    method AwaitPop(faults: nat) returns (died: bool)
      requires Valid()
      modifies this`clock, this`w
      ensures Valid() && died == (faults > 5) && w == old(w).(clock := clock) && clock >= old(clock)
      ensures !died ==> clock == old(clock) + faults as real
    {
      hide Stores, Queued, UuidText, Wf;
      var retryPopCount := 0;
      while retryPopCount < faults
        invariant retryPopCount <= faults && retryPopCount <= 5
        invariant Valid() && w == old(w).(clock := clock) && clock == old(clock) + retryPopCount as real
      {
        Sleep(1.0);
        retryPopCount := retryPopCount + 1;
        if retryPopCount > 5 {
          return true;
        }
      }
      died := false;
    }

    method PopMessage(u: Uid, k: Key) returns (msg: Msg)
      requires Valid() && Enabled(w, Pop(u, k))
      modifies this`queues, this`w
      ensures Valid() && msg == old(w).queues[k][0] && w == Apply(old(w), Pop(u, k))
    {
      hide Stores, Queued, UuidText, Wf;
      GetQueue(queues, topic, w.queues, k);
      PutQueue(queues, topic, w.queues, k, w.queues[k][1..]);
      var name := Topic(topic, k);
      msg := queues[name][0];
      queues := queues[name := queues[name][1..]];
      w := Apply(w, Pop(u, k));
    }

    /** One key of the round: pop (the first `faults` attempts fail), decode, stamp, account. */
    method ServeKey(u: Uid, k: Key, faults: nat) returns (outcome: Outcome)
      requires Valid() && UuidText(u)
      requires u in w.lists && k in w.lists[u] && u !in w.hands
      modifies this`clock, this`queues, this`stamps, this`pending, this`w
      ensures Valid() && outcome == Expected(old(w), k, faults)
      ensures outcome.Died? ==> w == old(w).(clock := clock) && clock >= old(clock)
      ensures !outcome.Died? ==>
        (var v := old(w).(clock := old(w).clock + faults as real);
         && Legal(v, Served(outcome, u, k, v.clock)) && w == Exec(v, Served(outcome, u, k, v.clock)))
    {
      hide Stores, Queued, UuidText, Wf, Legal, Exec, Apply;
      var died := AwaitPop(faults);
      if died {
        return Died;
      }
      ghost var v := w;
      GetQueue(queues, topic, w.queues, k);
      var name := Topic(topic, k);
      if name !in queues || queues[name] == [] {
        ServedNothing(v);
        return Empty;
      }
      PopReady(v, u, k);
      var msg := PopMessage(u, k);
      if !msg.valid {
        ServedOnce(v, Pop(u, k));
        return Invalid;
      }
      StampAccess(u);
      AccountMessage(u, k);
      ServedThrice(v, Pop(u, k), Stamp(u, clock), Account(u));
      outcome := Handled;
    }

    /** A visit to one of the worker's own keys. */
    method ServeOwnKey(u: Uid, k: Key, faults: nat) returns (alive: bool)
      requires Valid() && Inv(w) && UuidText(u) && u !in w.hands
      requires u in w.lists && k in w.lists[u] && k in KeysOf(w.db, u)
      modifies this
      ensures Valid() && Inv(w) && u !in w.hands && alive == (faults <= 5)
      ensures w.lists == old(w).lists && w.db.owner == old(w).db.owner && w.db.keys == old(w).db.keys
      ensures alive ==> forall j :: Visited(old(w), w, j, {k})
    {
      hide Stores, Queued, UuidText, Wf, Inv, Visited, Legal, Exec, Served;
      ghost var before := w;
      var outcome := ServeKey(u, k, faults);
      alive := outcome != Died;
      if alive {
        ServedVisits(before, w, outcome, u, k, faults);
      } else {
        ClockKeepsInv(before, w);
      }
    }

    /**
     One round of a registered worker over its own keys, with `faults[k]` failed pops at key k.
     Every key with a message waiting gives up its first one, and each decoded message lowers the
     count of its key by one; nothing else moves.
     */
    method ServeRound(u: Uid, faults: map<Key, nat>) returns (alive: bool)
      requires Valid() && Inv(w) && UuidText(u) && u in w.used && u !in w.hands
      modifies this
      ensures Valid() && Inv(w) && u !in w.hands
      ensures w.db.owner == old(w).db.owner && w.db.keys == old(w).db.keys
      ensures alive <==> forall k :: k in KeysOf(old(w).db, u) && k in faults ==> faults[k] <= 5
      ensures alive ==> forall k :: Visited(old(w), w, k, KeysOf(old(w).db, u))
    {
      hide Stores, Queued, UuidText, Wf, Inv, Visited, Sound, Firsts, Lists, NoDup;
      ghost var start := w;
      ReadKeepsInv(w, u);
      var found := ReadKeys(u);
      alive := true;
      VisitedNone(start, w);
      if found == None {
        return;
      }
      var listed := ListOf(found.value);
      ListsElems(listed, found.value);
      FirstsAll(listed);
      assert (set x | x in listed) == found.value;
      for i := 0 to |listed|
        invariant Valid() && Inv(w) && u !in w.hands && u in w.lists && w.lists[u] == found.value
        invariant w.db.owner == start.db.owner && w.db.keys == start.db.keys
        invariant forall k :: Visited(start, w, k, Firsts(listed, i))
        invariant forall x :: 0 <= x < i && listed[x] in faults ==> faults[listed[x]] <= 5
      {
        var k := listed[i];
        assert k in listed;
        FirstsMore(listed, i);
        ghost var before := w;
        alive := ServeOwnKey(u, k, if k in faults then faults[k] else 0);
        if !alive {
          return;
        }
        VisitedMore(start, before, w, Firsts(listed, i), k);
      }
    }
  }

  /** Reading the iterator may first have set it to 0. */
  ghost predicate SameButIterator(a: World, b: World) {
    b == a.(db := a.db.(rr := b.db.rr)) && Iterator(b.db) == Iterator(a.db)
  }

  /** The only one registered is selected. */
  lemma NewcomerSelected(w: World, u: Uid, ignore: Option<Uid>)
    requires w.db.uids == []
    ensures Select(Met(w, Some(u)).db, ignore).uid == u
  {
  }

  /** The world a selection meets: with nobody registered, the newcomer arrives first. */
  function Met(w: World, newcomer: Option<Uid>): World {
    if w.db.uids == [] && newcomer.Some? then Arrived(w, newcomer.value) else w
  }

  function MetFor(w: World, k: Key, newcomer: Option<Uid>): World {
    if k in w.db.owner then w else Met(w, newcomer)
  }

  lemma MetKeepsInv(w: World, k: Key, newcomer: Option<Uid>)
    requires Inv(w) && (newcomer.Some? ==> newcomer.value !in w.used)
    ensures Inv(MetFor(w, k, newcomer))
  {
    if k !in w.db.owner && w.db.uids == [] && newcomer.Some? {
      var u := newcomer.value;
      ListsElems(w.db.uids, w.db.keys.Keys);
      assert w.db.keys.Keys == {};
      assert Lists([u], w.db.keys.Keys + {u});
      RegisterKeeps(w, u, [u]);
    }
  }

  lemma SettledOwner(db: Db, k: Key, u: Uid)
    requires Sound(db) && k in db.owner && db.owner[k] == u
    ensures u in db.keys
  {
  }

  /** Settling a routed key is settling the key. */
  lemma SettledRoute(db: Db, k: Key, now: real, c: Choice)
    requires Sound(db) && (k in db.owner || db.uids != [])
    requires var r := Route(db, k); Wf(r.db) && k in r.db.owner && r.db.owner[k] == r.uid && Allowed(r.db, k, now, c)
    ensures Allowed(db, k, now, c) && Settle(Route(db, k).db, k, now, c) == Settle(db, k, now, c)
  {
  }

  lemma AllocationCounts(w: World, k: Key, newcomer: Option<Uid>, c: Choice)
    requires Inv(w) && (newcomer.Some? ==> newcomer.value !in w.used)
    requires var v := MetFor(w, k, newcomer); Inv(v) && Enabled(v, Allocate(k, c))
    ensures var d := Apply(MetFor(w, k, newcomer), Allocate(k, c)).db;
      && k in d.owner && Count(d, k) == Count(w.db, k) + 1
      && (forall j :: j != k ==> Count(d, j) == Count(w.db, j))
  {
    hide Covered, Fifo, Stamped, Consistent, Counted, ProducerCall;
    var v := MetFor(w, k, newcomer);
    CallConserves(v.db, k, v.clock, c);
    assert forall j :: Count(v.db, j) == Count(w.db, j);
  }

  lemma AllocationShape(w: World, k: Key, newcomer: Option<Uid>, c: Choice)
    requires Enabled(MetFor(w, k, newcomer), Allocate(k, c))
    ensures var v := Apply(MetFor(w, k, newcomer), Allocate(k, c));
      v.queues == w.queues && v.tickets == w.tickets + multiset{k}
  {
    hide ProducerCall, Allowed;
  }

  lemma PushShape(w: World, k: Key, m: Msg)
    requires k in w.tickets
    ensures Enabled(w, Push(k, m))
    ensures var v := Apply(w, Push(k, m));
      && v.db == w.db && v.tickets == w.tickets - multiset{k} && At(v.queues, k) == At(w.queues, k) + [m]
      && forall j :: j != k ==> At(v.queues, j) == At(w.queues, j)
  {
  }

  lemma TicketReturns(a: World, b: World, k: Key)
    requires b.tickets == a.tickets + multiset{k}
    ensures k in b.tickets && b.tickets - multiset{k} == a.tickets
  {
  }

  lemma IteratorKeepsInv(a: World, b: World)
    requires Inv(a) && SameButIterator(a, b)
    ensures Inv(b)
  {
    assert Sound(b.db);
    forall k ensures Load(b, k) <= Count(b.db, k) {
      assert Load(a, k) <= Count(a.db, k) && HandsOn(b, k) == HandsOn(a, k);
    }
  }

  /** What one pass of the send loop does: the key is counted once more, `added` joins its queue. */
  ghost predicate Attempted(a: World, b: World, k: Key, added: seq<Msg>) {
    && k in b.db.owner && b.tickets == a.tickets
    && At(b.queues, k) == At(a.queues, k) + added
    && Count(b.db, k) == Count(a.db, k) + 1
    && forall j :: j != k ==> At(b.queues, j) == At(a.queues, j) && Count(b.db, j) == Count(a.db, j)
  }

  lemma ServedNothing(w: World)
    ensures Legal(w, []) && Exec(w, []) == w
  {
  }

  /** How a worker's visit to one key ends. */
  datatype Outcome = Died | Empty | Invalid | Handled

  function Expected(w: World, k: Key, faults: nat): Outcome {
    if faults > 5 then Died
    else if At(w.queues, k) == [] then Empty
    else if !w.queues[k][0].valid then Invalid else Handled
  }

  function Served(o: Outcome, u: Uid, k: Key, at: real): seq<Action> {
    match o
    case Handled => [Pop(u, k), Stamp(u, at), Account(u)]
    case Invalid => [Pop(u, k)]
    case _ => []
  }

  lemma ServedOnce(w: World, a: Action)
    requires Enabled(w, a)
    ensures Legal(w, [a]) && Exec(w, [a]) == Apply(w, a)
  {
    hide Enabled, Apply;
    assert [a][1..] == [];
  }

  lemma ServedThrice(w: World, a: Action, b: Action, c: Action)
    requires Enabled(w, a) && Enabled(Apply(w, a), b) && Enabled(Apply(Apply(w, a), b), c)
    ensures Legal(w, [a, b, c]) && Exec(w, [a, b, c]) == Apply(Apply(Apply(w, a), b), c)
  {
    hide Enabled, Apply;
    ServedOnce(Apply(Apply(w, a), b), c);
    assert [b, c][1..] == [c];
    assert [a, b, c][1..] == [b, c];
    assert Legal(Apply(w, a), [b, c]);
  }

  /** A worker that popped a valid record can stamp, and then account for it. */
  lemma PopReady(w: World, u: Uid, k: Key)
    requires Enabled(w, Pop(u, k))
    ensures w.queues[k][0].valid ==>
      var a := Apply(w, Pop(u, k));
      Enabled(a, Stamp(u, w.clock)) && Enabled(Apply(a, Stamp(u, w.clock)), Account(u))
      && Apply(a, Stamp(u, w.clock)).hands[u].key == k
  {
  }

  function Rest<T>(q: seq<T>): seq<T> {
    if q == [] then [] else q[1..]
  }

  /** From `a` to `b` key `k` was visited, or left alone. */
  ghost predicate Visited(a: World, b: World, k: Key, visits: set<Key>) {
    var visited := k in visits;
    && At(b.queues, k) == (if visited then Rest(At(a.queues, k)) else At(a.queues, k))
    && Count(b.db, k) + (if visited && At(a.queues, k) != [] && At(a.queues, k)[0].valid then 1 else 0) == Count(a.db, k)
  }

  lemma ReadKeepsInv(w: World, u: Uid)
    requires Inv(w) && u in w.used
    ensures Inv(Apply(w, Read(u)))
  {
    OthersKeep(w, Read(u));
  }

  lemma ClockKeepsInv(a: World, b: World)
    requires Inv(a) && b == a.(clock := b.clock) && a.clock <= b.clock
    ensures Inv(b)
  {
    OthersKeep(a, Tick(b.clock));
  }

  lemma VisitedNone(a: World, b: World)
    requires b.db == a.db && b.queues == a.queues
    ensures forall k :: Visited(a, b, k, {})
  {
  }

  lemma VisitedMore(a: World, b: World, c: World, done: set<Key>, k: Key)
    requires forall j :: Visited(a, b, j, done)
    requires k !in done && forall j :: Visited(b, c, j, {k})
    ensures forall j :: Visited(a, c, j, done + {k})
  {
    forall j ensures Visited(a, c, j, done + {k}) {
      assert Visited(a, b, j, done) && Visited(b, c, j, {k});
    }
  }

  lemma InvalidVisits(v: World, u: Uid, k: Key)
    requires Enabled(v, Pop(u, k)) && !v.queues[k][0].valid
    ensures var b := Apply(v, Pop(u, k));
      && b.hands == v.hands && b.lists == v.lists && b.db == v.db
      && forall j :: Visited(v, b, j, {k})
  {
    hide Count;
  }

  /** A visit to one of the worker's own keys, seen from the outside. */
  lemma ServedVisits(a: World, b: World, o: Outcome, u: Uid, k: Key, faults: nat)
    requires Inv(a) && u in a.lists && u !in a.hands && k in KeysOf(a.db, u)
    requires !o.Died? && o == Expected(a, k, faults)
    requires var v := a.(clock := a.clock + faults as real);
      Legal(v, Served(o, u, k, v.clock)) && b == Exec(v, Served(o, u, k, v.clock))
    ensures Inv(b) && u !in b.hands && b.lists == a.lists && b.db.owner == a.db.owner && b.db.keys == a.db.keys
    ensures forall j :: Visited(a, b, j, {k})
  {
    var v := a.(clock := a.clock + faults as real);
    ClockKeepsInv(a, v);
    RunKeeps(v, Served(o, u, k, v.clock));
    hide Inv, Enabled, Apply, Count, Visited;
    if o.Handled? {
      HandledVisits(v, u, k);
    } else if o.Invalid? {
      UnrollOne(v, Pop(u, k));
      InvalidVisits(v, u, k);
    } else {
      VisitedEmpty(v, k);
    }
    VisitedSince(a, v, b, k);
  }

  lemma VisitedSince(a: World, v: World, b: World, k: Key)
    requires v == a.(clock := v.clock) && forall j :: Visited(v, b, j, {k})
    ensures forall j :: Visited(a, b, j, {k})
  {
    forall j ensures Visited(a, b, j, {k}) {
      assert Visited(v, b, j, {k});
    }
  }

  lemma UnrollOne(w: World, a: Action)
    requires Legal(w, [a])
    ensures Enabled(w, a) && Exec(w, [a]) == Apply(w, a)
  {
    hide Apply;
    assert [a][1..] == [];
  }

  lemma VisitedEmpty(v: World, k: Key)
    requires At(v.queues, k) == []
    ensures forall j :: Visited(v, v, j, {k})
  {
  }

  lemma HandledVisits(v: World, u: Uid, k: Key)
    requires Inv(v) && u in v.lists && u !in v.hands && k in KeysOf(v.db, u)
    requires At(v.queues, k) != [] && v.queues[k][0].valid
    requires Legal(v, [Pop(u, k), Stamp(u, v.clock), Account(u)])
    ensures var b := Exec(v, [Pop(u, k), Stamp(u, v.clock), Account(u)]);
      && u !in b.hands && b.lists == v.lists && b.db.owner == v.db.owner && b.db.keys == v.db.keys
      && forall j :: Visited(v, b, j, {k})
  {
    hide Covered, Fifo, Stamped, Load;
    CoveredHead(v, k);
    UnrollThree(v, Pop(u, k), Stamp(u, v.clock), Account(u));
    assert v.db.owner[k] == u;
    DecrementCounts(v.db, u, k);
  }

  lemma CoveredHead(v: World, k: Key)
    requires Inv(v) && At(v.queues, k) != []
    ensures Count(v.db, k) >= 1
  {
    assert Load(v, k) <= Count(v.db, k);
  }

  lemma UnrollThree(w: World, a: Action, b: Action, c: Action)
    requires Legal(w, [a, b, c])
    ensures Enabled(w, a) && Enabled(Apply(w, a), b) && Enabled(Apply(Apply(w, a), b), c)
    ensures Exec(w, [a, b, c]) == Apply(Apply(Apply(w, a), b), c)
  {
    hide Enabled, Apply;
    assert [a, b, c][1..] == [b, c];
    assert [b, c][1..] == [c];
    assert [c][1..] == [];
    assert Legal(Apply(w, a), [b, c]);
    assert Legal(Apply(Apply(w, a), b), [c]);
    ServedThrice(w, a, b, c);
  }

  /** The world in which `u` has just become the only registered worker. */
  function Arrived(w: World, u: Uid): World {
    w.(db := w.db.(keys := w.db.keys[u := {}], uids := [u]), used := w.used + {u})
  }
}
