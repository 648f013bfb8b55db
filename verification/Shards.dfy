/**
 The shard database of the plugin and, as functions on its value, what one call of the
 allocator does to it (redis_queue/v1_0/utils.py).
 */
module Shards {
  import opened Wrappers
  import opened Collections

  /** The uuid4 text of a plugin instance. */
  datatype Uid = Uid(text: string)

  /** A recipient key: the comma-joined kids of a packed message. */
  datatype Key = Key(text: string)

  /** The Redis structures the allocator shares with the workers. */
  datatype Db = Db(
    uids: seq<Uid>,                  // the fields of uid_recip_keys_map, in HKEYS order
    keys: map<Uid, set<Key>>,        // uid_recip_keys_map
    owner: map<Key, Uid>,            // recip_key_uid_map
    pending: map<(Uid, Key), nat>,   // uid_recip_key_pending_msg_count
    stamps: map<Uid, int>,           // uid_last_access_map, in whole seconds
    rr: Option<nat>)                 // round_robin_iterator

  /** What Python and Redis leave open: the order of a stored key list and of HKEYS after an HDEL. */
  datatype Choice = Choice(listed: seq<Key>, order: seq<Uid>)

  /** A uid chosen by a call, and the database the call leaves. */
  datatype Routed = Routed(db: Db, uid: Uid)

  predicate Wf(db: Db) {
    Lists(db.uids, db.keys.Keys)
  }

  function KeysOf(db: Db, u: Uid): set<Key> {
    if u in db.keys then db.keys[u] else {}
  }

  /** HSET uid_recip_keys_map: a new field is appended, an existing one keeps its place. */
  function PutKeys(db: Db, u: Uid, ks: set<Key>): Db {
    db.(keys := db.keys[u := ks], uids := if u in db.keys then db.uids else db.uids + [u])
  }

  // ---- get_new_valid_uid ----

  function Candidates(uids: seq<Uid>, ignore: Option<Uid>): (c: seq<Uid>)
    ensures uids != [] ==> c != []
  {
    if ignore.Some? && |uids| > 1 then Without(uids, ignore.value) else uids
  }

  /** Index into the list, falling back to its head when the iterator is out of range. */
  function Pick(c: seq<Uid>, i: nat): (u: Uid)
    requires c != []
    ensures u in c
  {
    if i < |c| then c[i] else c[0]
  }

  function Advance(n: nat, i: nat): nat {
    if i + 1 < n then i + 1 else 0
  }

  function Iterator(db: Db): nat {
    if db.rr.Some? then db.rr.value else 0
  }

  function Select(db: Db, ignore: Option<Uid>): Routed
    requires db.uids != []
  {
    var c := Candidates(db.uids, ignore);
    Routed(db.(rr := Some(Advance(|c|, Iterator(db)))), Pick(c, Iterator(db)))
  }

  // ---- assign_recip_key_to_new_uid, reassign_recip_key_to_uid ----

  function Assign(db: Db, k: Key): (r: Routed)
    requires db.uids != []
    ensures r.db.uids != []
  {
    var s := Select(db, None);
    var d := PutKeys(s.db.(owner := s.db.owner[k := s.uid]), s.uid, KeysOf(s.db, s.uid) + {k});
    Routed(d.(pending := d.pending[(s.uid, k) := 0]), s.uid)
  }

  /** HINCRBY on the pending hash: a missing field counts as 0. */
  function Bump(pending: map<(Uid, Key), nat>, p: (Uid, Key), n: nat): map<(Uid, Key), nat> {
    pending[p := n + if p in pending then pending[p] else 0]
  }

  /** Both key lists are read before either is written: with the old uid equal to the new one the second write wins. */
  function Reassign(db: Db, oldUid: Uid, k: Key): (r: Routed)
    requires db.uids != []
    ensures r.db.uids != []
  {
    var s := Select(db, Some(oldUid));
    var newKeys := KeysOf(s.db, s.uid);
    var d1 := PutKeys(s.db, oldUid, KeysOf(s.db, oldUid) - {k});
    var d2 := d1.(pending := d1.pending - {(oldUid, k)}, owner := d1.owner[k := s.uid]);
    var d3 := PutKeys(d2, s.uid, newKeys + {k});
    Routed(if (oldUid, k) in db.pending then d3.(pending := Bump(d3.pending, (s.uid, k), db.pending[(oldUid, k)])) else d3,
           s.uid)
  }

  // ---- process_payload_recip_key ----

  /** Both instants are truncated to whole seconds before they are compared. */
  predicate Stale(db: Db, u: Uid, now: real) {
    u !in db.stamps || now.Floor - db.stamps[u] >= 15
  }

  predicate Backlogged(db: Db, u: Uid, k: Key) {
    (u, k) in db.pending && db.pending[(u, k)] >= 1
  }

  predicate MustDrain(db: Db, u: Uid, now: real) {
    Stale(db, u, now) && exists j :: j in KeysOf(db, u) && Backlogged(db, u, j)
  }

  function Route(db: Db, k: Key): Routed
    requires k in db.owner || db.uids != []
  {
    if k in db.owner then Routed(db, db.owner[k]) else Assign(db, k)
  }

  /** Reassign every listed key of `oldUid`; `r.uid` follows the message's key `k`. */
  function Drain(db: Db, oldUid: Uid, listed: seq<Key>, k: Key, plugin: Uid): (r: Routed)
    requires db.uids != []
    ensures r.db.uids != []
    decreases listed
  {
    if listed == [] then Routed(db, plugin) else
      var m := Reassign(db, oldUid, listed[0]);
      Drain(m.db, oldUid, listed[1..], k, if listed[0] == k then m.uid else plugin)
  }

  /** HDEL uid_recip_keys_map. */
  function Deregister(db: Db, u: Uid, order: seq<Uid>): Db {
    db.(keys := db.keys - {u}, uids := order)
  }

  function Evacuate(db: Db, u: Uid, k: Key, c: Choice): Routed
    requires db.uids != []
  {
    var d := Drain(db, u, c.listed, k, u);
    if KeysOf(d.db, u) == {} then Routed(Deregister(d.db, u, c.order), d.uid) else d
  }

  /** Where the message's key ends up, before its pending count is raised. */
  function Settle(db: Db, k: Key, now: real, c: Choice): Routed
    requires Wf(db) && (k in db.owner || db.uids != [])
  {
    var r := Route(db, k);
    if MustDrain(r.db, r.uid, now) then
      assert r.db.uids != [] by { assert k in db.owner ==> r.uid in (set x | x in db.uids); }
      Evacuate(r.db, r.uid, k, c)
    else r
  }

  function ProducerCall(db: Db, k: Key, now: real, c: Choice): Db
    requires Wf(db) && (k in db.owner || db.uids != [])
  {
    var s := Settle(db, k, now, c);
    s.db.(pending := Bump(s.db.pending, (s.uid, k), 1))
  }

  /** `c` resolves the open orders of this call the way Python and Redis may. */
  ghost predicate Allowed(db: Db, k: Key, now: real, c: Choice)
    requires k in db.owner || db.uids != []
  {
    var r := Route(db, k);
    MustDrain(r.db, r.uid, now) ==>
      Lists(c.listed, KeysOf(r.db, r.uid)) && Lists(c.order, r.db.keys.Keys - {r.uid})
  }
}
