/**
 The delivery service (redis_deliverer/deliver/deliver.py): any number of deliverers share the
 outbound list and the retry set, and every Redis command or POST is one step. A Redis error
 means the command was not applied, so its repetition is no step at all.
 */
module Retries {
  import opened Wrappers
  import opened Collections
  import opened Base64

  /** What is delivered; equal contents have equal JSON text. */
  datatype Content = Content(url: string, headers: seq<(string, string)>, payload: seq<Byte>)

  /** A record of the outbound list or a member of the retry set. */
  datatype Item = Item(content: Content, retries: nat)

  /** The delivery loop: waiting for BLPOP, in the POST, or about to ZADD since the POST failed. */
  datatype Post = Ready | Posting(item: Item) | Scheduling(item: Item, since: real)

  /** One deliverer; its retry loop holds the rows it read and has not tried, and the one it removed. */
  datatype Deliverer = Deliverer(post: Post, rows: seq<Item>, hand: Option<Item>)

  datatype Sys = Sys(
    outbound: seq<Item>,
    retry: map<Item, int>,
    ds: seq<Deliverer>,
    clock: real,
    before: (Item, Item) -> bool,    // the byte order of the members' texts
    // history
    accepted: set<Content>,
    delivered: seq<Item>,
    exhausted: seq<Item>)

  datatype Action =
    | Inject(item: Item)                        // a producer's RPUSH
    | Launch                                    // another deliverer starts
    | Tick(now: real)
    | Pop(i: nat)                               // BLPOP outbound
    | Respond(i: nat, status: Option<int>)      // the POST ends: a status, or an error or timeout
    | ZAdd(i: nat, at: real, wait: real)        // with the score computed at `at`, maybe some time ago
    | Poll(i: nat, at: real, batch: seq<Item>)  // ZRANGEBYSCORE 0 max LIMIT 0 10, max computed at `at`
    | ZRem(i: nat)
    | RPush(i: nat)

  // ---- Waiting times ----

  function Pow5(n: nat): (p: real)
    ensures p >= 1.0
  {
    if n == 0 then 1.0 else 5.0 * Pow5(n - 1)
  }

  /** `w` is 5 to the power (k + 3) / 4, the wait before retry `k`. */
  predicate IsWait(k: nat, w: real) {
    w > 0.0 && w * w * (w * w) == Pow5(k + 3)
  }

  lemma FourthPowers(w: real, b: real)
    requires w > 0.0 && b > 0.0
    ensures w < b ==> w * w * (w * w) < b * b * (b * b)
  {
    if w < b {
      assert w * w < b * b;
    }
  }

  // ---- The sorted set ----

  predicate DueBy(s: Sys, x: Item, at: real) {
    x in s.retry && 0 <= s.retry[x] <= at.Floor
  }

  predicate Due(s: Sys, x: Item) {
    DueBy(s, x, s.clock)
  }

  /** The order of the sorted set: by score, then by member text. */
  predicate Earlier(s: Sys, x: Item, y: Item)
    requires x in s.retry && y in s.retry
  {
    s.retry[x] < s.retry[y] || (s.retry[x] == s.retry[y] && s.before(x, y))
  }

  /** What ZRANGEBYSCORE returns: the first ten entries due by `at`. */
  ghost predicate IsBatch(s: Sys, at: real, rows: seq<Item>) {
    && NoDup(rows) && |rows| <= 10
    && (forall m :: 0 <= m < |rows| ==> DueBy(s, rows[m], at))
    && (|rows| < 10 ==> forall y :: DueBy(s, y, at) ==> y in rows)
    && (forall m, y :: 0 <= m < |rows| && DueBy(s, y, at) && y !in rows ==> Earlier(s, rows[m], y))
    && (forall m, n :: 0 <= m < n < |rows| ==> Earlier(s, rows[m], rows[n]))
  }

  // ---- Steps ----

  predicate Failed(status: Option<int>) {
    status.None? || status.value < 200 || status.value >= 300
  }

  predicate Polling(d: Deliverer) {
    d.rows == [] && d.hand.None?
  }

  ghost predicate Enabled(s: Sys, a: Action) {
    match a
    case Inject(_) => true
    case Launch => true
    case Tick(now) => s.clock <= now
    case Pop(i) => i < |s.ds| && s.ds[i].post.Ready? && s.outbound != []
    case Respond(i, _) => i < |s.ds| && s.ds[i].post.Posting?
    case ZAdd(i, at, wait) =>
      i < |s.ds| && s.ds[i].post.Scheduling? && s.ds[i].post.since <= at <= s.clock && IsWait(s.ds[i].post.item.retries, wait)
    case Poll(i, at, batch) => i < |s.ds| && Polling(s.ds[i]) && at <= s.clock && IsBatch(s, at, batch)
    case ZRem(i) => i < |s.ds| && s.ds[i].hand.None? && s.ds[i].rows != []
    case RPush(i) => i < |s.ds| && s.ds[i].hand.Some?
  }

  function With(s: Sys, i: nat, d: Deliverer): Sys
    requires i < |s.ds|
  {
    s.(ds := s.ds[i := d])
  }

  /** The end of a POST: delivered, scheduled again with one more retry, or given up. */
  function Responded(s: Sys, i: nat, status: Option<int>): Sys
    requires i < |s.ds| && s.ds[i].post.Posting?
  {
    var d := s.ds[i];
    var item := d.post.item;
    if !Failed(status) then With(s, i, d.(post := Ready)).(delivered := s.delivered + [item])
    else if item.retries < 5 then With(s, i, d.(post := Scheduling(item.(retries := item.retries + 1), s.clock)))
    else With(s, i, d.(post := Ready)).(exhausted := s.exhausted + [item])
  }

  /** ZREM of the next row: only the deliverer that really removed it keeps it. */
  function Removed(s: Sys, i: nat): Sys
    requires i < |s.ds| && s.ds[i].rows != []
  {
    var d := s.ds[i];
    var x := d.rows[0];
    if x in s.retry then With(s, i, d.(rows := d.rows[1..], hand := Some(x))).(retry := s.retry - {x})
    else With(s, i, d.(rows := d.rows[1..]))
  }

  function Apply(s: Sys, a: Action): Sys
    requires Enabled(s, a)
  {
    match a
    case Inject(item) => s.(outbound := s.outbound + [item], accepted := s.accepted + {item.content})
    case Launch => s.(ds := s.ds + [Deliverer(Ready, [], None)])
    case Tick(now) => s.(clock := now)
    case Pop(i) => With(s, i, s.ds[i].(post := Posting(s.outbound[0]))).(outbound := s.outbound[1..])
    case Respond(i, status) => Responded(s, i, status)
    case ZAdd(i, at, wait) =>
      With(s, i, s.ds[i].(post := Ready)).(retry := s.retry[s.ds[i].post.item := (at + wait).Floor])
    case Poll(i, _, batch) => With(s, i, s.ds[i].(rows := batch))
    case ZRem(i) => Removed(s, i)
    case RPush(i) =>
      With(s, i, s.ds[i].(hand := None)).(outbound := s.outbound + [s.ds[i].hand.value])
  }

  function Start(clock: real, before: (Item, Item) -> bool): Sys {
    Sys([], map[], [], clock, before, {}, [], [])
  }

  ghost predicate Legal(s: Sys, acts: seq<Action>)
    decreases acts
  {
    acts == [] || (Enabled(s, acts[0]) && Legal(Apply(s, acts[0]), acts[1..]))
  }

  ghost function Exec(s: Sys, acts: seq<Action>): Sys
    requires Legal(s, acts)
    decreases acts
  {
    if acts == [] then s else Exec(Apply(s, acts[0]), acts[1..])
  }

  // ---- Where a content is ----

  datatype Place =
    | Queued(j: nat)
    | InPost(i: nat)
    | InSchedule(i: nat)
    | Stored(k: nat)
    | InHand(i: nat)
    | Delivered(j: nat)
    | GivenUp(j: nat)

  predicate At(s: Sys, c: Content, p: Place) {
    match p
    case Queued(j) => j < |s.outbound| && s.outbound[j].content == c
    case InPost(i) => i < |s.ds| && s.ds[i].post.Posting? && s.ds[i].post.item.content == c
    case InSchedule(i) => i < |s.ds| && s.ds[i].post.Scheduling? && s.ds[i].post.item.content == c
    case Stored(k) => Item(c, k) in s.retry
    case InHand(i) => i < |s.ds| && s.ds[i].hand.Some? && s.ds[i].hand.value.content == c
    case Delivered(j) => j < |s.delivered| && s.delivered[j].content == c
    case GivenUp(j) => j < |s.exhausted| && s.exhausted[j].content == c
  }

  /** The retry counter the content carries at its place. */
  function RetriesAt(s: Sys, c: Content, p: Place): nat
    requires At(s, c, p)
  {
    match p
    case Queued(j) => s.outbound[j].retries
    case InPost(i) => s.ds[i].post.item.retries
    case InSchedule(i) => s.ds[i].post.item.retries
    case Stored(k) => k
    case InHand(i) => s.ds[i].hand.value.retries
    case Delivered(j) => s.delivered[j].retries
    case GivenUp(j) => s.exhausted[j].retries
  }
}
