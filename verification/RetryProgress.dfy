/** How much work a message can cause: a bound on attempts, and a measure every productive step lowers. */
module RetryProgress {
  import opened Wrappers
  import opened Collections
  import opened Retries
  import opened RetrySafety

  // ---- Attempts per content ----

  /** 1 if this step ends a POST of `c`. */
  function PostNow(s: Sys, a: Action, c: Content): nat {
    if a.Respond? && a.i < |s.ds| && s.ds[a.i].post.Posting? && s.ds[a.i].post.item.content == c then 1 else 0
  }

  function FailNow(s: Sys, a: Action, c: Content): nat {
    if PostNow(s, a, c) == 1 && Failed(a.status) then 1 else 0
  }

  ghost function Posts(s: Sys, acts: seq<Action>, c: Content): nat
    requires Legal(s, acts)
    decreases acts
  {
    if acts == [] then 0 else PostNow(s, acts[0], c) + Posts(Apply(s, acts[0]), acts[1..], c)
  }

  ghost function Fails(s: Sys, acts: seq<Action>, c: Content): nat
    requires Legal(s, acts)
    decreases acts
  {
    if acts == [] then 0 else FailNow(s, acts[0], c) + Fails(Apply(s, acts[0]), acts[1..], c)
  }

  /** The failures a content at `p` stands for. */
  function Level(s: Sys, c: Content, p: Place): nat
    requires At(s, c, p)
  {
    RetriesAt(s, c, p) + if p.GivenUp? then 1 else 0
  }

  function Done(p: Place): nat {
    if p.Delivered? then 1 else 0
  }

  /** A content within the retry cap; given up only at the cap. */
  ghost predicate Capped(s: Sys, c: Content, p: Place) {
    At(s, c, p) && RetriesAt(s, c, p) <= 5 && (p.GivenUp? ==> RetriesAt(s, c, p) == 5)
  }

  lemma StepCounts(s: Sys, a: Action, c: Content, p: Place)
    requires Enabled(s, a) && OnePlace(s) && Capped(s, c, p)
    ensures var t := Apply(s, a); var q := Dest(s, a, c, p);
      && Capped(t, c, q)
      && Level(t, c, q) == Level(s, c, p) + FailNow(s, a, c)
      && Done(q) + FailNow(s, a, c) == Done(p) + PostNow(s, a, c)
  {
    hide IsBatch, IsWait;
    StepCarries(s, a, c, p);
    RetriesCarried(s, a, c, p);
    if PostNow(s, a, c) == 1 {
      assert At(s, c, InPost(a.i));
    }
    hide OnePlace;
  }

  lemma {:induction false} RunCounts(s: Sys, acts: seq<Action>, c: Content, p: Place) returns (q: Place)
    requires Legal(s, acts) && Distinct(s, acts) && OnePlace(s) && Capped(s, c, p)
    ensures Capped(Exec(s, acts), c, q)
    ensures Level(Exec(s, acts), c, q) == Level(s, c, p) + Fails(s, acts, c)
    ensures Done(q) + Fails(s, acts, c) == Done(p) + Posts(s, acts, c)
    decreases acts
  {
    if acts == [] {
      q := p;
    } else {
      hide OnePlace, Enabled, Apply, Capped, Level, Done, PostNow, FailNow;
      StepCounts(s, acts[0], c, p);
      StepKeepsOnePlace(s, acts[0]);
      assert Capped(s, c, p);
      CappedAt(s, c, p);
      q := RunCounts(Apply(s, acts[0]), acts[1..], c, Dest(s, acts[0], c, p));
    }
  }

  lemma CappedAt(s: Sys, c: Content, p: Place)
    requires Capped(s, c, p)
    ensures At(s, c, p)
  {
  }

  /**
   A message queued with r <= 5 retries is posted at most 6 - r times, a POST still open at the end
   included, and given up only after 6 - r failures.
   */
  lemma AttemptBound(s: Sys, acts: seq<Action>, j: nat, q: Place)
    requires Legal(s, acts) && Distinct(s, acts) && OnePlace(s)
    requires j < |s.outbound| && s.outbound[j].retries <= 5
    requires At(Exec(s, acts), s.outbound[j].content, q)
    ensures var c := s.outbound[j].content; var r := s.outbound[j].retries;
      && Posts(s, acts, c) <= 6 - r
      && (q.InPost? ==> Posts(s, acts, c) < 6 - r)
      && (q.GivenUp? ==> Fails(s, acts, c) == 6 - r && Posts(s, acts, c) == 6 - r)
      && (q.Delivered? ==> Posts(s, acts, c) == Fails(s, acts, c) + 1)
  {
    var c := s.outbound[j].content;
    var p := RunCounts(s, acts, c, Queued(j));
    RunKeepsOnePlace(s, acts);
    assert p == q;
  }

  // ---- Re-queued at most once ----

  /** Steps left for a content at `p`: it only ever moves down. */
  function Height(s: Sys, c: Content, p: Place): nat
    requires At(s, c, p)
  {
    var k := RetriesAt(s, c, p);
    match p
    case Queued(_) => Weight(k)
    case InPost(_) => Weight(k) - 1
    case InSchedule(_) => Weight(k) + 3
    case Stored(_) => Weight(k) + 2
    case InHand(_) => Weight(k) + 1
    case _ => 0
  }

  function RequeueNow(s: Sys, a: Action, x: Item): nat {
    if a.RPush? && a.i < |s.ds| && s.ds[a.i].hand == Some(x) then 1 else 0
  }

  ghost function Requeued(s: Sys, acts: seq<Action>, x: Item): nat
    requires Legal(s, acts)
    decreases acts
  {
    if acts == [] then 0 else RequeueNow(s, acts[0], x) + Requeued(Apply(s, acts[0]), acts[1..], x)
  }

  /** No step takes a content up. */
  lemma StepLowersHeight(s: Sys, a: Action, c: Content, p: Place)
    requires Enabled(s, a) && At(s, c, p) && At(Apply(s, a), c, Dest(s, a, c, p))
    ensures Height(Apply(s, a), c, Dest(s, a, c, p)) <= Height(s, c, p)
  {
    RetriesCarried(s, a, c, p);
    hide Enabled, Apply, IsBatch, IsWait, RetriesAt;
    if a.Respond? && p.InPost? && Dest(s, a, c, p).InSchedule? {
      RespondedRetries(s, a, c, p);
    }
  }

  /** Only below the cap is a failed POST scheduled again. */
  lemma RespondedRetries(s: Sys, a: Action, c: Content, p: Place)
    requires Enabled(s, a) && At(s, c, p) && a.Respond?
    requires p.InPost? && Dest(s, a, c, p).InSchedule?
    ensures RetriesAt(s, c, p) < 5
  {
  }

  lemma StepDescends(s: Sys, a: Action, c: Content, p: Place, k: nat)
    requires Enabled(s, a) && OnePlace(s) && At(s, c, p)
    ensures At(Apply(s, a), c, Dest(s, a, c, p))
    ensures Height(Apply(s, a), c, Dest(s, a, c, p)) <= Height(s, c, p)
    ensures RequeueNow(s, a, Item(c, k)) == 1 ==>
      Height(s, c, p) == Weight(k) + 1 && Height(Apply(s, a), c, Dest(s, a, c, p)) == Weight(k)
  {
    StepCarries(s, a, c, p);
    StepLowersHeight(s, a, c, p);
    if RequeueNow(s, a, Item(c, k)) == 1 {
      assert At(s, c, InHand(a.i));
      assert p == InHand(a.i);
    }
    hide OnePlace, IsBatch, Weight;
  }

  /** However many deliverers read the same row, a scheduled entry is re-queued at most once. */
  lemma {:induction false} RequeuedOnce(s: Sys, acts: seq<Action>, c: Content, p: Place, k: nat)
    requires Legal(s, acts) && Distinct(s, acts) && OnePlace(s) && At(s, c, p)
    ensures Requeued(s, acts, Item(c, k)) <= if Height(s, c, p) > Weight(k) then 1 else 0
    decreases acts
  {
    if acts != [] {
      hide OnePlace, Enabled, Apply, Height, Weight, RequeueNow, At;
      StepDescends(s, acts[0], c, p, k);
      StepKeepsOnePlace(s, acts[0]);
      RequeuedOnce(Apply(s, acts[0]), acts[1..], c, Dest(s, acts[0], c, p), k);
    }
  }

  // ---- A measure ----

  /** The weight of a queued item: at most five steps for each attempt left. */
  function Weight(k: nat): nat {
    if k < 5 then 5 * (5 - k) + 2 else 2
  }

  function QueueWeight(q: seq<Item>): nat {
    if q == [] then 0 else Weight(q[0].retries) + QueueWeight(q[1..])
  }

  function HolderWeight(d: Deliverer): nat {
    (match d.post
     case Ready => 0
     case Posting(x) => Weight(x.retries) - 1
     case Scheduling(x, _) => Weight(x.retries) + 3)
    + if d.hand.Some? then Weight(d.hand.value.retries) + 1 else 0
  }

  function HoldersWeight(ds: seq<Deliverer>): nat {
    if ds == [] then 0 else HolderWeight(ds[0]) + HoldersWeight(ds[1..])
  }

  ghost function RetryWeights(retry: map<Item, int>): map<Item, nat> {
    map x | x in retry :: Weight(x.retries) + 2
  }

  ghost function Measure(s: Sys): nat {
    QueueWeight(s.outbound) + HoldersWeight(s.ds) + Sum(RetryWeights(s.retry))
  }

  lemma {:induction false} QueueAppend(q: seq<Item>, x: Item)
    ensures QueueWeight(q + [x]) == QueueWeight(q) + Weight(x.retries)
    decreases q
  {
    if q == [] {
      assert q + [x] == [x];
    } else {
      assert (q + [x])[1..] == q[1..] + [x];
      QueueAppend(q[1..], x);
    }
  }

  lemma {:induction false} HoldersUpdate(ds: seq<Deliverer>, i: nat, d: Deliverer)
    requires i < |ds|
    ensures HoldersWeight(ds[i := d]) + HolderWeight(ds[i]) == HoldersWeight(ds) + HolderWeight(d)
    decreases ds
  {
    if i == 0 {
      assert ds[0 := d][1..] == ds[1..];
    } else {
      assert ds[i := d][1..] == ds[1..][i - 1 := d];
      HoldersUpdate(ds[1..], i - 1, d);
    }
  }

  lemma {:induction false} HoldersAppend(ds: seq<Deliverer>, d: Deliverer)
    ensures HoldersWeight(ds + [d]) == HoldersWeight(ds) + HolderWeight(d)
    decreases ds
  {
    if ds == [] {
      assert ds + [d] == [d];
    } else {
      assert (ds + [d])[1..] == ds[1..] + [d];
      HoldersAppend(ds[1..], d);
    }
  }

  lemma RetryPut(retry: map<Item, int>, x: Item, score: int)
    ensures Sum(RetryWeights(retry[x := score])) <= Sum(RetryWeights(retry)) + Weight(x.retries) + 2
  {
    var m := RetryWeights(retry);
    assert RetryWeights(retry[x := score]) == m[x := Weight(x.retries) + 2];
    SumPut(m, x, Weight(x.retries) + 2);
    SumDrop(m, x);
  }

  lemma RetryDrop(retry: map<Item, int>, x: Item)
    requires x in retry
    ensures Sum(RetryWeights(retry - {x})) + Weight(x.retries) + 2 == Sum(RetryWeights(retry))
  {
    assert RetryWeights(retry - {x}) == RetryWeights(retry) - {x};
    SumDrop(RetryWeights(retry), x);
  }

  /** Steps that move a message on; polls, failed removals, clock ticks and launches do not. */
  predicate Productive(s: Sys, a: Action) {
    match a
    case Pop(_) => true
    case Respond(_, _) => true
    case ZAdd(_, _, _) => true
    case RPush(_) => true
    case ZRem(i) => i < |s.ds| && s.ds[i].rows != [] && s.ds[i].rows[0] in s.retry
    case _ => false
  }

  lemma PopLowers(s: Sys, i: nat)
    requires Enabled(s, Pop(i))
    ensures Measure(Apply(s, Pop(i))) < Measure(s)
  {
    hide Sum, RetryWeights;
    HoldersUpdate(s.ds, i, Apply(s, Pop(i)).ds[i]);
  }

  lemma RespondLowers(s: Sys, i: nat, status: Option<int>)
    requires Enabled(s, Respond(i, status))
    ensures Measure(Apply(s, Respond(i, status))) < Measure(s)
  {
    hide Sum, RetryWeights, QueueWeight;
    HoldersUpdate(s.ds, i, Apply(s, Respond(i, status)).ds[i]);
  }

  lemma ZAddLowers(s: Sys, i: nat, at: real, wait: real)
    requires Enabled(s, ZAdd(i, at, wait))
    ensures Measure(Apply(s, ZAdd(i, at, wait))) < Measure(s)
  {
    hide Sum, RetryWeights, QueueWeight, Weight, IsWait;
    HoldersUpdate(s.ds, i, Apply(s, ZAdd(i, at, wait)).ds[i]);
    RetryPut(s.retry, s.ds[i].post.item, (at + wait).Floor);
  }

  lemma SweepLowers(s: Sys, a: Action)
    requires Enabled(s, a) && (a.Poll? || a.ZRem? || a.RPush?)
    ensures Measure(Apply(s, a)) + (if Productive(s, a) then 1 else 0) <= Measure(s)
  {
    hide Sum, RetryWeights, IsBatch, QueueWeight;
    var t := Apply(s, a);
    HoldersUpdate(s.ds, a.i, t.ds[a.i]);
    if a.ZRem? && Productive(s, a) {
      RetryDrop(s.retry, s.ds[a.i].rows[0]);
    } else if a.RPush? {
      QueueAppend(s.outbound, s.ds[a.i].hand.value);
    }
  }

  /** Without new arrivals every productive step lowers the measure and no other step raises it. */
  lemma StepLowers(s: Sys, a: Action)
    requires Enabled(s, a) && !a.Inject?
    ensures Measure(Apply(s, a)) + (if Productive(s, a) then 1 else 0) <= Measure(s)
  {
    if a.Launch? {
      HoldersAppend(s.ds, Deliverer(Ready, [], None));
    } else if a.Pop? {
      PopLowers(s, a.i);
    } else if a.Respond? {
      RespondLowers(s, a.i, a.status);
    } else if a.ZAdd? {
      ZAddLowers(s, a.i, a.at, a.wait);
    } else if !a.Tick? {
      SweepLowers(s, a);
    }
  }

  ghost function ProductiveSteps(s: Sys, acts: seq<Action>): nat
    requires Legal(s, acts)
    decreases acts
  {
    if acts == [] then 0 else
      (if Productive(s, acts[0]) then 1 else 0) + ProductiveSteps(Apply(s, acts[0]), acts[1..])
  }

  /** Without new arrivals a run has at most `Measure` productive steps, merged entries or not. */
  lemma {:induction false} RunTerminates(s: Sys, acts: seq<Action>)
    requires Legal(s, acts) && forall a :: a in acts ==> !a.Inject?
    ensures ProductiveSteps(s, acts) + Measure(Exec(s, acts)) <= Measure(s)
    decreases acts
  {
    if acts != [] {
      hide Enabled, Apply, Measure, Productive;
      assert acts[0] in acts;
      StepLowers(s, acts[0]);
      RunTerminates(Apply(s, acts[0]), acts[1..]);
    }
  }
}
