/**
 No starvation: with one deliverer and distinct contents, a due entry is re-queued within as many
 polls as there are batches of ten up to it, because whatever is scheduled meanwhile scores later.
 */
module RetryFairness {
  import opened Wrappers
  import opened Collections
  import opened Retries
  import opened RetrySafety

  /** The entries before `e` in the sorted set. */
  function Ahead(s: Sys, e: Item): set<Item> {
    set x | x in s.retry && e in s.retry && Earlier(s, x, e)
  }

  function RowSet(s: Sys): set<Item>
    requires |s.ds| == 1
  {
    set x | x in s.ds[0].rows
  }

  /** An entry due by `since` and not yet re-queued. */
  ghost predicate Waits(s: Sys, e: Item, since: real) {
    && |s.ds| == 1 && OnePlace(s) && since <= s.clock
    && (DueBy(s, e, since) || s.ds[0].hand == Some(e))
  }

  /** Polls still needed before `e` is in the deliverer's hands for good. */
  function Need(s: Sys, e: Item): nat
    requires |s.ds| == 1
  {
    if s.ds[0].hand == Some(e) || e in s.ds[0].rows then 0 else |Ahead(s, e) - RowSet(s)| / 10 + 1
  }

  /** A poll whose maximum is older than the due time may miss `e`, but brings entries before it only. */
  lemma PollNeeds(s: Sys, e: Item, since: real, at: real, batch: seq<Item>)
    requires Waits(s, e, since) && Enabled(s, Poll(0, at, batch))
    ensures var t := Apply(s, Poll(0, at, batch));
      Waits(t, e, since) && Need(t, e) + (if since <= at then 1 else 0) <= Need(s, e)
  {
    var t := Apply(s, Poll(0, at, batch));
    assert Need(s, e) == |Ahead(s, e)| / 10 + 1 by {
      assert Ahead(s, e) - RowSet(s) == Ahead(s, e);
    }
    StepKeepsOnePlace(s, Poll(0, at, batch));
    hide OnePlace;
    if e !in batch {
      assert Ahead(t, e) == Ahead(s, e);
      assert Lists(batch, RowSet(t));
      ListsSize(batch, RowSet(t));
      assert DueBy(s, e, since);
      assert since <= at ==> DueBy(s, e, at);
      assert RowSet(t) <= Ahead(s, e);
    }
  }

  /** A ZADD that arrives before its entry is due. */
  predicate Prompt(s: Sys, a: Action) {
    a.ZAdd? ==> s.clock.Floor < (a.at + a.wait).Floor
  }

  /** A retry waits 5 seconds or more, so a ZADD up to 4 seconds after its score was computed is prompt. */
  lemma QuickIsPrompt(s: Sys, i: nat, at: real, wait: real)
    requires Enabled(s, ZAdd(i, at, wait)) && s.ds[i].post.item.retries >= 1
    requires s.clock - at <= 4.0
    ensures wait >= 5.0 && Prompt(s, ZAdd(i, at, wait))
  {
    Pow5Grows(s.ds[i].post.item.retries + 3);
    FourthPowers(wait, 5.0);
    assert at + wait >= s.clock + 1.0;
  }

  lemma {:induction false} Pow5Grows(n: nat)
    requires n >= 4
    ensures Pow5(n) >= 625.0
  {
    if n == 4 {
      assert Pow5(2) == 25.0;
    } else {
      Pow5Grows(n - 1);
    }
  }

  /** Every ZADD of the run is prompt. */
  ghost predicate AllPrompt(s: Sys, acts: seq<Action>)
    requires Legal(s, acts)
    decreases acts
  {
    acts == [] || (Prompt(s, acts[0]) && AllPrompt(Apply(s, acts[0]), acts[1..]))
  }

  lemma ZAddNeeds(s: Sys, e: Item, since: real, at: real, wait: real)
    requires Waits(s, e, since) && Enabled(s, ZAdd(0, at, wait)) && Prompt(s, ZAdd(0, at, wait))
    ensures var t := Apply(s, ZAdd(0, at, wait)); Waits(t, e, since) && Need(t, e) <= Need(s, e)
  {
    var a := ZAdd(0, at, wait);
    var t := Apply(s, a);
    var x := s.ds[0].post.item;
    assert At(s, x.content, InSchedule(0));
    assert x !in s.retry by {
      assert x in s.retry ==> At(s, x.content, Stored(x.retries));
    }
    assert x != e by {
      assert e in s.retry ==> At(s, e.content, Stored(e.retries));
      assert s.ds[0].hand == Some(e) ==> At(s, e.content, InHand(0));
    }
    assert e in s.retry ==> DueBy(s, e, since) by {
      assert e in s.retry ==> At(s, e.content, Stored(e.retries));
      assert s.ds[0].hand == Some(e) ==> At(s, e.content, InHand(0));
    }
    StepKeepsOnePlace(s, a);
    hide OnePlace, IsWait;
    assert Ahead(t, e) == Ahead(s, e);
    assert RowSet(t) == RowSet(s);
  }

  lemma ZRemNeeds(s: Sys, e: Item, since: real)
    requires Waits(s, e, since) && Enabled(s, ZRem(0))
    ensures var t := Apply(s, ZRem(0)); Waits(t, e, since) && Need(t, e) <= Need(s, e)
  {
    var t := Apply(s, ZRem(0));
    StepKeepsOnePlace(s, ZRem(0));
    hide OnePlace;
    var x := s.ds[0].rows[0];
    assert s.ds[0].rows == [x] + s.ds[0].rows[1..];
    if x != e {
      assert RowSet(t) + {x} == RowSet(s);
      assert Ahead(t, e) == Ahead(s, e) - {x};
      assert Ahead(t, e) - RowSet(t) == Ahead(s, e) - RowSet(s);
    }
  }

  lemma OtherNeeds(s: Sys, a: Action, e: Item, since: real)
    requires Waits(s, e, since) && Enabled(s, a) && !a.Launch? && !a.Poll? && !a.ZAdd? && !a.ZRem?
    requires a.Inject? ==> a.item.content !in s.accepted
    requires !(a == RPush(0) && s.ds[0].hand == Some(e))
    ensures Waits(Apply(s, a), e, since) && Need(Apply(s, a), e) <= Need(s, e)
  {
    var t := Apply(s, a);
    StepKeepsOnePlace(s, a);
    hide OnePlace, Polling, Failed;
    assert |t.ds| == 1 && t.retry == s.retry && t.before == s.before && t.ds[0].rows == s.ds[0].rows;
    assert Ahead(t, e) == Ahead(s, e);
    assert RowSet(t) == RowSet(s);
  }

  function Poll1(a: Action, since: real): nat {
    if a.Poll? && since <= a.at then 1 else 0
  }

  /** The polling rounds begun at `since` or later. */
  function Polls(acts: seq<Action>, since: real): nat {
    if acts == [] then 0 else Poll1(acts[0], since) + Polls(acts[1..], since)
  }

  lemma StepNeeds(s: Sys, a: Action, e: Item, since: real)
    requires Waits(s, e, since) && Enabled(s, a) && !a.Launch? && Prompt(s, a)
    requires a.Inject? ==> a.item.content !in s.accepted
    requires !(a == RPush(0) && s.ds[0].hand == Some(e))
    ensures Waits(Apply(s, a), e, since) && Need(Apply(s, a), e) + Poll1(a, since) <= Need(s, e)
  {
    if a.Poll? {
      PollNeeds(s, e, since, a.at, a.batch);
    } else if a.ZAdd? {
      ZAddNeeds(s, e, since, a.at, a.wait);
    } else if a.ZRem? {
      ZRemNeeds(s, e, since);
    } else {
      OtherNeeds(s, a, e, since);
    }
  }

  /** Somewhere in the run the lone deliverer pushes `e` back to the outbound list. */
  ghost predicate Requeues(s: Sys, acts: seq<Action>, e: Item)
    requires |s.ds| == 1 && Legal(s, acts) && forall a :: a in acts ==> !a.Launch?
    decreases acts
  {
    acts != [] &&
    ((acts[0] == RPush(0) && s.ds[0].hand == Some(e)) ||
     (assert acts[0] in acts; Requeues(Apply(s, acts[0]), acts[1..], e)))
  }

  lemma {:induction false} EnoughPolls(s: Sys, acts: seq<Action>, e: Item, since: real)
    requires Waits(s, e, since) && Legal(s, acts) && Distinct(s, acts) && AllPrompt(s, acts) && forall a :: a in acts ==> !a.Launch?
    requires Polls(acts, since) >= Need(s, e) && |Exec(s, acts).ds| == 1 && Polling(Exec(s, acts).ds[0])
    ensures Requeues(s, acts, e)
    decreases acts
  {
    if acts != [] {
      assert acts[0] in acts;
      if !(acts[0] == RPush(0) && s.ds[0].hand == Some(e)) {
        StepNeeds(s, acts[0], e, since);
        EnoughPolls(Apply(s, acts[0]), acts[1..], e, since);
      }
    }
  }

  /** A due entry with d entries before it is re-queued within d / 10 + 1 polling rounds begun from then on. */
  lemma NoStarvation(s: Sys, acts: seq<Action>, e: Item)
    requires |s.ds| == 1 && OnePlace(s) && Polling(s.ds[0])
    requires e in s.retry && 0 <= s.retry[e] <= s.clock.Floor
    requires Legal(s, acts) && Distinct(s, acts) && AllPrompt(s, acts) && forall a :: a in acts ==> !a.Launch?
    requires |Exec(s, acts).ds| == 1 && Polling(Exec(s, acts).ds[0])
    requires Polls(acts, s.clock) >= |Ahead(s, e)| / 10 + 1
    ensures Requeues(s, acts, e)
  {
    assert Ahead(s, e) - RowSet(s) == Ahead(s, e);
    EnoughPolls(s, acts, e, s.clock);
  }
}
