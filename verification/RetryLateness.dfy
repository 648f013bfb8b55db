/**
 Not too late: the waits from above (redis_deliverer/deliver/deliver.py:154-158), the scores they
 give, and how soon after its wait an entry is back in the outbound list.
 */
module RetryLateness {
  import opened Retries
  import opened RetrySafety
  import opened RetryTiming
  import opened RetryFairness

  /** The first wait is 5 seconds and no other number, the last one 25. */
  lemma FirstAndLastWait(w: real)
    ensures IsWait(1, w) <==> w == 5.0
    ensures IsWait(5, w) <==> w == 25.0
  {
    assert Pow5(4) == 625.0 && Pow5(5) == 3125.0 && Pow5(6) == 15625.0 && Pow5(7) == 78125.0 && Pow5(8) == 390625.0;
    if w > 0.0 {
      FourthPowers(w, 5.0);
      FourthPowers(5.0, w);
      FourthPowers(w, 25.0);
      FourthPowers(25.0, w);
    }
  }

  /** The three waits between: 7.47..., 11.18... and 16.71... seconds. */
  lemma MiddleWaits(w: real)
    ensures IsWait(2, w) ==> 7.47 < w < 7.48
    ensures IsWait(3, w) ==> 11.18 < w < 11.19
    ensures IsWait(4, w) ==> 16.71 < w < 16.72
  {
    assert Pow5(4) == 625.0 && Pow5(5) == 3125.0 && Pow5(6) == 15625.0 && Pow5(7) == 78125.0;
    if w > 0.0 {
      Between(w, 7.47, 7.48);
      Between(w, 11.18, 11.19);
      Between(w, 16.71, 16.72);
    }
  }

  lemma Between(w: real, low: real, high: real)
    requires w > 0.0 && 0.0 < low < high
    ensures low * low * (low * low) < w * w * (w * w) < high * high * (high * high) ==> low < w < high
  {
    FourthPowers(w, low);
    FourthPowers(high, w);
  }

  /** No wait before retry `k` is longer. */
  function Longest(k: nat): real {
    if k == 1 then 5.0 else if k == 2 then 7.48 else if k == 3 then 11.19 else if k == 4 then 16.72 else 25.0
  }

  lemma WaitAtMost(k: nat, w: real)
    requires IsWait(k, w) && 1 <= k <= 5
    ensures w <= Longest(k)
  {
    FirstAndLastWait(w);
    MiddleWaits(w);
  }

  // ---- Scores ----

  /** Counters of scheduled messages run from 1 to 5, and instants lie between 0 and now. */
  ghost predicate Orderly(t: Timed) {
    && t.s.clock >= 0.0
    && (forall i :: 0 <= i < |t.s.ds| && t.s.ds[i].post.Scheduling? ==>
          1 <= t.s.ds[i].post.item.retries <= 5 && t.s.ds[i].post.since >= 0.0)
    && (forall x :: x in t.s.retry ==> 1 <= x.retries <= 5 && x in t.slots)
    && (forall x :: x in t.slots ==> 0.0 <= t.slots[x].at <= t.s.clock)
  }

  lemma StepOrderly(t: Timed, a: Action)
    requires Orderly(t) && Enabled(t.s, a)
    ensures Orderly(Advance(t, a))
  {
    hide IsBatch, IsWait, Failed;
  }

  lemma {:induction false} RunOrderly(t: Timed, acts: seq<Action>)
    requires Orderly(t) && TimedRun(t, acts)
    ensures Orderly(After(t, acts))
    decreases acts
  {
    hide Orderly, Enabled, Advance;
    if acts != [] {
      StepOrderly(t, acts[0]);
      RunOrderly(Advance(t, acts[0]), acts[1..]);
    }
  }

  /**
   In every run the score of an entry with counter k, which is from 1 to 5, is at most 5, 7.48, 11.19,
   16.72 or 25 seconds after the instant it was computed, and that instant is past.
   */
  lemma ScoreAtMost(clock: real, before: (Item, Item) -> bool, acts: seq<Action>, x: Item)
    requires clock >= 0.0 && TimedRun(Begin(clock, before), acts) && x in After(Begin(clock, before), acts).s.retry
    ensures var t := After(Begin(clock, before), acts);
      && 1 <= x.retries <= 5 && x in t.slots && 0.0 <= t.slots[x].at <= t.s.clock
      && 0 <= t.s.retry[x] && t.s.retry[x] as real <= t.slots[x].at + Longest(x.retries)
  {
    RunTimely(Begin(clock, before), acts);
    RunOrderly(Begin(clock, before), acts);
    var t := After(Begin(clock, before), acts);
    hide TimedRun, After, OnePlace, SlotsBehind, RowsWereDue, HandsRipe;
    assert Slotted(t, x) && t.s.retry[x] == Score(t.slots[x]);
    WaitAtMost(x.retries, t.slots[x].wait);
  }

  // ---- Back in time ----

  /**
   With one deliverer, an entry whose wait is over, with d entries before it, is re-queued within
   d / 10 + 1 polling rounds begun from then on.
   */
  lemma NotTooLate(clock: real, before: (Item, Item) -> bool, past: seq<Action>, e: Item, acts: seq<Action>)
    requires clock >= 0.0 && TimedRun(Begin(clock, before), past)
    requires var t := After(Begin(clock, before), past); var s := t.s;
      && e in s.retry && e in t.slots && s.clock >= t.slots[e].at + Longest(e.retries)
      && |s.ds| == 1 && Polling(s.ds[0])
      && Legal(s, acts) && Distinct(s, acts) && AllPrompt(s, acts) && (forall a :: a in acts ==> !a.Launch?)
      && |Exec(s, acts).ds| == 1 && Polling(Exec(s, acts).ds[0])
      && Polls(acts, s.clock) >= |Ahead(s, e)| / 10 + 1
    ensures Requeues(After(Begin(clock, before), past).s, acts, e)
  {
    ScoreAtMost(clock, before, past, e);
    RunTimely(Begin(clock, before), past);
    hide TimedRun, After, Legal, Exec, Distinct, AllPrompt, Requeues, Polls, Ahead, Longest;
    var s := After(Begin(clock, before), past).s;
    assert s.retry[e] <= s.clock.Floor;
    NoStarvation(s, acts, e);
  }
}
