/**
 Backoff: when a scheduled message may come back, and when it may be given up. The waits are the
 real numbers w with w^4 = 5^(k + 3); a score is a whole second, so up to one second is lost.
 */
module RetryTiming {
  import opened Wrappers
  import opened Retries
  import opened RetrySafety

  /** When an entry's score was computed and how long it was to wait. */
  datatype Slot = Slot(at: real, wait: real)

  /** A run with its timeline. */
  datatype Timed = Timed(
    s: Sys,
    slots: map<Item, Slot>,          // the ZADD of each entry
    firstFail: map<Content, real>,   // the end of the first failed POST
    newborn: set<Content>)             // contents injected with 0 retries

  function Advance(t: Timed, a: Action): Timed
    requires Enabled(t.s, a)
  {
    Timed(
      Apply(t.s, a),
      if a.ZAdd? then t.slots[t.s.ds[a.i].post.item := Slot(a.at, a.wait)] else t.slots,
      if a.Respond? && Failed(a.status) && t.s.ds[a.i].post.item.content !in t.firstFail
      then t.firstFail[t.s.ds[a.i].post.item.content := t.s.clock] else t.firstFail,
      if a.Inject? && a.item.retries == 0 then t.newborn + {a.item.content} else t.newborn)
  }

  ghost predicate TimedRun(t: Timed, acts: seq<Action>)
    decreases acts
  {
    acts == [] ||
    (&& Enabled(t.s, acts[0]) && (acts[0].Inject? ==> acts[0].item.content !in t.s.accepted)
     && TimedRun(Advance(t, acts[0]), acts[1..]))
  }

  ghost function After(t: Timed, acts: seq<Action>): Timed
    requires TimedRun(t, acts)
    decreases acts
  {
    if acts == [] then t else After(Advance(t, acts[0]), acts[1..])
  }

  function Begin(clock: real, before: (Item, Item) -> bool): Timed {
    Timed(Start(clock, before), map[], map[], {})
  }

  // ---- Entries come back no sooner than their wait, less the truncated second ----

  ghost predicate Slotted(t: Timed, x: Item) {
    x in t.slots && IsWait(x.retries, t.slots[x].wait)
  }

  function Score(slot: Slot): int {
    (slot.at + slot.wait).Floor
  }

  /** The wait of `x` is over, give or take the fraction of a second the score dropped. */
  ghost predicate Ripe(t: Timed, x: Item) {
    Slotted(t, x) && t.s.clock > t.slots[x].at + t.slots[x].wait - 1.0
  }

  ghost predicate StoredAsScheduled(t: Timed) {
    forall x :: x in t.s.retry ==> Slotted(t, x) && t.s.retry[x] == Score(t.slots[x])
  }

  /** Rows a deliverer read, however long ago, were due when it read them. */
  ghost predicate RowsWereDue(t: Timed) {
    forall i, j :: 0 <= i < |t.s.ds| && 0 <= j < |t.s.ds[i].rows| ==>
      var x := t.s.ds[i].rows[j]; Slotted(t, x) && Score(t.slots[x]) <= t.s.clock.Floor
  }

  ghost predicate HandsRipe(t: Timed) {
    forall i :: 0 <= i < |t.s.ds| && t.s.ds[i].hand.Some? ==> Ripe(t, t.s.ds[i].hand.value)
  }

  /** Slots lie behind a content: it is scheduled with a counter it never had before. */
  ghost predicate SlotsBehind(t: Timed) {
    && (forall c, p, k: nat :: At(t.s, c, p) && Item(c, k) in t.slots ==>
          k <= RetriesAt(t.s, c, p) && (p.InSchedule? ==> k < RetriesAt(t.s, c, p)))
    && (forall x :: x in t.slots ==> x.content in t.s.accepted)
  }

  ghost predicate Timely(t: Timed) {
    OnePlace(t.s) && StoredAsScheduled(t) && RowsWereDue(t) && HandsRipe(t) && SlotsBehind(t)
  }

  lemma RipeWhenDue(at: real, wait: real, clock: real)
    requires (at + wait).Floor <= clock.Floor
    ensures clock > at + wait - 1.0
  {
  }

  lemma FloorMonotone(a: real, b: real)
    requires a <= b
    ensures a.Floor <= b.Floor
  {
  }

  /** An entry about to be scheduled has never been scheduled. */
  lemma NotYetSlotted(t: Timed, i: nat)
    requires SlotsBehind(t) && i < |t.s.ds| && t.s.ds[i].post.Scheduling?
    ensures t.s.ds[i].post.item !in t.slots
  {
    var x := t.s.ds[i].post.item;
    assert At(t.s, x.content, InSchedule(i));
    assert x == Item(x.content, x.retries);
  }

  lemma StepStored(t: Timed, a: Action)
    requires Timely(t) && Enabled(t.s, a)
    ensures StoredAsScheduled(Advance(t, a))
  {
    hide IsBatch, OnePlace, SlotsBehind;
  }

  lemma StepRows(t: Timed, a: Action)
    requires Timely(t) && Enabled(t.s, a)
    ensures RowsWereDue(Advance(t, a))
  {
    hide OnePlace, HandsRipe, IsWait;
    var v := Advance(t, a);
    FloorMonotone(t.s.clock, v.s.clock);
    if a.ZAdd? {
      NotYetSlotted(t, a.i);
    }
    hide SlotsBehind;
    forall i, j | 0 <= i < |v.s.ds| && 0 <= j < |v.s.ds[i].rows|
      ensures var x := v.s.ds[i].rows[j]; Slotted(v, x) && Score(v.slots[x]) <= v.s.clock.Floor
    {
      var x := v.s.ds[i].rows[j];
      if a.Poll? && a.i == i {
        assert DueBy(t.s, a.batch[j], a.at);
        FloorMonotone(a.at, t.s.clock);
      } else if a.ZRem? && a.i == i {
        assert x == t.s.ds[i].rows[j + 1];
      } else if a.Launch? && i == |t.s.ds| {
      } else {
        assert x == t.s.ds[i].rows[j];
      }
    }
  }

  lemma StepHands(t: Timed, a: Action)
    requires Timely(t) && Enabled(t.s, a)
    ensures HandsRipe(Advance(t, a))
  {
    hide OnePlace, IsWait, IsBatch, StoredAsScheduled;
    var v := Advance(t, a);
    if a.ZAdd? {
      NotYetSlotted(t, a.i);
    }
    hide SlotsBehind;
    forall i | 0 <= i < |v.s.ds| && v.s.ds[i].hand.Some? ensures Ripe(v, v.s.ds[i].hand.value) {
      if a.ZRem? && a.i == i {
        var x := t.s.ds[i].rows[0];
        RipeWhenDue(t.slots[x].at, t.slots[x].wait, t.s.clock);
      } else if !(a.Launch? && i == |t.s.ds|) {
        assert Ripe(t, t.s.ds[i].hand.value);
      }
    }
  }

  lemma StepBehind(t: Timed, a: Action)
    requires Timely(t) && Enabled(t.s, a) && (a.Inject? ==> a.item.content !in t.s.accepted)
    ensures SlotsBehind(Advance(t, a))
  {
    hide IsBatch, IsWait, StoredAsScheduled, RowsWereDue, HandsRipe;
    var v := Advance(t, a);
    forall c, p, k: nat | At(v.s, c, p) && Item(c, k) in v.slots
      ensures k <= RetriesAt(v.s, c, p) && (p.InSchedule? ==> k < RetriesAt(v.s, c, p))
    {
      if !(a.Inject? && c == a.item.content) {
        StepOrigin(t.s, a, c, p);
        RetriesCarried(t.s, a, c, Origin(t.s, a, c, p));
        SlotBehindCarried(t, a, c, Origin(t.s, a, c, p), k);
      }
    }
    if a.ZAdd? {
      assert At(t.s, t.s.ds[a.i].post.item.content, InSchedule(a.i));
    }
  }

  lemma SlotBehindCarried(t: Timed, a: Action, c: Content, p: Place, k: nat)
    requires Timely(t) && Enabled(t.s, a) && At(t.s, c, p)
    requires Item(c, k) in Advance(t, a).slots
    ensures k <= RetriesAt(t.s, c, p)
    ensures p.InSchedule? && Dest(t.s, a, c, p).InSchedule? ==> k < RetriesAt(t.s, c, p)
  {
    hide IsBatch, IsWait, StoredAsScheduled, RowsWereDue, HandsRipe;
    if Item(c, k) !in t.slots {
      assert At(t.s, c, InSchedule(a.i));
      assert p == InSchedule(a.i);
    }
  }

  lemma StepTimely(t: Timed, a: Action)
    requires Timely(t) && Enabled(t.s, a) && (a.Inject? ==> a.item.content !in t.s.accepted)
    ensures Timely(Advance(t, a))
  {
    StepStored(t, a);
    StepRows(t, a);
    StepHands(t, a);
    StepBehind(t, a);
    StepKeepsOnePlace(t.s, a);
    hide *;
  }

  lemma {:induction false} RunTimely(t: Timed, acts: seq<Action>)
    requires Timely(t) && TimedRun(t, acts)
    ensures Timely(After(t, acts))
    decreases acts
  {
    hide Timely, Enabled, Advance;
    if acts != [] {
      StepTimely(t, acts[0]);
      RunTimely(Advance(t, acts[0]), acts[1..]);
    }
  }

  /** A re-queued entry with counter k waited more than 5^((k+3)/4) - 1 seconds, stale rows or not. */
  lemma NeverRequeuedEarly(clock: real, before: (Item, Item) -> bool, acts: seq<Action>, i: nat)
    requires TimedRun(Begin(clock, before), acts)
    requires Enabled(After(Begin(clock, before), acts).s, RPush(i))
    ensures var t := After(Begin(clock, before), acts); var x := t.s.ds[i].hand.value;
      && x in t.slots && IsWait(x.retries, t.slots[x].wait)
      && t.s.clock > t.slots[x].at + t.slots[x].wait - 1.0
  {
    RunTimely(Begin(clock, before), acts);
    var t := After(Begin(clock, before), acts);
    assert Ripe(t, t.s.ds[i].hand.value);
  }

  // ---- Giving up ----

  /** A lower bound of what `k` waits add up to, less a second each: 4 + 6.47 + 10.18 + 15.71 + 24. */
  function Gap(k: nat): real {
    if k == 0 then 0.0 else if k == 1 then 4.0 else if k == 2 then 10.47
    else if k == 3 then 20.65 else if k == 4 then 36.36 else 60.36
  }

  /** Bounds of the five waits: 5, 7.47, 11.18, 16.71 and 25 seconds. */
  lemma WaitBound(k: nat, w: real)
    requires IsWait(k, w) && 1 <= k <= 5
    ensures w - 1.0 >= Gap(k) - Gap(k - 1)
  {
    assert Pow5(4) == 625.0;
    assert Pow5(5) == 3125.0;
    assert Pow5(6) == 15625.0;
    assert Pow5(7) == 78125.0;
    assert Pow5(8) == 390625.0;
    FourthPowers(w, if k == 1 then 5.0 else if k == 2 then 7.47 else if k == 3 then 11.18 else if k == 4 then 16.71 else 25.0);
  }

  /** A content injected with no retries at `p` has waited for each of its retries in turn. */
  ghost predicate PacedAt(t: Timed, c: Content, p: Place) {
    && At(t.s, c, p)
    && var k := RetriesAt(t.s, c, p);
      && k <= 5
      && (k > 0 || p.GivenUp? <==> c in t.firstFail)
      && (p.InSchedule? || p.Stored? || p.InHand? ==> k > 0)
      && (k > 0 ==>
        var f := t.firstFail[c];
        && (p.InSchedule? ==> t.s.ds[p.i].post.since >= f + Gap(k - 1))
        && (p.Stored? ==> Item(c, k) in t.slots && t.slots[Item(c, k)].at >= f + Gap(k - 1))
        && (p.Queued? || p.InPost? || p.InHand? ==> t.s.clock >= f + Gap(k)))
  }

  ghost predicate Paced(t: Timed) {
    && (forall c, p :: c in t.newborn && At(t.s, c, p) ==> PacedAt(t, c, p))
    && t.newborn <= t.s.accepted
    && (forall c :: c in t.firstFail ==> c in t.s.accepted)
  }

  /** The entry a deliverer removes has served its wait. */
  lemma RemovedPaced(t: Timed, i: nat, c: Content, k: nat)
    requires Timely(t) && Enabled(t.s, ZRem(i)) && PacedAt(t, c, Stored(k)) && t.s.ds[i].rows[0] == Item(c, k)
    ensures t.s.clock >= t.firstFail[c] + Gap(k)
  {
    hide IsBatch, IsWait, HandsRipe, SlotsBehind, Gap, OnePlace;
    var x := t.s.ds[i].rows[0];
    assert Slotted(t, x);
    WaitBound(k, t.slots[x].wait);
    RipeWhenDue(t.slots[x].at, t.slots[x].wait, t.s.clock);
  }

  /** The end of another content's POST changes nothing for `c`. */
  lemma RespondElsewhere(t: Timed, a: Action, c: Content, p: Place)
    requires Enabled(t.s, a) && a.Respond? && PacedAt(t, c, p) && p != InPost(a.i)
    requires t.s.ds[a.i].post.item.content != c
    ensures PacedAt(Advance(t, a), c, Dest(t.s, a, c, p))
  {
    hide Gap;
  }

  lemma RespondHere(t: Timed, a: Action, c: Content)
    requires Enabled(t.s, a) && a.Respond? && PacedAt(t, c, InPost(a.i))
    ensures PacedAt(Advance(t, a), c, Dest(t.s, a, c, InPost(a.i)))
  {
    assert Gap(0) == 0.0;
    hide Gap;
  }

  lemma RespondPacedAt(t: Timed, a: Action, c: Content, p: Place)
    requires OnePlace(t.s) && Enabled(t.s, a) && a.Respond? && PacedAt(t, c, p)
    ensures PacedAt(Advance(t, a), c, Dest(t.s, a, c, p))
  {
    assert At(t.s, t.s.ds[a.i].post.item.content, InPost(a.i));
    assert At(t.s, c, p);
    hide Gap, At;
    if p == InPost(a.i) {
      RespondHere(t, a, c);
    } else {
      RespondElsewhere(t, a, c, p);
    }
  }

  lemma ZAddPacedAt(t: Timed, a: Action, c: Content, p: Place)
    requires Timely(t) && Enabled(t.s, a) && a.ZAdd? && PacedAt(t, c, p)
    ensures PacedAt(Advance(t, a), c, Dest(t.s, a, c, p))
  {
    hide Gap, IsWait, StoredAsScheduled, RowsWereDue, HandsRipe;
    NotYetSlotted(t, a.i);
    assert At(t.s, t.s.ds[a.i].post.item.content, InSchedule(a.i));
    hide OnePlace, SlotsBehind;
  }

  lemma ZRemPacedAt(t: Timed, a: Action, c: Content, p: Place)
    requires Timely(t) && Enabled(t.s, a) && a.ZRem? && PacedAt(t, c, p)
    ensures PacedAt(Advance(t, a), c, Dest(t.s, a, c, p))
  {
    if p.Stored? && t.s.ds[a.i].rows[0] == Item(c, p.k) {
      RemovedPaced(t, a.i, c, p.k);
    }
    hide Gap, Timely;
  }

  lemma CarriedPacedAt(t: Timed, a: Action, c: Content, p: Place)
    requires Enabled(t.s, a) && PacedAt(t, c, p) && !a.Respond? && !a.ZAdd? && !a.ZRem?
    ensures PacedAt(Advance(t, a), c, Dest(t.s, a, c, p))
  {
    hide Gap, IsBatch, IsWait;
  }

  lemma StepPacedAt(t: Timed, a: Action, c: Content, p: Place)
    requires Timely(t) && Enabled(t.s, a) && PacedAt(t, c, p)
    ensures PacedAt(Advance(t, a), c, Dest(t.s, a, c, p))
  {
    if a.Respond? {
      RespondPacedAt(t, a, c, p);
    } else if a.ZAdd? {
      ZAddPacedAt(t, a, c, p);
    } else if a.ZRem? {
      ZRemPacedAt(t, a, c, p);
    } else {
      CarriedPacedAt(t, a, c, p);
    }
  }

  lemma StepPaced(t: Timed, a: Action)
    requires Timely(t) && Paced(t) && Enabled(t.s, a) && (a.Inject? ==> a.item.content !in t.s.accepted)
    ensures Paced(Advance(t, a))
  {
    hide At, Dest, Origin, Timely, PacedAt;
    var v := Advance(t, a);
    forall c, p | c in v.newborn && At(v.s, c, p) ensures PacedAt(v, c, p) {
      if a.Inject? && c == a.item.content {
        NewbornPaced(t, a.item, p);
      } else {
        StepOrigin(t.s, a, c, p);
        StepPacedAt(t, a, c, Origin(t.s, a, c, p));
      }
    }
    if a.Respond? {
      PostAccepted(t, a.i);
    }
  }

  lemma PostAccepted(t: Timed, i: nat)
    requires Timely(t) && i < |t.s.ds| && t.s.ds[i].post.Posting?
    ensures t.s.ds[i].post.item.content in t.s.accepted
  {
    assert At(t.s, t.s.ds[i].post.item.content, InPost(i));
  }

  lemma NewbornPaced(t: Timed, item: Item, p: Place)
    requires Timely(t) && Paced(t) && item.content !in t.s.accepted && item.content in Advance(t, Inject(item)).newborn
    requires At(Advance(t, Inject(item)).s, item.content, p)
    ensures PacedAt(Advance(t, Inject(item)), item.content, p)
  {
    InjectedOnce(t.s, item, p);
  }

  lemma {:induction false} RunPaced(t: Timed, acts: seq<Action>)
    requires Timely(t) && Paced(t) && TimedRun(t, acts)
    ensures Timely(After(t, acts)) && Paced(After(t, acts))
    decreases acts
  {
    hide Timely, Paced, Enabled, Advance;
    if acts != [] {
      StepTimely(t, acts[0]);
      StepPaced(t, acts[0]);
      RunPaced(Advance(t, acts[0]), acts[1..]);
    }
  }

  /** A message injected with no retries is given up only more than a minute after its first failure. */
  lemma GivenUpLate(clock: real, before: (Item, Item) -> bool, acts: seq<Action>, i: nat, status: Option<int>)
    requires TimedRun(Begin(clock, before), acts)
    requires var t := After(Begin(clock, before), acts);
      && Enabled(t.s, Respond(i, status)) && Failed(status)
      && t.s.ds[i].post.item.retries >= 5 && t.s.ds[i].post.item.content in t.newborn
    ensures var t := After(Begin(clock, before), acts); var c := t.s.ds[i].post.item.content;
      c in t.firstFail && t.s.clock > t.firstFail[c] + 60.0
  {
    RunPaced(Begin(clock, before), acts);
    var t := After(Begin(clock, before), acts);
    assert PacedAt(t, t.s.ds[i].post.item.content, InPost(i));
  }
}
