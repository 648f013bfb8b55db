/**
 The loops of one deliverer over the shared lists (redis_deliverer/deliver/deliver.py:64-220).
 `y` is the system of Retries the fields stand for, `me` this deliverer in it; other deliverers
 may have moved entries between any two calls. A faulty Redis command is repeated a second later.
 */
module DeliveryService {
  import opened Wrappers
  import opened Collections
  import opened Retries
  import opened RetryLateness

  /** Members of the sorted set are totally ordered by their text. */
  ghost predicate StrictTotal(before: (Item, Item) -> bool) {
    && (forall a, b, c :: before(a, b) && before(b, c) ==> before(a, c))
    && (forall a, b :: a != b ==> before(a, b) || before(b, a))
    && (forall a, b :: before(a, b) ==> !before(b, a))
  }

  /** One finished attempt: the pop, the end of the POST, and the ZADD if it is to be repeated. */
  ghost function Attempt(v: Sys, me: nat, status: Option<int>, wait: real, faults: nat): Sys
    requires Enabled(v, Pop(me)) && IsWait(v.outbound[0].retries + 1, wait)
  {
    var r := Apply(Apply(v, Pop(me)), Respond(me, status));
    if r.ds[me].post.Scheduling? then Apply(r.(clock := r.clock + faults as real), ZAdd(me, r.clock + faults as real, wait)) else r
  }

  class Deliverer {
    var outbound: seq<Item>
    var retry: map<Item, int>
    var clock: real
    const me: nat
    const before: (Item, Item) -> bool
    ghost var y: Sys

    ghost predicate Valid()
      reads this
    {
      && outbound == y.outbound && retry == y.retry && clock == y.clock && before == y.before
      && me < |y.ds| && StrictTotal(before)
    }

    constructor (now: real, before: (Item, Item) -> bool)
      requires StrictTotal(before)
      ensures Valid() && me == 0 && y == Apply(Start(now, before), Launch)
    {
      outbound, retry, clock, me := [], map[], now, 0;
      this.before := before;
      y := Apply(Start(now, before), Launch);
    }

    method Sleep(seconds: real)
      requires Valid() && seconds >= 0.0
      modifies this`clock, this`y
      ensures Valid() && clock == old(clock) + seconds && y == old(y).(clock := clock)
    {
      clock := clock + seconds;
      y := y.(clock := clock);
    }

    /** Repeat a command that fails `faults` times, a second apart. */
    method Outlast(faults: nat)
      requires Valid()
      modifies this`clock, this`y
      ensures Valid() && clock == old(clock) + faults as real && y == old(y).(clock := clock)
    {
      var failed := 0;
      while failed < faults
        invariant failed <= faults && Valid()
        invariant clock == old(clock) + failed as real && y == old(y).(clock := clock)
      {
        Sleep(1.0);
        failed := failed + 1;
      }
    }

    // ---- process_delivery, add_retry ----

    /** The score is computed anew at each attempt, so it counts from the one that succeeds. */
    method AddRetry(item: Item, wait: real, faults: nat)
      requires Valid() && y.ds[me].post.Scheduling? && y.ds[me].post.item == item && y.ds[me].post.since <= clock
      requires IsWait(item.retries, wait)
      modifies this`retry, this`clock, this`y
      ensures Valid() && clock == old(clock) + faults as real
      ensures y == Apply(old(y).(clock := clock), ZAdd(me, clock, wait))
      ensures item in retry && clock + wait - 1.0 < retry[item] as real <= clock + wait
      ensures item.retries == 1 ==> retry[item] == (clock + 5.0).Floor
      ensures item.retries == 2 ==> clock + 6.47 < retry[item] as real < clock + 7.48
      ensures item.retries == 3 ==> clock + 10.18 < retry[item] as real < clock + 11.19
      ensures item.retries == 4 ==> clock + 15.71 < retry[item] as real < clock + 16.72
      ensures item.retries == 5 ==> retry[item] == (clock + 25.0).Floor
    {
      FirstAndLastWait(wait);
      MiddleWaits(wait);
      var failed := 0;
      var zaddSent := false;
      while !zaddSent
        invariant failed <= faults && (zaddSent ==> failed == faults) && Valid()
        invariant clock == old(clock) + failed as real
        invariant !zaddSent ==> y == old(y).(clock := clock)
        invariant zaddSent ==> y == Apply(old(y).(clock := clock), ZAdd(me, clock, wait))
        decreases !zaddSent, faults - failed
      {
        var retryTime := (clock + wait).Floor;
        if failed < faults {
          Sleep(1.0);
          failed := failed + 1;
        } else {
          retry := retry[item := retryTime];
          y := Apply(y, ZAdd(me, clock, wait));
          zaddSent := true;
        }
      }
    }

    /**
     One pass of the delivery loop. The POST ends with `status`, or with an error or timeout if
     there is none; a failed message goes to the retry set or, at the cap, is given up.
     */
    method ProcessDelivery(popFaults: nat, status: Option<int>, wait: real, addFaults: nat) returns (received: bool)
      requires Valid() && y.ds[me].post.Ready?
      requires outbound != [] ==> IsWait(outbound[0].retries + 1, wait)
      modifies this
      ensures Valid() && received == (old(outbound) != [])
      ensures var v := old(y).(clock := old(clock) + popFaults as real);
        if received then y == Attempt(v, me, status, wait, addFaults) else y == v
      ensures y.ds[me].post.Ready?
      ensures received ==>
        (var m := old(outbound)[0];
         && outbound == old(outbound)[1..]
         && (status.Some? && 200 <= status.value <= 299 ==> retry == old(retry) && y.delivered == old(y).delivered + [m] && y.exhausted == old(y).exhausted)
         && (!(status.Some? && 200 <= status.value <= 299) && m.retries < 5 ==>
              retry == old(retry)[m.(retries := m.retries + 1) := (clock + wait).Floor]
              && y.delivered == old(y).delivered && y.exhausted == old(y).exhausted)
         && (!(status.Some? && 200 <= status.value <= 299) && m.retries >= 5 ==>
              retry == old(retry) && y.delivered == old(y).delivered && y.exhausted == old(y).exhausted + [m]))
    {
      Outlast(popFaults);
      if outbound == [] {
        return false;
      }
      received := true;
      var msg := outbound[0];
      outbound := outbound[1..];
      y := Apply(y, Pop(me));
      var failed := false;
      if status.None? {
        failed := true;
      } else if status.value < 200 || status.value >= 300 {
        failed := true;
      }
      y := Apply(y, Respond(me, status));
      if failed {
        if msg.retries < 5 {
          AddRetry(msg.(retries := msg.retries + 1), wait, addFaults);
        }
      }
    }

    // ---- process_retries ----

    method Least(xs: set<Item>) returns (x: Item)
      requires Valid() && xs != {} && xs <= retry.Keys
      ensures x in xs && forall z :: z in xs && z != x ==> Earlier(y, x, z)
    {
      x :| x in xs;
      var rest := xs - {x};
      while rest != {}
        invariant rest <= xs && x in xs && x !in rest
        invariant forall z :: z in xs && z != x && z !in rest ==> Earlier(y, x, z)
      {
        var z :| z in rest;
        rest := rest - {z};
        if retry[z] < retry[x] || (retry[z] == retry[x] && before(z, x)) {
          x := z;
        }
      }
    }

    /** ZRANGEBYSCORE 0 now LIMIT 0 10: the first ten due entries in (score, member) order. */
    method ZRangeByScore() returns (rows: seq<Item>)
      requires Valid()
      ensures IsBatch(y, clock, rows)
      ensures |rows| <= 10 && forall x :: x in rows ==> x in retry && 0 <= retry[x] <= clock.Floor
      ensures forall x :: x in retry && 0 <= retry[x] <= clock.Floor && x !in rows ==>
        |rows| == 10 && forall m :: 0 <= m < 10 ==>
          retry[rows[m]] < retry[x] || (retry[rows[m]] == retry[x] && before(rows[m], x))
      ensures forall m, n :: 0 <= m < n < |rows| ==>
        retry[rows[m]] < retry[rows[n]] || (retry[rows[m]] == retry[rows[n]] && before(rows[m], rows[n]))
    {
      var max := clock.Floor;
      var rest := set x | x in retry && 0 <= retry[x] <= max;
      ghost var due := rest;
      rows := [];
      while rest != {} && |rows| < 10
        invariant rest <= due <= retry.Keys && |rows| <= 10
        invariant NoDup(rows) && (forall m :: 0 <= m < |rows| ==> rows[m] in due && rows[m] !in rest)
        invariant forall z :: z in due && z !in rest ==> z in rows
        invariant forall m, z :: 0 <= m < |rows| && z in rest ==> Earlier(y, rows[m], z)
        invariant forall m, n :: 0 <= m < n < |rows| ==> rows[m] in y.retry && rows[n] in y.retry && Earlier(y, rows[m], rows[n])
      {
        var x := Least(rest);
        rows := rows + [x];
        rest := rest - {x};
      }
      assert forall z :: Due(y, z) <==> z in due;
    }

    /** One row: whoever removed it pushes it, everyone else skips it. */
    method ProcessRow(message: Item, zremFaults: nat, rpushFaults: nat)
      requires Valid() && y.ds[me].hand.None? && y.ds[me].rows != [] && y.ds[me].rows[0] == message
      modifies this
      ensures Valid() && y.ds[me].hand.None? && y.ds[me].rows == old(y).ds[me].rows[1..]
      ensures message in old(retry) ==> retry == old(retry) - {message} && outbound == old(outbound) + [message]
      ensures message !in old(retry) ==> retry == old(retry) && outbound == old(outbound)
      ensures var v := Apply(old(y).(clock := old(clock) + zremFaults as real), ZRem(me));
        y == if v.ds[me].hand.Some? then Apply(v.(clock := clock), RPush(me)) else v
    {
      hide IsBatch;
      Outlast(zremFaults);
      var count := if message in retry then 1 else 0;
      assert count == 0 ==> retry - {message} == retry;
      retry := retry - {message};
      y := Apply(y, ZRem(me));
      if count == 0 {
        return;
      }
      Outlast(rpushFaults);
      outbound := outbound + [message];
      y := Apply(y, RPush(me));
    }

    /** The rows of one batch, one after the other, nobody else interfering. */
    method ProcessRows(rows: seq<Item>, faults: Item -> (nat, nat))
      requires Valid() && y.ds[me].hand.None? && y.ds[me].rows == rows
      requires NoDup(rows) && forall x :: x in rows ==> x in retry
      modifies this
      ensures Valid() && Polling(y.ds[me])
      ensures outbound == old(outbound) + rows && retry == old(retry) - Firsts(rows, |rows|)
    {
      FirstsAll(rows);
      hide Apply, StrictTotal, Firsts, NoDup;
      for i := 0 to |rows|
        invariant Valid() && y.ds[me].hand.None? && y.ds[me].rows == rows[i..]
        invariant outbound == old(outbound) + rows[..i]
        invariant retry == old(retry) - Firsts(rows, i)
      {
        var x := rows[i];
        FirstsMore(rows, i);
        assert x in rows;
        ProcessRow(x, faults(x).0, faults(x).1);
        assert rows[..i + 1] == rows[..i] + [x];
      }
      assert rows[..|rows|] == rows;
    }

    /** One pass of the retry loop, nobody else interfering: the batch moves to the outbound list in order. */
    method ProcessRetries(pollFaults: nat, faults: Item -> (nat, nat)) returns (rows: seq<Item>)
      requires Valid() && Polling(y.ds[me])
      modifies this
      ensures Valid() && Polling(y.ds[me])
      ensures IsBatch(old(y).(clock := old(clock) + pollFaults as real), old(clock) + pollFaults as real, rows)
      ensures outbound == old(outbound) + rows && retry == old(retry) - set x | x in rows
      ensures forall x :: x in old(retry) && 0 <= old(retry)[x] <= (old(clock) + pollFaults as real).Floor ==>
        x in rows || |rows| == 10
    {
      hide StrictTotal;
      Outlast(pollFaults);
      rows := ZRangeByScore();
      BatchInRetry(y, clock, rows);
      y := Apply(y, Poll(me, clock, rows));
      hide IsBatch, Apply;
      FirstsAll(rows);
      ProcessRows(rows, faults);
    }
  }

  lemma BatchInRetry(s: Sys, at: real, rows: seq<Item>)
    requires IsBatch(s, at, rows)
    ensures NoDup(rows) && forall x :: x in rows ==> x in s.retry
  {
    assert forall i :: 0 <= i < |rows| ==> DueBy(s, rows[i], at);
  }
}
