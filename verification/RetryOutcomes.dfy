/**
 What the end of a POST means (redis_deliverer/deliver/deliver.py:93, 111-128), in numbers: a
 status from 200 to 299 delivers; any other status, an error or a timeout schedules the message
 again below five retries and gives it up from five. And the order of the outbound list.
 */
module RetryOutcomes {
  import opened Retries

  /** This step ends a POST. */
  predicate Ends(s: Sys, a: Action) {
    a.Respond? && a.i < |s.ds| && s.ds[a.i].post.Posting?
  }

  /** The item whose POST this step ends, if the status is a success. */
  function DeliveredBy(s: Sys, a: Action): seq<Item>
  {
    if Ends(s, a) && a.status.Some? && 200 <= a.status.value <= 299 then [s.ds[a.i].post.item] else []
  }

  /** The item this step gives up: its last POST failed. */
  function GivenUpBy(s: Sys, a: Action): seq<Item>
  {
    if Ends(s, a) && !(a.status.Some? && 200 <= a.status.value <= 299) && s.ds[a.i].post.item.retries >= 5
    then [s.ds[a.i].post.item] else []
  }

  /** One step delivers, gives up and schedules exactly what the status says. */
  lemma StepOutcome(s: Sys, a: Action)
    requires Enabled(s, a)
    ensures Apply(s, a).delivered == s.delivered + DeliveredBy(s, a)
    ensures Apply(s, a).exhausted == s.exhausted + GivenUpBy(s, a)
    ensures a.Respond? ==>
      var x := s.ds[a.i].post.item; var post := Apply(s, a).ds[a.i].post;
      if DeliveredBy(s, a) == [] && GivenUpBy(s, a) == []
      then post == Scheduling(x.(retries := x.retries + 1), s.clock) else post == Ready
  {
    hide IsBatch, IsWait;
  }

  ghost function AllDelivered(s: Sys, acts: seq<Action>): seq<Item>
    requires Legal(s, acts)
    decreases acts
  {
    if acts == [] then [] else DeliveredBy(s, acts[0]) + AllDelivered(Apply(s, acts[0]), acts[1..])
  }

  ghost function AllGivenUp(s: Sys, acts: seq<Action>): seq<Item>
    requires Legal(s, acts)
    decreases acts
  {
    if acts == [] then [] else GivenUpBy(s, acts[0]) + AllGivenUp(Apply(s, acts[0]), acts[1..])
  }

  /**
   Over any run the delivered messages are exactly those whose POST ended with a status from 200 to
   299, and the messages given up exactly those with five retries or more whose POST ended otherwise.
   */
  lemma {:induction false} OutcomesByStatus(s: Sys, acts: seq<Action>)
    requires Legal(s, acts)
    ensures Exec(s, acts).delivered == s.delivered + AllDelivered(s, acts)
    ensures Exec(s, acts).exhausted == s.exhausted + AllGivenUp(s, acts)
    decreases acts
  {
    hide Enabled, Apply, DeliveredBy, GivenUpBy;
    if acts != [] {
      StepOutcome(s, acts[0]);
      OutcomesByStatus(Apply(s, acts[0]), acts[1..]);
    }
  }

  // ---- The outbound list ----

  /** What this step appends: a producer's message, or an entry brought back. */
  function Appended(s: Sys, a: Action): seq<Item> {
    match a
    case Inject(item) => [item]
    case RPush(i) => if i < |s.ds| && s.ds[i].hand.Some? then [s.ds[i].hand.value] else []
    case _ => []
  }

  /** What this step takes into a POST. */
  function Popped(s: Sys, a: Action): seq<Item> {
    if a.Pop? && s.outbound != [] then [s.outbound[0]] else []
  }

  lemma StepQueues(s: Sys, a: Action)
    requires Enabled(s, a)
    ensures Popped(s, a) + Apply(s, a).outbound == s.outbound + Appended(s, a)
    ensures a.Pop? ==> Apply(s, a).ds[a.i].post == Posting(s.outbound[0])
  {
    hide IsBatch, IsWait;
  }

  ghost function AllAppended(s: Sys, acts: seq<Action>): seq<Item>
    requires Legal(s, acts)
    decreases acts
  {
    if acts == [] then [] else Appended(s, acts[0]) + AllAppended(Apply(s, acts[0]), acts[1..])
  }

  ghost function AllPopped(s: Sys, acts: seq<Action>): seq<Item>
    requires Legal(s, acts)
    decreases acts
  {
    if acts == [] then [] else Popped(s, acts[0]) + AllPopped(Apply(s, acts[0]), acts[1..])
  }

  /** The outbound list is first in, first out, whoever pushes and whoever pops. */
  lemma {:induction false} OutboundFifo(s: Sys, acts: seq<Action>)
    requires Legal(s, acts)
    ensures AllPopped(s, acts) + Exec(s, acts).outbound == s.outbound + AllAppended(s, acts)
    decreases acts
  {
    hide Enabled, Apply, Popped, Appended;
    if acts != [] {
      StepQueues(s, acts[0]);
      OutboundFifo(Apply(s, acts[0]), acts[1..]);
      var t := Apply(s, acts[0]);
      var rest, end := AllPopped(t, acts[1..]), Exec(t, acts[1..]).outbound;
      assert Popped(s, acts[0]) + rest + end == Popped(s, acts[0]) + (rest + end);
      assert Popped(s, acts[0]) + (t.outbound + AllAppended(t, acts[1..])) == Popped(s, acts[0]) + t.outbound + AllAppended(t, acts[1..]);
    }
  }
}
