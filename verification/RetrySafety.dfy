/** No accepted content is lost, and distinct contents are never duplicated. */
module RetrySafety {
  import opened Retries

  /** Where a step takes a content that was at `p`. */
  function Dest(s: Sys, a: Action, c: Content, p: Place): Place
    requires At(s, c, p)
  {
    match a
    case Pop(i) => if p == Queued(0) then InPost(i) else if p.Queued? then Queued(p.j - 1) else p
    case Respond(i, status) =>
      if p != InPost(i) then p
      else if !Failed(status) then Delivered(|s.delivered|)
      else if s.ds[i].post.item.retries < 5 then InSchedule(i) else GivenUp(|s.exhausted|)
    case ZAdd(i, _, _) => if p == InSchedule(i) then Stored(s.ds[i].post.item.retries) else p
    case ZRem(i) => if p.Stored? && i < |s.ds| && s.ds[i].rows != [] && Item(c, p.k) == s.ds[i].rows[0] then InHand(i) else p
    case RPush(i) => if p == InHand(i) then Queued(|s.outbound|) else p
    case _ => p
  }

  /** Steps of the delivery loop. */
  predicate Loop(a: Action) {
    a.Pop? || a.Respond? || a.ZAdd?
  }

  lemma PostCarries(s: Sys, a: Action, c: Content, p: Place)
    requires Enabled(s, a) && At(s, c, p) && Loop(a)
    ensures At(Apply(s, a), c, Dest(s, a, c, p))
  {
    hide IsWait;
  }

  lemma SweepCarries(s: Sys, a: Action, c: Content, p: Place)
    requires Enabled(s, a) && At(s, c, p) && !Loop(a)
    ensures At(Apply(s, a), c, Dest(s, a, c, p))
  {
    hide IsBatch;
  }

  /** No step drops a content, failures and merged retry entries included. */
  lemma StepCarries(s: Sys, a: Action, c: Content, p: Place)
    requires Enabled(s, a) && At(s, c, p)
    ensures At(Apply(s, a), c, Dest(s, a, c, p))
  {
    hide At, Enabled, Apply, Dest;
    if Loop(a) {
      PostCarries(s, a, c, p);
    } else {
      SweepCarries(s, a, c, p);
    }
  }

  /** The counter moves only when a POST fails. */
  lemma RetriesCarried(s: Sys, a: Action, c: Content, p: Place)
    requires Enabled(s, a) && At(s, c, p) && At(Apply(s, a), c, Dest(s, a, c, p))
    ensures var q := Dest(s, a, c, p);
      RetriesAt(Apply(s, a), c, q) == RetriesAt(s, c, p) + if p.InPost? && q.InSchedule? then 1 else 0
    ensures Dest(s, a, c, p).InSchedule? ==> p.InPost? || p == Dest(s, a, c, p)
  {
    if Loop(a) {
      PostCarried(s, a, c, p);
    } else {
      hide IsBatch;
    }
  }

  lemma PostCarried(s: Sys, a: Action, c: Content, p: Place)
    requires Enabled(s, a) && At(s, c, p) && At(Apply(s, a), c, Dest(s, a, c, p)) && Loop(a)
    ensures var q := Dest(s, a, c, p);
      RetriesAt(Apply(s, a), c, q) == RetriesAt(s, c, p) + if p.InPost? && q.InSchedule? then 1 else 0
    ensures Dest(s, a, c, p).InSchedule? ==> p.InPost? || p == Dest(s, a, c, p)
  {
    hide IsWait;
  }

  ghost predicate Present(s: Sys) {
    forall c :: c in s.accepted ==> exists p :: At(s, c, p)
  }

  lemma StepKeepsPresent(s: Sys, a: Action)
    requires Enabled(s, a) && Present(s)
    ensures Present(Apply(s, a))
  {
    var t := Apply(s, a);
    forall c | c in t.accepted ensures exists p :: At(t, c, p) {
      if c in s.accepted {
        var p :| At(s, c, p);
        StepCarries(s, a, c, p);
      } else {
        assert At(t, c, Queued(|s.outbound|));
      }
    }
  }

  lemma {:induction false} RunKeepsPresent(s: Sys, acts: seq<Action>)
    requires Present(s) && Legal(s, acts)
    ensures Present(Exec(s, acts))
    decreases acts
  {
    hide Present, Enabled, Apply;
    if acts != [] {
      StepKeepsPresent(s, acts[0]);
      RunKeepsPresent(Apply(s, acts[0]), acts[1..]);
    }
  }

  /** No accepted content is ever lost, whatever the deliverers and the endpoints do. */
  lemma NothingLost(clock: real, before: (Item, Item) -> bool, acts: seq<Action>, c: Content)
    requires Legal(Start(clock, before), acts)
    requires c in Exec(Start(clock, before), acts).accepted
    ensures exists p :: At(Exec(Start(clock, before), acts), c, p)
  {
    RunKeepsPresent(Start(clock, before), acts);
  }

  // ---- Distinct contents ----

  /** No content is injected twice. */
  ghost predicate Distinct(s: Sys, acts: seq<Action>)
    requires Legal(s, acts)
    decreases acts
  {
    acts == [] ||
    ((acts[0].Inject? ==> acts[0].item.content !in s.accepted) && Distinct(Apply(s, acts[0]), acts[1..]))
  }

  /** At most one place for each content, and none for a content never injected. */
  ghost predicate OnePlace(s: Sys) {
    && (forall c, p, q :: At(s, c, p) && At(s, c, q) ==> p == q)
    && (forall c, p :: At(s, c, p) ==> c in s.accepted)
  }

  /** Where a content at `p` after the step was before it. */
  function Origin(s: Sys, a: Action, c: Content, p: Place): Place {
    match a
    case Pop(i) => if p == InPost(i) then Queued(0) else if p.Queued? then Queued(p.j + 1) else p
    case Respond(i, status) =>
      if p == Delivered(|s.delivered|) || p == GivenUp(|s.exhausted|) || p == InSchedule(i) then InPost(i) else p
    case ZAdd(i, _, _) =>
      if p.Stored? && i < |s.ds| && s.ds[i].post.Scheduling? && Item(c, p.k) == s.ds[i].post.item then InSchedule(i) else p
    case ZRem(i) =>
      if p == InHand(i) && i < |s.ds| && s.ds[i].rows != [] then Stored(s.ds[i].rows[0].retries) else p
    case RPush(i) => if p == Queued(|s.outbound|) then InHand(i) else p
    case _ => p
  }

  lemma RespondOrigin(s: Sys, a: Action, c: Content, p: Place)
    requires Enabled(s, a) && At(Apply(s, a), c, p) && a.Respond?
    ensures At(s, c, Origin(s, a, c, p)) && Dest(s, a, c, Origin(s, a, c, p)) == p
  {
    hide Failed;
  }

  lemma PostOrigin(s: Sys, a: Action, c: Content, p: Place)
    requires Enabled(s, a) && At(Apply(s, a), c, p) && Loop(a)
    ensures At(s, c, Origin(s, a, c, p)) && Dest(s, a, c, Origin(s, a, c, p)) == p
  {
    if a.Respond? {
      hide At, Enabled, Apply, Origin, Dest;
      RespondOrigin(s, a, c, p);
    } else {
      hide IsWait;
    }
  }

  lemma SweepOrigin(s: Sys, a: Action, c: Content, p: Place)
    requires Enabled(s, a) && At(Apply(s, a), c, p) && !Loop(a)
    requires a.Inject? ==> c != a.item.content
    ensures At(s, c, Origin(s, a, c, p)) && Dest(s, a, c, Origin(s, a, c, p)) == p
  {
    hide IsBatch;
  }

  lemma StepOrigin(s: Sys, a: Action, c: Content, p: Place)
    requires Enabled(s, a) && At(Apply(s, a), c, p)
    requires a.Inject? ==> c != a.item.content
    ensures At(s, c, Origin(s, a, c, p)) && Dest(s, a, c, Origin(s, a, c, p)) == p
  {
    hide At, Enabled, Apply, Origin, Dest;
    if Loop(a) {
      PostOrigin(s, a, c, p);
    } else {
      SweepOrigin(s, a, c, p);
    }
  }

  lemma StepKeepsOnePlace(s: Sys, a: Action)
    requires Enabled(s, a) && OnePlace(s) && (a.Inject? ==> a.item.content !in s.accepted)
    ensures OnePlace(Apply(s, a))
  {
    hide At, Enabled, Origin, Dest;
    var t := Apply(s, a);
    forall c, p | At(t, c, p) ensures c in t.accepted {
      if !(a.Inject? && c == a.item.content) {
        StepOrigin(s, a, c, p);
      }
    }
    forall c, p, q | At(t, c, p) && At(t, c, q) ensures p == q {
      if a.Inject? && c == a.item.content {
        InjectedOnce(s, a.item, p);
        InjectedOnce(s, a.item, q);
      } else {
        StepOrigin(s, a, c, p);
        StepOrigin(s, a, c, q);
      }
    }
  }

  lemma InjectedOnce(s: Sys, item: Item, p: Place)
    requires OnePlace(s) && item.content !in s.accepted && At(Apply(s, Inject(item)), item.content, p)
    ensures p == Queued(|s.outbound|)
  {
    if p != Queued(|s.outbound|) {
      assert At(s, item.content, p);
    }
  }

  lemma {:induction false} RunKeepsOnePlace(s: Sys, acts: seq<Action>)
    requires OnePlace(s) && Legal(s, acts) && Distinct(s, acts)
    ensures OnePlace(Exec(s, acts))
    decreases acts
  {
    hide OnePlace, Enabled, Apply;
    if acts != [] {
      StepKeepsOnePlace(s, acts[0]);
      RunKeepsOnePlace(Apply(s, acts[0]), acts[1..]);
    }
  }

  /** With distinct contents each accepted content is in exactly one place at all times. */
  lemma ExactlyOnePlace(clock: real, before: (Item, Item) -> bool, acts: seq<Action>, c: Content)
    requires Legal(Start(clock, before), acts) && Distinct(Start(clock, before), acts)
    requires c in Exec(Start(clock, before), acts).accepted
    ensures var s := Exec(Start(clock, before), acts);
      exists p :: At(s, c, p) && forall q :: At(s, c, q) ==> q == p
  {
    NothingLost(clock, before, acts, c);
    RunKeepsOnePlace(Start(clock, before), acts);
    var s := Exec(Start(clock, before), acts);
    var p :| At(s, c, p);
    assert forall q :: At(s, c, q) ==> q == p;
  }
}
