/**
 Why one call in flight: nothing locks the allocator (redis_queue/v1_0/utils.py:99-114, 171-210).
 Two whole calls run at the same time, one Redis command a step, with worker commands anywhere.
 While neither drains a worker: when their assignments leave the two ownership maps in agreement,
 exactly. OverlapDrains has the calls that drain.
 */
module OverlappingCalls {
  import opened Wrappers
  import opened Shards
  import opened ShardCommands

  /** `got`: the uid the call has for its key, from `ReadStamp` on. */
  datatype Call = Call(key: Key, pc: Pc, got: Option<Uid>)

  /** Two calls in flight; `clash`: both were once between reading and writing the same uid's list. */
  datatype Duo = Duo(db: Db, a: Call, b: Call, clash: bool)

  datatype Turn =
    | First(now: real, c: Choice)
    | Second(now: real, c: Choice)
    | Worker(wc: WorkerCommand)

  /** From the staleness check to the end, without a drain. */
  predicate Late(pc: Pc) {
    pc.ReadStamp? || pc.ReadList? || pc.ReadCount? || pc.CountMsg? || pc.Done?
  }

  /** A command of a call that drains nobody. */
  predicate Calm(pc: Pc) {
    AssigningPc(pc) || (Selecting(pc) && pc.p.ForAssign?) || Late(pc)
  }

  predicate Clash(a: Pc, b: Pc) {
    a.WriteAssigned? && b.WriteAssigned? && a.u == b.u
  }

  function Flip(y: Duo): Duo {
    Duo(y.db, y.b, y.a, y.clash)
  }

  /** The next command of call `a`. */
  function Next(y: Duo, now: real, c: Choice): Duo
    requires Busy(y.a.pc)
  {
    var s := Command(State(y.db, y.a.pc), y.a.key, now, c);
    Duo(s.db, Call(y.a.key, s.pc, if s.pc.ReadStamp? then Some(s.pc.u) else y.a.got), y.b,
        y.clash || Clash(s.pc, y.b.pc))
  }

  ghost predicate MayTake(y: Duo, t: Turn) {
    match t
    case First(_, c) => Busy(y.a.pc) && Possible(State(y.db, y.a.pc), c)
    case Second(_, c) => Busy(y.b.pc) && Possible(State(y.db, y.b.pc), c)
    case Worker(wc) => Issuable(y.db, wc)
  }

  function Take(y: Duo, t: Turn): Duo
    requires MayTake(y, t)
  {
    match t
    case First(now, c) => Next(y, now, c)
    case Second(now, c) => Flip(Next(Flip(y), now, c))
    case Worker(wc) => y.(db := Obey(y.db, wc))
  }

  ghost predicate Schedule(y: Duo, turns: seq<Turn>)
    decreases turns
  {
    turns == [] || (MayTake(y, turns[0]) && Schedule(Take(y, turns[0]), turns[1..]))
  }

  ghost function End(y: Duo, turns: seq<Turn>): Duo
    requires Schedule(y, turns)
    decreases turns
  {
    if turns == [] then y else End(Take(y, turns[0]), turns[1..])
  }

  predicate BothCalm(y: Duo) {
    Calm(y.a.pc) && Calm(y.b.pc)
  }

  /** Neither call starts to drain. */
  ghost predicate NeverDrains(y: Duo, turns: seq<Turn>)
    requires Schedule(y, turns)
    decreases turns
  {
    BothCalm(y) && (turns == [] || NeverDrains(Take(y, turns[0]), turns[1..]))
  }

  function BothBegin(db: Db, j: Key, k: Key): Duo {
    Duo(db, Call(j, Exists, None), Call(k, Exists, None), false)
  }

  /** Both calls have their uid. */
  predicate BothRouted(y: Duo) {
    y.a.got.Some? && y.b.got.Some?
  }

  predicate BothDone(y: Duo) {
    y.a.pc.Done? && y.b.pc.Done?
  }

  // ---- A guard the caller can check ----

  /** Whenever a call checks its owner's stamp, it finds it fresh. */
  ghost predicate AllFresh(y: Duo, turns: seq<Turn>)
    requires Schedule(y, turns)
    decreases turns
  {
    turns == [] ||
    ((turns[0].First? && y.a.pc.ReadStamp? ==> !Stale(y.db, y.a.pc.u, turns[0].now))
     && (turns[0].Second? && y.b.pc.ReadStamp? ==> !Stale(y.db, y.b.pc.u, turns[0].now))
     && AllFresh(Take(y, turns[0]), turns[1..]))
  }

  predicate FoundFresh(pc: Pc) {
    Calm(pc) && !pc.ReadList? && !pc.ReadCount?
  }

  lemma {:induction false} FreshRun(y: Duo, turns: seq<Turn>)
    requires Schedule(y, turns) && AllFresh(y, turns) && FoundFresh(y.a.pc) && FoundFresh(y.b.pc)
    ensures NeverDrains(y, turns)
    decreases turns
  {
    hide Obey, Issuable, Stale;
    if turns != [] {
      FreshRun(Take(y, turns[0]), turns[1..]);
    }
  }

  /** Calls that find their owners freshly stamped drain nobody. */
  lemma FreshNeverDrains(db: Db, j: Key, k: Key, turns: seq<Turn>)
    requires Schedule(BothBegin(db, j, k), turns) && AllFresh(BothBegin(db, j, k), turns)
    ensures NeverDrains(BothBegin(db, j, k), turns)
  {
    FreshRun(BothBegin(db, j, k), turns);
  }

  // ---- What the maps say about one key ----

  ghost predicate AgreesAt(db: Db, x: Key) {
    forall u :: x in db.owner && db.owner[x] == u <==> x in KeysOf(db, u)
  }

  ghost predicate AgreesBut(db: Db, j: Key, k: Key) {
    forall x, u :: x != j && x != k ==> (x in db.owner && db.owner[x] == u <==> x in KeysOf(db, u))
  }

  /** Neither ownership map is touched: selections, zeroed counts, stamps and registrations. */
  ghost predicate SameMaps(d: Db, e: Db) {
    e.owner == d.owner && forall u :: KeysOf(e, u) == KeysOf(d, u)
  }

  lemma WorkerSameMaps(db: Db, wc: WorkerCommand)
    requires Issuable(db, wc)
    ensures SameMaps(db, Obey(db, wc))
  {
  }

  /** The uid a call has written or read as its key's owner. */
  function Claim(c: Call): Option<Uid> {
    match c.pc
    case ReadAssigned(u) => Some(u)
    case WriteAssigned(u, _) => Some(u)
    case ZeroCount(u) => Some(u)
    case _ => c.got
  }

  predicate Landed(c: Call) {
    c.pc.ZeroCount? || c.got.Some?
  }

  predicate Fit(c: Call) {
    Calm(c.pc) && (Late(c.pc) <==> c.got.Some?)
  }

  /** Recorded as `u`'s, in nobody's list. */
  ghost predicate Stranded(db: Db, x: Key, u: Uid) {
    x in db.owner && db.owner[x] == u && forall w :: x !in KeysOf(db, w)
  }

  predicate SameKeys(y: Duo, z: Duo) {
    z.a.key == y.a.key && z.b.key == y.b.key
  }

  // ---- Different keys ----

  /** What holds of call `c` while call `o`, for another key, is in flight too. */
  ghost predicate Mine(db: Db, c: Call, o: Call, clash: bool) {
    match c.pc
    case ReadAssigned(u) => Stranded(db, c.key, u)
    case WriteAssigned(u, ks) =>
      && Stranded(db, c.key, u)
      && (if clash then o.key !in ks else (o.key in ks <==> o.key in KeysOf(db, u)))
      && forall x :: x != c.key && x != o.key ==> (x in ks <==> x in KeysOf(db, u))
    case ZeroCount(u) => Placed(db, c.key, u, clash)
    case Exists => AgreesAt(db, c.key)
    case ReadOwner => AgreesAt(db, c.key) && c.key in db.owner
    case _ =>
      if c.got.Some? then Placed(db, c.key, c.got.value, clash) else AgreesAt(db, c.key) && c.key !in db.owner
  }

  ghost predicate Placed(db: Db, x: Key, u: Uid, clash: bool) {
    && x in db.owner && db.owner[x] == u
    && (if clash then forall w :: x in KeysOf(db, w) ==> w == u else AgreesAt(db, x))
  }

  /** After a clash the list holds at most one of the two keys once both calls have landed. */
  ghost predicate Clashed(y: Duo) {
    && (y.a.pc.WriteAssigned? || Landed(y.a)) && (y.b.pc.WriteAssigned? || Landed(y.b))
    && Claim(y.a).Some? && Claim(y.a) == Claim(y.b)
    && (Landed(y.a) && Landed(y.b) ==>
         !(y.a.key in KeysOf(y.db, Claim(y.a).value) && y.b.key in KeysOf(y.db, Claim(y.a).value)))
  }

  ghost predicate Apart(y: Duo) {
    && y.a.key != y.b.key && Fit(y.a) && Fit(y.b)
    && AgreesBut(y.db, y.a.key, y.b.key)
    && Mine(y.db, y.a, y.b, y.clash) && Mine(y.db, y.b, y.a, y.clash)
    && (if y.clash then Clashed(y) else !Clash(y.a.pc, y.b.pc))
  }

  lemma MineSameMaps(d: Db, e: Db, c: Call, o: Call, clash: bool)
    requires Mine(d, c, o, clash) && SameMaps(d, e)
    ensures Mine(e, c, o, clash)
  {
    hide KeysOf;
  }

  lemma ApartSameMaps(y: Duo, d: Db)
    requires Apart(y) && SameMaps(y.db, d)
    ensures Apart(y.(db := d))
  {
    hide Mine, KeysOf, Claim, Landed, Fit;
    MineSameMaps(y.db, d, y.a, y.b, y.clash);
    MineSameMaps(y.db, d, y.b, y.a, y.clash);
  }

  lemma WriteLists(y: Duo, now: real, c: Choice)
    requires y.a.pc.WriteAssigned?
    ensures var u := y.a.pc.u;
      forall w :: KeysOf(Next(y, now, c).db, w) == if w == u then y.a.pc.ks + {y.a.key} else KeysOf(y.db, w)
  {
  }

  /** The other call after a write: its own key is gone from the list if they clashed, untouched if not. */
  lemma WriteOther(y: Duo, now: real, c: Choice)
    requires Apart(y) && y.a.pc.WriteAssigned?
    ensures var z := Next(y, now, c); Mine(z.db, y.b, z.a, y.clash)
  {
    WriteLists(y, now, c);
    hide KeysOf, PutKeys;
  }

  lemma ApartWrites(y: Duo, now: real, c: Choice)
    requires Apart(y) && y.a.pc.WriteAssigned?
    ensures Apart(Next(y, now, c))
  {
    WriteLists(y, now, c);
    WriteOther(y, now, c);
    assert Mine(Next(y, now, c).db, Next(y, now, c).a, y.b, y.clash);
    hide KeysOf, PutKeys, Mine, AgreesAt;
  }

  lemma ApartClaims(y: Duo, now: real, c: Choice)
    requires Apart(y) && (y.a.pc.SetOwner? || y.a.pc.ReadAssigned?)
    ensures Apart(Next(y, now, c))
  {
    var z := Next(y, now, c);
    assert forall w :: KeysOf(z.db, w) == KeysOf(y.db, w);
  }

  /** Commands that touch neither map. */
  predicate Reading(pc: Pc) {
    Calm(pc) && !pc.WriteAssigned? && !pc.SetOwner? && !pc.ReadAssigned?
  }

  lemma ReadingSameMaps(y: Duo, now: real, c: Choice)
    requires Busy(y.a.pc) && Reading(y.a.pc)
    ensures SameMaps(y.db, Next(y, now, c).db)
  {
  }

  lemma ReadsMine(y: Duo, now: real, c: Choice)
    requires Apart(y) && Busy(y.a.pc) && Reading(y.a.pc) && Calm(Next(y, now, c).a.pc)
    ensures var z := Next(y, now, c); Mine(z.db, z.a, z.b, z.clash) && Fit(z.a) && z.b == y.b && SameKeys(y, z)
  {
    ReadingSameMaps(y, now, c);
    MineSameMaps(y.db, Next(y, now, c).db, y.a, y.b, y.clash);
    hide AgreesBut, Stale, Backlogged, KeysOf, SameMaps;
  }

  /** What holds of the other call does not depend on where this one reads. */
  lemma ReadsOthers(y: Duo, now: real, c: Choice)
    requires Apart(y) && Busy(y.a.pc) && Reading(y.a.pc) && Calm(Next(y, now, c).a.pc)
    ensures var z := Next(y, now, c); z.clash == y.clash && Mine(z.db, z.b, z.a, z.clash)
  {
    ReadingSameMaps(y, now, c);
    MineSameMaps(y.db, Next(y, now, c).db, y.b, y.a, y.clash);
    hide AgreesBut, Stale, Backlogged, KeysOf, SameMaps;
  }

  lemma ReadsClash(y: Duo, now: real, c: Choice)
    requires Apart(y) && Busy(y.a.pc) && Reading(y.a.pc) && Calm(Next(y, now, c).a.pc)
    ensures var z := Next(y, now, c); if z.clash then Clashed(z) else !Clash(z.a.pc, z.b.pc)
  {
    ReadingSameMaps(y, now, c);
    hide AgreesBut, Stale, Backlogged, KeysOf, Mine;
  }

  lemma ApartReads(y: Duo, now: real, c: Choice)
    requires Apart(y) && Busy(y.a.pc) && Reading(y.a.pc) && Calm(Next(y, now, c).a.pc)
    ensures Apart(Next(y, now, c))
  {
    ReadingSameMaps(y, now, c);
    var z := Next(y, now, c);
    ApartSameMaps(y, z.db);
    ReadsMine(y, now, c);
    ReadsOthers(y, now, c);
    ReadsClash(y, now, c);
    hide Mine, Next, Clashed, AgreesBut, SameMaps;
  }

  lemma ApartNext(y: Duo, now: real, c: Choice)
    requires Apart(y) && Busy(y.a.pc) && Calm(Next(y, now, c).a.pc)
    ensures Apart(Next(y, now, c))
  {
    hide Next;
    assert Calm(y.a.pc);
    hide Apart;
    if y.a.pc.WriteAssigned? {
      ApartWrites(y, now, c);
    } else if y.a.pc.SetOwner? || y.a.pc.ReadAssigned? {
      ApartClaims(y, now, c);
    } else {
      ApartReads(y, now, c);
    }
  }

  lemma ApartFlips(y: Duo)
    requires Apart(y)
    ensures Apart(Flip(y))
  {
  }

  lemma ApartTakes(y: Duo, t: Turn)
    requires Apart(y) && MayTake(y, t) && BothCalm(Take(y, t))
    ensures Apart(Take(y, t)) && SameKeys(y, Take(y, t))
  {
    hide Apart, Issuable, Obey, SameMaps, Command, Possible;
    match t {
      case First(now, c) => ApartNext(y, now, c);
      case Second(now, c) =>
        ApartFlips(y);
        ApartNext(Flip(y), now, c);
        ApartFlips(Next(Flip(y), now, c));
      case Worker(wc) =>
        WorkerSameMaps(y.db, wc);
        ApartSameMaps(y, Obey(y.db, wc));
    }
  }

  lemma {:induction false} ApartRun(y: Duo, turns: seq<Turn>)
    requires Apart(y) && Schedule(y, turns) && NeverDrains(y, turns)
    ensures Apart(End(y, turns)) && SameKeys(y, End(y, turns))
    decreases turns
  {
    hide Apart, MayTake, Take, BothCalm;
    if turns != [] {
      ApartTakes(y, turns[0]);
      ApartRun(Take(y, turns[0]), turns[1..]);
    }
  }

  /**
   Two calls for different keys leave the maps in agreement if and only if they were never both
   between reading and writing the same uid's list; calls that chose different uids never are. So it
   is from the moment both have their uid to the end of both.
   */
  lemma DifferentKeysAgree(db: Db, j: Key, k: Key, turns: seq<Turn>)
    requires Agrees(db) && j != k && Schedule(BothBegin(db, j, k), turns) && NeverDrains(BothBegin(db, j, k), turns)
    requires BothRouted(End(BothBegin(db, j, k), turns))
    ensures var y := End(BothBegin(db, j, k), turns);
      && (Agrees(y.db) <==> !y.clash)
      && (y.clash ==> y.a.got == y.b.got)
  {
    hide Schedule, End, NeverDrains, Apart, Agrees, BothRouted;
    ApartBegins(db, j, k);
    ApartRun(BothBegin(db, j, k), turns);
    ApartAgrees(End(BothBegin(db, j, k), turns));
  }

  lemma ApartBegins(db: Db, j: Key, k: Key)
    requires Agrees(db) && j != k
    ensures Apart(BothBegin(db, j, k))
  {
  }

  lemma ApartAgrees(y: Duo)
    requires Apart(y) && BothRouted(y)
    ensures Agrees(y.db) <==> !y.clash
    ensures y.clash ==> y.a.got == y.b.got
  {
    assert Claim(y.a) == y.a.got && Claim(y.b) == y.b.got;
    if y.clash {
      var u := y.a.got.value;
      assert y.a.key !in KeysOf(y.db, u) || y.b.key !in KeysOf(y.db, u);
      hide KeysOf;
    }
  }

  // ---- The same key ----

  /** One call has claimed the key, the other has not. */
  ghost predicate OneClaim(db: Db, k: Key, c: Call, o: Call) {
    && Claim(c).Some? && Claim(o).None? && k in db.owner && db.owner[k] == Claim(c).value
    && (forall w :: k in KeysOf(db, w) ==> w == Claim(c).value)
    && (Landed(c) ==> k in KeysOf(db, Claim(c).value))
  }

  ghost predicate NoClaim(db: Db, k: Key, c: Call, o: Call) {
    && Claim(c).None? && Claim(o).None? && !c.pc.ReadOwner? && !o.pc.ReadOwner?
    && k !in db.owner && forall w :: k !in KeysOf(db, w)
  }

  ghost predicate TwoClaims(db: Db, k: Key, c: Call, o: Call) {
    && Claim(c).Some? && Claim(o).Some?
    && var u, v := Claim(c).value, Claim(o).value;
      && k in db.owner && (db.owner[k] == u || db.owner[k] == v)
      && (forall w :: k in KeysOf(db, w) ==> w == u || w == v)
      && (u != v && Landed(c) ==> k in KeysOf(db, u))
      && (u != v && Landed(o) ==> k in KeysOf(db, v))
      && (u == v && Landed(c) && Landed(o) ==> k in KeysOf(db, u))
  }

  /** The key had an owner from the start. */
  ghost predicate Owned(db: Db, k: Key, c: Call, o: Call) {
    && AgreesAt(db, k) && k in db.owner
    && Reads(db.owner[k], c) && Reads(db.owner[k], o)
  }

  predicate Reads(u: Uid, c: Call) {
    if c.got.Some? then c.got.value == u && Late(c.pc) else c.pc.Exists? || c.pc.ReadOwner?
  }

  /** A list read and not yet written differs at the calls' own key only. */
  ghost predicate Current(db: Db, k: Key, pc: Pc) {
    pc.WriteAssigned? ==> forall x :: x != k ==> (x in pc.ks <==> x in KeysOf(db, pc.u))
  }

  ghost predicate Claims(db: Db, k: Key, c: Call, o: Call) {
    NoClaim(db, k, c, o) || OneClaim(db, k, c, o) || OneClaim(db, k, o, c) || TwoClaims(db, k, c, o) || Owned(db, k, c, o)
  }

  ghost predicate Together(y: Duo) {
    && y.a.key == y.b.key && Fit(y.a) && Fit(y.b)
    && AgreesBut(y.db, y.a.key, y.a.key)
    && Current(y.db, y.a.key, y.a.pc) && Current(y.db, y.a.key, y.b.pc)
    && Claims(y.db, y.a.key, y.a, y.b)
  }

  lemma NoClaimSameMaps(d: Db, e: Db, k: Key, c: Call, o: Call)
    requires NoClaim(d, k, c, o) && SameMaps(d, e)
    ensures NoClaim(e, k, c, o)
  {
    hide KeysOf, Claim, Landed, Reads;
  }

  lemma OneClaimSameMaps(d: Db, e: Db, k: Key, c: Call, o: Call)
    requires OneClaim(d, k, c, o) && SameMaps(d, e)
    ensures OneClaim(e, k, c, o)
  {
    hide KeysOf, Claim, Landed, Reads;
  }

  lemma TwoClaimsSameMaps(d: Db, e: Db, k: Key, c: Call, o: Call)
    requires TwoClaims(d, k, c, o) && SameMaps(d, e)
    ensures TwoClaims(e, k, c, o)
  {
    hide KeysOf, Claim, Landed, Reads;
  }

  lemma OwnedSameMaps(d: Db, e: Db, k: Key, c: Call, o: Call)
    requires Owned(d, k, c, o) && SameMaps(d, e)
    ensures Owned(e, k, c, o)
  {
    hide KeysOf, Claim, Landed, Reads;
  }

  lemma ClaimsSameMaps(d: Db, e: Db, k: Key, c: Call, o: Call)
    requires Claims(d, k, c, o) && SameMaps(d, e)
    ensures Claims(e, k, c, o)
  {
    hide KeysOf, Claim, Landed, Reads, NoClaim, OneClaim, TwoClaims, Owned;
    if NoClaim(d, k, c, o) {
      NoClaimSameMaps(d, e, k, c, o);
    } else if OneClaim(d, k, c, o) {
      OneClaimSameMaps(d, e, k, c, o);
    } else if OneClaim(d, k, o, c) {
      OneClaimSameMaps(d, e, k, o, c);
    } else if TwoClaims(d, k, c, o) {
      TwoClaimsSameMaps(d, e, k, c, o);
    } else {
      OwnedSameMaps(d, e, k, c, o);
    }
  }

  lemma TogetherSameMaps(y: Duo, d: Db)
    requires Together(y) && SameMaps(y.db, d)
    ensures Together(y.(db := d))
  {
    ClaimsSameMaps(y.db, d, y.a.key, y.a, y.b);
    hide Claims;
  }

  lemma TogetherWrites(y: Duo, now: real, c: Choice)
    requires Together(y) && y.a.pc.WriteAssigned?
    ensures Together(Next(y, now, c))
  {
    var z := Next(y, now, c);
    var u := y.a.pc.u;
    assert forall w :: KeysOf(z.db, w) == if w == u then y.a.pc.ks + {y.a.key} else KeysOf(y.db, w);
    assert forall x, w :: x != y.a.key ==> (x in KeysOf(z.db, w) <==> x in KeysOf(y.db, w));
    assert OneClaim(y.db, y.a.key, y.a, y.b) || TwoClaims(y.db, y.a.key, y.a, y.b);
    if OneClaim(y.db, y.a.key, y.a, y.b) {
      assert OneClaim(z.db, y.a.key, z.a, z.b);
    } else {
      assert TwoClaims(z.db, y.a.key, z.a, z.b);
    }
  }

  lemma TogetherClaims(y: Duo, now: real, c: Choice)
    requires Together(y) && (y.a.pc.SetOwner? || y.a.pc.ReadAssigned?)
    ensures Together(Next(y, now, c))
  {
    var z := Next(y, now, c);
    assert forall w :: KeysOf(z.db, w) == KeysOf(y.db, w);
  }

  lemma TogetherReads(y: Duo, now: real, c: Choice)
    requires Together(y) && Busy(y.a.pc) && Reading(y.a.pc) && Calm(Next(y, now, c).a.pc)
    ensures Together(Next(y, now, c))
  {
    ReadingSameMaps(y, now, c);
    TogetherSameMaps(y, Next(y, now, c).db);
    hide AgreesBut, Stale, Backlogged, KeysOf, SameMaps;
  }

  lemma TogetherNext(y: Duo, now: real, c: Choice)
    requires Together(y) && Busy(y.a.pc) && Calm(Next(y, now, c).a.pc)
    ensures Together(Next(y, now, c))
  {
    hide Next;
    assert Calm(y.a.pc);
    hide Together;
    if y.a.pc.WriteAssigned? {
      TogetherWrites(y, now, c);
    } else if y.a.pc.SetOwner? || y.a.pc.ReadAssigned? {
      TogetherClaims(y, now, c);
    } else {
      TogetherReads(y, now, c);
    }
  }

  lemma TogetherFlips(y: Duo)
    requires Together(y)
    ensures Together(Flip(y))
  {
  }

  lemma TogetherTakes(y: Duo, t: Turn)
    requires Together(y) && MayTake(y, t) && BothCalm(Take(y, t))
    ensures Together(Take(y, t)) && SameKeys(y, Take(y, t))
  {
    hide Together, Issuable, Obey, SameMaps, Command, Possible;
    match t {
      case First(now, c) => TogetherNext(y, now, c);
      case Second(now, c) =>
        TogetherFlips(y);
        TogetherNext(Flip(y), now, c);
        TogetherFlips(Next(Flip(y), now, c));
      case Worker(wc) =>
        WorkerSameMaps(y.db, wc);
        TogetherSameMaps(y, Obey(y.db, wc));
    }
  }

  lemma {:induction false} TogetherRun(y: Duo, turns: seq<Turn>)
    requires Together(y) && Schedule(y, turns) && NeverDrains(y, turns)
    ensures Together(End(y, turns)) && SameKeys(y, End(y, turns))
    decreases turns
  {
    hide Together, MayTake, Take, BothCalm;
    if turns != [] {
      TogetherTakes(y, turns[0]);
      TogetherRun(Take(y, turns[0]), turns[1..]);
    }
  }

  lemma TogetherBegins(db: Db, k: Key)
    requires Agrees(db)
    ensures Together(BothBegin(db, k, k))
  {
    var s := BothBegin(db, k, k);
    assert AgreesAt(db, k);
    assert Claims(db, k, s.a, s.b) by {
      assert k in db.owner ==> Owned(db, k, s.a, s.b);
      assert k !in db.owner ==> NoClaim(db, k, s.a, s.b);
    }
  }

  /** Two calls for the same key leave the maps in agreement if and only if they got the same uid. */
  lemma SameKeyAgrees(db: Db, k: Key, turns: seq<Turn>)
    requires Agrees(db) && Schedule(BothBegin(db, k, k), turns) && NeverDrains(BothBegin(db, k, k), turns)
    requires BothRouted(End(BothBegin(db, k, k), turns))
    ensures var y := End(BothBegin(db, k, k), turns); Agrees(y.db) <==> y.a.got == y.b.got
  {
    TogetherBegins(db, k);
    TogetherRun(BothBegin(db, k, k), turns);
    var y := End(BothBegin(db, k, k), turns);
    hide Schedule, End, NeverDrains;
    if y.a.got != y.b.got {
      assert k in KeysOf(y.db, y.a.got.value) && k in KeysOf(y.db, y.b.got.value);
    } else {
      assert AgreesAt(y.db, k);
    }
  }

  /** A call that is done without a drain has its uid. */
  lemma DoneIsRouted(db: Db, j: Key, k: Key, turns: seq<Turn>)
    requires Agrees(db) && Schedule(BothBegin(db, j, k), turns) && NeverDrains(BothBegin(db, j, k), turns)
    requires BothDone(End(BothBegin(db, j, k), turns))
    ensures BothRouted(End(BothBegin(db, j, k), turns))
  {
    hide Schedule, End, NeverDrains;
    if j == k {
      TogetherBegins(db, k);
      TogetherRun(BothBegin(db, k, k), turns);
    } else {
      ApartBegins(db, j, k);
      ApartRun(BothBegin(db, j, k), turns);
    }
  }
}
