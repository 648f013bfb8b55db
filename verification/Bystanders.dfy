/**
 More calls in flight (redis_queue/v1_0/utils.py:159-211): one call that may assign and drain, and
 any number of others that find their key owned and do not drain. The others only read, and count
 their message; the ownership maps are as with the one call alone.
 */
module Bystanders {
  import opened Shards
  import opened ShardCommands

  datatype Bystander = Bystander(key: Key, pc: Pc)

  datatype Crowd = Crowd(main: Sys, others: seq<Bystander>)

  datatype Turn =
    | Main(a: Act)
    | Join(k: Key)                          // another call begins
    | Other(i: nat, now: real, c: Choice)   // its next command

  /** A call on its way through the commands that neither assign nor move a key. */
  predicate Harmless(pc: Pc) {
    pc.Exists? || pc.ReadOwner? || (Checking(pc) && !pc.DropUid?)
  }

  ghost predicate CanTurn(y: Crowd, t: Turn) {
    match t
    case Main(a) => Can(y.main, a)
    case Join(_) => true
    case Other(i, _, c) =>
      i < |y.others| && Harmless(y.others[i].pc) && Busy(y.others[i].pc)
      && Possible(State(y.main.s.db, y.others[i].pc), c)
  }

  function OthersState(y: Crowd, i: nat, now: real, c: Choice): State
    requires i < |y.others| && Busy(y.others[i].pc)
  {
    Command(State(y.main.s.db, y.others[i].pc), y.others[i].key, now, c)
  }

  function Turned(y: Crowd, t: Turn): Crowd
    requires CanTurn(y, t)
  {
    match t
    case Main(a) => y.(main := Do(y.main, a))
    case Join(k) => y.(others := y.others + [Bystander(k, Exists)])
    case Other(i, now, c) =>
      var s := OthersState(y, i, now, c);
      Crowd(y.main.(s := y.main.s.(db := s.db)), y.others[i := y.others[i].(pc := s.pc)])
  }

  ghost predicate CrowdRun(y: Crowd, turns: seq<Turn>)
    decreases turns
  {
    turns == [] || (CanTurn(y, turns[0]) && CrowdRun(Turned(y, turns[0]), turns[1..]))
  }

  ghost function CrowdEnd(y: Crowd, turns: seq<Turn>): Crowd
    requires CrowdRun(y, turns)
    decreases turns
  {
    if turns == [] then y else CrowdEnd(Turned(y, turns[0]), turns[1..])
  }

  /** To everybody else a harmless command is at most a write of a count. */
  lemma HarmlessCommand(s: State, k: Key, now: real, c: Choice) returns (wc: WorkerCommand)
    requires Busy(s.pc) && Harmless(s.pc)
    ensures var t := Command(s, k, now, c); t.db == s.db || (Issuable(s.db, wc) && t.db == Obey(s.db, wc))
  {
    var u := if s.pc.CountMsg? then s.pc.u else Uid("");
    wc := PutCount(u, k, 1 + if (u, k) in s.db.pending then s.db.pending[(u, k)] else 0);
  }

  lemma TurnKeeps(y: Crowd, t: Turn)
    requires PcOk(y.main.s, y.main.k) && CanTurn(y, t)
    ensures PcOk(Turned(y, t).main.s, Turned(y, t).main.k)
  {
    hide PcOk, Command, Obey, Issuable, Possible, Can, Do;
    if t.Main? {
      ActKeeps(y.main, t.a);
    } else if t.Other? {
      var wc := HarmlessCommand(State(y.main.s.db, y.others[t.i].pc), y.others[t.i].key, t.now, t.c);
      if OthersState(y, t.i, t.now, t.c).db != y.main.s.db {
        WorkerKeeps(y.main.s, y.main.k, wc);
      }
    }
  }

  lemma {:induction false} CrowdKeeps(y: Crowd, turns: seq<Turn>)
    requires PcOk(y.main.s, y.main.k) && CrowdRun(y, turns)
    ensures PcOk(CrowdEnd(y, turns).main.s, CrowdEnd(y, turns).main.k)
    decreases turns
  {
    hide PcOk, CanTurn, Turned;
    if turns != [] {
      TurnKeeps(y, turns[0]);
      CrowdKeeps(Turned(y, turns[0]), turns[1..]);
    }
  }

  /**
   With any number of such calls beside the main one the maps agree if and only if the main one does
   not stand between recording an owner and writing the owner's list.
   */
  lemma CrowdAgrees(k0: Key, turns: seq<Turn>)
    requires CrowdRun(Crowd(Sys(Idle(), k0), []), turns)
    ensures var y := CrowdEnd(Crowd(Sys(Idle(), k0), []), turns); Agrees(y.main.s.db) <==> !Midway(y.main.s.pc)
  {
    hide PcOk, Agrees;
    IdleOk(k0);
    CrowdKeeps(Crowd(Sys(Idle(), k0), []), turns);
    var y := CrowdEnd(Crowd(Sys(Idle(), k0), []), turns);
    if Midway(y.main.s.pc) {
      MidwayStrands(y.main.s, y.main.k);
    } else {
      ElsewhereAgrees(y.main.s, y.main.k);
    }
  }
}
