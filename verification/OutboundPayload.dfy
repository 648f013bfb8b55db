/**
 The records of the outbound list and the retry set (redis_deliverer/deliver/__init__.py, the
 writer in redis_deliverer/deliver/deliver.py:115-124, the producer in
 redis_queue/v1_0/outbound.py:93-101). JSON text is taken as a lossless form of these records.
 */
module OutboundPayload {
  import opened Wrappers
  import opened Base64
  import opened Base64Bits
  import opened Retries

  /** A JSON record; a missing or null field is `None`. */
  datatype Record = Record(
    url: string,
    headers: Option<seq<(string, string)>>,
    payload: string,
    retries: Option<nat>)

  /** OutboundPayload.from_bytes: defaults for what is missing, the payload decoded without repair. */
  function FromRecord(r: Record): Result<Item, Error> {
    var p := UrlDecode(r.payload);
    if p.Err? then Err(p.error) else
      Ok(Item(Content(r.url, if r.headers.Some? then r.headers.value else [], p.value),
              if r.retries.Some? then r.retries.value else 0))
  }

  /** Without headers and counter a record decodes to none of either. */
  lemma DefaultsDecode(url: string, payload: seq<Byte>)
    ensures FromRecord(Record(url, None, Encode(payload), None)) == Ok(Item(Content(url, [], payload), 0))
  {
    EncodeDecodes(payload);
  }

  /** A payload's padding is not repaired: without any it decodes as whole groups only. */
  lemma PayloadNotRepaired(r: Record)
    requires UrlText(r.payload)
    ensures FromRecord(r).Ok? <==> |r.payload| % 4 == 0
  {
    TranslateUrl(r.payload);
    DecodeUnpadded(Translate(r.payload), if |r.payload| % 4 == 0 then 0 else 4 - |r.payload| % 4, 0, 0);
  }

  /** What a producer pushes. */
  function Outbound(c: Content): Record {
    Record(c.url, Some(c.headers), Encode(c.payload), None)
  }

  /** A member of the retry set. */
  function Member(x: Item): Record {
    Record(x.content.url, Some(x.content.headers), Encode(x.content.payload), Some(x.retries))
  }

  /** What the deliverer schedules after a failed post. */
  function Rescheduled(x: Item): Record {
    Member(x.(retries := x.retries + 1))
  }

  /** One fail, re-encode, decode cycle; a record that fails to decode stays a failure. */
  function Cycle(m: Result<Item, Error>): Result<Item, Error> {
    if m.Ok? then FromRecord(Rescheduled(m.value)) else m
  }

  function Cycles(m: Result<Item, Error>, n: nat): Result<Item, Error>
    decreases n
  {
    if n == 0 then m else Cycles(Cycle(m), n - 1)
  }

  /** Any number of cycles changes the retry counter and nothing else. */
  lemma {:induction false} CyclesOnlyCount(x: Item, n: nat)
    ensures Cycles(Ok(x), n) == Ok(x.(retries := x.retries + n))
    decreases n
  {
    if n > 0 {
      MemberDecodes(x.(retries := x.retries + 1));
      CyclesOnlyCount(x.(retries := x.retries + 1), n - 1);
    }
  }

  /** A pushed message decodes to what was pushed, with no retries used. */
  lemma OutboundDecodes(c: Content)
    ensures FromRecord(Outbound(c)) == Ok(Item(c, 0))
  {
    EncodeDecodes(c.payload);
  }

  lemma MemberDecodes(x: Item)
    ensures FromRecord(Member(x)) == Ok(x)
  {
    EncodeDecodes(x.content.payload);
  }

  /**
   What is written: url and headers as they are, the payload bit by bit in the URL-safe table, the
   counter one up in a retry entry and absent in a producer's record.
   */
  lemma WrittenText(x: Item, i: nat)
    ensures var c := x.content; var r, o := Rescheduled(x), Outbound(c);
      && r.url == c.url && r.headers == Some(c.headers) && r.retries == Some(x.retries + 1)
      && o.url == c.url && o.headers == Some(c.headers) && o.retries == None
      && |r.payload| == 4 * ((|c.payload| + 2) / 3) && o.payload == r.payload
      && (i < |r.payload| ==>
           r.payload[i] == if 6 * i < 8 * |c.payload| then UrlTable(SextetAt(c.payload, i)) else '=')
  {
    EncodeText(x.content.payload, i);
  }

  /** Two entries have the same text if and only if they are the same item: the retry set may be keyed by either. */
  lemma MemberInjective(x: Item, y: Item)
    ensures Member(x) == Member(y) <==> x == y
  {
    MemberDecodes(x);
    MemberDecodes(y);
  }

  /** The sorted set `h`, keyed by text, stores exactly the entries of `m`. */
  ghost predicate Stores(h: map<Record, int>, m: map<Item, int>) {
    && (forall x :: x in m ==> Member(x) in h && h[Member(x)] == m[x])
    && (forall r :: r in h ==> exists x :: x in m && Member(x) == r)
  }

  /** ZADD and ZREM by text touch the one entry they name, and ZREM's count tells whether it was there. */
  lemma TextCommands(h: map<Record, int>, m: map<Item, int>, x: Item, score: int)
    requires Stores(h, m)
    ensures Member(x) in h <==> x in m
    ensures Stores(h[Member(x) := score], m[x := score])
    ensures Stores(h - {Member(x)}, m - {x})
  {
    hide Member;
    forall y ensures Member(x) == Member(y) <==> x == y {
      MemberInjective(x, y);
    }
    var h' := h[Member(x) := score];
    forall r | r in h' ensures exists y :: y in m[x := score] && Member(y) == r {
      if r == Member(x) {
        assert x in m[x := score];
      } else {
        var y :| y in m && Member(y) == r;
        assert y in m[x := score];
      }
    }
    forall r | r in h - {Member(x)} ensures exists y :: y in m - {x} && Member(y) == r {
      var y :| y in m && Member(y) == r;
      assert y in m - {x};
    }
  }
}
