/**
 The text behind the keys: the pending hash is keyed by `{uid}_{recip_key}` and a recipient key
 is a comma join (redis_queue/v1_0/utils.py:112, 137, 149, 162, 209).
 */
module FieldNames {
  import opened Shards

  type Pair = (Uid, Key)

  /** A uuid4 text has no underscore. */
  predicate UuidText(u: Uid) {
    '_' !in u.text
  }

  function Field(p: Pair): string {
    p.0.text + "_" + p.1.text
  }

  /** A separator neither head contains splits a text in one way only. */
  lemma SplitUnique(a: string, s: string, b: string, t: string, sep: char)
    requires sep !in a && sep !in b && a + [sep] + s == b + [sep] + t
    ensures a == b && s == t
  {
    var w := a + [sep] + s;
    assert w[|a|] == sep && w[|b|] == sep;
    assert forall i :: 0 <= i < |a| ==> w[i] == a[i] && w[i] != sep;
    assert forall i :: 0 <= i < |b| ==> w[i] == b[i] && w[i] != sep;
    assert |a| == |b|;
    assert a == w[..|a|] && b == w[..|b|];
    assert s == w[|a| + 1..] && t == w[|b| + 1..];
  }

  /** Everything before the first underscore is the uid, everything after it the key. */
  lemma FieldInjective(p: Pair, q: Pair)
    requires UuidText(p.0) && UuidText(q.0) && Field(p) == Field(q)
    ensures p == q
  {
    SplitUnique(p.0.text, p.1.text, q.0.text, q.1.text, '_');
  }

  /** With underscores in the uid two pairs can share a field. */
  lemma FieldClash()
    ensures Field((Uid("a"), Key("b_c"))) == Field((Uid("a_b"), Key("c")))
  {
    assert Field((Uid("a"), Key("b_c"))) == "a_b_c";
    assert Field((Uid("a_b"), Key("c"))) == "a_b_c";
  }

  ghost predicate UuidPairs(m: map<Pair, nat>) {
    forall p :: p in m ==> UuidText(p.0)
  }

  /** The flat hash `h` stores exactly the pair-keyed counts `m`. */
  ghost predicate Stores(h: map<string, nat>, m: map<Pair, nat>) {
    && UuidPairs(m)
    && (forall p :: p in m ==> Field(p) in h && h[Field(p)] == m[p])
    && (forall s :: s in h ==> exists p :: p in m && Field(p) == s)
  }

  /** HGET finds a field exactly when the pair has a count, and finds that count. */
  lemma GetField(h: map<string, nat>, m: map<Pair, nat>, p: Pair)
    requires Stores(h, m) && UuidText(p.0)
    ensures Field(p) in h <==> p in m
    ensures p in m ==> h[Field(p)] == m[p]
  {
    if Field(p) in h {
      var q :| q in m && Field(q) == Field(p);
      FieldInjective(p, q);
    }
  }

  /** HSET (and HINCRBY, which writes the sum) changes the one pair it names. */
  lemma PutField(h: map<string, nat>, m: map<Pair, nat>, p: Pair, n: nat)
    requires Stores(h, m) && UuidText(p.0)
    ensures Stores(h[Field(p) := n], m[p := n])
  {
    var h', m' := h[Field(p) := n], m[p := n];
    forall q | q in m' ensures Field(q) in h' && h'[Field(q)] == m'[q] {
      if Field(q) == Field(p) {
        FieldInjective(p, q);
      }
    }
    forall s | s in h' ensures exists q :: q in m' && Field(q) == s {
      if s == Field(p) {
        assert p in m';
      } else {
        var q :| q in m && Field(q) == s;
        assert q in m';
      }
    }
  }

  /** HDEL removes the one pair it names. */
  lemma DropField(h: map<string, nat>, m: map<Pair, nat>, p: Pair)
    requires Stores(h, m) && UuidText(p.0)
    ensures Stores(h - {Field(p)}, m - {p})
  {
    var h', m' := h - {Field(p)}, m - {p};
    forall q | q in m' ensures Field(q) in h' && h'[Field(q)] == m'[q] {
      if Field(q) == Field(p) {
        FieldInjective(p, q);
      }
    }
    forall s | s in h' ensures exists q :: q in m' && Field(q) == s {
      var q :| q in m && Field(q) == s;
      assert q in m';
    }
  }

  // ---- {topic}_{recip_key} ----

  /** The list a key's messages are pushed to and popped from: its name does not mention the owner. */
  function Topic(topic: string, k: Key): string {
    topic + "_" + k.text
  }

  /** Under one topic the name of a list determines the key. */
  lemma TopicInjective(topic: string, j: Key, k: Key)
    ensures Topic(topic, j) == Topic(topic, k) <==> j == k
  {
    if Topic(topic, j) == Topic(topic, k) {
      assert j.text == Topic(topic, j)[|topic| + 1..];
      assert k.text == Topic(topic, k)[|topic| + 1..];
    }
  }

  /** The lists `h`, by name, are exactly the per-key lists `m`. */
  ghost predicate Queued<T>(h: map<string, seq<T>>, topic: string, m: map<Key, seq<T>>) {
    && (forall k :: k in m ==> Topic(topic, k) in h && h[Topic(topic, k)] == m[k])
    && (forall s :: s in h ==> exists k :: k in m && Topic(topic, k) == s)
  }

  /** BLPOP by name finds the list of the key. */
  lemma GetQueue<T>(h: map<string, seq<T>>, topic: string, m: map<Key, seq<T>>, k: Key)
    requires Queued(h, topic, m)
    ensures Topic(topic, k) in h <==> k in m
    ensures k in m ==> h[Topic(topic, k)] == m[k]
  {
    if Topic(topic, k) in h {
      var j :| j in m && Topic(topic, j) == Topic(topic, k);
      TopicInjective(topic, j, k);
    }
  }

  /** RPUSH and BLPOP by name change the list of the one key they name. */
  lemma PutQueue<T>(h: map<string, seq<T>>, topic: string, m: map<Key, seq<T>>, k: Key, q: seq<T>)
    requires Queued(h, topic, m)
    ensures Queued(h[Topic(topic, k) := q], topic, m[k := q])
  {
    hide Topic;
    var h', m' := h[Topic(topic, k) := q], m[k := q];
    forall j | j in m' ensures Topic(topic, j) in h' && h'[Topic(topic, j)] == m'[j] {
      TopicInjective(topic, j, k);
    }
    forall s | s in h' ensures exists j :: j in m' && Topic(topic, j) == s {
      if s == Topic(topic, k) {
        assert k in m';
      } else {
        var j :| j in m && Topic(topic, j) == s;
        assert j in m';
      }
    }
  }

  // ---- ",".join(kids) ----

  function Join(kids: seq<string>): string {
    if kids == [] then "" else if |kids| == 1 then kids[0] else kids[0] + "," + Join(kids[1..])
  }

  predicate CommaFree(kids: seq<string>) {
    forall i :: 0 <= i < |kids| ==> ',' !in kids[i]
  }

  /** A join of several kids has a comma; a join of one has none. */
  lemma JoinHasComma(kids: seq<string>)
    requires CommaFree(kids) && kids != []
    ensures ',' in Join(kids) <==> |kids| > 1
  {
    if |kids| > 1 {
      assert Join(kids)[|kids[0]|] == ',';
    }
  }

  /** Comma-free lists collide only as the empty list and the list of one empty kid. */
  lemma {:induction false} JoinInjective(a: seq<string>, b: seq<string>)
    requires CommaFree(a) && CommaFree(b)
    ensures Join(a) == Join(b) <==> a == b || {a, b} == {[], [""]}
    decreases |a|
  {
    JoinEmpty(a);
    JoinEmpty(b);
    if a != [] && b != [] {
      JoinHasComma(a);
      JoinHasComma(b);
      assert [] !in {a, b} && [] in {[], [""]};
      if Join(a) == Join(b) && |a| > 1 {
        SplitUnique(a[0], Join(a[1..]), b[0], Join(b[1..]), ',');
        JoinInjective(a[1..], b[1..]);
        assert [] !in {a[1..], b[1..]};
        assert a == [a[0]] + a[1..] && b == [b[0]] + b[1..];
      } else if Join(a) == Join(b) {
        assert a == [a[0]] && b == [b[0]];
      }
    } else {
      assert a == [] || b == [];
      assert a == [] && b == [""] ==> {a, b} == {[], [""]};
      assert a == [""] && b == [] ==> {a, b} == {[], [""]};
      assert [""] in {[], [""]};
    }
  }

  lemma JoinEmpty(a: seq<string>)
    ensures Join(a) == "" <==> a == [] || a == [""]
  {
  }

  // ---- The texts, place by place ----

  /** A field is the uid, an underscore and the key; a list name is the topic, an underscore and the key. */
  lemma NameText(p: Pair, topic: string)
    ensures var u, k, f := p.0.text, p.1.text, Field(p);
      |f| == |u| + 1 + |k| && f[..|u|] == u && f[|u|] == '_' && f[|u| + 1..] == k
    ensures var k, f := p.1.text, Topic(topic, p.1);
      |f| == |topic| + 1 + |k| && f[..|topic|] == topic && f[|topic|] == '_' && f[|topic| + 1..] == k
  {
  }

  /** Where kid `i` begins: after the kids before it and a character each. */
  function Offset(kids: seq<string>, i: nat): nat
    requires i <= |kids|
  {
    if i == 0 then 0 else Offset(kids, i - 1) + |kids[i - 1]| + 1
  }

  lemma {:induction false} OffsetShift(kids: seq<string>, i: nat)
    requires 0 < i <= |kids|
    ensures Offset(kids, i) == |kids[0]| + 1 + Offset(kids[1..], i - 1)
    decreases i
  {
    if i > 1 {
      OffsetShift(kids, i - 1);
      assert kids[1..][i - 2] == kids[i - 1];
    }
  }

  /** A join is the kids in their order, a single comma between each two, and nothing else. */
  lemma {:induction false} JoinText(kids: seq<string>, i: nat)
    requires i < |kids|
    ensures |Join(kids)| + 1 == Offset(kids, |kids|)
    ensures var o := Offset(kids, i);
      && o + |kids[i]| <= |Join(kids)| && Join(kids)[o..o + |kids[i]|] == kids[i]
      && (i > 0 ==> o > 0 && Join(kids)[o - 1] == ',')
    decreases |kids|
  {
    OffsetShift(kids, |kids|);
    if |kids| > 1 {
      var rest := Join(kids[1..]);
      assert Join(kids) == kids[0] + "," + rest;
      JoinText(kids[1..], if i > 0 then i - 1 else 0);
      if i > 0 {
        OffsetShift(kids, i);
        var o := Offset(kids[1..], i - 1);
        assert Join(kids)[|kids[0]| + 1 + o..|kids[0]| + 1 + o + |kids[i]|] == rest[o..o + |kids[i]|];
      }
    }
  }
}
