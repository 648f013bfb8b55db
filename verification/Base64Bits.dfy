/**
 What base64 text is, bit by bit, without any encoder or decoder: the tables of RFC 4648, sections
 4 and 5. The writer (redis_deliverer/deliver/deliver.py:119-121, redis_queue/v1_0/outbound.py:96)
 and the reader (redis_queue/v1_0/utils.py:28-37) of Base64 are held against it.
 */
module Base64Bits {
  import opened Wrappers
  import opened Base64

  // ---- The tables ----

  /** Section 5, table 2, in four rows of sixteen. */
  function UrlTable(v: Sextet): char {
    ["ABCDEFGHIJKLMNOP", "QRSTUVWXYZabcdef", "ghijklmnopqrstuv", "wxyz0123456789-_"][v / 16][v % 16]
  }

  /** Section 4, table 1. */
  function Table(v: Sextet): char {
    ["ABCDEFGHIJKLMNOP", "QRSTUVWXYZabcdef", "ghijklmnopqrstuv", "wxyz0123456789+/"][v / 16][v % 16]
  }

  /** Row and column of a sextet, one by one. */
  lemma Cell(v: Sextet)
    ensures v == 16 * (v / 16) + v % 16
    ensures v / 16 == 0 || v / 16 == 1 || v / 16 == 2 || v / 16 == 3
    ensures var c := v % 16;
      || c == 0 || c == 1 || c == 2 || c == 3 || c == 4 || c == 5 || c == 6 || c == 7
      || c == 8 || c == 9 || c == 10 || c == 11 || c == 12 || c == 13 || c == 14 || c == 15
  {
  }

  lemma UrlTableIs(v: Sextet)
    ensures UrlChar(v) == UrlTable(v)
  {
    Cell(v);
  }

  lemma TableIs(v: Sextet)
    ensures Value(Table(v)) == Some(v) && Table(v) != '='
    ensures UrlTable(v) == if v == 62 then '-' else if v == 63 then '_' else Table(v)
    ensures Table(v) != '-' && Table(v) != '_'
  {
    Cell(v);
  }

  // ---- Bits ----

  /** Bit `n` of a byte string, the highest of the first byte first; 0 beyond the end. */
  function Bit(b: seq<Byte>, n: nat): (r: int)
    ensures 0 <= r <= 1
  {
    if n / 8 < |b| then b[n / 8] / [128, 64, 32, 16, 8, 4, 2, 1][n % 8] % 2 else 0
  }

  /** Bits 6i to 6i + 5 as a number. */
  function SextetAt(b: seq<Byte>, i: nat): Sextet {
    32 * Bit(b, 6 * i) + 16 * Bit(b, 6 * i + 1) + 8 * Bit(b, 6 * i + 2)
    + 4 * Bit(b, 6 * i + 3) + 2 * Bit(b, 6 * i + 4) + Bit(b, 6 * i + 5)
  }

  lemma Halves(x: Byte)
    ensures x / 128 % 2 == x / 128 && x / 64 == 2 * (x / 128) + x / 64 % 2 && x / 32 == 2 * (x / 64) + x / 32 % 2
    ensures x / 16 == 2 * (x / 32) + x / 16 % 2 && x / 8 == 2 * (x / 16) + x / 8 % 2
    ensures x / 4 == 2 * (x / 8) + x / 4 % 2 && x / 2 == 2 * (x / 4) + x / 2 % 2
    ensures x / 1 == 2 * (x / 2) + x / 1 % 2 && x / 1 == x
  {
  }

  /** A byte is its eight bits. */
  lemma ByteBits(x: Byte)
    ensures x / 4 == 32 * (x / 128 % 2) + 16 * (x / 64 % 2) + 8 * (x / 32 % 2) + 4 * (x / 16 % 2) + 2 * (x / 8 % 2) + x / 4 % 2
    ensures x % 4 == 2 * (x / 2 % 2) + x / 1 % 2
    ensures x / 16 == 8 * (x / 128 % 2) + 4 * (x / 64 % 2) + 2 * (x / 32 % 2) + x / 16 % 2
    ensures x % 16 == 8 * (x / 8 % 2) + 4 * (x / 4 % 2) + 2 * (x / 2 % 2) + x / 1 % 2
    ensures x / 64 == 2 * (x / 128 % 2) + x / 64 % 2
    ensures x % 64 == 32 * (x / 32 % 2) + 16 * (x / 16 % 2) + 8 * (x / 8 % 2) + 4 * (x / 4 % 2) + 2 * (x / 2 % 2) + x / 1 % 2
  {
    Halves(x);
    assert x == 4 * (x / 4) + x % 4 && x == 16 * (x / 16) + x % 16 && x == 64 * (x / 64) + x % 64;
  }

  // ---- The writer ----

  /** The byte at `i`; 0 beyond the end. */
  function ByteOr0(b: seq<Byte>, i: nat): Byte {
    if i < |b| then b[i] else 0
  }

  lemma BitsOfByte(b: seq<Byte>, i: nat)
    ensures var x := ByteOr0(b, i);
      && Bit(b, 8 * i) == x / 128 % 2 && Bit(b, 8 * i + 1) == x / 64 % 2
      && Bit(b, 8 * i + 2) == x / 32 % 2 && Bit(b, 8 * i + 3) == x / 16 % 2
      && Bit(b, 8 * i + 4) == x / 8 % 2 && Bit(b, 8 * i + 5) == x / 4 % 2
      && Bit(b, 8 * i + 6) == x / 2 % 2 && Bit(b, 8 * i + 7) == x / 1 % 2
  {
    assert (8 * i) / 8 == i && (8 * i + 1) / 8 == i && (8 * i + 2) / 8 == i && (8 * i + 3) / 8 == i;
    assert (8 * i + 4) / 8 == i && (8 * i + 5) / 8 == i && (8 * i + 6) / 8 == i && (8 * i + 7) / 8 == i;
  }

  /** The first four sextets cut three bytes. */
  lemma FirstFour(b: seq<Byte>)
    ensures var x, y, z := ByteOr0(b, 0), ByteOr0(b, 1), ByteOr0(b, 2);
      && SextetAt(b, 0) == x / 4 && SextetAt(b, 1) == x % 4 * 16 + y / 16
      && SextetAt(b, 2) == y % 16 * 4 + z / 64 && SextetAt(b, 3) == z % 64
  {
    hide Bit, ByteOr0;
    BitsOfByte(b, 0);
    BitsOfByte(b, 1);
    BitsOfByte(b, 2);
    ByteBits(ByteOr0(b, 0));
    ByteBits(ByteOr0(b, 1));
    ByteBits(ByteOr0(b, 2));
  }

  lemma SkipsThree(b: seq<Byte>, i: nat)
    requires |b| >= 3
    ensures SextetAt(b, i + 4) == SextetAt(b[3..], i)
  {
    forall n: nat ensures Bit(b, n + 24) == Bit(b[3..], n) {
      BitSkips(b, n);
    }
    hide Bit;
    assert 6 * (i + 4) == 6 * i + 24;
  }

  lemma BitSkips(b: seq<Byte>, n: nat)
    requires |b| >= 3
    ensures Bit(b, n + 24) == Bit(b[3..], n)
  {
    assert (n + 24) / 8 == n / 8 + 3 && (n + 24) % 8 == n % 8;
  }

  /** The character of an encoding at `i`, by the bits it stands for. */
  function TextAt(b: seq<Byte>, i: nat): char {
    if 6 * i < 8 * |b| then UrlTable(SextetAt(b, i)) else '='
  }

  lemma FirstGroup(b: seq<Byte>, i: nat)
    requires b != [] && i < 4
    ensures |Encode(b)| >= 4 && Encode(b)[i] == TextAt(b, i)
  {
    hide UrlTable, UrlChar, SextetAt;
    FirstFour(b);
    UrlTableIs(SextetAt(b, i));
    if |b| == 1 {
      assert Encode(b) == [UrlChar(b[0] / 4), UrlChar(b[0] % 4 * 16), '=', '='];
    } else if |b| == 2 {
      assert Encode(b) == [UrlChar(b[0] / 4), UrlChar(b[0] % 4 * 16 + b[1] / 16), UrlChar(b[1] % 16 * 4), '='];
    }
  }

  lemma {:induction false} EncodeLength(b: seq<Byte>)
    ensures |Encode(b)| == 4 * ((|b| + 2) / 3)
    decreases |b|
  {
    hide UrlChar;
    if |b| >= 3 {
      EncodeLength(b[3..]);
      assert (|b| + 2) / 3 == (|b[3..]| + 2) / 3 + 1;
    }
  }

  lemma LaterText(b: seq<Byte>, i: nat)
    requires |b| >= 3 && 4 <= i < |Encode(b)|
    ensures |Encode(b[3..])| == |Encode(b)| - 4 && Encode(b)[i] == Encode(b[3..])[i - 4]
    ensures TextAt(b, i) == TextAt(b[3..], i - 4)
  {
    hide UrlTable, UrlChar, SextetAt;
    SkipsThree(b, i - 4);
  }

  /**
   The text of an encoding: four characters for every three bytes begun; the one at `i` is the table's
   entry for bits 6i to 6i + 5, zeros after the last byte, and '=' once no bit is left.
   */
  lemma {:induction false} EncodeText(b: seq<Byte>, i: nat)
    ensures |Encode(b)| == 4 * ((|b| + 2) / 3)
    ensures i < |Encode(b)| ==> Encode(b)[i] == if 6 * i < 8 * |b| then UrlTable(SextetAt(b, i)) else '='
    decreases |b|
  {
    hide Encode;
    EncodeLength(b);
    if b != [] && i < 4 {
      FirstGroup(b, i);
    } else if 4 <= i < |Encode(b)| {
      LaterText(b, i);
      EncodeText(b[3..], i - 4);
    }
    hide UrlTable, SextetAt;
  }

  // ---- The reader ----

  /** The text of sextets in the standard table. */
  function Spell(vs: seq<Sextet>): string {
    seq(|vs|, i requires 0 <= i < |vs| => Table(vs[i]))
  }

  /** The text of sextets in the URL-safe table. */
  function SpellUrl(vs: seq<Sextet>): string {
    seq(|vs|, i requires 0 <= i < |vs| => UrlTable(vs[i]))
  }

  lemma SpellCons(vs: seq<Sextet>)
    requires vs != []
    ensures Spell(vs) == [Table(vs[0])] + Spell(vs[1..])
    ensures SpellUrl(vs) == [UrlTable(vs[0])] + SpellUrl(vs[1..])
  {
    hide Table, UrlTable;
  }

  lemma SpellNone()
    ensures Spell([]) == [] && SpellUrl([]) == []
  {
  }

  /** Bit `n` of a row of sextets; 0 beyond the end. */
  function BitOf(vs: seq<Sextet>, n: nat): (r: int)
    ensures 0 <= r <= 1
  {
    if n / 6 < |vs| then vs[n / 6] / [32, 16, 8, 4, 2, 1][n % 6] % 2 else 0
  }

  /** Bits 8i to 8i + 7 as a number. */
  function ByteAt(vs: seq<Sextet>, i: nat): Byte {
    128 * BitOf(vs, 8 * i) + 64 * BitOf(vs, 8 * i + 1) + 32 * BitOf(vs, 8 * i + 2) + 16 * BitOf(vs, 8 * i + 3)
    + 8 * BitOf(vs, 8 * i + 4) + 4 * BitOf(vs, 8 * i + 5) + 2 * BitOf(vs, 8 * i + 6) + BitOf(vs, 8 * i + 7)
  }

  /** The whole bytes a row of sextets holds. */
  function BytesOf(vs: seq<Sextet>): seq<Byte> {
    seq(|vs| * 6 / 8, i requires 0 <= i => ByteAt(vs, i))
  }

  lemma SextetBits(v: Sextet)
    ensures v / 16 == 2 * (v / 32 % 2) + v / 16 % 2 && v % 16 == 8 * (v / 8 % 2) + 4 * (v / 4 % 2) + 2 * (v / 2 % 2) + v / 1 % 2
    ensures v / 4 == 8 * (v / 32 % 2) + 4 * (v / 16 % 2) + 2 * (v / 8 % 2) + v / 4 % 2 && v % 4 == 2 * (v / 2 % 2) + v / 1 % 2
    ensures v == 32 * (v / 32 % 2) + 16 * (v / 16 % 2) + 8 * (v / 8 % 2) + 4 * (v / 4 % 2) + 2 * (v / 2 % 2) + v / 1 % 2
  {
    Halves(v);
    assert v == 16 * (v / 16) + v % 16 && v == 4 * (v / 4) + v % 4;
  }

  function SextetOr0(vs: seq<Sextet>, i: nat): Sextet {
    if i < |vs| then vs[i] else 0
  }

  lemma BitsOfSextet(vs: seq<Sextet>, i: nat)
    ensures var v := SextetOr0(vs, i);
      && BitOf(vs, 6 * i) == v / 32 % 2 && BitOf(vs, 6 * i + 1) == v / 16 % 2 && BitOf(vs, 6 * i + 2) == v / 8 % 2
      && BitOf(vs, 6 * i + 3) == v / 4 % 2 && BitOf(vs, 6 * i + 4) == v / 2 % 2 && BitOf(vs, 6 * i + 5) == v / 1 % 2
  {
    assert (6 * i) / 6 == i && (6 * i + 1) / 6 == i && (6 * i + 2) / 6 == i;
    assert (6 * i + 3) / 6 == i && (6 * i + 4) / 6 == i && (6 * i + 5) / 6 == i;
  }

  /** The first three bytes join four sextets. */
  lemma FirstThree(vs: seq<Sextet>)
    ensures var p, q, r, s := SextetOr0(vs, 0), SextetOr0(vs, 1), SextetOr0(vs, 2), SextetOr0(vs, 3);
      ByteAt(vs, 0) == p * 4 + q / 16 && ByteAt(vs, 1) == q % 16 * 16 + r / 4 && ByteAt(vs, 2) == r % 4 * 64 + s
  {
    hide BitOf, SextetOr0;
    BitsOfSextet(vs, 0);
    BitsOfSextet(vs, 1);
    BitsOfSextet(vs, 2);
    BitsOfSextet(vs, 3);
    SextetBits(SextetOr0(vs, 0));
    SextetBits(SextetOr0(vs, 1));
    SextetBits(SextetOr0(vs, 2));
    SextetBits(SextetOr0(vs, 3));
  }

  lemma SextetSkips(vs: seq<Sextet>, n: nat)
    requires |vs| >= 4
    ensures BitOf(vs, n + 24) == BitOf(vs[4..], n)
  {
    assert (n + 24) / 6 == n / 6 + 4 && (n + 24) % 6 == n % 6;
  }

  lemma ByteSkips(vs: seq<Sextet>, i: nat)
    requires |vs| >= 4
    ensures ByteAt(vs, i + 3) == ByteAt(vs[4..], i)
  {
    hide BitOf;
    forall n: nat ensures BitOf(vs, n + 24) == BitOf(vs[4..], n) {
      SextetSkips(vs, n);
    }
    assert 8 * (i + 3) == 8 * i + 24;
  }

  lemma SkipsFour(vs: seq<Sextet>)
    requires |vs| >= 4
    ensures BytesOf(vs) == [ByteAt(vs, 0)] + ([ByteAt(vs, 1)] + ([ByteAt(vs, 2)] + BytesOf(vs[4..])))
  {
    hide ByteAt;
    assert |vs| * 6 / 8 == |vs[4..]| * 6 / 8 + 3;
    forall i: nat ensures ByteAt(vs, i + 3) == ByteAt(vs[4..], i) {
      ByteSkips(vs, i);
    }
  }

  /** One character read by the decoder. */
  lemma ReadOne(v: Sextet, s: string, quad: nat, left: nat)
    requires Fits(quad, left)
    ensures Decode([Table(v)] + s, quad, left, 0) ==
      match quad
      case 0 => Decode(s, 1, v, 0)
      case 1 => Emit(left * 4 + v / 16, Decode(s, 2, v % 16, 0))
      case 2 => Emit(left * 16 + v / 4, Decode(s, 3, v % 4, 0))
      case _ => Emit(left * 64 + v, Decode(s, 0, 0, 0))
  {
    TableIs(v);
    hide Table;
    assert ([Table(v)] + s)[1..] == s;
  }

  lemma ReadGroup(p: Sextet, q: Sextet, r: Sextet, s: Sextet, tail: string)
    ensures Decode([Table(p), Table(q), Table(r), Table(s)] + tail, 0, 0, 0) ==
      Emit(p * 4 + q / 16, Emit(q % 16 * 16 + r / 4, Emit(r % 4 * 64 + s, Decode(tail, 0, 0, 0))))
  {
    hide Decode, Table, Emit;
    var t3 := [Table(s)] + tail;
    var t2 := [Table(r)] + t3;
    var t1 := [Table(q)] + t2;
    assert [Table(p), Table(q), Table(r), Table(s)] + tail == [Table(p)] + t1;
    ReadOne(p, t1, 0, 0);
    ReadOne(q, t2, 1, p);
    ReadOne(r, t3, 2, q % 16);
    ReadOne(s, tail, 3, r % 4);
  }

  lemma ReadPad(left: nat)
    ensures left < 16 ==> Decode("==", 2, left, 0) == Ok([])
    ensures left < 4 ==> Decode("=", 3, left, 0) == Ok([])
  {
    assert "=="[1..] == "=";
    if left < 16 {
      assert Decode("=", 2, left, 1) == Ok([]);
    }
  }

  lemma ReadTwo(p: Sextet, q: Sextet)
    ensures Decode([Table(p), Table(q)] + "==", 0, 0, 0) == Emit(p * 4 + q / 16, Ok([]))
  {
    hide Decode, Table, Emit;
    ReadPad(q % 16);
    var t1 := [Table(q)] + "==";
    assert [Table(p), Table(q)] + "==" == [Table(p)] + t1;
    ReadOne(p, t1, 0, 0);
    ReadOne(q, "==", 1, p);
  }

  lemma ReadThree(p: Sextet, q: Sextet, r: Sextet)
    ensures Decode([Table(p), Table(q), Table(r)] + "=", 0, 0, 0) ==
      Emit(p * 4 + q / 16, Emit(q % 16 * 16 + r / 4, Ok([])))
  {
    hide Decode, Table, Emit;
    ReadPad(r % 4);
    var t2 := [Table(r)] + "=";
    var t1 := [Table(q)] + t2;
    assert [Table(p), Table(q), Table(r)] + "=" == [Table(p)] + t1;
    ReadOne(p, t1, 0, 0);
    ReadOne(q, t2, 1, p);
    ReadOne(r, "=", 2, q % 16);
  }

  lemma ShortBytes(vs: seq<Sextet>)
    requires |vs| < 4 && |vs| != 1
    ensures |vs| == 0 ==> BytesOf(vs) == []
    ensures |vs| == 2 ==> BytesOf(vs) == [ByteAt(vs, 0)]
    ensures |vs| == 3 ==> BytesOf(vs) == [ByteAt(vs, 0)] + [ByteAt(vs, 1)]
  {
    hide ByteAt;
  }

  lemma LastTwo(vs: seq<Sextet>)
    requires |vs| == 2
    ensures Decode(Spell(vs) + "==", 0, 0, 0) == Ok(BytesOf(vs))
  {
    hide Decode, Table, BytesOf, ByteAt, Spell;
    FirstThree(vs);
    ShortBytes(vs);
    ReadTwo(vs[0], vs[1]);
    SpellCons(vs);
    SpellCons(vs[1..]);
    SpellNone();
    assert vs[1..][1..] == [];
    assert Spell(vs) == [Table(vs[0]), Table(vs[1])];
    assert [ByteAt(vs, 0)] + [] == [ByteAt(vs, 0)];
  }

  lemma LastThree(vs: seq<Sextet>)
    requires |vs| == 3
    ensures Decode(Spell(vs) + "=", 0, 0, 0) == Ok(BytesOf(vs))
  {
    hide Decode, Table, BytesOf, ByteAt, Spell;
    FirstThree(vs);
    ShortBytes(vs);
    ReadThree(vs[0], vs[1], vs[2]);
    SpellCons(vs);
    SpellCons(vs[1..]);
    SpellCons(vs[2..]);
    SpellNone();
    assert vs[1..][1..] == vs[2..] && vs[2..][1..] == [];
    assert Spell(vs) == [Table(vs[0]), Table(vs[1]), Table(vs[2])];
    assert [ByteAt(vs, 0)] + ([ByteAt(vs, 1)] + []) == [ByteAt(vs, 0)] + [ByteAt(vs, 1)];
  }

  /** The last group: two or three characters and their pads, or nothing. */
  lemma ReadLast(vs: seq<Sextet>)
    requires |vs| < 4 && |vs| != 1
    ensures Decode(Spell(vs) + Pad(PadsFor(|vs|)), 0, 0, 0) == Ok(BytesOf(vs))
  {
    hide Table, BytesOf, ByteAt, Spell;
    assert Pad(1) == "=" && Pad(2) == "==";
    if |vs| == 2 {
      hide Decode;
      LastTwo(vs);
    } else if |vs| == 3 {
      hide Decode;
      LastThree(vs);
    } else {
      ShortBytes(vs);
      SpellNone();
      assert vs == [] && [] + Pad(0) == [];
    }
  }

  lemma FirstText(vs: seq<Sextet>, pads: string)
    requires |vs| >= 4
    ensures Spell(vs) + pads == [Table(vs[0]), Table(vs[1]), Table(vs[2]), Table(vs[3])] + (Spell(vs[4..]) + pads)
  {
    hide Table, Spell;
    SpellCons(vs);
    SpellCons(vs[1..]);
    SpellCons(vs[2..]);
    SpellCons(vs[3..]);
    assert vs[1..][1..] == vs[2..] && vs[2..][1..] == vs[3..] && vs[3..][1..] == vs[4..];
  }

  function PadsFor(n: nat): nat {
    if n % 4 == 0 then 0 else 4 - n % 4
  }

  lemma {:induction false} ReadsBits(vs: seq<Sextet>)
    requires |vs| % 4 != 1
    ensures Decode(Spell(vs) + Pad(PadsFor(|vs|)), 0, 0, 0) == Ok(BytesOf(vs))
    decreases |vs|
  {
    hide Decode, Table, Spell, ByteAt, BytesOf;
    if |vs| < 4 {
      ReadLast(vs);
    } else {
      FirstText(vs, Pad(PadsFor(|vs|)));
      ReadGroup(vs[0], vs[1], vs[2], vs[3], Spell(vs[4..]) + Pad(PadsFor(|vs|)));
      assert PadsFor(|vs|) == PadsFor(|vs[4..]|);
      ReadsBits(vs[4..]);
      FirstThree(vs);
      SkipsFour(vs);
    }
  }

  lemma {:induction false} SpellUrlTranslates(vs: seq<Sextet>)
    ensures Translate(SpellUrl(vs)) == Spell(vs)
    decreases |vs|
  {
    if vs == [] {
      SpellNone();
    } else {
      TableIs(vs[0]);
      SpellCons(vs);
      hide Table, UrlTable, Spell, SpellUrl;
      SpellUrlTranslates(vs[1..]);
    }
  }

  lemma AsciiTables(v: Sextet)
    ensures (Table(v) as int) < 128 && (UrlTable(v) as int) < 128
  {
    Cell(v);
  }

  /**
   The bytes read from a text of either table are its bits, eight to a byte, whatever the bits left
   over: with padding repaired, or as whole groups without.
   */
  lemma DecodeText(vs: seq<Sextet>)
    requires |vs| % 4 != 1
    ensures B64ToBytes(SpellUrl(vs), true) == Ok(BytesOf(vs))
    ensures |vs| % 4 == 0 ==> B64ToBytes(Spell(vs), false) == Ok(BytesOf(vs))
  {
    hide Decode, ByteAt, BytesOf, Translate;
    forall v: Sextet ensures (Table(v) as int) < 128 && (UrlTable(v) as int) < 128 {
      AsciiTables(v);
    }
    hide Table, UrlTable;
    var n := PadsFor(|vs|);
    ReadsBits(vs);
    SpellUrlTranslates(vs);
    TranslateJoin(SpellUrl(vs), Pad(n));
    TranslatePad(n);
    assert SpellUrl(vs) + Pad(0) == SpellUrl(vs);
    assert Repair(SpellUrl(vs)) == SpellUrl(vs) + Pad(n);
    assert Spell(vs) + Pad(0) == Spell(vs);
  }
}
