/**
 Base64 in the URL-safe alphabet (RFC 4648, sections 4 and 5) and the decoder that repairs
 missing padding (redis_queue/v1_0/utils.py:28-37). `Decode` follows Python's non-strict decoder:
 characters outside the alphabet are skipped and a complete pad run ends the text.
 */
module Base64 {
  import opened Wrappers

  type Byte = b: int | 0 <= b < 256
  type Sextet = v: int | 0 <= v < 64

  datatype Error = NotAscii | BadPadding

  /** Section 5: '-' and '_' stand for '+' and '/'. */
  function UrlChar(v: Sextet): char {
    if v == 62 then '-' else if v == 63 then '_' else
    if v < 26 then 'A' + v as char else if v < 52 then 'a' + (v - 26) as char else '0' + (v - 52) as char
  }

  /** The value of a character of section 4's alphabet. */
  function Value(c: char): (v: Option<Sextet>) {
    if 'A' <= c <= 'Z' then Some(c as int - 'A' as int)
    else if 'a' <= c <= 'z' then Some(c as int - 'a' as int + 26)
    else if '0' <= c <= '9' then Some(c as int - '0' as int + 52)
    else if c == '+' then Some(62) else if c == '/' then Some(63) else None
  }

  /** base64.urlsafe_b64encode. */
  function Encode(b: seq<Byte>): string
    decreases |b|
  {
    if |b| == 0 then ""
    else if |b| == 1 then [UrlChar(b[0] / 4), UrlChar(b[0] % 4 * 16), '=', '=']
    else if |b| == 2 then
      [UrlChar(b[0] / 4), UrlChar(b[0] % 4 * 16 + b[1] / 16), UrlChar(b[1] % 16 * 4), '=']
    else
      [UrlChar(b[0] / 4), UrlChar(b[0] % 4 * 16 + b[1] / 16), UrlChar(b[1] % 16 * 4 + b[2] / 64), UrlChar(b[2] % 64)]
      + Encode(b[3..])
  }

  function Emit(b: Byte, rest: Result<seq<Byte>, Error>): Result<seq<Byte>, Error> {
    if rest.Ok? then Ok([b] + rest.value) else rest
  }

  /** The decoder after `quad` characters of a group, `left` being their undelivered bits. */
  function Decode(s: string, quad: nat, left: nat, pads: nat): Result<seq<Byte>, Error>
    requires quad == 0 || (quad == 1 && left < 64) || (quad == 2 && left < 16) || (quad == 3 && left < 4)
    decreases |s|
  {
    if s == [] then
      if quad == 0 then Ok([]) else Err(BadPadding)
    else if s[0] == '=' then
      if quad >= 2 && quad + pads + 1 >= 4 then Ok([])
      else Decode(s[1..], quad, left, if quad >= 2 then pads + 1 else pads)
    else if Value(s[0]).None? then
      Decode(s[1..], quad, left, pads)
    else
      var v := Value(s[0]).value;
      match quad
      case 0 => Decode(s[1..], 1, v, 0)
      case 1 => Emit(left * 4 + v / 16, Decode(s[1..], 2, v % 16, 0))
      case 2 => Emit(left * 16 + v / 4, Decode(s[1..], 3, v % 4, 0))
      case _ => Emit(left * 64 + v, Decode(s[1..], 0, 0, 0))
  }

  /** base64.b64decode. */
  function B64Decode(s: string): Result<seq<Byte>, Error> {
    Decode(s, 0, 0, 0)
  }

  function Translate(s: string): (t: string)
    ensures |t| == |s|
  {
    if s == [] then [] else
      [if s[0] == '-' then '+' else if s[0] == '_' then '/' else s[0]] + Translate(s[1..])
  }

  /** base64.urlsafe_b64decode. */
  function UrlDecode(s: string): Result<seq<Byte>, Error> {
    B64Decode(Translate(s))
  }

  function Pad(n: nat): (p: string)
    ensures |p| == n && forall i :: 0 <= i < n ==> p[i] == '='
  {
    if n == 0 then "" else "=" + Pad(n - 1)
  }

  function Repair(s: string): string {
    if |s| % 4 == 0 then s else s + Pad(4 - |s| % 4)
  }

  /** b64_to_bytes; text outside ASCII fails before any decoding. */
  function B64ToBytes(s: string, urlsafe: bool): Result<seq<Byte>, Error> {
    if exists i :: 0 <= i < |s| && s[i] as int >= 128 then Err(NotAscii)
    else if urlsafe then UrlDecode(Repair(s)) else B64Decode(s)
  }

  // ---- Round trip ----

  lemma ValueOfUrlChar(v: Sextet)
    ensures UrlChar(v) != '=' && (UrlChar(v) as int) < 128
    ensures Value(if UrlChar(v) == '-' then '+' else if UrlChar(v) == '_' then '/' else UrlChar(v)) == Some(v)
  {
  }

  /** One character read by the URL-safe decoder. */
  lemma ReadChar(v: Sextet, s: string, quad: nat, left: nat, pads: nat)
    requires quad == 0 || (quad == 1 && left < 64) || (quad == 2 && left < 16) || (quad == 3 && left < 4)
    ensures Decode(Translate([UrlChar(v)] + s), quad, left, pads) ==
      match quad
      case 0 => Decode(Translate(s), 1, v, 0)
      case 1 => Emit(left * 4 + v / 16, Decode(Translate(s), 2, v % 16, 0))
      case 2 => Emit(left * 16 + v / 4, Decode(Translate(s), 3, v % 4, 0))
      case _ => Emit(left * 64 + v, Decode(Translate(s), 0, 0, 0))
  {
    ValueOfUrlChar(v);
    var t := Translate([UrlChar(v)] + s);
    assert ([UrlChar(v)] + s)[1..] == s;
    assert t[1..] == Translate(s);
  }

  lemma ReadPads(left: nat)
    ensures left < 16 ==> Decode(Translate("=="), 2, left, 0) == Ok([])
    ensures left < 4 ==> Decode(Translate("="), 3, left, 0) == Ok([])
  {
    assert Translate("=") == "=" by { assert "="[1..] == ""; }
    assert Translate("==") == "==" by { assert "=="[1..] == "="; }
    if left < 16 {
      assert Decode("=", 2, left, 1) == Ok([]);
    }
    assert "=="[1..] == "=";
  }

  /** Regrouping three bytes as four sextets and back. */
  lemma Regroup(x: Byte, y: Byte, z: Byte)
    ensures x / 4 * 4 + (x % 4 * 16 + y / 16) / 16 == x && (x % 4 * 16 + y / 16) % 16 == y / 16
    ensures y / 16 * 16 + (y % 16 * 4 + z / 64) / 4 == y && (y % 16 * 4 + z / 64) % 4 == z / 64
    ensures z / 64 * 64 + z % 64 == z
    ensures x / 4 * 4 + x % 4 * 16 / 16 == x && y / 16 * 16 + y % 16 * 4 / 4 == y
  {
  }

  lemma DecodeGroup(x: Byte, y: Byte, z: Byte, tail: string)
    ensures UrlDecode([UrlChar(x / 4), UrlChar(x % 4 * 16 + y / 16), UrlChar(y % 16 * 4 + z / 64), UrlChar(z % 64)] + tail)
      == Emit(x, Emit(y, Emit(z, UrlDecode(tail))))
  {
    hide Decode, Translate, UrlChar, Value, Emit;
    var v0: Sextet, v1: Sextet := x / 4, x % 4 * 16 + y / 16;
    var v2: Sextet, v3: Sextet := y % 16 * 4 + z / 64, z % 64;
    var t3 := [UrlChar(v3)] + tail;
    var t2 := [UrlChar(v2)] + t3;
    var t1 := [UrlChar(v1)] + t2;
    assert [UrlChar(v0), UrlChar(v1), UrlChar(v2), UrlChar(v3)] + tail == [UrlChar(v0)] + t1;
    Regroup(x, y, z);
    ReadChar(v0, t1, 0, 0, 0);
    ReadChar(v1, t2, 1, v0, 0);
    ReadChar(v2, t3, 2, v1 % 16, 0);
    ReadChar(v3, tail, 3, v2 % 4, 0);
  }

  lemma DecodeTwo(x: Byte, y: Byte)
    ensures UrlDecode([UrlChar(x / 4), UrlChar(x % 4 * 16 + y / 16), UrlChar(y % 16 * 4), '='])
      == Emit(x, Emit(y, Ok([])))
  {
    hide Decode, Translate, UrlChar, Value, Emit;
    var v0: Sextet, v1: Sextet, v2: Sextet := x / 4, x % 4 * 16 + y / 16, y % 16 * 4;
    var t2 := [UrlChar(v2)] + "=";
    var t1 := [UrlChar(v1)] + t2;
    assert [UrlChar(v0), UrlChar(v1), UrlChar(v2), '='] == [UrlChar(v0)] + t1;
    Regroup(x, y, 0);
    ReadChar(v0, t1, 0, 0, 0);
    ReadChar(v1, t2, 1, v0, 0);
    ReadChar(v2, "=", 2, v1 % 16, 0);
    ReadPads(v2 % 4);
  }

  lemma DecodeOne(x: Byte)
    ensures UrlDecode([UrlChar(x / 4), UrlChar(x % 4 * 16), '=', '=']) == Emit(x, Ok([]))
  {
    hide Decode, Translate, UrlChar, Value, Emit;
    var v0: Sextet, v1: Sextet := x / 4, x % 4 * 16;
    var t1 := [UrlChar(v1)] + "==";
    assert [UrlChar(v0), UrlChar(v1), '=', '='] == [UrlChar(v0)] + t1;
    Regroup(x, 0, 0);
    ReadChar(v0, t1, 0, 0, 0);
    ReadChar(v1, "==", 1, v0, 0);
    ReadPads(v1 % 16);
  }

  /** Decoding undoes encoding, for every byte string. */
  lemma {:induction false} EncodeDecodes(b: seq<Byte>)
    ensures UrlDecode(Encode(b)) == Ok(b)
    decreases |b|
  {
    hide UrlDecode, UrlChar;
    if |b| == 0 {
      DecodeEmpty();
    } else if |b| == 1 {
      DecodeOne(b[0]);
      assert b == [b[0]] + [];
    } else if |b| == 2 {
      DecodeTwo(b[0], b[1]);
      assert b == [b[0]] + ([b[1]] + []);
    } else {
      DecodeGroup(b[0], b[1], b[2], Encode(b[3..]));
      EncodeDecodes(b[3..]);
      assert b == [b[0]] + ([b[1]] + ([b[2]] + b[3..]));
    }
  }

  lemma DecodeEmpty()
    ensures UrlDecode("") == Ok([])
  {
  }

  /** How many '=' end the encoding of `n` bytes. */
  function Pads(n: nat): nat {
    if n % 3 == 0 then 0 else 3 - n % 3
  }

  predicate Plain(c: char) {
    c != '=' && (c as int) < 128
  }

  lemma PadsPeriodic(n: nat)
    requires n >= 3
    ensures Pads(n) == Pads(n - 3)
  {
  }

  lemma EncodeGroup(b: seq<Byte>)
    requires |b| >= 3
    ensures |Encode(b)| >= 4 && Encode(b)[4..] == Encode(b[3..])
    ensures forall i :: 0 <= i < 4 ==> Plain(Encode(b)[i])
  {
    hide UrlChar;
    ValueOfUrlChar(b[0] / 4);
    ValueOfUrlChar(b[0] % 4 * 16 + b[1] / 16);
    ValueOfUrlChar(b[1] % 16 * 4 + b[2] / 64);
    ValueOfUrlChar(b[2] % 64);
  }

  lemma ShortShape(b: seq<Byte>) returns (body: string)
    requires |b| < 3
    ensures Encode(b) == body + Pad(Pads(|b|)) && |Encode(b)| % 4 == 0
    ensures forall i :: 0 <= i < |body| ==> Plain(body[i])
  {
    hide UrlChar;
    assert Pad(1) == "=" && Pad(2) == "==";
    if |b| == 0 {
      body := "";
    } else if |b| == 1 {
      ValueOfUrlChar(b[0] / 4);
      ValueOfUrlChar(b[0] % 4 * 16);
      body := [UrlChar(b[0] / 4), UrlChar(b[0] % 4 * 16)];
    } else {
      ValueOfUrlChar(b[0] / 4);
      ValueOfUrlChar(b[0] % 4 * 16 + b[1] / 16);
      ValueOfUrlChar(b[1] % 16 * 4);
      body := [UrlChar(b[0] / 4), UrlChar(b[0] % 4 * 16 + b[1] / 16), UrlChar(b[1] % 16 * 4)];
    }
  }

  /** An encoding is whole groups: plain characters, then its pads. */
  lemma {:induction false} EncodeShape(b: seq<Byte>) returns (body: string)
    ensures Encode(b) == body + Pad(Pads(|b|)) && |Encode(b)| % 4 == 0
    ensures forall i :: 0 <= i < |body| ==> Plain(body[i])
    decreases |b|
  {
    hide *;
    if |b| >= 3 {
      EncodeGroup(b);
      PadsPeriodic(|b|);
      var rest := EncodeShape(b[3..]);
      var head := Encode(b)[..4];
      body := head + rest;
      assert Encode(b) == head + Encode(b[3..]);
      assert head + (rest + Pad(Pads(|b|))) == body + Pad(Pads(|b|));
      forall i | 0 <= i < |body| ensures Plain(body[i]) {
        if i < 4 {
          assert body[i] == Encode(b)[i];
        } else {
          assert body[i] == rest[i - 4];
        }
      }
    } else {
      body := ShortShape(b);
    }
  }

  /** Dropping any of the trailing '=' is repaired: the bytes come back. */
  lemma StrippedRoundTrip(b: seq<Byte>, drop: nat)
    requires drop <= Pads(|b|)
    ensures drop <= |Encode(b)|
    ensures B64ToBytes(Encode(b)[..|Encode(b)| - drop], true) == Ok(b)
  {
    hide Encode, Decode, Translate;
    var body := EncodeShape(b);
    EncodeDecodes(b);
    var e := Encode(b);
    var s := e[..|e| - drop];
    assert |s| % 4 == if drop == 0 then 0 else 4 - drop;
    assert e == s + e[|e| - drop..];
    assert e[|e| - drop..] == Pad(drop);
    assert forall i :: 0 <= i < |e| ==> (e[i] as int) < 128;
    assert Repair(s) == e;
  }

  // ---- Which unpadded texts decode ----

  predicate Unpadded(s: string) {
    forall i :: 0 <= i < |s| ==> Value(s[i]).Some?
  }

  predicate Fits(quad: nat, left: nat) {
    quad == 0 || (quad == 1 && left < 64) || (quad == 2 && left < 16) || (quad == 3 && left < 4)
  }

  /** Without padding behind it an alphabet text decodes only from and to a group boundary. */
  lemma {:induction false} DecodeUnpadded(s: string, n: nat, quad: nat, left: nat)
    requires Unpadded(s) && Fits(quad, left)
    requires quad < 4 && n == (if (quad + |s|) % 4 == 0 then 0 else 4 - (quad + |s|) % 4)
    ensures Decode(s, quad, left, 0).Ok? <==> (quad + |s|) % 4 == 0
    ensures Decode(s + Pad(n), quad, left, 0).Ok? <==> (quad + |s|) % 4 != 1
    decreases |s|
  {
    if s == [] {
      assert s + Pad(n) == Pad(n);
      DecodePads(quad, left);
    } else {
      assert (s + Pad(n))[1..] == s[1..] + Pad(n);
      assert (quad + 1) % 4 + |s[1..]| == quad + |s| || (quad + 1) % 4 + |s[1..]| + 4 == quad + |s|;
      hide Value, Pad;
      var v := Value(s[0]).value;
      DecodeUnpadded(s[1..], n, (quad + 1) % 4, if quad == 0 then v else if quad == 1 then v % 16 else if quad == 2 then v % 4 else 0);
    }
  }

  lemma DecodePads(quad: nat, left: nat)
    requires Fits(quad, left) && quad < 4
    ensures Decode(Pad(if quad == 0 then 0 else 4 - quad), quad, left, 0).Ok? <==> quad != 1
  {
    assert Pad(1) == "=" && Pad(2) == "==" && Pad(3) == "===";
    if quad == 1 {
      assert "==="[1..] == "==" && "=="[1..] == "=" && "="[1..] == "";
      assert Decode("=", 1, left, 0).Err?;
      assert Decode("==", 1, left, 0).Err?;
    } else if quad == 2 {
      assert "=="[1..] == "=";
      assert Decode("=", 2, left, 1).Ok?;
    }
  }

  /** A character of either alphabet. */
  predicate UrlText(s: string) {
    forall i :: 0 <= i < |s| ==> Value(s[i]).Some? || s[i] == '-' || s[i] == '_'
  }

  lemma {:induction false} TranslateJoin(s: string, t: string)
    ensures Translate(s + t) == Translate(s) + Translate(t)
    decreases |s|
  {
    if s == [] {
      assert s + t == t;
    } else {
      assert (s + t)[1..] == s[1..] + t;
      TranslateJoin(s[1..], t);
    }
  }

  lemma {:induction false} TranslatePad(n: nat)
    ensures Translate(Pad(n)) == Pad(n)
    decreases n
  {
    if n > 0 {
      assert Pad(n)[1..] == Pad(n - 1);
      TranslatePad(n - 1);
    }
  }

  lemma {:induction false} TranslateUrl(s: string)
    requires UrlText(s)
    ensures Unpadded(Translate(s))
    decreases |s|
  {
    if s != [] {
      TranslateUrl(s[1..]);
      assert Value(Translate(s)[0]).Some?;
      assert Translate(s) == [Translate(s)[0]] + Translate(s[1..]);
    }
  }

  /** The repaired decoder takes every unpadded length but 4n + 1. */
  lemma RepairReach(s: string)
    requires UrlText(s)
    ensures B64ToBytes(s, true).Ok? <==> |s| % 4 != 1
  {
    var n := if |s| % 4 == 0 then 0 else 4 - |s| % 4;
    TranslateJoin(s, Pad(n));
    TranslatePad(n);
    TranslateUrl(s);
    DecodeUnpadded(Translate(s), n, 0, 0);
    assert s + Pad(0) == s;
    assert Translate(s) + Pad(0) == Translate(s);
    assert forall i :: 0 <= i < |s| ==> (s[i] as int) < 128;
  }

  /** Without repair only whole groups decode. */
  lemma PlainReach(s: string)
    requires Unpadded(s)
    ensures B64ToBytes(s, false).Ok? <==> |s| % 4 == 0
  {
    DecodeUnpadded(s, if |s| % 4 == 0 then 0 else 4 - |s| % 4, 0, 0);
    assert forall i :: 0 <= i < |s| ==> Value(s[i]).Some?;
    assert forall i :: 0 <= i < |s| ==> (s[i] as int) < 128;
  }

  // ---- Other texts ----

  /** Text outside ASCII is refused before any decoding. */
  lemma NonAsciiFails(s: string, i: nat, urlsafe: bool)
    requires i < |s| && s[i] as int >= 128
    ensures B64ToBytes(s, urlsafe) == Err(NotAscii)
  {
  }

  lemma {:induction false} DecodeSkips(a: string, c: char, b: string, quad: nat, left: nat, pads: nat)
    requires Fits(quad, left) && Value(c).None? && c != '='
    ensures Decode(a + [c] + b, quad, left, pads) == Decode(a + b, quad, left, pads)
    decreases |a|
  {
    if a == [] {
      assert [] + [c] + b == [c] + b && ([c] + b)[1..] == b && [] + b == b;
    } else {
      assert (a + [c] + b)[1..] == a[1..] + [c] + b && (a + b)[1..] == a[1..] + b;
      var rest, v := a[1..], if Value(a[0]).Some? then Value(a[0]).value else 0;
      hide Value;
      DecodeSkips(rest, c, b, quad, left, pads);
      DecodeSkips(rest, c, b, quad, left, pads + 1);
      DecodeSkips(rest, c, b, if quad == 3 then 0 else quad + 1,
                  if quad == 0 then v else if quad == 1 then v % 16 else if quad == 2 then v % 4 else 0, 0);
    }
  }

  /** A character of neither alphabet nor padding is passed over. */
  lemma JunkSkipped(a: string, c: char, b: string)
    requires Value(c).None? && c != '='
    ensures B64Decode(a + [c] + b) == B64Decode(a + b)
  {
    DecodeSkips(a, c, b, 0, 0, 0);
  }
}
