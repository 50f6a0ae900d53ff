/** The UTF-8 decoder and word mapper of `zxcvbn_translit.cpp`, against RFC 3629. */
module Utf8 {
  import opened Octets
  import opened Text

  // ----- RFC 3629

  /** Unicode scalar values. */
  predicate IsScalar(p: nat) { p <= 0x10FFFF && !(0xD800 <= p <= 0xDFFF) }

  /** Section 3: the octets of one scalar value. */
  function Encode(p: nat): (s: seq<byte>)
    requires IsScalar(p)
    ensures 1 <= |s| <= 4
  {
    if p < 0x80 then [p]
    else if p < 0x800 then [0xC0 + p / 64, 0x80 + p % 64]
    else if p < 0x10000 then [0xE0 + p / 64 / 64, 0x80 + p / 64 % 64, 0x80 + p % 64]
    else [0xF0 + p / 64 / 64 / 64, 0x80 + p / 64 / 64 % 64, 0x80 + p / 64 % 64, 0x80 + p % 64]
  }

  predicate IsTail(b: byte) { 0x80 <= b <= 0xBF }

  /** Section 4: the grammar of one character. */
  predicate IsChar(s: seq<byte>) {
    || (|s| == 1 && s[0] <= 0x7F)
    || (|s| == 2 && 0xC2 <= s[0] <= 0xDF && IsTail(s[1]))
    || (|s| == 3 && IsTail(s[2]) && (
          || (s[0] == 0xE0 && 0xA0 <= s[1] <= 0xBF)
          || (0xE1 <= s[0] <= 0xEC && IsTail(s[1]))
          || (s[0] == 0xED && 0x80 <= s[1] <= 0x9F)
          || (0xEE <= s[0] <= 0xEF && IsTail(s[1]))))
    || (|s| == 4 && IsTail(s[2]) && IsTail(s[3]) && (
          || (s[0] == 0xF0 && 0x90 <= s[1] <= 0xBF)
          || (0xF1 <= s[0] <= 0xF3 && IsTail(s[1]))
          || (s[0] == 0xF4 && 0x80 <= s[1] <= 0x8F)))
  }

  /** Section 4: UTF8-octets = *( UTF8-char ). */
  ghost predicate WellFormed(s: seq<byte>) {
    s == [] || exists n :: 1 <= n <= |s| && IsChar(s[..n]) && WellFormed(s[n..])
  }

  predicate AllScalars(ps: seq<nat>) { forall i :: 0 <= i < |ps| ==> IsScalar(ps[i]) }

  function EncodeAll(ps: seq<nat>): seq<byte>
    requires AllScalars(ps)
  {
    if ps == [] then [] else Encode(ps[0]) + EncodeAll(ps[1..])
  }

  // ----- the decoder

  datatype Decoded = Decoded(point: nat, length: nat)

  const NOTHING := Decoded(0, 0)

  function ByteAt(text: seq<byte>, index: nat): byte {
    if index < |text| then text[index] else 0
  }

  /** `point` after k continuation bytes; None once a byte is not one. */
  function Continue(text: seq<byte>, from: nat, start: nat, k: nat): Option<nat> {
    if k == 0 then Some(start)
    else
      match Continue(text, from, start, k - 1)
      case None => None
      case Some(point) =>
        var next := ByteAt(text, from + k);
        if next < 0x80 || next > 0xBF then None else Some(point * 64 + next % 64)
  }

  function Finish(point: Option<nat>, minimum: nat, length: nat): Decoded {
    if point.None? || point.value < minimum || 0xD800 <= point.value <= 0xDFFF || point.value > 0x10FFFF then NOTHING
    else Decoded(point.value, length)
  }

  function Decode(text: seq<byte>, from: nat): Decoded {
    var first := ByteAt(text, from);
    if first < 0x80 then Decoded(first, 1)
    else if 0xC2 <= first <= 0xDF then Finish(Continue(text, from, first % 32, 1), 0x80, 2)
    else if 0xE0 <= first <= 0xEF then Finish(Continue(text, from, first % 16, 2), 0x800, 3)
    else if 0xF0 <= first <= 0xF4 then Finish(Continue(text, from, first % 8, 3), 0x10000, 4)
    else NOTHING
  }

  method DecodeUtf8(text: seq<byte>, from: nat) returns (d: Decoded)
    ensures d == Decode(text, from)
  {
    var first := ByteAt(text, from);
    var length, minimum, point: nat := 0, 0, 0;
    if first < 0x80 {
      return Decoded(first, 1);
    } else if 0xC2 <= first <= 0xDF {
      length, minimum, point := 2, 0x80, first % 32;
    } else if 0xE0 <= first <= 0xEF {
      length, minimum, point := 3, 0x800, first % 16;
    } else if 0xF0 <= first <= 0xF4 {
      length, minimum, point := 4, 0x10000, first % 8;
    } else {
      return NOTHING;
    }
    ghost var start := point;
    var i := 1;
    while i != length
      invariant 1 <= i <= length
      invariant Continue(text, from, start, i - 1) == Some(point)
    {
      var next := ByteAt(text, from + i);
      if next < 0x80 || next > 0xBF {
        ContinueFails(text, from, start, i, length - 1);
        return NOTHING;
      }
      point := point * 64 + next % 64;
      i := i + 1;
    }
    if point < minimum || 0xD800 <= point <= 0xDFFF || point > 0x10FFFF {
      return NOTHING;
    }
    return Decoded(point, length);
  }

  lemma {:induction false} ContinueFails(text: seq<byte>, from: nat, start: nat, k: nat, n: nat)
    requires k <= n && Continue(text, from, start, k).None?
    ensures Continue(text, from, start, n).None?
  {
    if k < n { ContinueFails(text, from, start, k, n - 1); }
  }

  // ----- grammar, encoding and decoder agree

  /** The scalar value a grammatical character stands for. */
  function Point(s: seq<byte>): nat
    requires IsChar(s)
  {
    var b := (i: nat) requires i < |s| => s[i] as int;
    if |s| == 1 then b(0)
    else if |s| == 2 then (b(0) - 0xC0) * 64 + (b(1) - 0x80)
    else if |s| == 3 then ((b(0) - 0xE0) * 64 + (b(1) - 0x80)) * 64 + (b(2) - 0x80)
    else (((b(0) - 0xF0) * 64 + (b(1) - 0x80)) * 64 + (b(2) - 0x80)) * 64 + (b(3) - 0x80)
  }

  lemma Digits(a: nat, b: nat, c: nat, d: nat)
    requires b < 64 && c < 64 && d < 64
    ensures var p := ((a * 64 + b) * 64 + c) * 64 + d;
      && p % 64 == d && p / 64 == (a * 64 + b) * 64 + c
      && p / 64 % 64 == c && p / 64 / 64 == a * 64 + b
      && p / 64 / 64 % 64 == b && p / 64 / 64 / 64 == a
  {
  }

  /** Section 4's characters are exactly section 3's encodings. */
  lemma CharIsEncoding(s: seq<byte>)
    requires IsChar(s)
    ensures IsScalar(Point(s)) && Encode(Point(s)) == s
  {
    if |s| == 4 {
      FourIsEncoding(s);
    } else if |s| == 3 {
      ThreeIsEncoding(s);
    } else if |s| == 2 {
      Digits(0, 0, s[0] as int - 0xC0, s[1] as int - 0x80);
    }
  }

  lemma ThreeIsEncoding(s: seq<byte>)
    requires IsChar(s) && |s| == 3
    ensures IsScalar(Point(s)) && Encode(Point(s)) == s
  {
    Digits(0, s[0] as int - 0xE0, s[1] as int - 0x80, s[2] as int - 0x80);
    assert 0x800 <= Point(s) < 0x10000;
  }

  lemma FourIsEncoding(s: seq<byte>)
    requires IsChar(s) && |s| == 4
    ensures IsScalar(Point(s)) && Encode(Point(s)) == s
  {
    Digits(s[0] as int - 0xF0, s[1] as int - 0x80, s[2] as int - 0x80, s[3] as int - 0x80);
    assert 0x10000 <= Point(s) <= 0x10FFFF;
  }

  lemma EncodingIsChar(p: nat)
    requires IsScalar(p)
    ensures IsChar(Encode(p)) && Point(Encode(p)) == p
  {
  }

  lemma Bits(first: byte, b: byte)
    ensures IsTail(b) ==> b % 64 == b - 0x80
    ensures 0xC0 <= first < 0xE0 ==> first % 32 == first - 0xC0
    ensures 0xE0 <= first < 0xF0 ==> first % 16 == first - 0xE0
    ensures 0xF0 <= first < 0xF8 ==> first % 8 == first - 0xF0
  {
  }

  /** What the decoder makes of two, three or four bytes. */
  lemma ContinueBytes(text: seq<byte>, from: nat, start: nat)
    ensures var b1, b2, b3 := ByteAt(text, from + 1) as int, ByteAt(text, from + 2) as int, ByteAt(text, from + 3) as int;
      && Continue(text, from, start, 1) == (if IsTail(b1) then Some(start * 64 + (b1 - 0x80)) else None)
      && Continue(text, from, start, 2) ==
           (if IsTail(b1) && IsTail(b2) then Some((start * 64 + (b1 - 0x80)) * 64 + (b2 - 0x80)) else None)
      && Continue(text, from, start, 3) ==
           (if IsTail(b1) && IsTail(b2) && IsTail(b3)
            then Some(((start * 64 + (b1 - 0x80)) * 64 + (b2 - 0x80)) * 64 + (b3 - 0x80)) else None)
  {
    var b1, b2, b3 := ByteAt(text, from + 1), ByteAt(text, from + 2), ByteAt(text, from + 3);
    Bits(0, b1);
    Bits(0, b2);
    Bits(0, b3);
    assert Continue(text, from, start, 0) == Some(start);
    assert Continue(text, from, start, 1) == if IsTail(b1) then Some(start * 64 + b1 % 64) else None;
  }

  /** The number of bytes the grammar takes at `from`, 0 when it takes none. */
  function CharLength(text: seq<byte>, from: nat): nat
    requires from < |text|
  {
    var left := |text| - from;
    if IsChar(text[from..from + 1]) then 1
    else if left >= 2 && IsChar(text[from..from + 2]) then 2
    else if left >= 3 && IsChar(text[from..from + 3]) then 3
    else if left >= 4 && IsChar(text[from..from + 4]) then 4
    else 0
  }

  lemma CharLengthIs(text: seq<byte>, from: nat)
    requires from < |text|
    ensures var n := CharLength(text, from);
      n > 0 ==> from + n <= |text| && IsChar(text[from..from + n])
  {
  }

  lemma CharLengthOnly(text: seq<byte>, from: nat, n: nat)
    requires 0 < n && from + n <= |text| && IsChar(text[from..from + n])
    ensures n == CharLength(text, from)
  {
    var left := |text| - from;
    assert text[from..from + 1][0] == text[from];
    assert left >= 2 ==> text[from..from + 2][0] == text[from];
    assert left >= 3 ==> text[from..from + 3][0] == text[from];
    assert left >= 4 ==> text[from..from + 4][0] == text[from];
  }

  /** The decoder takes exactly the grammar's character, with its scalar value, and refuses everything else. */
  lemma DecodeIsGrammar(text: seq<byte>, from: nat)
    requires from < |text|
    ensures var n := CharLength(text, from);
      Decode(text, from)
      == if n == 0 then NOTHING else (CharLengthIs(text, from); Decoded(Point(text[from..from + n]), n))
  {
    CharLengthIs(text, from);
    var first := text[from];
    Bits(first, 0);
    if 0xC2 <= first <= 0xDF {
      DecodeTwo(text, from);
    } else if 0xE0 <= first <= 0xEF {
      DecodeThree(text, from);
    } else if 0xF0 <= first <= 0xF4 {
      DecodeFour(text, from);
    }
  }

  lemma DecodeTwo(text: seq<byte>, from: nat)
    requires from < |text| && 0xC2 <= text[from] <= 0xDF
    ensures var n := CharLength(text, from);
      Decode(text, from)
      == if n == 0 then NOTHING else (CharLengthIs(text, from); Decoded(Point(text[from..from + n]), n))
  {
    hide Continue;
    Bits(text[from], 0);
    ContinueBytes(text, from, text[from] % 32);
  }

  lemma DecodeThree(text: seq<byte>, from: nat)
    requires from < |text| && 0xE0 <= text[from] <= 0xEF
    ensures var n := CharLength(text, from);
      Decode(text, from)
      == if n == 0 then NOTHING else (CharLengthIs(text, from); Decoded(Point(text[from..from + n]), n))
  {
    hide Continue;
    Bits(text[from], 0);
    ContinueBytes(text, from, text[from] % 16);
  }

  lemma DecodeFour(text: seq<byte>, from: nat)
    requires from < |text| && 0xF0 <= text[from] <= 0xF4
    ensures var n := CharLength(text, from);
      Decode(text, from)
      == if n == 0 then NOTHING else (CharLengthIs(text, from); Decoded(Point(text[from..from + n]), n))
  {
    hide Continue;
    Bits(text[from], 0);
    ContinueBytes(text, from, text[from] % 8);
  }

  /** A decoded scalar re-encodes to the bytes it was read from. */
  lemma DecodeSound(text: seq<byte>, from: nat)
    requires from < |text| && Decode(text, from).length > 0
    ensures var d := Decode(text, from);
      && from + d.length <= |text| && IsScalar(d.point)
      && text[from..from + d.length] == Encode(d.point)
  {
    hide Decode, Encode, IsChar, Point, CharLength;
    DecodeIsGrammar(text, from);
    CharLengthIs(text, from);
    CharIsEncoding(text[from..from + CharLength(text, from)]);
  }

  /** Every encoded scalar decodes, whatever follows it. */
  lemma DecodeComplete(text: seq<byte>, from: nat, p: nat)
    requires IsScalar(p) && from + |Encode(p)| <= |text| && text[from..from + |Encode(p)|] == Encode(p)
    ensures Decode(text, from) == Decoded(p, |Encode(p)|)
  {
    hide Decode, Encode, IsChar, Point, CharLength;
    EncodingIsChar(p);
    DecodeIsGrammar(text, from);
    CharLengthOnly(text, from, |Encode(p)|);
  }

  // ----- words

  ghost predicate IsReading(word: seq<byte>, ps: seq<nat>) {
    AllScalars(ps) && EncodeAll(ps) == word
  }

  /** Reading is deterministic: scalars that spell a prefix are the first scalars of the whole. */
  lemma {:induction false} PrefixUnique(ps: seq<nat>, qs: seq<nat>, rest: seq<byte>)
    requires AllScalars(ps) && AllScalars(qs) && EncodeAll(qs) == EncodeAll(ps) + rest
    ensures |ps| <= |qs| && ps == qs[..|ps|] && AllScalars(qs[|ps|..]) && EncodeAll(qs[|ps|..]) == rest
  {
    hide Encode;
    if ps == [] {
      assert qs[0..] == qs && EncodeAll(ps) + rest == rest;
    } else {
      var text := EncodeAll(qs);
      assert text == Encode(ps[0]) + (EncodeAll(ps[1..]) + rest);
      DecodeComplete(text, 0, ps[0]);
      DecodeComplete(text, 0, qs[0]);
      assert text[|Encode(ps[0])|..] == EncodeAll(ps[1..]) + rest;
      assert text[|Encode(ps[0])|..] == EncodeAll(qs[1..]);
      PrefixUnique(ps[1..], qs[1..], rest);
      assert qs[|ps|..] == qs[1..][|ps| - 1..];
      assert ps == [ps[0]] + ps[1..] && qs[..|ps|] == [qs[0]] + qs[1..][..|ps| - 1];
    }
  }

  lemma {:induction false} EncodeAllAppend(ps: seq<nat>, p: nat)
    requires AllScalars(ps) && IsScalar(p)
    ensures EncodeAll(ps + [p]) == EncodeAll(ps) + Encode(p)
  {
    hide Encode;
    if ps == [] {
      assert EncodeAll([p]) == Encode(p) + EncodeAll([]);
    } else {
      assert (ps + [p])[1..] == ps[1..] + [p];
      EncodeAllAppend(ps[1..], p);
    }
  }

  /** A word is well-formed exactly when it spells scalars. */
  lemma {:induction false} WellFormedIff(s: seq<byte>)
    ensures WellFormed(s) <==> exists ps :: IsReading(s, ps)
    decreases |s|
  {
    hide Encode, IsChar, Point;
    if s == [] {
      assert IsReading(s, []);
    } else {
      if WellFormed(s) {
        var n :| 1 <= n <= |s| && IsChar(s[..n]) && WellFormed(s[n..]);
        WellFormedIff(s[n..]);
        var ps :| IsReading(s[n..], ps);
        CharIsEncoding(s[..n]);
        assert ([Point(s[..n])] + ps)[1..] == ps;
        assert s == s[..n] + s[n..];
        assert IsReading(s, [Point(s[..n])] + ps);
      }
      if ps :| IsReading(s, ps) {
        var n := |Encode(ps[0])|;
        assert s[..n] == Encode(ps[0]) && s[n..] == EncodeAll(ps[1..]);
        EncodingIsChar(ps[0]);
        assert IsReading(s[n..], ps[1..]);
        WellFormedIff(s[n..]);
      }
    }
  }

  /** `TransliterateCyrillic(LowercaseCyrillic(point))`; None is the null pointer. */
  type Translit = nat -> Option<seq<byte>>

  function MapPoint(t: Translit, p: nat): Option<seq<byte>> {
    if p < 0x80 then Some([p]) else t(p)
  }

  /** The first k scalars, mapped one after the other. */
  function MapPoints(t: Translit, ps: seq<nat>, k: nat): Option<seq<byte>>
    requires k <= |ps|
  {
    if k == 0 then Some([])
    else
      match MapPoints(t, ps, k - 1)
      case None => None
      case Some(before) =>
        match MapPoint(t, ps[k - 1])
        case None => None
        case Some(piece) => Some(before + piece)
  }

  lemma {:induction false} MapPrefix(t: Translit, ps: seq<nat>, qs: seq<nat>, k: nat)
    requires k <= |ps| <= |qs| && ps == qs[..|ps|]
    ensures MapPoints(t, ps, k) == MapPoints(t, qs, k)
  {
    if k > 0 { MapPrefix(t, ps, qs, k - 1); }
  }

  lemma {:induction false} MapFails(t: Translit, ps: seq<nat>, k: nat, n: nat)
    requires k <= n <= |ps| && MapPoints(t, ps, k).None?
    ensures MapPoints(t, ps, n).None?
  {
    if k < n { MapFails(t, ps, k, n - 1); }
  }

  const MINIMUM_MAPPED_LENGTH: nat := 2

  ghost predicate MapsTo(word: seq<byte>, t: Translit, mapped: seq<byte>) {
    exists ps :: IsReading(word, ps) && MapPoints(t, ps, |ps|) == Some(mapped)
  }

  /** No reading of the word maps once a reading of a prefix does not continue or does not map. */
  lemma StuckPrefix(word: seq<byte>, t: Translit, from: nat, ps: seq<nat>)
    requires from < |word| && IsReading(word[..from], ps)
    requires Decode(word, from).length == 0 || MapPoint(t, Decode(word, from).point).None?
    ensures forall mapped :: !MapsTo(word, t, mapped)
  {
    hide Decode, Encode, MapPoint;
    forall qs | IsReading(word, qs) ensures MapPoints(t, qs, |qs|).None? {
      assert word == word[..from] + word[from..];
      PrefixUnique(ps, qs, word[from..]);
      var q := qs[|ps|..][0];
      assert word[from..] == Encode(q) + EncodeAll(qs[|ps|..][1..]);
      assert word[from..from + |Encode(q)|] == word[from..][..|Encode(q)|] == Encode(q);
      DecodeComplete(word, from, q);
      assert MapPoints(t, qs, |ps| + 1).None?;
      MapFails(t, qs, |ps| + 1, |qs|);
    }
  }

  /** True exactly when the word spells scalars that all map, to at least two bytes. */
  method MapWord(word: seq<byte>, t: Translit) returns (ok: bool, mapped: seq<byte>)
    ensures ok <==> exists m :: MapsTo(word, t, m) && |m| >= 2
    ensures ok ==> MapsTo(word, t, mapped)
  {
    hide Decode, Encode;
    mapped := [];
    var from := 0;
    ghost var ps: seq<nat> := [];
    while from < |word|
      invariant from <= |word|
      invariant IsReading(word[..from], ps)
      invariant MapPoints(t, ps, |ps|) == Some(mapped)
    {
      var decoded := DecodeUtf8(word, from);
      if decoded.length == 0 {
        StuckPrefix(word, t, from, ps);
        return false, mapped;
      }
      DecodeSound(word, from);
      ghost var next := ps + [decoded.point];
      EncodeAllAppend(ps, decoded.point);
      assert word[..from + decoded.length] == word[..from] + word[from..from + decoded.length];
      MapPrefix(t, ps, next, |ps|);
      if decoded.point < 0x80 {
        mapped := mapped + [decoded.point];
      } else {
        var latin := t(decoded.point);
        if latin.None? {
          StuckPrefix(word, t, from, ps);
          return false, mapped;
        }
        mapped := mapped + latin.value;
      }
      from := from + decoded.length;
      ps := next;
    }
    assert word[..from] == word;
    assert MapsTo(word, t, mapped);
    MapsToOnce(word, t, ps, mapped);
    ok := |mapped| >= MINIMUM_MAPPED_LENGTH;
  }

  lemma MapsToOnce(word: seq<byte>, t: Translit, ps: seq<nat>, mapped: seq<byte>)
    requires IsReading(word, ps) && MapPoints(t, ps, |ps|) == Some(mapped)
    ensures forall m :: MapsTo(word, t, m) ==> m == mapped
  {
    OneReading(word, ps);
  }

  lemma {:induction false} MapsWhenAllMap(t: Translit, ps: seq<nat>, k: nat)
    requires k <= |ps|
    ensures MapPoints(t, ps, k).Some? <==> forall i :: 0 <= i < k ==> MapPoint(t, ps[i]).Some?
  {
    hide MapPoint;
    if k > 0 { MapsWhenAllMap(t, ps, k - 1); }
  }

  /** A word maps exactly when it is well-formed and every scalar it spells maps. */
  lemma MapsIff(word: seq<byte>, t: Translit)
    ensures (exists m :: MapsTo(word, t, m)) <==>
              && WellFormed(word)
              && forall ps :: IsReading(word, ps) ==> forall i :: 0 <= i < |ps| ==> ps[i] < 0x80 || t(ps[i]).Some?
  {
    hide Encode, WellFormed;
    WellFormedIff(word);
    if m :| MapsTo(word, t, m) {
      var qs :| IsReading(word, qs) && MapPoints(t, qs, |qs|) == Some(m);
      MapsWhenAllMap(t, qs, |qs|);
      OneReading(word, qs);
    }
    if WellFormed(word) {
      var ps :| IsReading(word, ps);
      MapsWhenAllMap(t, ps, |ps|);
      assert MapPoints(t, ps, |ps|).Some? ==> MapsTo(word, t, MapPoints(t, ps, |ps|).value);
    }
  }

  /** One more letter: a letter below 128 maps to itself, any other to what the table has for it. */
  lemma OneMoreLetter(word: seq<byte>, p: nat, t: Translit, mapped: seq<byte>)
    requires WellFormed(word) && IsScalar(p)
    ensures MapsTo(word + Encode(p), t, mapped) <==>
              if p < 0x80 then exists before :: MapsTo(word, t, before) && mapped == before + [p]
              else t(p).Some? && exists before :: MapsTo(word, t, before) && mapped == before + t(p).value
    ensures MapsTo([], t, mapped) <==> mapped == []
  {
    hide Encode, WellFormed, MapsTo, IsReading, MapPoints;
    assert IsReading([], []) && MapPoints(t, [], 0) == Some([]) by { NothingMaps(t); }
    MapsAs([], t, []);
    WellFormedIff(word);
    var ps :| IsReading(word, ps);
    var qs := ps + [p];
    MapsMore(word, t, ps, p);
    MapsAs(word, t, ps);
    MapsAs(word + Encode(p), t, qs);
  }

  lemma NothingMaps(t: Translit)
    ensures IsReading([], []) && MapPoints(t, [], 0) == Some([])
  {
  }

  lemma MapsMore(word: seq<byte>, t: Translit, ps: seq<nat>, p: nat)
    requires IsReading(word, ps) && IsScalar(p)
    ensures IsReading(word + Encode(p), ps + [p])
    ensures MapPoints(t, ps + [p], |ps| + 1) ==
      match MapPoints(t, ps, |ps|)
      case None => None
      case Some(before) =>
        if p < 0x80 then Some(before + [p]) else if t(p).Some? then Some(before + t(p).value) else None
  {
    hide Encode;
    EncodeAllAppend(ps, p);
    MapPrefix(t, ps, ps + [p], |ps|);
  }

  /** What the one reading of a word maps to is what the word maps to. */
  lemma MapsAs(word: seq<byte>, t: Translit, ps: seq<nat>)
    requires IsReading(word, ps)
    ensures forall m :: MapsTo(word, t, m) <==> MapPoints(t, ps, |ps|) == Some(m)
  {
    hide Encode, MapPoints;
    OneReading(word, ps);
  }

  lemma OneReading(word: seq<byte>, ps: seq<nat>)
    requires IsReading(word, ps)
    ensures forall qs :: IsReading(word, qs) ==> qs == ps
  {
    hide Encode;
    forall qs | IsReading(word, qs) ensures qs == ps {
      assert word == word + [];
      PrefixUnique(ps, qs, []);
      assert qs == qs[..|ps|] + qs[|ps|..];
    }
  }
}
