/** Splitting, joining, trimming and decimal text, shared by the line-oriented formats. */
module Text {

  datatype Option<+T> = None | Some(value: T)

  predicate Clean(part: string, seps: set<char>) {
    forall c :: c in part ==> c !in seps
  }

  predicate AllClean(parts: seq<string>, seps: set<char>) {
    forall i :: 0 <= i < |parts| ==> Clean(parts[i], seps)
  }

  predicate NoneEmpty(parts: seq<string>) {
    forall i :: 0 <= i < |parts| ==> parts[i] != []
  }

  /** Cuts `s` at every separator; empty pieces are kept, so there is always one piece. */
  function Split(s: string, seps: set<char>): (parts: seq<string>)
    ensures |parts| >= 1
    ensures AllClean(parts, seps)
  {
    if s == [] then [[]]
    else
      Push(s[0], Split(s[1..], seps), seps)
  }

  /** Unicode white space. */
  predicate IsSpace(c: char) {
    var p := c as int;
    || 9 <= p <= 13 || p == 0x20 || p == 0x85 || p == 0xA0 || p == 0x1680 || 0x2000 <= p <= 0x200A
    || p == 0x2028 || p == 0x2029 || p == 0x202F || p == 0x205F || p == 0x3000
  }

  function Trim(s: string): string {
    if s == [] then s
    else if IsSpace(s[0]) then Trim(s[1..])
    else if IsSpace(s[|s| - 1]) then Trim(s[..|s| - 1])
    else s
  }

  predicate Blank(s: string) {
    forall i :: 0 <= i < |s| ==> IsSpace(s[i])
  }

  /** White space in front and behind goes, and nothing else. */
  lemma {:induction false} TrimIs(before: string, text: string, after: string)
    requires Blank(before) && Blank(after)
    requires text == "" || (!IsSpace(text[0]) && !IsSpace(text[|text| - 1]))
    ensures Trim(before + text + after) == text
    decreases |before| + |after|
  {
    hide IsSpace;
    var s := before + text + after;
    if before != [] {
      assert s[1..] == before[1..] + text + after;
      TrimIs(before[1..], text, after);
    } else if after != [] {
      if text == [] {
        assert s[1..] == before + text + after[1..];
        TrimIs(before, text, after[1..]);
      } else {
        assert s[..|s| - 1] == before + text + after[..|after| - 1];
        TrimIs(before, text, after[..|after| - 1]);
      }
    }
  }

  function Join(parts: seq<string>, sep: char): string {
    if parts == [] then []
    else if |parts| == 1 then parts[0]
    else parts[0] + [sep] + Join(parts[1..], sep)
  }

  function NonEmpty(parts: seq<string>): (r: seq<string>)
    ensures NoneEmpty(r)
    ensures forall p :: p in r ==> p in parts
  {
    if parts == [] then []
    else (if parts[0] == [] then [] else [parts[0]]) + NonEmpty(parts[1..])
  }

  /** The maximal separator-free non-empty pieces of `s`. */
  function Tokens(s: string, seps: set<char>): seq<string> {
    NonEmpty(Split(s, seps))
  }

  lemma {:induction false} SplitClean(p: string, seps: set<char>)
    requires Clean(p, seps)
    ensures Split(p, seps) == [p]
  {
    if p != [] {
      SplitClean(p[1..], seps);
      assert [p[0]] + p[1..] == p;
    }
  }

  lemma {:induction false} SplitFirst(p: string, sep: char, rest: string, seps: set<char>)
    requires Clean(p, seps) && sep in seps
    ensures Split(p + [sep] + rest, seps) == [p] + Split(rest, seps)
  {
    var s := p + [sep] + rest;
    if p == [] {
      assert s[1..] == rest;
    } else {
      assert s[1..] == p[1..] + [sep] + rest;
      SplitFirst(p[1..], sep, rest, seps);
      assert [p[0]] + p[1..] == p;
      assert ([p[1..]] + Split(rest, seps))[1..] == Split(rest, seps);
    }
  }

  lemma {:induction false} SplitJoin(parts: seq<string>, sep: char, seps: set<char>)
    requires parts != [] && AllClean(parts, seps) && sep in seps
    ensures Split(Join(parts, sep), seps) == parts
  {
    if |parts| == 1 {
      SplitClean(parts[0], seps);
    } else {
      SplitFirst(parts[0], sep, Join(parts[1..], sep), seps);
      SplitJoin(parts[1..], sep, seps);
    }
  }

  lemma {:induction false} JoinSplit(s: string, sep: char)
    ensures Join(Split(s, {sep}), sep) == s
  {
    if s != [] {
      JoinSplit(s[1..], sep);
      var rest := Split(s[1..], {sep});
      if s[0] == sep {
        assert ([[]] + rest)[1..] == rest;
      } else if |rest| > 1 {
        assert ([[s[0]] + rest[0]] + rest[1..])[1..] == rest[1..];
      }
    }
  }

  /** What `Split` does with one more character in front. */
  function Push(c: char, rest: seq<string>, seps: set<char>): seq<string>
    requires |rest| >= 1
  {
    if c in seps then [[]] + rest else [[c] + rest[0]] + rest[1..]
  }

  lemma PushPiece(c: char, l: seq<string>, r: seq<string>, seps: set<char>)
    requires |l| >= 1
    ensures Push(c, l + r, seps) == Push(c, l, seps) + r
  {
    assert (l + r)[1..] == l[1..] + r;
  }

  /** A separator cuts no matter what surrounds it. */
  lemma {:induction false} SplitConcat(a: string, sep: char, b: string, seps: set<char>)
    requires sep in seps
    ensures Split(a + [sep] + b, seps) == Split(a, seps) + Split(b, seps)
  {
    var s := a + [sep] + b;
    if a == [] {
      assert s[1..] == b;
    } else {
      assert s[1..] == a[1..] + [sep] + b;
      SplitConcat(a[1..], sep, b, seps);
      PushPiece(a[0], Split(a[1..], seps), Split(b, seps), seps);
    }
  }

  /** Separator-free text in front joins the first piece. */
  lemma {:induction false} SplitPrefix(p: string, s: string, seps: set<char>)
    requires Clean(p, seps)
    ensures Split(p + s, seps) == [p + Split(s, seps)[0]] + Split(s, seps)[1..]
  {
    if p == [] {
      assert p + s == s && p + Split(s, seps)[0] == Split(s, seps)[0];
    } else {
      assert (p + s)[1..] == p[1..] + s;
      SplitPrefix(p[1..], s, seps);
      var t := Split(s, seps);
      assert ([p[1..] + t[0]] + t[1..])[1..] == t[1..];
      assert [p[0]] + (p[1..] + t[0]) == p + t[0];
    }
  }

  lemma {:induction false} NonEmptyConcat(a: seq<string>, b: seq<string>)
    ensures NonEmpty(a + b) == NonEmpty(a) + NonEmpty(b)
  {
    if a == [] {
      assert a + b == b;
    } else {
      assert (a + b)[1..] == a[1..] + b;
      NonEmptyConcat(a[1..], b);
    }
  }

  lemma {:induction false} NonEmptyAll(parts: seq<string>)
    requires NoneEmpty(parts)
    ensures NonEmpty(parts) == parts
  {
    if parts != [] {
      NonEmptyAll(parts[1..]);
      assert [parts[0]] + parts[1..] == parts;
    }
  }

  lemma TokensJoin(parts: seq<string>, sep: char, seps: set<char>)
    requires AllClean(parts, seps) && sep in seps
    requires NoneEmpty(parts)
    ensures Tokens(Join(parts, sep), seps) == parts
  {
    if parts != [] {
      SplitJoin(parts, sep, seps);
      NonEmptyAll(parts);
    } else {
      assert Split([], seps) == [[]];
      assert NonEmpty([[]]) == [];
    }
  }

  // ----- ASCII case

  function LowerChar(c: char): char { if 'A' <= c <= 'Z' then (c as int + 32) as char else c }

  lemma LowerLetters(c: char)
    ensures LowerChar(c) != c <==> 'A' <= c <= 'Z'
    ensures LowerChar(c) != c ==> LowerChar(c) as int - 'a' as int == c as int - 'A' as int
  {
  }

  /** `to_ascii_lowercase`: same length, position by position. */
  function Lower(s: string): (r: string)
    ensures |r| == |s| && forall i :: 0 <= i < |s| ==> r[i] == LowerChar(s[i])
  {
    seq(|s|, i requires 0 <= i < |s| => LowerChar(s[i]))
  }

  // ----- newline-terminated lines

  function Unlines(lines: seq<string>): string {
    if lines == [] then [] else lines[0] + "\n" + Unlines(lines[1..])
  }

  lemma {:induction false} UnlinesAppend(lines: seq<string>, line: string)
    ensures Unlines(lines + [line]) == Unlines(lines) + line + "\n"
  {
    if lines == [] {
      assert Unlines([line]) == line + "\n" + Unlines([]);
    } else {
      assert (lines + [line])[1..] == lines[1..] + [line];
      UnlinesAppend(lines[1..], line);
    }
  }

  lemma {:induction false} SplitUnlines(lines: seq<string>, seps: set<char>)
    requires AllClean(lines, seps) && '\n' in seps
    ensures Split(Unlines(lines), seps) == lines + [""]
  {
    if lines != [] {
      SplitFirst(lines[0], '\n', Unlines(lines[1..]), seps);
      SplitUnlines(lines[1..], seps);
      assert [lines[0]] + (lines[1..] + [""]) == lines + [""];
    }
  }

  // ----- decimal numbers

  predicate IsDigit(c: char) { '0' <= c <= '9' }

  function Digit(d: nat): (c: char)
    requires d < 10
    ensures IsDigit(c) && c as int - '0' as int == d
  {
    ('0' as int + d) as char
  }

  function Decimal(n: nat): (s: string)
    ensures s != [] && forall c :: c in s ==> IsDigit(c)
  {
    if n < 10 then [Digit(n)] else Decimal(n / 10) + [Digit(n % 10)]
  }

  function ParseNat(s: string): Option<nat> {
    if s == [] || !IsDigit(s[|s| - 1]) then None
    else
      var d := s[|s| - 1] as int - '0' as int;
      if |s| == 1 then Some(d)
      else
        var high := ParseNat(s[..|s| - 1]);
        if high.None? then None else Some(10 * high.value + d)
  }

  lemma {:induction false} ParseDecimal(n: nat)
    ensures ParseNat(Decimal(n)) == Some(n)
  {
    if n >= 10 {
      ParseDecimal(n / 10);
      var s := Decimal(n);
      assert s[..|s| - 1] == Decimal(n / 10);
    }
  }

  /** `n` without its last `k` digits. */
  function Shortened(n: nat, k: nat): nat {
    if k == 0 then n else Shortened(n / 10, k - 1)
  }

  /** The digits, most significant first, none in front that is not needed. */
  lemma {:induction false} DecimalPlaces(n: nat, k: nat)
    ensures var s := Decimal(n);
      && Shortened(n, |s|) == 0 && (|s| > 1 ==> Shortened(n, |s| - 1) > 0)
      && (k < |s| ==> s[|s| - 1 - k] == "0123456789"[Shortened(n, k) % 10])
  {
    if n >= 10 {
      DecimalPlaces(n / 10, if k == 0 then 0 else k - 1);
    }
  }

  lemma DecimalInjective(a: nat, b: nat)
    requires Decimal(a) == Decimal(b)
    ensures a == b
  {
    ParseDecimal(a);
    ParseDecimal(b);
  }

  /** `%d` */
  function ShowInt(i: int): (s: string)
    ensures s != [] && forall c :: c in s ==> IsDigit(c) || c == '-'
  {
    if i < 0 then "-" + Decimal(-i) else Decimal(i)
  }

  /** `int(s)` on an optionally signed run of ASCII digits. */
  function ParseInt(s: string): Option<int> {
    if s != [] && (s[0] == '-' || s[0] == '+') then
      match ParseNat(s[1..])
      case None => None
      case Some(n) => Some(if s[0] == '-' then -(n as int) else n as int)
    else
      match ParseNat(s)
      case None => None
      case Some(n) => Some(n as int)
  }

  lemma ParseShowInt(i: int)
    ensures ParseInt(ShowInt(i)) == Some(i)
  {
    hide Decimal, ParseNat;
    var n := if i < 0 then -i else i;
    ParseDecimal(n);
    assert ("-" + Decimal(n))[1..] == Decimal(n);
    assert Decimal(n)[0] in Decimal(n);
  }
}
