/** The log scrubber of `logging.rs`. */
module Redaction {
  import opened Text

  const SENSITIVE_KEYS: seq<string> := [
    "password", "passwd", "passphrase", "secret", "token", "authorization", "apikey", "api_key",
    "openai_api_key", "private_key", "identity_file", "pgconnstring", "connstring", "dek", "kek",
    "salt", "verifier", "signature"]

  const BLOB_RUN_LEN: nat := 64

  predicate IsMark(c: char) { c == '=' || c == ':' || c == '"' }

  predicate Occurs(s: string, key: string, i: nat) {
    i + |key| <= |s| && s[i..i + |key|] == key
  }

  /** Some occurrence of `key` at or after `from` is followed by `=`, `:` or a quote. */
  ghost predicate Marked(s: string, key: string, from: nat) {
    exists i :: from <= i && Occurs(s, key, i) && i + |key| < |s|
      && (s[i + |key|] == '=' || s[i + |key|] == ':' || s[i + |key|] == '"')
  }

  /** `s[from..].find(key)`, as a position in `s`. */
  function Find(s: string, key: string, from: nat): (r: Option<nat>)
    ensures r.Some? ==> from <= r.value && Occurs(s, key, r.value)
    ensures forall i :: from <= i && Occurs(s, key, i) ==> r.Some? && r.value <= i
    decreases |s| - from
  {
    if from + |key| > |s| then None
    else if s[from..from + |key|] == key then Some(from)
    else Find(s, key, from + 1)
  }

  /** The non-overlapping search. */
  predicate Scan(s: string, key: string, from: nat)
    requires key != ""
    decreases |s| - from
  {
    match Find(s, key, from)
    case None => false
    case Some(i) =>
      var end := i + |key|;
      end < |s| && (IsMark(s[end]) || Scan(s, key, end))
  }

  method ValueAfterKey(tokenLower: string, key: string) returns (found: bool)
    requires key != ""
    ensures found == Scan(tokenLower, key, 0)
  {
    var searchFrom := 0;
    while true
      invariant searchFrom <= |tokenLower|
      invariant Scan(tokenLower, key, 0) == Scan(tokenLower, key, searchFrom)
      decreases |tokenLower| - searchFrom
    {
      var at := Find(tokenLower, key, searchFrom);
      if at.None? { return false; }
      var keyEnd := at.value + |key|;
      if keyEnd < |tokenLower| && IsMark(tokenLower[keyEnd]) { return true; }
      searchFrom := keyEnd;
      if searchFrom >= |tokenLower| { return false; }
    }
  }

  // ----- completeness of the search

  ghost predicate Border(key: string, b: nat) {
    0 < b < |key| && key[..b] == key[|key| - b..]
  }

  ghost predicate Unbordered(key: string) { forall b :: !Border(key, b) }

  ghost predicate NoMarks(key: string) { forall i :: 0 <= i < |key| ==> !IsMark(key[i]) }

  lemma {:induction false} ScanSound(s: string, key: string, from: nat)
    requires key != "" && Scan(s, key, from)
    ensures Marked(s, key, from)
    decreases |s| - from
  {
    var i := Find(s, key, from).value;
    if !IsMark(s[i + |key|]) {
      ScanSound(s, key, i + |key|);
    }
  }

  /** Overlapping occurrences give the key a border. */
  lemma OverlapIsBorder(s: string, key: string, i: nat, j: nat)
    requires Occurs(s, key, i) && Occurs(s, key, j) && i < j < i + |key|
    ensures Border(key, i + |key| - j)
  {
    var b := i + |key| - j;
    assert key[|key| - b..] == s[j..j + b];
    assert key[..b] == s[j..j + b];
  }

  lemma {:induction false} ScanComplete(s: string, key: string, from: nat)
    requires key != "" && Unbordered(key) && Marked(s, key, from)
    ensures Scan(s, key, from)
    decreases |s| - from
  {
    hide Occurs, Border;
    var j :| from <= j && Occurs(s, key, j) && j + |key| < |s|
      && (s[j + |key|] == '=' || s[j + |key|] == ':' || s[j + |key|] == '"');
    var i := Find(s, key, from).value;
    if i < j {
      if j < i + |key| { OverlapIsBorder(s, key, i, j); }
      ScanComplete(s, key, i + |key|);
    }
  }

  /** The text a bordered key is missed in: two overlapping copies, then a mark. */
  function Overlapped(key: string, b: nat): string
    requires b <= |key|
  {
    key + key[b..] + "="
  }

  lemma OverlappedIsMissed(key: string, b: nat)
    requires Border(key, b) && NoMarks(key)
    ensures Marked(Overlapped(key, b), key, 0) && !Scan(Overlapped(key, b), key, 0)
  {
    var s, n := Overlapped(key, b), |key|;
    assert s[0..n] == key;
    assert Occurs(s, key, n - b) by {
      assert s[n - b..n] == key[n - b..] == key[..b];
      assert s[n - b..n - b + n] == s[n - b..n] + s[n..n - b + n];
      assert s[n..n - b + n] == key[b..];
      assert key == key[..b] + key[b..];
    }
    assert s[n - b + n] == '=';
    assert s[n] == key[b];
    forall i: nat | n <= i ensures !Occurs(s, key, i) {
      if i + n <= |s| {
        assert s[i..i + n][n - 1] == s[i + n - 1] == '=';
      }
    }
  }

  /** The search finds every marked occurrence in every text exactly for keys without a border. */
  lemma SearchCompleteIff(key: string)
    requires key != "" && NoMarks(key)
    ensures (forall s :: Scan(s, key, 0) <==> Marked(s, key, 0)) <==> Unbordered(key)
  {
    if Unbordered(key) {
      forall s ensures Scan(s, key, 0) <==> Marked(s, key, 0) {
        if Scan(s, key, 0) { ScanSound(s, key, 0); }
        if Marked(s, key, 0) { ScanComplete(s, key, 0); }
      }
    } else {
      var b :| Border(key, b);
      OverlappedIsMissed(key, b);
    }
  }

  // ----- the listed keys

  lemma FirstOnceUnbordered(key: string)
    requires key != "" && key[0] !in key[1..]
    ensures Unbordered(key)
  {
    forall b | 0 < b < |key| ensures !Border(key, b) {
      assert key[0] == key[..b][0];
      assert key[1..][|key| - b - 1] == key[|key| - b] == key[|key| - b..][0];
    }
  }

  /** Where the first character comes back, the second one does not follow it. */
  lemma FirstPairOnceUnbordered(key: string)
    requires |key| >= 2 && key[|key| - 1] != key[0]
    requires forall i :: 1 <= i < |key| - 1 && key[i] == key[0] ==> key[i + 1] != key[1]
    ensures Unbordered(key)
  {
    forall b | 0 < b < |key| ensures !Border(key, b) {
      var i := |key| - b;
      assert key[..b][0] == key[0] && key[i..][0] == key[i];
      if b > 1 { assert key[..b][1] == key[1] && key[i..][1] == key[i + 1]; }
    }
  }

  lemma KekHasBorder()
    ensures Border("kek", 1) && !Unbordered("kek")
  {
    var key := "kek";
    assert key[..1] == "k" && key[|key| - 1..] == "k";
    assert Border(key, 1);
  }

  ghost predicate PlainKey(key: string) {
    key != "" && NoMarks(key) && key[0] != '<'
  }

  lemma Keys0()
    ensures forall i :: 0 <= i < 5 ==> PlainKey(SENSITIVE_KEYS[i]) && Unbordered(SENSITIVE_KEYS[i])
  {
    FirstOnceUnbordered("password");
    FirstOnceUnbordered("passwd");
    FirstPairOnceUnbordered("passphrase");
    FirstOnceUnbordered("secret");
    FirstOnceUnbordered("token");
  }

  lemma Keys1()
    ensures forall i :: 5 <= i < 10 ==> PlainKey(SENSITIVE_KEYS[i]) && Unbordered(SENSITIVE_KEYS[i])
  {
    FirstPairOnceUnbordered("authorization");
    FirstOnceUnbordered("apikey");
    FirstOnceUnbordered("api_key");
    FirstOnceUnbordered("openai_api_key");
    FirstOnceUnbordered("private_key");
  }

  lemma Keys2()
    ensures forall i :: 10 <= i < 14 ==> PlainKey(SENSITIVE_KEYS[i]) && Unbordered(SENSITIVE_KEYS[i])
  {
    FirstPairOnceUnbordered("identity_file");
    FirstOnceUnbordered("pgconnstring");
    FirstOnceUnbordered("connstring");
    FirstOnceUnbordered("dek");
  }

  lemma Keys3()
    ensures forall i :: 14 <= i < 18 ==> PlainKey(SENSITIVE_KEYS[i]) && (Unbordered(SENSITIVE_KEYS[i]) <==> i != 14)
  {
    KekHasBorder();
    FirstOnceUnbordered("salt");
    FirstOnceUnbordered("verifier");
    FirstOnceUnbordered("signature");
  }

  lemma KeyNotEmpty(i: nat)
    requires i < |SENSITIVE_KEYS|
    ensures SENSITIVE_KEYS[i] != ""
  {
  }

  /** Of the listed keys only "kek" has a border, so only it can be missed. */
  lemma ListedKeys(i: nat)
    requires i < |SENSITIVE_KEYS|
    ensures PlainKey(SENSITIVE_KEYS[i])
    ensures Unbordered(SENSITIVE_KEYS[i]) <==> SENSITIVE_KEYS[i] != "kek"
    ensures (forall s :: Scan(s, SENSITIVE_KEYS[i], 0) <==> Marked(s, SENSITIVE_KEYS[i], 0))
      <==> SENSITIVE_KEYS[i] != "kek"
  {
    hide Scan, Marked, Border, Unbordered;
    Keys0();
    Keys1();
    Keys2();
    Keys3();
    SearchCompleteIff(SENSITIVE_KEYS[i]);
    KekIsFourteenth(i);
  }

  lemma KekIsFourteenth(i: nat)
    requires i < |SENSITIVE_KEYS|
    ensures SENSITIVE_KEYS[i] == "kek" <==> i == 14
  {
  }

  // ----- tokens and lines

  predicate IsHex(c: char) { IsDigit(c) || 'a' <= c <= 'f' || 'A' <= c <= 'F' }

  predicate IsBase64(c: char) {
    IsDigit(c) || 'a' <= c <= 'z' || 'A' <= c <= 'Z' || c == '+' || c == '/' || c == '='
  }

  /** Hex digits among the first k characters. */
  function Hexish(token: string, k: nat): nat
    requires k <= |token|
  {
    if k == 0 then 0 else Hexish(token, k - 1) + if IsHex(token[k - 1]) then 1 else 0
  }

  predicate BlobLike(token: string) {
    && (forall i :: 0 <= i < |token| ==> IsBase64(token[i]))
    && (Hexish(token, |token|) * 100 / (if |token| < 1 then 1 else |token|) >= 90 || Hexish(token, |token|) == 0)
  }

  method IsBlobLike(token: string) returns (r: bool)
    ensures r == BlobLike(token)
  {
    var hexish, b64ish: nat := 0, 0;
    for i := 0 to |token|
      invariant hexish == Hexish(token, i) && hexish + b64ish == i
      invariant forall k :: 0 <= k < i ==> IsBase64(token[k])
    {
      var ch := token[i];
      if IsHex(ch) {
        hexish := hexish + 1;
      } else if 'a' <= ch <= 'z' || 'A' <= ch <= 'Z' || ch == '+' || ch == '/' || ch == '=' {
        b64ish := b64ish + 1;
      } else {
        return false;
      }
    }
    r := hexish * 100 / (if |token| < 1 then 1 else |token|) >= 90 || b64ish == |token|;
  }

  predicate IsBlob(token: string) { |token| > BLOB_RUN_LEN && BlobLike(token) }

  /** The first listed key from position k on that the search reports. */
  function ChosenKey(lower: string, k: nat): (r: Option<nat>)
    requires k <= |SENSITIVE_KEYS|
    ensures r.Some? ==> k <= r.value < |SENSITIVE_KEYS|
    decreases |SENSITIVE_KEYS| - k
  {
    if k == |SENSITIVE_KEYS| then None
    else if SENSITIVE_KEYS[k] != "" && Scan(lower, SENSITIVE_KEYS[k], 0) then Some(k)
    else ChosenKey(lower, k + 1)
  }

  const REDACTED: string := "<redacted>"

  function Redacted(token: string): string {
    if IsBlob(token) then "<blob:" + Decimal(|token|) + "b>"
    else
      match ChosenKey(Lower(token), 0)
      case None => token
      case Some(k) =>
        match Find(Lower(token), SENSITIVE_KEYS[k], 0)
        case None => token + REDACTED
        case Some(at) => token[..at] + REDACTED
  }

  method RedactToken(token: string) returns (r: string)
    ensures r == Redacted(token)
  {
    hide Scan, Find, BlobLike, Lower;
    if |token| > BLOB_RUN_LEN {
      var blob := IsBlobLike(token);
      if blob { return "<blob:" + Decimal(|token|) + "b>"; }
    }
    var lower := Lower(token);
    for k := 0 to |SENSITIVE_KEYS|
      invariant ChosenKey(lower, 0) == ChosenKey(lower, k)
    {
      var key := SENSITIVE_KEYS[k];
      KeyNotEmpty(k);
      var found := ValueAfterKey(lower, key);
      if found {
        var at := Find(lower, key, 0);
        var rest := if at.Some? then |token| - at.value else 0;
        return token[..|token| - rest] + "<redacted>";
      }
    }
    return token;
  }

  function RedactedPieces(pieces: seq<string>): (r: seq<string>)
    ensures |r| == |pieces| && forall i :: 0 <= i < |pieces| ==> r[i] == Redacted(pieces[i])
  {
    seq(|pieces|, i requires 0 <= i < |pieces| => Redacted(pieces[i]))
  }

  method RedactLine(line: string) returns (out: string)
    ensures out == Join(RedactedPieces(Split(line, {' '})), ' ')
  {
    hide Redacted, Split, Join;
    JoinNone();
    out := "";
    var pieces := Split(line, {' '});
    ghost var done := RedactedPieces(pieces);
    for index := 0 to |pieces|
      invariant out == Join(done[..index], ' ')
    {
      if index > 0 {
        out := out + " ";
      }
      var token := RedactToken(pieces[index]);
      out := out + token;
      JoinMore(done[..index], token);
      assert done[..index + 1] == done[..index] + [token];
    }
    assert done[..|done|] == done;
  }

  lemma JoinNone()
    ensures Join([], ' ') == ""
  {
  }

  lemma {:induction false} JoinMore(parts: seq<string>, last: string)
    ensures Join(parts + [last], ' ') == (if parts == [] then last else Join(parts, ' ') + " " + last)
  {
    if |parts| > 1 {
      assert (parts + [last])[1..] == parts[1..] + [last];
      JoinMore(parts[1..], last);
    } else if |parts| == 1 {
      assert (parts + [last])[1..] == [last];
    } else {
      assert parts + [last] == [last];
    }
  }

  // ----- blobs

  /** A digit, a letter, a plus, a slash or an equal sign. */
  predicate OfBase64(c: char) {
    '0' <= c <= '9' || 'A' <= c <= 'Z' || 'a' <= c <= 'z' || c in {'+', '/', '='}
  }

  /** The places of hexadecimal digits. */
  function HexPlaces(token: string, k: nat): set<nat>
    requires k <= |token|
  {
    set i: nat | i < k && ('0' <= token[i] <= '9' || 'a' <= token[i] <= 'f' || 'A' <= token[i] <= 'F')
  }

  lemma {:induction false} HexishCounts(token: string, k: nat)
    requires k <= |token|
    ensures Hexish(token, k) == |HexPlaces(token, k)|
  {
    if k == 0 {
      assert HexPlaces(token, 0) == {};
    } else {
      HexishCounts(token, k - 1);
      var before := HexPlaces(token, k - 1);
      assert HexPlaces(token, k) == if IsHex(token[k - 1]) then before + {k - 1} else before;
    }
  }

  lemma Base64Is()
    ensures forall c :: IsBase64(c) <==> OfBase64(c)
  {
  }

  lemma NineInTen(h: nat, n: nat)
    requires n > 0
    ensures h * 100 / n >= 90 <==> 10 * h >= 9 * n
  {
    if h * 100 / n >= 90 {
      assert h * 100 >= 90 * n;
    }
  }

  /** Which tokens are blobs: longer than 64, all of the base64 alphabet, and of hexadecimal digits nine in ten or
      none. */
  lemma BlobIff(token: string)
    ensures IsBlob(token)
      <==> && |token| > 64 && (forall i :: 0 <= i < |token| ==> OfBase64(token[i]))
           && (10 * |HexPlaces(token, |token|)| >= 9 * |token| || HexPlaces(token, |token|) == {})
  {
    hide OfBase64, IsBase64, HexPlaces, Hexish;
    HexishCounts(token, |token|);
    assert forall c :: IsBase64(c) <==> OfBase64(c) by { Base64Is(); }
    if |token| > 0 { NineInTen(Hexish(token, |token|), |token|); }
  }

  /** Nothing of a blob survives but its length, which can be read back from what replaces it. */
  lemma BlobKeepsLength(token: string)
    requires IsBlob(token)
    ensures var r := Redacted(token);
      && |r| > 8 && r[..6] == "<blob:" && r[|r| - 2..] == "b>" && ParseNat(r[6..|r| - 2]) == Some(|token|)
  {
    hide BlobLike, Decimal, ParseNat;
    var d := Decimal(|token|);
    ParseDecimal(|token|);
    var r := "<blob:" + d + "b>";
    assert r[6..|r| - 2] == d;
  }

  /** Two blobs are replaced by the same text exactly when they are of one length. */
  lemma BlobsLookAlike(a: string, b: string)
    requires IsBlob(a) && IsBlob(b)
    ensures Redacted(a) == Redacted(b) <==> |a| == |b|
  {
    hide BlobLike, Decimal, Redacted, ParseNat;
    BlobKeepsLength(a);
    BlobKeepsLength(b);
    assert Redacted(a) == "<blob:" + Decimal(|a|) + "b>" by { BlobText(a); }
    assert Redacted(b) == "<blob:" + Decimal(|b|) + "b>" by { BlobText(b); }
  }

  lemma BlobText(token: string)
    requires IsBlob(token)
    ensures Redacted(token) == "<blob:" + Decimal(|token|) + "b>"
  {
    hide BlobLike, Decimal;
  }

  // ----- what is scrubbed

  lemma {:induction false} ChosenIff(lower: string, k: nat)
    requires k <= |SENSITIVE_KEYS|
    ensures ChosenKey(lower, k).Some? <==>
      exists j :: k <= j < |SENSITIVE_KEYS| && SENSITIVE_KEYS[j] != "" && Scan(lower, SENSITIVE_KEYS[j], 0)
    ensures ChosenKey(lower, k).Some? ==>
      var j := ChosenKey(lower, k).value; SENSITIVE_KEYS[j] != "" && Scan(lower, SENSITIVE_KEYS[j], 0)
    decreases |SENSITIVE_KEYS| - k
  {
    hide Scan;
    if k < |SENSITIVE_KEYS| { ChosenIff(lower, k + 1); }
  }

  /** A token that is no blob and carries a marked key other than "kek" is cut at the first
      occurrence of the key the list picks: nothing of it survives from there on. */
  lemma MarkedTokenIsCut(token: string, j: nat)
    requires !IsBlob(token) && j < |SENSITIVE_KEYS| && SENSITIVE_KEYS[j] != "kek"
    requires Marked(Lower(token), SENSITIVE_KEYS[j], 0)
    ensures ChosenKey(Lower(token), 0).Some?
    ensures var key := SENSITIVE_KEYS[ChosenKey(Lower(token), 0).value];
      exists at :: 0 <= at <= |token| && Redacted(token) == token[..at] + REDACTED
                && Occurs(Lower(token), key, at) && forall i :: 0 <= i < at ==> !Occurs(Lower(token), key, i)
  {
    hide Scan, Marked, Lower, Occurs, BlobLike;
    ListedKeys(j);
    var lower := Lower(token);
    ChosenIff(lower, 0);
    assert Scan(lower, SENSITIVE_KEYS[j], 0);
    CutAtFirst(token);
  }

  lemma CutAtFirst(token: string)
    requires !IsBlob(token) && ChosenKey(Lower(token), 0).Some?
    ensures var key := SENSITIVE_KEYS[ChosenKey(Lower(token), 0).value];
      exists at :: 0 <= at <= |token| && Redacted(token) == token[..at] + REDACTED
                && Occurs(Lower(token), key, at) && forall i :: 0 <= i < at ==> !Occurs(Lower(token), key, i)
  {
    hide Lower, BlobLike, Marked;
    var lower := Lower(token);
    ChosenIff(lower, 0);
    var k := ChosenKey(lower, 0).value;
    ScanSound(lower, SENSITIVE_KEYS[k], 0);
    assert Find(lower, SENSITIVE_KEYS[k], 0).Some?;
    var at := Find(lower, SENSITIVE_KEYS[k], 0).value;
    assert Redacted(token) == token[..at] + REDACTED;
  }

  /** Where key `j` is marked in a token that is no blob, and a value behind the mark ends at `end`: the text up to
      there is kept exactly when it ends before the first occurrence of the key that the list picks. */
  lemma MarkedValueSurvivesIff(token: string, j: nat, i: nat, end: nat)
    requires !IsBlob(token) && j < |SENSITIVE_KEYS| && SENSITIVE_KEYS[j] != "kek"
    requires Occurs(Lower(token), SENSITIVE_KEYS[j], i) && i + |SENSITIVE_KEYS[j]| < end <= |token|
    requires IsMark(Lower(token)[i + |SENSITIVE_KEYS[j]|])
    ensures ChosenKey(Lower(token), 0).Some?
    ensures var key := SENSITIVE_KEYS[ChosenKey(Lower(token), 0).value];
      token[..end] <= Redacted(token) <==> forall at :: 0 <= at < end ==> !Occurs(Lower(token), key, at)
  {
    assert Marked(Lower(token), SENSITIVE_KEYS[j], 0);
    hide Marked, Scan, Lower, Occurs, BlobLike, Find, Redacted;
    MarkedTokenIsCut(token, j);
    var k := ChosenKey(Lower(token), 0).value;
    var key := SENSITIVE_KEYS[k];
    var at :| 0 <= at <= |token| && Redacted(token) == token[..at] + REDACTED
      && Occurs(Lower(token), key, at) && forall i :: 0 <= i < at ==> !Occurs(Lower(token), key, i);
    if at < end {
      KeyIsNoMark(token, k, at);
      assert Redacted(token)[at] == '<' && token[..end][at] == token[at];
    } else {
      assert token[..end] <= token[..at];
    }
  }

  /** A key does not start like the redaction mark. */
  lemma KeyIsNoMark(token: string, k: nat, at: nat)
    requires k < |SENSITIVE_KEYS| && Occurs(Lower(token), SENSITIVE_KEYS[k], at)
    ensures at < |token| && token[at] != '<'
  {
    ListedKeys(k);
    hide Lower;
    assert Lower(token)[at] == Lower(token)[at..at + |SENSITIVE_KEYS[k]|][0] == SENSITIVE_KEYS[k][0];
    assert LowerChar('<') == '<';
  }

  lemma FindFirst(s: string, key: string, at: nat)
    requires key != "" && Occurs(s, key, at) && key[0] !in s[..at]
    ensures Find(s, key, 0) == Some(at)
  {
    var r := Find(s, key, 0).value;
    assert s[r] == s[r..r + |key|][0] == key[0];
    assert forall i :: 0 <= i < at ==> s[i] == s[..at][i];
  }

  const EARLIER: string := "token=xyz,password=abc"

  /** The list picks the password, which stands behind the token, and the token is kept. */
  lemma EarlierValueSurvives()
    ensures Redacted(EARLIER) == "token=xyz,<redacted>"
  {
    hide Lower, Find, ChosenKey, BlobLike;
    assert EARLIER[..10] == "token=xyz," && EARLIER[10..18] == "password";
    FindFirst(EARLIER, "password", 10);
    assert Scan(EARLIER, "password", 0);
    EarlierChosen();
  }

  lemma EarlierChosen()
    requires Scan(EARLIER, "password", 0)
    ensures Lower(EARLIER) == EARLIER && ChosenKey(EARLIER, 0) == Some(0) && SENSITIVE_KEYS[0] == "password"
  {
    hide Scan;
  }

  lemma KeyNotIn(s: string, key: string)
    requires |key| > 1 && (key[0] in s ==> key[1] !in s)
    ensures !Scan(s, key, 0)
  {
    forall at: nat ensures !Occurs(s, key, at) {
      if at + |key| <= |s| {
        assert s[at] == s[at..at + |key|][0] && s[at + 1] == s[at..at + |key|][1];
      }
    }
  }

  const QUOTED: string := "\"hunter2\""

  /** A value behind a blank is a token of its own, without a key, and passes. */
  lemma ValueBehindBlankSurvives()
    ensures Redacted(QUOTED) == QUOTED
    ensures Split("\"password\": " + QUOTED, {' '}) == ["\"password\":", QUOTED]
  {
    hide Redacted, Scan, Lower, SENSITIVE_KEYS, Split;
    assert Lower(QUOTED) == QUOTED;
    forall j | 0 <= j < |SENSITIVE_KEYS| ensures SENSITIVE_KEYS[j] != "" && !Scan(QUOTED, SENSITIVE_KEYS[j], 0) {
      KeyStart(j);
      KeyNotIn(QUOTED, SENSITIVE_KEYS[j]);
    }
    ChangedIff(QUOTED);
    SplitFirst("\"password\":", ' ', QUOTED, {' '});
    SplitClean(QUOTED, {' '});
    assert "\"password\": " + QUOTED == "\"password\":" + [' '] + QUOTED;
  }

  /** Keys start with other letters than the value has, or continue with one. */
  lemma KeyStart(j: nat)
    requires j < |SENSITIVE_KEYS|
    ensures |SENSITIVE_KEYS[j]| > 1 && (SENSITIVE_KEYS[j][0] in QUOTED ==> SENSITIVE_KEYS[j][1] !in QUOTED)
  {
  }

  /** A token that is no blob changes exactly when the search reports some listed key in it. */
  lemma ChangedIff(token: string)
    requires !IsBlob(token)
    ensures Redacted(token) != token <==>
      exists j :: 0 <= j < |SENSITIVE_KEYS| && SENSITIVE_KEYS[j] != "" && Scan(Lower(token), SENSITIVE_KEYS[j], 0)
  {
    hide Scan, Lower, BlobLike;
    ChosenIff(Lower(token), 0);
    if ChosenKey(Lower(token), 0).Some? {
      var k := ChosenKey(Lower(token), 0).value;
      ListedKeys(k);
      CutAtFirst(token);
      var at :| 0 <= at <= |token| && Redacted(token) == token[..at] + REDACTED
        && Occurs(Lower(token), SENSITIVE_KEYS[k], at);
      assert Lower(token)[at] == Lower(token)[at..at + |SENSITIVE_KEYS[k]|][0] == SENSITIVE_KEYS[k][0];
      assert Redacted(token)[at] == '<';
      assert LowerChar('<') == '<';
    }
  }

  lemma RedactedHasNoSpace(token: string)
    requires Clean(token, {' '})
    ensures Clean(Redacted(token), {' '})
  {
    hide ChosenKey, Find, BlobLike, Lower;
    assert Clean(REDACTED, {' '}) && Clean("<blob:", {' '}) && Clean("b>", {' '});
  }

  /** The scrubbed line has the original's space-separated tokens, each scrubbed on its own. */
  lemma LineKeepsTokens(line: string)
    ensures Split(Join(RedactedPieces(Split(line, {' '})), ' '), {' '}) == RedactedPieces(Split(line, {' '}))
  {
    hide Redacted;
    var pieces := Split(line, {' '});
    forall i | 0 <= i < |pieces| ensures Clean(Redacted(pieces[i]), {' '}) { RedactedHasNoSpace(pieces[i]); }
    SplitJoin(RedactedPieces(pieces), ' ', {' '});
  }
}
