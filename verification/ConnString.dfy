/** Host/port rewriting of key=value connection strings (`tunnel.rs`). */
module ConnString {
  import opened Text

  const CUTS: set<char> := {' ', ';', '\t'}

  datatype Kind = Host | Port | Password | Other

  /** The position of the first '=', or the length when there is none. */
  function Equals(s: string): (i: nat)
    ensures i <= |s| && '=' !in s[..i] && (i < |s| ==> s[i] == '=')
  {
    if s == [] || s[0] == '=' then 0 else 1 + Equals(s[1..])
  }

  function KindOf(token: string): Kind {
    if Equals(token) == |token| then Other
    else
      var lowered := Lower(Trim(token[..Equals(token)]));
      if lowered == "host" || lowered == "server" then Host
      else if lowered == "port" then Port
      else if lowered == "password" || lowered == "passwd" then Password
      else Other
  }

  function HostToken(host: string): string { "host=" + host }
  function PortToken(port: nat): string { "port=" + Decimal(port) }
  const REDACTED: string := "=<redacted-by-agent>"

  /** `host` and `port` are the whole replacement tokens. */
  function RewriteToken(token: string, host: string, port: string): string {
    match KindOf(token)
    case Host => host
    case Port => port
    case Password => token[..Equals(token)] + REDACTED
    case Other => token
  }

  function RewriteEach(tokens: seq<string>, host: string, port: string): (r: seq<string>)
    ensures |r| == |tokens|
    ensures forall i :: 0 <= i < |tokens| ==> r[i] == RewriteToken(tokens[i], host, port)
  {
    seq(|tokens|, i requires 0 <= i < |tokens| => RewriteToken(tokens[i], host, port))
  }

  predicate Has(tokens: seq<string>, kind: Kind) {
    exists i :: 0 <= i < |tokens| && KindOf(tokens[i]) == kind
  }

  /** The tokens in order, each rewritten, then what was missing. */
  function Pieces(tokens: seq<string>, host: string, port: string): seq<string> {
    RewriteEach(tokens, host, port)
    + (if Has(tokens, Host) then [] else [host])
    + (if Has(tokens, Port) then [] else [port])
  }

  function Rewritten(conn: string, host: string, port: nat): string {
    Join(Pieces(Tokens(conn, CUTS), HostToken(host), PortToken(port)), ' ')
  }

  method RewriteConnHostPort(conn: string, newHost: string, newPort: nat) returns (r: string)
    ensures r == Rewritten(conn, newHost, newPort)
  {
    hide KindOf, Tokens, RewriteEach, Has, Decimal, Join;
    NothingRewritten(HostToken(newHost), PortToken(newPort));
    var out: seq<string> := [];
    var sawHost, sawPort := false, false;
    var tokens := Tokens(conn, CUTS);
    assert tokens[..0] == [];
    for i := 0 to |tokens|
      invariant out == RewriteEach(tokens[..i], HostToken(newHost), PortToken(newPort))
      invariant sawHost <==> Has(tokens[..i], Host)
      invariant sawPort <==> Has(tokens[..i], Port)
    {
      var token := tokens[i];
      HasMore(tokens, i, Host);
      HasMore(tokens, i, Port);
      RewriteMore(tokens, i, HostToken(newHost), PortToken(newPort));
      match KindOf(token) {
        case Host =>
          out := out + ["host=" + newHost];
          sawHost := true;
        case Port =>
          out := out + ["port=" + Decimal(newPort)];
          sawPort := true;
        case Password => out := out + [token[..Equals(token)] + "=<redacted-by-agent>"];
        case Other => out := out + [token];
      }
    }
    assert tokens[..|tokens|] == tokens;
    ghost var each := out;
    if !sawHost { out := out + ["host=" + newHost]; }
    if !sawPort { out := out + ["port=" + Decimal(newPort)]; }
    assert each + [] == each && out + [] == out;
    r := Join(out, ' ');
  }

  lemma NothingRewritten(host: string, port: string)
    ensures RewriteEach([], host, port) == [] && !Has([], Host) && !Has([], Port)
  {
  }

  lemma RewriteMore(tokens: seq<string>, i: nat, host: string, port: string)
    requires i < |tokens|
    ensures RewriteEach(tokens[..i + 1], host, port) ==
            RewriteEach(tokens[..i], host, port) + [RewriteToken(tokens[i], host, port)]
  {
    hide RewriteToken;
  }

  lemma HasMore(tokens: seq<string>, i: nat, kind: Kind)
    requires i < |tokens|
    ensures Has(tokens[..i + 1], kind) <==> Has(tokens[..i], kind) || KindOf(tokens[i]) == kind
  {
    hide KindOf;
    var more := tokens[..i + 1];
    assert more[i] == tokens[i];
    forall k | 0 <= k < i ensures more[k] == tokens[..i][k] {}
    if k :| 0 <= k < i && KindOf(tokens[..i][k]) == kind { assert KindOf(more[k]) == kind; }
  }

  // ----- a rewritten token keeps its kind

  lemma {:induction false} EqualsAfter(key: string, rest: string)
    requires '=' !in key
    ensures Equals(key + "=" + rest) == |key|
  {
    if key != [] {
      assert (key + "=" + rest)[1..] == key[1..] + "=" + rest;
      EqualsAfter(key[1..], rest);
    }
  }

  lemma KindOfKey(key: string, rest: string)
    requires '=' !in key
    ensures var token := key + "=" + rest;
      && Equals(token) == |key| && token[..Equals(token)] == key && Equals(token) < |token|
  {
    EqualsAfter(key, rest);
  }

  /** What makes a token one of a host, port or password: its key, trimmed, in any case of ASCII letters. Without an
      equal sign it is none. */
  lemma KindIs(before: string, key: string, after: string, rest: string)
    requires Blank(before) && Blank(after) && '=' !in key
    requires key == "" || (!IsSpace(key[0]) && !IsSpace(key[|key| - 1]))
    ensures var kind, name := KindOf(before + key + after + "=" + rest), Lower(key);
      && (kind == Host <==> name == "host" || name == "server")
      && (kind == Port <==> name == "port")
      && (kind == Password <==> name == "password" || name == "passwd")
    ensures KindOf(key) == Other
  {
    hide Lower, Trim, Equals, Tokens;
    assert IsSpace('=') == false;
    KindOfKey(before + key + after, rest);
    TrimIs(before, key, after);
  }

  lemma HostKind(rest: string)
    ensures KindOf("host" + "=" + rest) == Host
  {
    KindOfKey("host", rest);
    assert Lower(Trim("host")) == "host";
  }

  lemma PortKind(rest: string)
    ensures KindOf("port" + "=" + rest) == Port
  {
    KindOfKey("port", rest);
    assert Lower(Trim("port")) == "port";
  }

  /** Replacement tokens of the right kind. */
  predicate Replacements(host: string, port: string) {
    KindOf(host) == Host && KindOf(port) == Port
  }

  lemma PasswordKeepsKind(token: string)
    requires KindOf(token) == Password
    ensures var r := token[..Equals(token)] + REDACTED;
      KindOf(r) == Password && Equals(r) == Equals(token) && r[..Equals(r)] == token[..Equals(token)]
  {
    hide Trim, Lower, Equals;
    var key := token[..Equals(token)];
    KindOfKey(key, "<redacted-by-agent>");
    assert REDACTED == "=" + "<redacted-by-agent>";
    assert key + REDACTED == key + "=" + "<redacted-by-agent>";
  }

  lemma RewriteKeepsKind(token: string, host: string, port: string, host': string, port': string)
    requires Replacements(host, port)
    ensures KindOf(RewriteToken(token, host, port)) == KindOf(token)
    ensures RewriteToken(RewriteToken(token, host, port), host', port') == RewriteToken(token, host', port')
  {
    hide KindOf, Equals;
    if KindOf(token) == Password { PasswordKeepsKind(token); }
  }

  lemma PiecesHaveBoth(tokens: seq<string>, host: string, port: string)
    requires Replacements(host, port)
    ensures Has(Pieces(tokens, host, port), Host) && Has(Pieces(tokens, host, port), Port)
  {
    hide KindOf, RewriteToken;
    var ps := Pieces(tokens, host, port);
    var n := |tokens|;
    if i :| 0 <= i < n && KindOf(tokens[i]) == Host {
      RewriteKeepsKind(tokens[i], host, port, host, port);
      assert ps[i] == RewriteToken(tokens[i], host, port);
    } else {
      assert ps[n] == host;
    }
    if i :| 0 <= i < n && KindOf(tokens[i]) == Port {
      RewriteKeepsKind(tokens[i], host, port, host, port);
      assert ps[i] == RewriteToken(tokens[i], host, port);
    } else {
      assert ps[|ps| - 1] == port;
    }
  }

  /** Rewriting rewritten pieces again with other tokens is rewriting the original with those. */
  lemma PiecesTwice(tokens: seq<string>, host: string, port: string, host': string, port': string)
    requires Replacements(host, port)
    ensures Pieces(Pieces(tokens, host, port), host', port') == Pieces(tokens, host', port')
  {
    hide KindOf, RewriteToken, Has;
    var ps := Pieces(tokens, host, port);
    PiecesHaveBoth(tokens, host, port);
    forall i | 0 <= i < |tokens| ensures RewriteToken(ps[i], host', port') == RewriteToken(tokens[i], host', port') {
      RewriteKeepsKind(tokens[i], host, port, host', port');
    }
    assert RewriteToken(host, host', port') == host' && RewriteToken(port, host', port') == port' by {
      ReplacementReplaced(host, port, host', port');
    }
  }

  lemma ReplacementReplaced(host: string, port: string, host': string, port': string)
    requires Replacements(host, port)
    ensures RewriteToken(host, host', port') == host' && RewriteToken(port, host', port') == port'
  {
  }

  // ----- reading the output back

  function Flat(pieces: seq<string>): seq<string> {
    if pieces == [] then [] else Tokens(pieces[0], CUTS) + Flat(pieces[1..])
  }

  lemma {:induction false} TokensOfJoin(pieces: seq<string>)
    ensures Tokens(Join(pieces, ' '), CUTS) == Flat(pieces)
  {
    hide Split, NonEmpty;
    if pieces == [] {
      NoTokens();
    } else if |pieces| == 1 {
      assert Flat(pieces[1..]) == [];
    } else {
      var rest := Join(pieces[1..], ' ');
      SplitConcat(pieces[0], ' ', rest, CUTS);
      NonEmptyConcat(Split(pieces[0], CUTS), Split(rest, CUTS));
      TokensOfJoin(pieces[1..]);
    }
  }

  lemma NoTokens()
    ensures Tokens("", CUTS) == []
  {
  }

  ghost predicate AreTokens(tokens: seq<string>) {
    AllClean(tokens, CUTS) && NoneEmpty(tokens)
  }

  lemma TokensAreTokens(s: string)
    ensures AreTokens(Tokens(s, CUTS))
  {
    var r := Tokens(s, CUTS);
    forall i | 0 <= i < |r| ensures Clean(r[i], CUTS) { assert r[i] in Split(s, CUTS); }
  }

  lemma TokenIsToken(t: string)
    requires t != "" && Clean(t, CUTS)
    ensures Tokens(t, CUTS) == [t]
  {
    SplitClean(t, CUTS);
    assert NonEmpty([t]) == [t] + NonEmpty([]);
  }

  lemma PortIsToken(port: nat)
    ensures Clean(PortToken(port), CUTS) && PortToken(port) != "" && KindOf(PortToken(port)) == Port
  {
    assert "port=" == "port" + "=";
    PortKind(Decimal(port));
  }

  lemma RedactedIsToken(token: string)
    requires Clean(token, CUTS)
    ensures Clean(token[..Equals(token)] + REDACTED, CUTS)
  {
    assert Clean(REDACTED, CUTS);
  }

  /** The host token starts with a token of kind host, whatever the host is. */
  lemma HostTokens(host: string)
    ensures var ts := Tokens(HostToken(host), CUTS);
      |ts| >= 1 && KindOf(ts[0]) == Host
  {
    hide KindOf;
    var s := Split(host, CUTS);
    assert Clean("host=", CUTS);
    SplitPrefix("host=", host, CUTS);
    assert "host=" == "host" + "=";
    HostKind(s[0]);
    assert NonEmpty(["host=" + s[0]] + s[1..]) == ["host=" + s[0]] + NonEmpty(s[1..]) by {
      assert (["host=" + s[0]] + s[1..])[1..] == s[1..];
    }
  }

  lemma {:induction false} FlatConcat(a: seq<string>, b: seq<string>)
    ensures Flat(a + b) == Flat(a) + Flat(b)
  {
    hide Tokens;
    if a == [] {
      assert a + b == b;
    } else {
      assert (a + b)[1..] == a[1..] + b;
      FlatConcat(a[1..], b);
    }
  }

  lemma FlatOne(p: string)
    ensures Flat([p]) == Tokens(p, CUTS)
  {
    assert Flat([]) == [];
  }

  /** When the host token reads back as one token `x`, so does every piece. */
  lemma {:induction false} FlatEach(tokens: seq<string>, host: string, port: string, x: string)
    requires AreTokens(tokens) && Tokens(host, CUTS) == [x]
    requires Clean(port, CUTS) && port != ""
    ensures Flat(RewriteEach(tokens, host, port)) == RewriteEach(tokens, x, port)
  {
    hide Tokens, KindOf, Equals;
    if tokens != [] {
      var t := tokens[0];
      assert RewriteEach(tokens, host, port)[1..] == RewriteEach(tokens[1..], host, port);
      FlatEach(tokens[1..], host, port, x);
      RedactedIsToken(t);
      if KindOf(t) != Host { TokenIsToken(RewriteToken(t, host, port)); }
      assert RewriteEach(tokens, x, port) == [RewriteToken(t, x, port)] + RewriteEach(tokens[1..], x, port);
    }
  }

  lemma FlatPieces(tokens: seq<string>, host: string, port: string, x: string)
    requires AreTokens(tokens) && Tokens(host, CUTS) == [x]
    requires Clean(port, CUTS) && port != ""
    ensures Flat(Pieces(tokens, host, port)) == Pieces(tokens, x, port)
  {
    hide Tokens, Has, RewriteEach;
    FlatEach(tokens, host, port, x);
    var h: seq<string> := if Has(tokens, Host) then [] else [host];
    var p: seq<string> := if Has(tokens, Port) then [] else [port];
    FlatConcat(RewriteEach(tokens, host, port), h);
    FlatConcat(RewriteEach(tokens, host, port) + h, p);
    FlatOne(host);
    FlatOne(port);
    TokenIsToken(port);
  }

  /** For a separator-free host the output reads back as the input's tokens in order, each
      rewritten in place, plus a host and a port where the input had none. */
  lemma OutputTokens(conn: string, host: string, port: nat)
    requires Clean(host, CUTS)
    ensures Tokens(Rewritten(conn, host, port), CUTS) == Pieces(Tokens(conn, CUTS), HostToken(host), PortToken(port))
  {
    hide Tokens, Pieces, Flat;
    var ts := Tokens(conn, CUTS);
    TokensAreTokens(conn);
    PortIsToken(port);
    assert Clean("host=", CUTS);
    TokenIsToken(HostToken(host));
    TokensOfJoin(Pieces(ts, HostToken(host), PortToken(port)));
    FlatPieces(ts, HostToken(host), PortToken(port), HostToken(host));
  }

  /** Every token of the output whose key is a password key holds the redaction mark for its value. A password that
      is set off by blanks, or holds any, is more than that token: see below. */
  lemma PasswordsAreRedacted(conn: string, host: string, port: nat, i: nat)
    requires Clean(host, CUTS) && i < |Tokens(Rewritten(conn, host, port), CUTS)|
    ensures var t := Tokens(Rewritten(conn, host, port), CUTS)[i];
      KindOf(t) == Password ==> t == t[..Equals(t)] + REDACTED
  {
    hide Tokens, KindOf, Equals;
    OutputTokens(conn, host, port);
    var ts := Tokens(conn, CUTS);
    PortIsToken(port);
    assert "host=" == "host" + "=";
    HostKind(host);
    if i < |ts| {
      RewriteKeepsKind(ts[i], HostToken(host), PortToken(port), "", "");
      if KindOf(ts[i]) == Password { PasswordKeepsKind(ts[i]); }
    }
  }

  // ----- what survives, and where a password lies

  /** A token is passed on as it is exactly when its key is none of the known ones, or it already is what it would
      be replaced with. */
  lemma SurvivesIff(conn: string, host: string, port: nat, i: nat)
    requires Clean(host, CUTS) && i < |Tokens(conn, CUTS)|
    ensures |Tokens(conn, CUTS)| <= |Tokens(Rewritten(conn, host, port), CUTS)|
    ensures var t := Tokens(conn, CUTS)[i];
      Tokens(Rewritten(conn, host, port), CUTS)[i] == t
      <==> match KindOf(t)
           case Host => t == HostToken(host)
           case Port => t == PortToken(port)
           case Password => t[Equals(t)..] == REDACTED
           case Other => true
  {
    hide Tokens, KindOf, Has;
    OutputTokens(conn, host, port);
    var t := Tokens(conn, CUTS)[i];
    assert t == t[..Equals(t)] + t[Equals(t)..];
  }

  /** The keys under which a password is given. */
  predicate PasswordKey(key: string) {
    Lower(key) == "password" || Lower(key) == "passwd"
  }

  predicate Blank(gap: string) {
    forall i :: 0 <= i < |gap| ==> gap[i] == ' ' || gap[i] == '\t'
  }

  /** One setting: blanks around the equal sign are optional, and the value is written bare or quoted. */
  function Setting(key: string, before: string, after: string, value: string): string {
    key + before + "=" + after + value
  }

  /** The tokens that carry a part of the value apart from a token with the key. */
  function Carriers(before: string, after: string, value: string): seq<string> {
    var pieces := Split(value, CUTS);
    if after != "" then NonEmpty(pieces)
    else if before != "" then ["=" + pieces[0]] + NonEmpty(pieces[1..])
    else NonEmpty(pieces[1..])
  }

  /** The tokens up to and with the key and the equal sign. */
  function Heads(key: string, before: string, after: string, value: string): seq<string> {
    if after != "" then (if before != "" then [key, "="] else [key + "="])
    else if before != "" then [key]
    else [key + "=" + Split(value, CUTS)[0]]
  }

  lemma {:induction false} BlankSplits(gap: string, rest: string)
    requires Blank(gap)
    ensures Tokens(gap + rest, CUTS) == Tokens(rest, CUTS)
  {
    if gap == "" {
      assert gap + rest == rest;
    } else {
      assert gap + rest == [gap[0]] + (gap[1..] + rest);
      BlankSplits(gap[1..], rest);
      CutFirst(gap[0], gap[1..] + rest);
    }
  }

  lemma CutFirst(c: char, rest: string)
    requires c in CUTS
    ensures Tokens([c] + rest, CUTS) == Tokens(rest, CUTS)
  {
    hide NonEmpty;
    assert [] + [c] + rest == [c] + rest;
    SplitConcat("", c, rest, CUTS);
    NonEmptyConcat(Split("", CUTS), Split(rest, CUTS));
    assert Tokens("", CUTS) == [] by { NoTokens(); }
  }

  /** A clean word and a blank gap. */
  lemma WordThenGap(word: string, gap: string, rest: string)
    requires word != "" && Clean(word, CUTS) && Blank(gap) && gap != ""
    ensures Tokens(word + gap + rest, CUTS) == [word] + Tokens(rest, CUTS)
  {
    hide NonEmpty, Split;
    assert word + gap + rest == word + [gap[0]] + (gap[1..] + rest);
    SplitConcat(word, gap[0], gap[1..] + rest, CUTS);
    NonEmptyConcat(Split(word, CUTS), Split(gap[1..] + rest, CUTS));
    BlankSplits(gap[1..], rest);
    TokenIsToken(word);
  }

  /** A clean word right in front of a text joins its first piece. */
  lemma WordThenPiece(word: string, rest: string)
    requires word != "" && Clean(word, CUTS)
    ensures Tokens(word + rest, CUTS) == [word + Split(rest, CUTS)[0]] + NonEmpty(Split(rest, CUTS)[1..])
  {
    hide Split;
    SplitPrefix(word, rest, CUTS);
    var pieces := [word + Split(rest, CUTS)[0]] + Split(rest, CUTS)[1..];
    assert pieces[1..] == Split(rest, CUTS)[1..];
  }

  lemma PasswordKeyIsWord(key: string)
    requires PasswordKey(key)
    ensures key != "" && Clean(key, CUTS) && '=' !in key && Trim(key) == key
  {
    assert |Lower(key)| == |key|;
    forall i | 0 <= i < |key| ensures key[i] !in CUTS && key[i] != '=' && !IsSpace(key[i]) {
      assert Lower(key)[i] == LowerChar(key[i]);
      assert 'a' <= Lower(key)[i] <= 'z';
    }
  }

  /** A setting reads as its heads and then the carriers of its value. */
  lemma SettingTokens(key: string, before: string, after: string, value: string)
    requires PasswordKey(key) && Blank(before) && Blank(after)
    ensures Tokens(Setting(key, before, after, value), CUTS)
         == Heads(key, before, after, value) + Carriers(before, after, value)
  {
    hide Split, NonEmpty, PasswordKey, Blank;
    PasswordKeyIsWord(key);
    var text := Setting(key, before, after, value);
    assert Clean("=", CUTS);
    if after != "" && before != "" {
      assert text == key + before + ("=" + after + value);
      WordThenGap(key, before, "=" + after + value);
      WordThenGap("=", after, value);
    } else if after != "" {
      assert text == (key + "=") + after + value;
      WordThenGap(key + "=", after, value);
    } else if before != "" {
      assert text == key + before + ("=" + value);
      WordThenGap(key, before, "=" + value);
      WordThenPiece("=", value);
    } else {
      assert text == (key + "=") + value;
      WordThenPiece(key + "=", value);
    }
  }

  /** The value is all in the token with the key, and so redacted, exactly when no blank stands beside the equal
      sign and nothing follows the first separator inside the value. */
  lemma NothingCarriedIff(before: string, after: string, value: string)
    requires Tokens(value, CUTS) != []
    ensures Carriers(before, after, value) == []
      <==> before == "" && after == "" && NonEmpty(Split(value, CUTS)[1..]) == []
  {
    hide Split, NonEmpty;
  }

  lemma SurroundedTokens(left: string, text: string, right: string)
    ensures Tokens(left + " " + text + " " + right, CUTS) == Tokens(left, CUTS) + Tokens(text, CUTS) + Tokens(right, CUTS)
  {
    hide Split, NonEmpty;
    assert left + " " + text + " " + right == left + [' '] + (text + [' '] + right);
    SplitConcat(left, ' ', text + [' '] + right, CUTS);
    SplitConcat(text, ' ', right, CUTS);
    NonEmptyConcat(Split(left, CUTS), Split(text, CUTS) + Split(right, CUTS));
    NonEmptyConcat(Split(text, CUTS), Split(right, CUTS));
  }

  /** Wherever the setting stands, each carrier of its value reaches the output as it is unless its own text makes
      it a host, port or password token. */
  lemma CarriersReachTheOutput(left: string, key: string, before: string, after: string, value: string, right: string,
                               host: string, port: nat, k: nat)
    requires PasswordKey(key) && Blank(before) && Blank(after) && Clean(host, CUTS)
    requires k < |Carriers(before, after, value)| && KindOf(Carriers(before, after, value)[k]) == Other
    ensures Carriers(before, after, value)[k]
         in Tokens(Rewritten(left + " " + Setting(key, before, after, value) + " " + right, host, port), CUTS)
  {
    hide Tokens, KindOf, Carriers, Heads, Setting, PasswordKey, Blank;
    var text := Setting(key, before, after, value);
    var conn := left + " " + text + " " + right;
    SettingTokens(key, before, after, value);
    SurroundedTokens(left, text, right);
    var heads, carriers := Heads(key, before, after, value), Carriers(before, after, value);
    var i := |Tokens(left, CUTS)| + |heads| + k;
    assert Tokens(text, CUTS)[|heads| + k] == carriers[k];
    assert Tokens(conn, CUTS)[i] == carriers[k];
    SurvivesIff(conn, host, port, i);
  }

  /** A password without separators or equal signs reaches the output, bare or behind an equal sign, exactly when
      there is a blank beside the equal sign of its setting. */
  lemma PasswordLeaksIff(key: string, before: string, after: string, value: string, host: string, port: nat)
    requires PasswordKey(key) && Blank(before) && Blank(after) && Clean(host, CUTS)
    requires value != "" && Clean(value, CUTS) && '=' !in value
    ensures var out := Tokens(Rewritten(Setting(key, before, after, value), host, port), CUTS);
      value in out || "=" + value in out <==> before != "" || after != ""
  {
    hide Tokens, Split, Setting, PasswordKey, Blank;
    var conn := Setting(key, before, after, value);
    var ts := Tokens(conn, CUTS);
    var out := Tokens(Rewritten(conn, host, port), CUTS);
    SettingTokens(key, before, after, value);
    OneCarrier(before, after, value);
    if before != "" || after != "" {
      var i := |ts| - 1;
      assert ts[i] == value || ts[i] == "=" + value;
      OtherKinds(value);
      SurvivesIff(conn, host, port, i);
    } else {
      PasswordKeyIsWord(key);
      assert ts == [key + "=" + value];
      KeyIsPassword(key, value);
      OutputTokens(conn, host, port);
      assert KindOf(ts[0]) == Password;
      OutputOfOne(key, value, host, port);
    }
  }

  lemma OneCarrier(before: string, after: string, value: string)
    requires value != "" && Clean(value, CUTS)
    ensures Split(value, CUTS) == [value]
    ensures Carriers(before, after, value) == if after != "" then [value] else if before != "" then ["=" + value] else []
  {
    SplitClean(value, CUTS);
    assert NonEmpty([value]) == [value] + NonEmpty([]);
  }

  lemma OtherKinds(value: string)
    requires '=' !in value
    ensures KindOf(value) == Other && KindOf("=" + value) == Other
  {
    assert Equals(value) == |value|;
    assert ("=" + value)[0] == '=';
    assert Lower(Trim("")) == "";
  }

  lemma KeyIsPassword(key: string, value: string)
    requires PasswordKey(key)
    ensures KindOf(key + "=" + value) == Password
  {
    PasswordKeyIsWord(key);
    KindOfKey(key, value);
  }

  lemma OutputOfOne(key: string, value: string, host: string, port: nat)
    requires PasswordKey(key) && '=' !in value
    ensures var out := Pieces([key + "=" + value], HostToken(host), PortToken(port));
      value !in out && "=" + value !in out
  {
    hide PasswordKey, Trim, Lower, Decimal;
    PasswordKeyIsWord(key);
    KeyIsPassword(key, value);
    KindOfKey(key, value);
    var out := Pieces([key + "=" + value], HostToken(host), PortToken(port));
    assert out == [key + REDACTED, HostToken(host), PortToken(port)];
    assert key + REDACTED == key + "=" + "<redacted-by-agent>";
    assert (key + REDACTED)[|key|] == '=' && HostToken(host)[4] == '=' && PortToken(port)[4] == '=';
    assert key[0] != '=' && (key + REDACTED)[0] == key[0] && HostToken(host)[0] == 'h' && PortToken(port)[0] == 'p';
  }

  /** Two ways to write a password that reach the output. */
  lemma PasswordsThatLeak(host: string, port: nat)
    requires Clean(host, CUTS)
    ensures "hunter2" in Tokens(Rewritten(" password = hunter2 ", host, port), CUTS)
    ensures "b'" in Tokens(Rewritten(" password='a b' ", host, port), CUTS)
  {
    hide Tokens, Rewritten, Carriers, Setting, KindOf, Clean, PasswordKey;
    BareIsSetting();
    QuotedIsSetting();
    assert PasswordKey("password") by { PasswordIsKey(); }
    BareCarrier();
    QuotedCarrier();
    OtherKinds("hunter2");
    OtherKinds("b'");
    CarriersReachTheOutput("", "password", " ", " ", "hunter2", "", host, port, 0);
    CarriersReachTheOutput("", "password", "", "", "'a b'", "", host, port, 0);
  }

  lemma PasswordIsKey()
    ensures PasswordKey("password")
  {
    assert Lower("password") == "password";
  }

  lemma BareIsSetting()
    ensures "" + " " + Setting("password", " ", " ", "hunter2") + " " + "" == " password = hunter2 "
  {
  }

  lemma QuotedIsSetting()
    ensures "" + " " + Setting("password", "", "", "'a b'") + " " + "" == " password='a b' "
  {
  }

  lemma BareCarrier()
    ensures Carriers(" ", " ", "hunter2") == ["hunter2"]
  {
    OneCarrier(" ", " ", "hunter2");
  }

  lemma QuotedCarrier()
    ensures Carriers("", "", "'a b'") == ["b'"]
  {
    assert "'a b'" == "'a" + [' '] + "b'";
    SplitConcat("'a", ' ', "b'", CUTS);
    SplitClean("'a", CUTS);
    SplitClean("b'", CUTS);
    assert (["'a"] + ["b'"])[1..] == ["b'"];
    assert NonEmpty(["b'"]) == ["b'"] + NonEmpty([]);
  }

  // ----- idempotence

  lemma {:induction false} FlatCount(pieces: seq<string>)
    requires forall i :: 0 <= i < |pieces| ==> |Tokens(pieces[i], CUTS)| >= 1
    ensures |Flat(pieces)| >= |pieces|
    ensures (exists i :: 0 <= i < |pieces| && |Tokens(pieces[i], CUTS)| >= 2) ==> |Flat(pieces)| > |pieces|
  {
    hide Tokens;
    if pieces != [] {
      FlatCount(pieces[1..]);
      if i :| 0 <= i < |pieces| && |Tokens(pieces[i], CUTS)| >= 2 {
        assert i > 0 ==> pieces[1..][i - 1] == pieces[i];
      }
    }
  }

  /** Rewriting is idempotent exactly when the host token reads back as a single token. */
  lemma IdempotentIff(conn: string, host: string, port: nat)
    ensures Rewritten(Rewritten(conn, host, port), host, port) == Rewritten(conn, host, port)
            <==> |Tokens(HostToken(host), CUTS)| == 1
  {
    hide Tokens, Pieces, Flat, KindOf, Join;
    var ts, h, p := Tokens(conn, CUTS), HostToken(host), PortToken(port);
    HostTokens(host);
    PortIsToken(port);
    TokensAreTokens(conn);
    TokensOfJoin(Pieces(ts, h, p));
    if |Tokens(h, CUTS)| == 1 {
      var x := Tokens(h, CUTS)[0];
      FlatPieces(ts, h, p, x);
      PiecesTwice(ts, x, p, h, p);
    } else {
      TokensGrow(conn, host, port);
    }
  }

  /** Otherwise every further rewriting has more tokens than the last. */
  lemma TokensGrow(conn: string, host: string, port: nat)
    requires |Tokens(HostToken(host), CUTS)| > 1
    ensures |Tokens(Rewritten(Rewritten(conn, host, port), host, port), CUTS)|
            > |Tokens(Rewritten(conn, host, port), CUTS)|
  {
    hide Tokens, KindOf, Join, Flat;
    var h, p := HostToken(host), PortToken(port);
    var out := Rewritten(conn, host, port);
    var us := Tokens(out, CUTS);
    TokensAreTokens(conn);
    TokensAreTokens(out);
    OutputHasHost(conn, host, port);
    var ps := Pieces(us, h, p);
    TokensOfJoin(ps);
    PieceCounts(us, host, port);
    var i :| 0 <= i < |us| && KindOf(us[i]) == Host;
    assert ps[i] == h;
    FlatCount(ps);
  }

  lemma PieceCounts(tokens: seq<string>, host: string, port: nat)
    requires AreTokens(tokens)
    ensures var ps := Pieces(tokens, HostToken(host), PortToken(port));
      forall i :: 0 <= i < |ps| ==> |Tokens(ps[i], CUTS)| >= 1
  {
    hide Tokens, KindOf, Equals;
    var h, p := HostToken(host), PortToken(port);
    HostTokens(host);
    PortIsToken(port);
    TokenIsToken(p);
    var ps := Pieces(tokens, h, p);
    forall i | 0 <= i < |ps| ensures |Tokens(ps[i], CUTS)| >= 1 {
      if i < |tokens| {
        RedactedIsToken(tokens[i]);
        if KindOf(tokens[i]) == Password || KindOf(tokens[i]) == Other { TokenIsToken(ps[i]); }
      } else {
        assert ps[i] == h || ps[i] == p;
      }
    }
  }

  lemma OutputHasHost(conn: string, host: string, port: nat)
    ensures Has(Tokens(Rewritten(conn, host, port), CUTS), Host)
  {
    hide Tokens, KindOf, Join, Flat;
    var ts, h, p := Tokens(conn, CUTS), HostToken(host), PortToken(port);
    var ps := Pieces(ts, h, p);
    TokensOfJoin(ps);
    HostTokens(host);
    var k: nat;
    if i :| 0 <= i < |ts| && KindOf(ts[i]) == Host {
      k := i;
    } else {
      k := |ts|;
    }
    assert ps[k] == h;
    assert ps == ps[..k] + ([h] + ps[k + 1..]);
    FlatConcat(ps[..k], [h] + ps[k + 1..]);
    FlatConcat([h], ps[k + 1..]);
    FlatOne(h);
    var flat := Flat(ps);
    assert flat[|Flat(ps[..k])|] == Tokens(h, CUTS)[0];
  }
}
