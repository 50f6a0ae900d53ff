/** The canonical bytes of an update manifest (`updater.rs`); a `String` is its sequence of chars. */
module Manifest {
  import opened Text
  import opened StableSort

  datatype Artifact = Artifact(
    triple: string, url: string, sha256: string, size: nat, libc: string, slim: bool, sig: string)

  datatype Delta = Delta(
    fromVersion: string, toVersion: string, triple: string, algorithm: string,
    url: string, sha256: string, size: nat, resultSha256: string)

  datatype Manifest = Manifest(
    schema: nat, channel: string, version: string, generation: nat,
    minClientVersion: string, minAgentVersion: string, tdlibVersion: string,
    publishedAt: nat, artifacts: seq<Artifact>, deltas: seq<Delta>, protocol: nat)

  // ----- what is printed

  function ArtifactFields(a: Artifact): seq<string> {
    [a.triple, a.libc, Decimal(a.size), a.sha256, if a.slim then "slim" else "full", a.sig]
  }

  function DeltaFields(d: Delta): seq<string> {
    [d.triple, d.fromVersion, d.toVersion, d.algorithm, Decimal(d.size), d.resultSha256]
  }

  function HeaderRows(m: Manifest): (rows: seq<seq<string>>)
    ensures |rows| == 10
  {
    [["TFAGENT-MANIFEST"],
     ["schema", Decimal(m.schema)],
     ["channel", m.channel],
     ["version", m.version],
     ["generation", Decimal(m.generation)],
     ["min_client_version", m.minClientVersion],
     ["min_agent_version", m.minAgentVersion],
     ["tdlib_version", m.tdlibVersion],
     ["protocol", Decimal(m.protocol)],
     ["published_at", Decimal(m.publishedAt)]]
  }

  function Tagged(tag: string, rows: seq<seq<string>>): (r: seq<seq<string>>)
    ensures |r| == |rows| && forall i :: 0 <= i < |rows| ==> r[i] == [tag] + rows[i]
  {
    seq(|rows|, i requires 0 <= i < |rows| => [tag] + rows[i])
  }

  function SortedArtifacts(m: Manifest): seq<Artifact> { Sort(m.artifacts, ArtifactKey) }
  function SortedDeltas(m: Manifest): seq<Delta> { Sort(m.deltas, DeltaKey) }

  function ArtifactKey(a: Artifact): Key { [a.triple] }
  function DeltaKey(d: Delta): Key { [d.triple, d.fromVersion] }

  function Rows(m: Manifest): seq<seq<string>> {
    HeaderRows(m)
    + Tagged("artifact", Map(SortedArtifacts(m), ArtifactFields))
    + Tagged("delta", Map(SortedDeltas(m), DeltaFields))
  }

  function Lines(rows: seq<seq<string>>): (lines: seq<string>)
    ensures |lines| == |rows|
    ensures forall i :: 0 <= i < |rows| ==> lines[i] == Join(rows[i], ' ')
  {
    seq(|rows|, i requires 0 <= i < |rows| => Join(rows[i], ' '))
  }

  function Encode(rows: seq<seq<string>>): string {
    Unlines(Lines(rows))
  }

  lemma EncodeAppend(rows: seq<seq<string>>, row: seq<string>)
    ensures Encode(rows + [row]) == Encode(rows) + Join(row, ' ') + "\n"
  {
    UnlinesAppend(Lines(rows), Join(row, ' '));
    assert Lines(rows + [row]) == Lines(rows) + [Join(row, ' ')];
  }

  lemma JoinTwo(a: string, b: string)
    ensures Join([a, b], ' ') == a + " " + b
  {
    assert [a, b][1..] == [b];
  }

  function Then(a: string, b: string): string { a + " " + b }

  /** `"artifact {} {} {} {} {} {}"` */
  function FormatArtifact(a: Artifact): string {
    Then("artifact", Then(a.triple, Then(a.libc, Then(Decimal(a.size),
      Then(a.sha256, Then(if a.slim then "slim" else "full", a.sig))))))
  }

  /** `"delta {} {} {} {} {} {}"` */
  function FormatDelta(d: Delta): string {
    Then("delta", Then(d.triple, Then(d.fromVersion, Then(d.toVersion,
      Then(d.algorithm, Then(Decimal(d.size), d.resultSha256))))))
  }

  lemma JoinStep(f: seq<string>, k: nat)
    requires k < |f|
    ensures Join(f[k..], ' ') == if k + 1 == |f| then f[k] else Then(f[k], Join(f[k + 1..], ' '))
  {
    assert f[k..][1..] == f[k + 1..];
  }

  lemma JoinSeven(f: seq<string>)
    requires |f| == 7
    ensures Join(f, ' ') == Then(f[0], Then(f[1], Then(f[2], Then(f[3], Then(f[4], Then(f[5], f[6]))))))
  {
    hide Join, Then;
    assert f[0..] == f;
    JoinStep(f, 6);
    JoinStep(f, 5);
    JoinStep(f, 4);
    JoinStep(f, 3);
    JoinStep(f, 2);
    JoinStep(f, 1);
    JoinStep(f, 0);
  }

  lemma PushArtifact(rows: seq<seq<string>>, a: Artifact)
    ensures Encode(rows + [["artifact"] + ArtifactFields(a)]) == Encode(rows) + FormatArtifact(a) + "\n"
  {
    EncodeAppend(rows, ["artifact"] + ArtifactFields(a));
    JoinSeven(["artifact"] + ArtifactFields(a));
  }

  lemma PushDelta(rows: seq<seq<string>>, d: Delta)
    ensures Encode(rows + [["delta"] + DeltaFields(d)]) == Encode(rows) + FormatDelta(d) + "\n"
  {
    EncodeAppend(rows, ["delta"] + DeltaFields(d));
    JoinSeven(["delta"] + DeltaFields(d));
  }

  lemma TaggedPush(tag: string, rows: seq<seq<string>>, i: nat)
    requires i < |rows|
    ensures Tagged(tag, rows[..i + 1]) == Tagged(tag, rows[..i]) + [[tag] + rows[i]]
  {
  }

  /** One `key value` line. */
  method PushLine(out: string, key: string, value: string, ghost h: seq<seq<string>>, ghost i: nat)
    returns (out': string)
    requires i < |h| && h[i] == [key, value] && out == Encode(h[..i])
    ensures out' == Encode(h[..i + 1])
  {
    out' := out + (key + " " + value) + "\n";
    EncodeAppend(h[..i], [key, value]);
    JoinTwo(key, value);
    assert h[..i + 1] == h[..i] + [h[i]];
  }

  lemma FirstLine(h: seq<seq<string>>)
    requires h != [] && h[0] == ["TFAGENT-MANIFEST"]
    ensures Encode(h[..1]) == "TFAGENT-MANIFEST\n"
  {
    EncodeAppend([], h[0]);
    assert h[..1] == [] + [h[0]];
  }

  method Header(m: Manifest) returns (out: string)
    ensures out == Encode(HeaderRows(m))
  {
    ghost var h := HeaderRows(m);
    out := "TFAGENT-MANIFEST\n";
    FirstLine(h);
    out := PushLine(out, "schema", Decimal(m.schema), h, 1);
    out := PushLine(out, "channel", m.channel, h, 2);
    out := PushLine(out, "version", m.version, h, 3);
    out := PushLine(out, "generation", Decimal(m.generation), h, 4);
    out := PushLine(out, "min_client_version", m.minClientVersion, h, 5);
    out := PushLine(out, "min_agent_version", m.minAgentVersion, h, 6);
    out := PushLine(out, "tdlib_version", m.tdlibVersion, h, 7);
    out := PushLine(out, "protocol", Decimal(m.protocol), h, 8);
    out := PushLine(out, "published_at", Decimal(m.publishedAt), h, 9);
    assert h[..10] == h;
  }

  method SigningBytes(m: Manifest) returns (out: string)
    ensures out == Encode(Rows(m))
  {
    out := Header(m);
    var artifacts := Sort(m.artifacts, ArtifactKey);
    ghost var rows := HeaderRows(m);
    ghost var printed := Map(artifacts, ArtifactFields);
    for i := 0 to |artifacts|
      invariant rows == HeaderRows(m) + Tagged("artifact", printed[..i])
      invariant out == Encode(rows)
    {
      var a := artifacts[i];
      PushArtifact(rows, a);
      out := out + FormatArtifact(a) + "\n";
      rows := rows + [["artifact"] + ArtifactFields(a)];
      TaggedPush("artifact", printed, i);
    }
    assert printed[..|printed|] == printed;
    ghost var before := rows;
    var deltas := Sort(m.deltas, DeltaKey);
    ghost var dprinted := Map(deltas, DeltaFields);
    for i := 0 to |deltas|
      invariant rows == before + Tagged("delta", dprinted[..i])
      invariant out == Encode(rows)
    {
      var d := deltas[i];
      PushDelta(rows, d);
      out := out + FormatDelta(d) + "\n";
      rows := rows + [["delta"] + DeltaFields(d)];
      TaggedPush("delta", dprinted, i);
    }
    assert dprinted[..|dprinted|] == dprinted;
    assert rows == Rows(m);
  }

  // ----- the lines determine their fields

  /** No newline anywhere, and spaces in the fields at the positions of `free` only. */
  ghost predicate Spaced(row: seq<string>, free: set<nat>) {
    forall i :: 0 <= i < |row| ==> Clean(row[i], {'\n'}) && (i !in free ==> Clean(row[i], {' '}))
  }

  ghost predicate AtMostOne(free: set<nat>) {
    forall i, j :: i in free && j in free ==> i == j
  }

  lemma {:induction false} JoinHasNoNewline(row: seq<string>)
    requires forall i :: 0 <= i < |row| ==> Clean(row[i], {'\n'})
    ensures Clean(Join(row, ' '), {'\n'})
  {
    if |row| > 1 {
      JoinHasNoNewline(row[1..]);
    }
  }

  /** The words of a line whose fields hold no space but for the one at `p`. */
  lemma {:induction false} SplitRow(row: seq<string>, p: nat)
    requires p < |row| && forall i :: 0 <= i < |row| && i != p ==> Clean(row[i], {' '})
    ensures Split(Join(row, ' '), {' '}) == row[..p] + Split(row[p], {' '}) + row[p + 1..]
  {
    hide Split;
    if |row| == 1 {
      assert row[..0] == [] && row[1..] == [];
    } else {
      var rest := row[1..];
      assert Join(row, ' ') == row[0] + [' '] + Join(rest, ' ');
      SplitConcat(row[0], ' ', Join(rest, ' '), {' '});
      if p == 0 {
        forall i | 0 <= i < |rest| ensures Clean(rest[i], {' '}) { assert rest[i] == row[i + 1]; }
        SplitJoin(rest, ' ', {' '});
      } else {
        SplitClean(row[0], {' '});
        forall i | 0 <= i < |rest| && i != p - 1 ensures Clean(rest[i], {' '}) { assert rest[i] == row[i + 1]; }
        SplitRow(rest, p - 1);
        assert row[..p] == [row[0]] + rest[..p - 1] && row[p + 1..] == rest[p..];
      }
    }
  }

  lemma MiddlesAgree<T>(l: seq<T>, m: seq<T>, r: seq<T>, l': seq<T>, m': seq<T>, r': seq<T>)
    requires |l| == |l'| && |r| == |r'| && l + m + r == l' + m' + r'
    ensures l == l' && m == m' && r == r'
  {
    var x, y := l + m + r, l' + m' + r';
    assert |m| == |m'|;
    assert l == x[..|l|] && l' == y[..|l|];
    assert m == x[|l|..|l| + |m|] && m' == y[|l|..|l| + |m|];
    assert r == x[|l| + |m|..] && r' == y[|l| + |m|..];
  }

  lemma RowDeterminedBut(a: seq<string>, b: seq<string>, p: nat)
    requires p < |a| == |b| && Join(a, ' ') == Join(b, ' ')
    requires forall i :: 0 <= i < |a| && i != p ==> Clean(a[i], {' '})
    requires forall i :: 0 <= i < |b| && i != p ==> Clean(b[i], {' '})
    ensures a == b
  {
    hide Split, Join, Clean;
    SplitRow(a, p);
    SplitRow(b, p);
    MiddlesAgree(a[..p], Split(a[p], {' '}), a[p + 1..], b[..p], Split(b[p], {' '}), b[p + 1..]);
    JoinSplit(a[p], ' ');
    JoinSplit(b[p], ' ');
    assert a == a[..p] + [a[p]] + a[p + 1..];
    assert b == b[..p] + [b[p]] + b[p + 1..];
  }

  /** A line is read back to its fields when at most one position may hold spaces. */
  lemma RowDetermined(a: seq<string>, b: seq<string>, free: set<nat>)
    requires |a| == |b| > 0 && Spaced(a, free) && Spaced(b, free) && AtMostOne(free)
    requires Join(a, ' ') == Join(b, ' ')
    ensures a == b
  {
    hide Join, Clean;
    var p: nat := 0;
    if q :| q in free && q < |a| { p := q; }
    RowDeterminedBut(a, b, p);
  }

  ghost predicate NoNewlines(rows: seq<seq<string>>) {
    forall i, j :: 0 <= i < |rows| && 0 <= j < |rows[i]| ==> Clean(rows[i][j], {'\n'})
  }

  lemma SplitEncode(rows: seq<seq<string>>)
    requires NoNewlines(rows)
    ensures Split(Encode(rows), {'\n'}) == Lines(rows) + [""]
  {
    hide Split, Join;
    forall i | 0 <= i < |rows| ensures Clean(Lines(rows)[i], {'\n'}) { JoinHasNoNewline(rows[i]); }
    SplitUnlines(Lines(rows), {'\n'});
  }

  lemma EncodeGivesLines(a: seq<seq<string>>, b: seq<seq<string>>)
    requires NoNewlines(a) && NoNewlines(b) && Encode(a) == Encode(b)
    ensures |a| == |b| && forall i :: 0 <= i < |a| ==> Join(a[i], ' ') == Join(b[i], ' ')
  {
    hide Encode, Join, Split;
    SplitEncode(a);
    SplitEncode(b);
    var l, r := Lines(a), Lines(b);
    assert l == (l + [""])[..|a|] && r == (r + [""])[..|b|];
    forall i | 0 <= i < |a| ensures Join(a[i], ' ') == Join(b[i], ' ') { assert l[i] == r[i]; }
  }

  // ----- manifests

  /** Positions of text among the printed fields: triple, libc, sha256 and signature; triple, both versions,
      algorithm and hash. The others are a decimal number and one of two words. */
  const ARTIFACT_TEXTS: set<nat> := {0, 1, 3, 5}
  const DELTA_TEXTS: set<nat> := {0, 1, 2, 3, 5}

  function HeaderTexts(m: Manifest): seq<string> {
    [m.channel, m.version, m.minClientVersion, m.minAgentVersion, m.tdlibVersion]
  }

  /** No newline in a printed text, and spaces only in header values, at the positions `fa` of artifacts and at the
      positions `fd` of deltas. */
  ghost predicate PlainBut(m: Manifest, fa: set<nat>, fd: set<nat>) {
    && (forall i :: 0 <= i < 5 ==> Clean(HeaderTexts(m)[i], {'\n'}))
    && (forall a :: a in m.artifacts ==> Spaced(ArtifactFields(a), fa))
    && (forall d :: d in m.deltas ==> Spaced(DeltaFields(d), fd))
  }

  /** The printed fields of a manifest, artifacts and deltas as they are sorted. */
  datatype Printed = Printed(header: seq<seq<string>>, artifacts: seq<seq<string>>, deltas: seq<seq<string>>)

  function PrintedOf(m: Manifest): Printed {
    Printed(HeaderRows(m), Map(SortedArtifacts(m), ArtifactFields), Map(SortedDeltas(m), DeltaFields))
  }

  predicate HeaderKeys(h: seq<seq<string>>, g: seq<seq<string>>) {
    && |h| == |g| == 10 && h[0] == g[0]
    && forall i :: 1 <= i < 10 ==> |h[i]| == |g[i]| == 2 && h[i][0] == g[i][0]
  }

  lemma HeaderIsSpaced(m: Manifest, i: nat)
    requires i < 10 && forall k :: 0 <= k < 5 ==> Clean(HeaderTexts(m)[k], {'\n'})
    ensures Spaced(HeaderRows(m)[i], {1})
  {
    var h := HeaderRows(m);
    HeaderKeysClean();
    MoreHeaderKeysClean();
    HeaderTextsClean(m);
    assert forall n: nat :: Clean(Decimal(n), {'\n'});
  }

  lemma HeaderTextsClean(m: Manifest)
    requires forall k :: 0 <= k < 5 ==> Clean(HeaderTexts(m)[k], {'\n'})
    ensures Clean(m.channel, {'\n'}) && Clean(m.version, {'\n'}) && Clean(m.minClientVersion, {'\n'})
    ensures Clean(m.minAgentVersion, {'\n'}) && Clean(m.tdlibVersion, {'\n'})
  {
    var t := HeaderTexts(m);
    assert Clean(t[0], {'\n'}) && Clean(t[1], {'\n'}) && Clean(t[2], {'\n'});
    assert Clean(t[3], {'\n'}) && Clean(t[4], {'\n'});
  }

  predicate Word(s: string) {
    Clean(s, {' '}) && Clean(s, {'\n'})
  }

  lemma HeaderKeysClean()
    ensures Word("TFAGENT-MANIFEST") && Word("schema") && Word("channel") && Word("version") && Word("generation")
  {
  }

  lemma MoreHeaderKeysClean()
    ensures Word("min_client_version") && Word("min_agent_version") && Word("tdlib_version") && Word("protocol")
    ensures Word("published_at")
  {
  }

  lemma SortedSpaced(m: Manifest, fa: set<nat>, fd: set<nat>)
    requires PlainBut(m, fa, fd)
    ensures var p := PrintedOf(m);
      && (forall i :: 0 <= i < |p.artifacts| ==> |p.artifacts[i]| == 6 && Spaced(p.artifacts[i], fa))
      && forall i :: 0 <= i < |p.deltas| ==> |p.deltas[i]| == 6 && Spaced(p.deltas[i], fd)
  {
    hide Spaced, ArtifactFields, DeltaFields, Sort;
    SortIsStable(m.artifacts, ArtifactKey);
    SortIsStable(m.deltas, DeltaKey);
    var sa, sd, p := SortedArtifacts(m), SortedDeltas(m), PrintedOf(m);
    forall i | 0 <= i < |p.artifacts| ensures |p.artifacts[i]| == 6 && Spaced(p.artifacts[i], fa) {
      assert sa[i] in multiset(sa);
      assert sa[i] in m.artifacts;
      SixFields(sa[i]);
    }
    forall i | 0 <= i < |p.deltas| ensures |p.deltas[i]| == 6 && Spaced(p.deltas[i], fd) {
      assert sd[i] in multiset(sd);
      assert sd[i] in m.deltas;
      SixDeltaFields(sd[i]);
    }
  }

  lemma SixFields(a: Artifact)
    ensures |ArtifactFields(a)| == 6
  {
  }

  lemma SixDeltaFields(d: Delta)
    ensures |DeltaFields(d)| == 6
  {
  }

  /** Printed rows with tags: the form of everything that is encoded. */
  ghost predicate Shaped(p: Printed, fa: set<nat>, fd: set<nat>) {
    && |p.header| == 10
    && (forall i :: 0 <= i < 10 ==> |p.header[i]| > 0 && Spaced(p.header[i], {1}))
    && (forall i :: 0 <= i < |p.artifacts| ==> |p.artifacts[i]| == 6 && Spaced(p.artifacts[i], fa))
    && forall i :: 0 <= i < |p.deltas| ==> |p.deltas[i]| == 6 && Spaced(p.deltas[i], fd)
  }

  function Flat(p: Printed): seq<seq<string>> {
    p.header + Tagged("artifact", p.artifacts) + Tagged("delta", p.deltas)
  }

  lemma FlatHasNoNewlines(p: Printed, fa: set<nat>, fd: set<nat>)
    requires Shaped(p, fa, fd)
    ensures NoNewlines(Flat(p))
  {
    assert Clean("artifact", {'\n'}) && Clean("delta", {'\n'});
  }

  /** What follows a tag is the line without it. */
  lemma UntagLine(tag: string, row: seq<string>, row': seq<string>)
    requires |row| > 0 && |row'| > 0 && Join([tag] + row, ' ') == Join([tag] + row', ' ')
    ensures Join(row, ' ') == Join(row', ' ')
  {
    TagLine(tag, row);
    TagLine(tag, row');
    var x, y := tag + " " + Join(row, ' '), tag + " " + Join(row', ' ');
    assert Join(row, ' ') == x[|tag| + 1..] && Join(row', ' ') == y[|tag| + 1..];
  }

  lemma TagLine(tag: string, row: seq<string>)
    requires |row| > 0
    ensures Join([tag] + row, ' ') == tag + " " + Join(row, ' ')
  {
    assert ([tag] + row)[1..] == row;
  }

  lemma TagsDiffer(row: seq<string>, row': seq<string>)
    requires |row| > 0 && |row'| > 0
    ensures Join(["artifact"] + row, ' ') != Join(["delta"] + row', ' ')
  {
    TagLine("artifact", row);
    TagLine("delta", row');
    assert ("artifact" + " " + Join(row, ' '))[0] == 'a';
    assert ("delta" + " " + Join(row', ' '))[0] == 'd';
  }

  lemma SameLines(p: Printed, q: Printed, fa: set<nat>, fd: set<nat>)
    requires Shaped(p, fa, fd) && Shaped(q, fa, fd) && Encode(Flat(p)) == Encode(Flat(q))
    ensures |Flat(p)| == |Flat(q)| && |p.artifacts| + |p.deltas| == |q.artifacts| + |q.deltas|
    ensures forall i :: 0 <= i < 10 ==> Join(p.header[i], ' ') == Join(q.header[i], ' ')
    ensures forall i :: 0 <= i < |Flat(p)| ==> Join(Flat(p)[i], ' ') == Join(Flat(q)[i], ' ')
  {
    hide Encode, Join, Spaced;
    FlatHasNoNewlines(p, fa, fd);
    FlatHasNoNewlines(q, fa, fd);
    EncodeGivesLines(Flat(p), Flat(q));
    forall i | 0 <= i < 10 ensures Join(p.header[i], ' ') == Join(q.header[i], ' ') {
      assert Flat(p)[i] == p.header[i] && Flat(q)[i] == q.header[i];
    }
  }

  lemma FlatAt(p: Printed, i: nat)
    requires |p.header| == 10 && i < |p.artifacts| + |p.deltas|
    ensures 10 + i < |Flat(p)|
    ensures Flat(p)[10 + i]
         == if i < |p.artifacts| then ["artifact"] + p.artifacts[i] else ["delta"] + p.deltas[i - |p.artifacts|]
  {
  }

  lemma NotFewerArtifacts(p: Printed, q: Printed, fa: set<nat>, fd: set<nat>)
    requires Shaped(p, fa, fd) && Shaped(q, fa, fd) && Encode(Flat(p)) == Encode(Flat(q))
    ensures |q.artifacts| <= |p.artifacts|
  {
    hide Encode, Join, Flat, Spaced;
    SameLines(p, q, fa, fd);
    var n := |p.artifacts|;
    if n < |q.artifacts| {
      FlatAt(p, n);
      FlatAt(q, n);
      TagsDiffer(q.artifacts[n], p.deltas[0]);
    }
  }

  /** With at most one spaced position per kind of row the bytes determine every printed field. */
  lemma EncodeInjective(p: Printed, q: Printed, fa: set<nat>, fd: set<nat>)
    requires Shaped(p, fa, fd) && Shaped(q, fa, fd) && AtMostOne(fa) && AtMostOne(fd)
    requires HeaderKeys(p.header, q.header) && Encode(Flat(p)) == Encode(Flat(q))
    ensures p == q
  {
    hide Encode, Join, Flat, Spaced, AtMostOne, Tagged;
    SameLines(p, q, fa, fd);
    NotFewerArtifacts(p, q, fa, fd);
    NotFewerArtifacts(q, p, fa, fd);
    var n := |p.artifacts|;
    forall i | 0 <= i < 10 ensures p.header[i] == q.header[i] {
      if i > 0 {
        assert AtMostOne({1}) by { OneIsAtMostOne(); }
        RowDetermined(p.header[i], q.header[i], {1});
      }
    }
    forall i | 0 <= i < n ensures p.artifacts[i] == q.artifacts[i] {
      FlatAt(p, i);
      FlatAt(q, i);
      UntagLine("artifact", p.artifacts[i], q.artifacts[i]);
      RowDetermined(p.artifacts[i], q.artifacts[i], fa);
    }
    forall i | 0 <= i < |p.deltas| ensures p.deltas[i] == q.deltas[i] {
      FlatAt(p, n + i);
      FlatAt(q, n + i);
      UntagLine("delta", p.deltas[i], q.deltas[i]);
      RowDetermined(p.deltas[i], q.deltas[i], fd);
    }
  }

  lemma OneIsAtMostOne()
    ensures AtMostOne({1})
  {
  }

  lemma ManifestIsShaped(m: Manifest, fa: set<nat>, fd: set<nat>)
    requires PlainBut(m, fa, fd)
    ensures Shaped(PrintedOf(m), fa, fd) && Flat(PrintedOf(m)) == Rows(m)
  {
    hide Spaced, HeaderRows;
    SortedSpaced(m, fa, fd);
    forall i | 0 <= i < 10 ensures |HeaderRows(m)[i]| > 0 && Spaced(HeaderRows(m)[i], {1}) {
      HeaderIsSpaced(m, i);
      HeaderHasKeys(m, m);
    }
  }

  lemma HeaderHasKeys(m: Manifest, n: Manifest)
    ensures HeaderKeys(HeaderRows(m), HeaderRows(n)) && |HeaderRows(m)[0]| == 1
  {
  }

  lemma PrintedDetermined(m: Manifest, n: Manifest, fa: set<nat>, fd: set<nat>)
    requires PlainBut(m, fa, fd) && PlainBut(n, fa, fd) && AtMostOne(fa) && AtMostOne(fd)
    ensures Encode(Rows(m)) == Encode(Rows(n)) <==> PrintedOf(m) == PrintedOf(n)
  {
    hide Spaced, AtMostOne, Encode, Flat, PlainBut, Shaped, PrintedOf;
    ManifestIsShaped(m, fa, fd);
    ManifestIsShaped(n, fa, fd);
    if Encode(Rows(m)) == Encode(Rows(n)) {
      PrintedHeader(m, n);
      EncodeInjective(PrintedOf(m), PrintedOf(n), fa, fd);
    }
  }

  lemma PrintedHeader(m: Manifest, n: Manifest)
    ensures HeaderKeys(PrintedOf(m).header, PrintedOf(n).header)
  {
    HeaderHasKeys(m, n);
  }

  // ----- canonicity

  predicate SameHeader(m: Manifest, n: Manifest) {
    && m.schema == n.schema && m.channel == n.channel && m.version == n.version
    && m.generation == n.generation && m.minClientVersion == n.minClientVersion
    && m.minAgentVersion == n.minAgentVersion && m.tdlibVersion == n.tdlibVersion
    && m.protocol == n.protocol && m.publishedAt == n.publishedAt
  }

  function RowKey(n: nat): seq<string> -> Key {
    row => if |row| < n then row else row[..n]
  }

  function PrintedArtifacts(m: Manifest): seq<seq<string>> { Map(m.artifacts, ArtifactFields) }
  function PrintedDeltas(m: Manifest): seq<seq<string>> { Map(m.deltas, DeltaFields) }

  lemma PrintedSorted(m: Manifest)
    ensures Map(SortedArtifacts(m), ArtifactFields) == Sort(PrintedArtifacts(m), RowKey(1))
    ensures Map(SortedDeltas(m), DeltaFields) == Sort(PrintedDeltas(m), RowKey(2))
  {
    forall a: Artifact ensures RowKey(1)(ArtifactFields(a)) == ArtifactKey(a) {}
    forall d: Delta ensures RowKey(2)(DeltaFields(d)) == DeltaKey(d) {}
    SortCommutes(m.artifacts, ArtifactFields, ArtifactKey, RowKey(1));
    SortCommutes(m.deltas, DeltaFields, DeltaKey, RowKey(2));
  }

  lemma HeaderInjective(m: Manifest, n: Manifest)
    ensures HeaderRows(m) == HeaderRows(n) <==> SameHeader(m, n)
  {
    if HeaderRows(m) == HeaderRows(n) {
      var a, b := HeaderRows(m), HeaderRows(n);
      assert forall i :: 1 <= i < 10 ==> a[i][1] == b[i][1];
      assert a[1][1] == b[1][1] && a[2][1] == b[2][1] && a[3][1] == b[3][1] && a[4][1] == b[4][1] && a[5][1] == b[5][1];
      assert a[6][1] == b[6][1] && a[7][1] == b[7][1] && a[8][1] == b[8][1] && a[9][1] == b[9][1];
      DecimalInjective(m.schema, n.schema);
      DecimalInjective(m.generation, n.generation);
      DecimalInjective(m.protocol, n.protocol);
      DecimalInjective(m.publishedAt, n.publishedAt);
    }
  }

  /** Equal bytes mean equal headers and, for every triple and every (triple, from_version), the same printed lines
      in the same order; and nothing more is needed. One text position per kind of row may hold spaces. */
  lemma SigningBytesEqualIff(m: Manifest, n: Manifest, fa: set<nat>, fd: set<nat>)
    requires PlainBut(m, fa, fd) && PlainBut(n, fa, fd) && AtMostOne(fa) && AtMostOne(fd)
    ensures Encode(Rows(m)) == Encode(Rows(n)) <==>
              && SameHeader(m, n)
              && Agree(PrintedArtifacts(m), PrintedArtifacts(n), RowKey(1))
              && Agree(PrintedDeltas(m), PrintedDeltas(n), RowKey(2))
  {
    hide PlainBut, Encode, Agree, SameHeader, AtMostOne;
    PrintedDetermined(m, n, fa, fd);
    PrintedSorted(m);
    PrintedSorted(n);
    HeaderInjective(m, n);
    SortEqualIff(PrintedArtifacts(m), PrintedArtifacts(n), RowKey(1));
    SortEqualIff(PrintedDeltas(m), PrintedDeltas(n), RowKey(2));
  }

  /** With distinct triples and distinct (triple, from_version) pairs the bytes are canonical: list order does not
      matter, every printed field does. */
  lemma SigningBytesCanonical(m: Manifest, n: Manifest, fa: set<nat>, fd: set<nat>)
    requires PlainBut(m, fa, fd) && PlainBut(n, fa, fd) && AtMostOne(fa) && AtMostOne(fd)
    requires DistinctKeys(PrintedArtifacts(m), RowKey(1)) && DistinctKeys(PrintedArtifacts(n), RowKey(1))
    requires DistinctKeys(PrintedDeltas(m), RowKey(2)) && DistinctKeys(PrintedDeltas(n), RowKey(2))
    ensures Encode(Rows(m)) == Encode(Rows(n)) <==>
              && SameHeader(m, n)
              && multiset(PrintedArtifacts(m)) == multiset(PrintedArtifacts(n))
              && multiset(PrintedDeltas(m)) == multiset(PrintedDeltas(n))
  {
    SigningBytesEqualIff(m, n, fa, fd);
    AgreeIffReordering(PrintedArtifacts(m), PrintedArtifacts(n), RowKey(1));
    AgreeIffReordering(PrintedDeltas(m), PrintedDeltas(n), RowKey(2));
  }
}
