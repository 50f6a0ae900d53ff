/** A reader of the signed bytes of a manifest (`updater.rs`): it looks for the header keys and the tags, takes a line
    apart at its spaces, and gives every value back under its name. One text per kind of row, at a place that the
    reader is told, may hold spaces itself. */
module ManifestReader {
  import opened Text
  import opened StableSort
  import opened Manifest

  datatype Header = Header(
    schema: nat, channel: string, version: string, generation: nat, minClientVersion: string, minAgentVersion: string,
    tdlibVersion: string, protocol: nat, publishedAt: nat)

  datatype ArtifactRow = ArtifactRow(triple: string, libc: string, size: nat, sha256: string, slim: bool, sig: string)

  datatype DeltaRow = DeltaRow(
    triple: string, fromVersion: string, toVersion: string, algorithm: string, size: nat, resultSha256: string)

  datatype Contents = Contents(header: Header, artifacts: seq<ArtifactRow>, deltas: seq<DeltaRow>)

  // ----- the reader

  /** What follows the key and a space. */
  function Value(line: string, key: string): Option<string> {
    if key + " " <= line then Some(line[|key| + 1..]) else None
  }

  function Number(line: string, key: string): Option<nat> {
    match Value(line, key)
    case None => None
    case Some(digits) => ParseNat(digits)
  }

  function ReadHeader(lines: seq<string>): Option<Header>
    requires |lines| >= 10
  {
    var schema, channel, version := Number(lines[1], "schema"), Value(lines[2], "channel"), Value(lines[3], "version");
    var generation, client := Number(lines[4], "generation"), Value(lines[5], "min_client_version");
    var agent, tdlib := Value(lines[6], "min_agent_version"), Value(lines[7], "tdlib_version");
    var protocol, published := Number(lines[8], "protocol"), Number(lines[9], "published_at");
    if lines[0] != "TFAGENT-MANIFEST" || schema.None? || channel.None? || version.None? || generation.None?
       || client.None? || agent.None? || tdlib.None? || protocol.None? || published.None?
    then None
    else
      Some(Header(schema.value, channel.value, version.value, generation.value, client.value, agent.value,
                  tdlib.value, protocol.value, published.value))
  }

  /** The six fields of a line, of which the one at `p` may hold spaces. */
  function Fields(line: string, p: nat): Option<seq<string>>
    requires p < 6
  {
    var words := Split(line, {' '});
    if |words| < 6 then None
    else
      var end := |words| - 5 + p;
      Some(words[..p] + [Join(words[p..end], ' ')] + words[end..])
  }

  function ReadArtifact(line: string, p: nat): Option<ArtifactRow>
    requires p < 6
  {
    match Value(line, "artifact")
    case None => None
    case Some(rest) =>
      match Fields(rest, p)
      case None => None
      case Some(f) =>
        match ParseNat(f[2])
        case None => None
        case Some(size) =>
          if f[4] == "slim" then Some(ArtifactRow(f[0], f[1], size, f[3], true, f[5]))
          else if f[4] == "full" then Some(ArtifactRow(f[0], f[1], size, f[3], false, f[5]))
          else None
  }

  function ReadDelta(line: string, p: nat): Option<DeltaRow>
    requires p < 6
  {
    match Value(line, "delta")
    case None => None
    case Some(rest) =>
      match Fields(rest, p)
      case None => None
      case Some(f) =>
        match ParseNat(f[4])
        case None => None
        case Some(size) => Some(DeltaRow(f[0], f[1], f[2], f[3], size, f[5]))
  }

  function ReadRows<T>(lines: seq<string>, read: string -> Option<T>): Option<seq<T>> {
    if lines == [] then Some([])
    else
      match read(lines[0])
      case None => None
      case Some(row) =>
        match ReadRows(lines[1..], read)
        case None => None
        case Some(rows) => Some([row] + rows)
  }

  /** How many lines at the head are artifacts. */
  function Leading(lines: seq<string>): (n: nat)
    ensures n <= |lines|
  {
    if lines == [] || Value(lines[0], "artifact").None? then 0 else 1 + Leading(lines[1..])
  }

  function ReadManifest(text: string, p: nat, q: nat): Option<Contents>
    requires p < 6 && q < 6
  {
    var lines := Split(text, {'\n'});
    if |lines| < 11 || lines[|lines| - 1] != "" then None
    else
      var rows := lines[10..|lines| - 1];
      var header := ReadHeader(lines);
      var artifacts := ReadRows(rows[..Leading(rows)], line => ReadArtifact(line, p));
      var deltas := ReadRows(rows[Leading(rows)..], line => ReadDelta(line, q));
      if header.None? || artifacts.None? || deltas.None? then None
      else Some(Contents(header.value, artifacts.value, deltas.value))
  }

  // ----- what it should give back

  function HeaderOf(m: Manifest): Header {
    Header(m.schema, m.channel, m.version, m.generation, m.minClientVersion, m.minAgentVersion, m.tdlibVersion,
           m.protocol, m.publishedAt)
  }

  function ArtifactOf(a: Artifact): ArtifactRow {
    ArtifactRow(a.triple, a.libc, a.size, a.sha256, a.slim, a.sig)
  }

  function DeltaOf(d: Delta): DeltaRow {
    DeltaRow(d.triple, d.fromVersion, d.toVersion, d.algorithm, d.size, d.resultSha256)
  }

  // ----- it does

  lemma ValueOf(key: string, value: string)
    ensures Value(Join([key, value], ' '), key) == Some(value)
  {
    JoinTwo(key, value);
    assert key + " " + value == (key + " ") + value;
  }

  lemma NumberOf(key: string, n: nat)
    ensures Number(Join([key, Decimal(n)], ' '), key) == Some(n)
  {
    hide Value, Decimal;
    ValueOf(key, Decimal(n));
    ParseDecimal(n);
  }

  lemma HeaderReads(m: Manifest, lines: seq<string>)
    requires |lines| >= 10 && forall i :: 0 <= i < 10 ==> lines[i] == Join(HeaderRows(m)[i], ' ')
    ensures ReadHeader(lines) == Some(HeaderOf(m))
  {
    assert lines[0] == "TFAGENT-MANIFEST";
    hide Value, Number, Join, Decimal;
    NumberOf("schema", m.schema);
    ValueOf("channel", m.channel);
    ValueOf("version", m.version);
    NumberOf("generation", m.generation);
    ValueOf("min_client_version", m.minClientVersion);
    ValueOf("min_agent_version", m.minAgentVersion);
    ValueOf("tdlib_version", m.tdlibVersion);
    NumberOf("protocol", m.protocol);
    NumberOf("published_at", m.publishedAt);
  }

  lemma FieldsOf(row: seq<string>, p: nat, free: set<nat>)
    requires |row| == 6 && p < 6 && Spaced(row, free) && free <= {p}
    ensures Fields(Join(row, ' '), p) == Some(row)
  {
    hide Join, Split, Clean;
    SplitRow(row, p);
    var mid := Split(row[p], {' '});
    var words := row[..p] + mid + row[p + 1..];
    var end := |words| - 5 + p;
    assert words[..p] == row[..p] && words[p..end] == mid && words[end..] == row[p + 1..];
    JoinSplit(row[p], ' ');
    assert row == row[..p] + [row[p]] + row[p + 1..];
  }

  lemma TagValue(tag: string, row: seq<string>)
    requires |row| > 0
    ensures Value(Join([tag] + row, ' '), tag) == Some(Join(row, ' '))
  {
    TagLine(tag, row);
    hide Join;
    assert tag + " " + Join(row, ' ') == (tag + " ") + Join(row, ' ');
  }

  lemma ArtifactReads(a: Artifact, p: nat, fa: set<nat>)
    requires p < 6 && fa <= {p} && Spaced(ArtifactFields(a), fa)
    ensures ReadArtifact(Join(["artifact"] + ArtifactFields(a), ' '), p) == Some(ArtifactOf(a))
  {
    hide Value, Fields, Join, Spaced, Decimal, ParseNat;
    TagValue("artifact", ArtifactFields(a));
    FieldsOf(ArtifactFields(a), p, fa);
    ParseDecimal(a.size);
  }

  lemma DeltaReads(d: Delta, p: nat, fd: set<nat>)
    requires p < 6 && fd <= {p} && Spaced(DeltaFields(d), fd)
    ensures ReadDelta(Join(["delta"] + DeltaFields(d), ' '), p) == Some(DeltaOf(d))
  {
    hide Value, Fields, Join, Spaced, Decimal, ParseNat;
    TagValue("delta", DeltaFields(d));
    FieldsOf(DeltaFields(d), p, fd);
    ParseDecimal(d.size);
  }

  lemma {:induction false} RowsRead<T>(lines: seq<string>, read: string -> Option<T>, rows: seq<T>)
    requires |lines| == |rows| && forall i :: 0 <= i < |rows| ==> read(lines[i]) == Some(rows[i])
    ensures ReadRows(lines, read) == Some(rows)
  {
    if lines == [] {
      assert rows == [];
    } else {
      assert forall i :: 0 <= i < |rows| - 1 ==> lines[1..][i] == lines[i + 1] && rows[1..][i] == rows[i + 1];
      RowsRead(lines[1..], read, rows[1..]);
      assert [rows[0]] + rows[1..] == rows;
    }
  }

  lemma {:induction false} LeadingIs(lines: seq<string>, n: nat)
    requires n <= |lines|
    requires forall i :: 0 <= i < n ==> Value(lines[i], "artifact").Some?
    requires n < |lines| ==> Value(lines[n], "artifact").None?
    ensures Leading(lines) == n
  {
    hide Value;
    if n > 0 {
      assert forall i :: 0 <= i < n - 1 ==> lines[1..][i] == lines[i + 1];
      LeadingIs(lines[1..], n - 1);
    }
  }

  lemma DeltaIsNoArtifact(row: seq<string>)
    requires |row| > 0
    ensures Value(Join(["delta"] + row, ' '), "artifact").None?
  {
    TagLine("delta", row);
    hide Join;
    assert ("delta" + " " + Join(row, ' '))[0] == 'd' && ("artifact" + " ")[0] == 'a';
  }

  /** The lines of the text, one by one. */
  lemma LinesAre(m: Manifest, fa: set<nat>, fd: set<nat>)
    requires PlainBut(m, fa, fd)
    ensures var sa, sd := SortedArtifacts(m), SortedDeltas(m);
      var lines := Split(Encode(Rows(m)), {'\n'});
      && |lines| == 11 + |sa| + |sd| && lines[|lines| - 1] == ""
      && (forall i :: 0 <= i < 10 ==> lines[i] == Join(HeaderRows(m)[i], ' '))
      && (forall i :: 0 <= i < |sa| ==>
            lines[10 + i] == Join(["artifact"] + ArtifactFields(sa[i]), ' ') && Spaced(ArtifactFields(sa[i]), fa))
      && forall i :: 0 <= i < |sd| ==>
           lines[10 + |sa| + i] == Join(["delta"] + DeltaFields(sd[i]), ' ') && Spaced(DeltaFields(sd[i]), fd)
  {
    hide Join, Split, Encode, Spaced, ArtifactFields, DeltaFields, HeaderRows, PlainBut, Sort;
    ManifestIsShaped(m, fa, fd);
    FlatHasNoNewlines(PrintedOf(m), fa, fd);
    SortedSpaced(m, fa, fd);
    assert Rows(m) == Flat(PrintedOf(m));
    SplitEncode(Rows(m));
    var sa, sd := SortedArtifacts(m), SortedDeltas(m);
    forall i | 0 <= i < |sa| ensures Spaced(ArtifactFields(sa[i]), fa) {
      assert PrintedOf(m).artifacts[i] == ArtifactFields(sa[i]);
    }
    forall i | 0 <= i < |sd| ensures Spaced(DeltaFields(sd[i]), fd) {
      assert PrintedOf(m).deltas[i] == DeltaFields(sd[i]);
    }
  }

  lemma RowsOf(m: Manifest, rows: seq<string>, p: nat, q: nat, fa: set<nat>, fd: set<nat>)
    requires p < 6 && q < 6 && fa <= {p} && fd <= {q} && |rows| == |SortedArtifacts(m)| + |SortedDeltas(m)|
    requires forall i :: 0 <= i < |SortedArtifacts(m)| ==>
      && rows[i] == Join(["artifact"] + ArtifactFields(SortedArtifacts(m)[i]), ' ')
      && Spaced(ArtifactFields(SortedArtifacts(m)[i]), fa)
    requires forall i :: 0 <= i < |SortedDeltas(m)| ==>
      && rows[|SortedArtifacts(m)| + i] == Join(["delta"] + DeltaFields(SortedDeltas(m)[i]), ' ')
      && Spaced(DeltaFields(SortedDeltas(m)[i]), fd)
    ensures Leading(rows) == |SortedArtifacts(m)|
    ensures ReadRows(rows[..|SortedArtifacts(m)|], line => ReadArtifact(line, p))
         == Some(Map(SortedArtifacts(m), ArtifactOf))
    ensures ReadRows(rows[|SortedArtifacts(m)|..], line => ReadDelta(line, q)) == Some(Map(SortedDeltas(m), DeltaOf))
  {
    hide Join, Spaced, ArtifactFields, DeltaFields, ReadArtifact, ReadDelta, Value, SortedArtifacts, SortedDeltas,
      ArtifactOf, DeltaOf;
    var sa, sd := SortedArtifacts(m), SortedDeltas(m);
    var n := |sa|;
    forall i | 0 <= i < n
      ensures Value(rows[i], "artifact").Some? && ReadArtifact(rows[..n][i], p) == Some(ArtifactOf(sa[i])) {
      SixFields(sa[i]);
      TagValue("artifact", ArtifactFields(sa[i]));
      ArtifactReads(sa[i], p, fa);
    }
    forall i | 0 <= i < |sd| ensures ReadDelta(rows[n..][i], q) == Some(DeltaOf(sd[i])) {
      DeltaReads(sd[i], q, fd);
    }
    if n < |rows| {
      SixDeltaFields(sd[0]);
      assert rows[n + 0] == Join(["delta"] + DeltaFields(sd[0]), ' ');
      DeltaIsNoArtifact(DeltaFields(sd[0]));
    }
    LeadingIs(rows, n);
    RowsRead(rows[..n], line => ReadArtifact(line, p), Map(sa, ArtifactOf));
    RowsRead(rows[n..], line => ReadDelta(line, q), Map(sd, DeltaOf));
  }

  function ByTriple(row: ArtifactRow): Key {
    [row.triple]
  }

  function ByTripleAndVersion(row: DeltaRow): Key {
    [row.triple, row.fromVersion]
  }

  lemma RowsSorted(m: Manifest)
    ensures Map(SortedArtifacts(m), ArtifactOf) == Sort(Map(m.artifacts, ArtifactOf), ByTriple)
    ensures Map(SortedDeltas(m), DeltaOf) == Sort(Map(m.deltas, DeltaOf), ByTripleAndVersion)
  {
    hide Sort, Map;
    SortCommutes(m.artifacts, ArtifactOf, ArtifactKey, ByTriple);
    SortCommutes(m.deltas, DeltaOf, DeltaKey, ByTripleAndVersion);
  }

  /** For all manifests without newlines, and with spaces in header values and at most one text per kind of row: the
      reader recovers every printed value under its name, artifacts sorted by triple and deltas by triple and version
      from, stably. */
  lemma ReadsBack(m: Manifest, fa: set<nat>, fd: set<nat>, p: nat, q: nat)
    requires p < 6 && q < 6 && fa <= {p} && fd <= {q} && PlainBut(m, fa, fd)
    ensures ReadManifest(Encode(Rows(m)), p, q)
         == Some(Contents(HeaderOf(m), Sort(Map(m.artifacts, ArtifactOf), ByTriple),
                          Sort(Map(m.deltas, DeltaOf), ByTripleAndVersion)))
  {
    hide Split, Encode, Rows, ReadHeader, ReadRows, Leading, PlainBut, Spaced, Join, HeaderRows, SortedArtifacts,
      SortedDeltas, ArtifactFields, DeltaFields, HeaderOf, Sort, Map;
    RowsSorted(m);
    LinesAre(m, fa, fd);
    var lines := Split(Encode(Rows(m)), {'\n'});
    HeaderReads(m, lines);
    RowsOf(m, lines[10..|lines| - 1], p, q, fa, fd);
  }
}
