/** `.binobj` to `.obj` and back. */
module MeshRoundTrip {
  import opened Octets
  import opened Text
  import opened MeshBytes
  import opened MeshText

  // ----- one line at a time

  ghost predicate AllRoundTrip(ft: FloatText, ws: seq<word>) {
    forall i :: 0 <= i < |ws| ==> RoundTrips(ft, ws[i])
  }

  lemma {:induction false} ReadShown(ft: FloatText, parts: seq<string>, ws: seq<word>)
    requires AllRoundTrip(ft, ws) && |parts| == |ws|
    requires forall i :: 0 <= i < |ws| ==> parts[i] == ft.show(ws[i])
    ensures ReadAll(ft, parts) == Some(ws)
  {
    if ws != [] {
      ReadShown(ft, parts[1..], ws[1..]);
      assert [ws[0]] + ws[1..] == ws;
    }
  }

  lemma TripleLineParses(ft: FloatText, m: Mesh, tag: string, xs: seq<word>, i: nat)
    requires 3 * i + 2 < |xs| && AllRoundTrip(ft, xs) && (tag == "v" || tag == "vn")
    ensures Clean(TripleLine(ft, tag, xs, i), LINE_ENDS)
    ensures var ws := xs[3 * i..3 * i + 3];
      ParseLine(ft, m, TripleLine(ft, tag, xs, i)) ==
      Some(if tag == "v" then m.(positions := m.positions + ws) else m.(normals := m.normals + ws))
  {
    hide Tokens, Join;
    var parts := [tag, ft.show(xs[3 * i]), ft.show(xs[3 * i + 1]), ft.show(xs[3 * i + 2])];
    TokensJoin(parts, ' ', WHITESPACE);
    JoinClean(parts, ' ', LINE_ENDS);
    ReadShown(ft, parts[1..4], xs[3 * i..3 * i + 3]);
  }

  lemma PairLineParses(ft: FloatText, m: Mesh, xs: seq<word>, i: nat)
    requires 2 * i + 1 < |xs| && AllRoundTrip(ft, xs)
    ensures Clean(PairLine(ft, xs, i), LINE_ENDS)
    ensures ParseLine(ft, m, PairLine(ft, xs, i)) == Some(m.(uvs := m.uvs + xs[2 * i..2 * i + 2]))
  {
    hide Tokens, Join;
    var parts := ["vt", ft.show(xs[2 * i]), ft.show(xs[2 * i + 1])];
    TokensJoin(parts, ' ', WHITESPACE);
    JoinClean(parts, ' ', LINE_ENDS);
    ReadShown(ft, parts[1..3], xs[2 * i..2 * i + 2]);
  }

  lemma {:induction false} JoinClean(parts: seq<string>, sep: char, seps: set<char>)
    requires AllClean(parts, seps) && sep !in seps
    ensures Clean(Join(parts, sep), seps)
  {
    if |parts| > 1 { JoinClean(parts[1..], sep, seps); }
  }

  lemma IntIsClean(i: int)
    ensures Clean(ShowInt(i), WHITESPACE) && Clean(ShowInt(i), {'/'})
  {
    forall c | c in ShowInt(i) ensures c !in WHITESPACE && c != '/' { assert IsDigit(c) || c == '-'; }
  }

  lemma IndexParses(i: int)
    ensures ParseIndex(ShowInt(i + 1)) == Some(i)
  {
    ParseShowInt(i + 1);
  }

  /** The +1 on printing and the -1 on parsing cancel, for every index. */
  lemma CornerParses(c: Corner)
    ensures ParseVertex(CornerText(c)) == Some(c)
    ensures CornerText(c) != "" && Clean(CornerText(c), WHITESPACE)
  {
    hide ShowInt, ParseInt, Split;
    var parts := [ShowInt(c.position + 1), ShowInt(c.uv + 1), ShowInt(c.normal + 1)];
    IntIsClean(c.position + 1);
    IntIsClean(c.uv + 1);
    IntIsClean(c.normal + 1);
    SplitJoin(parts, '/', {'/'});
    JoinClean(parts, '/', WHITESPACE);
    assert (parts + ["", ""])[..3] == parts;
    IndexParses(c.position);
    IndexParses(c.uv);
    IndexParses(c.normal);
  }

  lemma {:induction false} FaceParses(texts: seq<string>, cs: seq<Corner>, k: nat)
    requires k <= |texts| == |cs| && forall i :: 0 <= i < |cs| ==> ParseVertex(texts[i]) == Some(cs[i])
    ensures ParseFace(texts, k) == Some(cs[..k])
  {
    if k > 0 {
      FaceParses(texts, cs, k - 1);
      assert cs[..k] == cs[..k - 1] + [cs[k - 1]];
    }
  }

  /** A triangle is its own fan. */
  lemma TriangleIsFan(cs: seq<Corner>)
    requires |cs| == 3
    ensures Triangulate(cs) == cs
  {
    assert Fan(cs, 1) == [];
    assert Fan(cs, 2) == [cs[0], cs[1], cs[2]];
  }

  lemma FaceLineParses(ft: FloatText, m: Mesh, cs: seq<Corner>, t: nat)
    requires 3 * t + 2 < |cs|
    ensures Clean(FaceLine(cs, t), LINE_ENDS)
    ensures ParseLine(ft, m, FaceLine(cs, t)) == Some(m.(corners := m.corners + cs[3 * t..3 * t + 3]))
  {
    hide ParseLine, ParseVertex, CornerText, Join;
    var three := cs[3 * t..3 * t + 3];
    CornerParses(three[0]);
    CornerParses(three[1]);
    CornerParses(three[2]);
    TriangleParses(ft, m, [CornerText(three[0]), CornerText(three[1]), CornerText(three[2])], three);
    assert ["f"] + [CornerText(three[0]), CornerText(three[1]), CornerText(three[2])]
        == ["f", CornerText(three[0]), CornerText(three[1]), CornerText(three[2])];
  }

  lemma TriangleParses(ft: FloatText, m: Mesh, texts: seq<string>, cs: seq<Corner>)
    requires |texts| == |cs| == 3 && NoneEmpty(texts) && AllClean(texts, WHITESPACE)
    requires forall i :: 0 <= i < 3 ==> ParseVertex(texts[i]) == Some(cs[i])
    ensures Clean(Join(["f"] + texts, ' '), LINE_ENDS)
    ensures ParseLine(ft, m, Join(["f"] + texts, ' ')) == Some(m.(corners := m.corners + cs))
  {
    hide Tokens, Join, ParseVertex, Triangulate;
    var parts := ["f"] + texts;
    TokensJoin(parts, ' ', WHITESPACE);
    JoinClean(parts, ' ', LINE_ENDS);
    assert parts[1..] == texts && cs[..3] == cs;
    FaceParses(texts, cs, 3);
    TriangleIsFan(cs);
  }

  lemma HashIsComment(ft: FloatText, m: Mesh, line: string)
    requires line != "" && line[0] == '#'
    ensures ParseLine(ft, m, line) == Some(m)
  {
    var pieces := Split(line, WHITESPACE);
    assert pieces[0] == ['#'] + Split(line[1..], WHITESPACE)[0];
  }

  // ----- whole blocks

  ghost predicate Step(ft: FloatText, lines: seq<string>, from: nat, states: seq<Mesh>, i: nat)
    requires from + i < |lines| && i + 1 < |states|
  {
    ParseLine(ft, states[i], lines[from + i]) == Some(states[i + 1])
  }

  /** Lines from..from + n lead the accumulators through `states`. */
  lemma {:induction false} Block(ft: FloatText, lines: seq<string>, from: nat, n: nat, states: seq<Mesh>)
    requires from + n <= |lines| && |states| > n
    requires ParseLines(ft, lines, from) == Some(states[0])
    requires forall i :: 0 <= i < n ==> Step(ft, lines, from, states, i)
    ensures ParseLines(ft, lines, from + n) == Some(states[n])
  {
    hide ParseLine;
    if n > 0 {
      Block(ft, lines, from, n - 1, states);
      assert Step(ft, lines, from, states, n - 1);
    }
  }

  lemma TripleBlock(ft: FloatText, lines: seq<string>, from: nat, m: Mesh, tag: string, xs: seq<word>)
    requires AllRoundTrip(ft, xs) && (tag == "v" || tag == "vn")
    requires from + |xs| / 3 <= |lines| && lines[from..from + |xs| / 3] == TripleLines(ft, tag, xs)
    requires ParseLines(ft, lines, from) == Some(m)
    ensures ParseLines(ft, lines, from + |xs| / 3) == Some(
      if tag == "v" then m.(positions := m.positions + xs[..|xs| / 3 * 3])
      else m.(normals := m.normals + xs[..|xs| / 3 * 3]))
  {
    hide ParseLine, TripleLine, ParseLines, RoundTrips;
    var n := |xs| / 3;
    var states := seq(n + 1, i requires 0 <= i <= n =>
      if tag == "v" then m.(positions := m.positions + xs[..3 * i]) else m.(normals := m.normals + xs[..3 * i]));
    forall i | 0 <= i < n ensures Step(ft, lines, from, states, i) {
      assert lines[from + i] == TripleLines(ft, tag, xs)[i];
      TripleLineParses(ft, states[i], tag, xs, i);
      TakeMore(m.positions, xs, 3 * i, 3);
      TakeMore(m.normals, xs, 3 * i, 3);
    }
    TakeMore(m.positions, xs, 0, 0);
    TakeMore(m.normals, xs, 0, 0);
    Block(ft, lines, from, n, states);
  }

  lemma PairBlock(ft: FloatText, lines: seq<string>, from: nat, m: Mesh, xs: seq<word>)
    requires AllRoundTrip(ft, xs)
    requires from + |xs| / 2 <= |lines| && lines[from..from + |xs| / 2] == PairLines(ft, xs)
    requires ParseLines(ft, lines, from) == Some(m)
    ensures ParseLines(ft, lines, from + |xs| / 2) == Some(m.(uvs := m.uvs + xs[..|xs| / 2 * 2]))
  {
    hide ParseLine, PairLine, ParseLines, RoundTrips;
    var n := |xs| / 2;
    var states := seq(n + 1, i requires 0 <= i <= n => m.(uvs := m.uvs + xs[..2 * i]));
    forall i | 0 <= i < n ensures Step(ft, lines, from, states, i) {
      assert lines[from + i] == PairLines(ft, xs)[i];
      PairLineParses(ft, states[i], xs, i);
      TakeMore(m.uvs, xs, 2 * i, 2);
    }
    TakeMore(m.uvs, xs, 0, 0);
    Block(ft, lines, from, n, states);
  }

  lemma FaceBlock(ft: FloatText, lines: seq<string>, from: nat, m: Mesh, cs: seq<Corner>)
    requires from + |cs| / 3 <= |lines| && lines[from..from + |cs| / 3] == FaceLines(cs)
    requires ParseLines(ft, lines, from) == Some(m)
    ensures ParseLines(ft, lines, from + |cs| / 3) == Some(m.(corners := m.corners + cs[..|cs| / 3 * 3]))
  {
    hide ParseLine, FaceLine, ParseLines;
    var n := |cs| / 3;
    var states := seq(n + 1, i requires 0 <= i <= n => m.(corners := m.corners + cs[..3 * i]));
    forall i | 0 <= i < n ensures Step(ft, lines, from, states, i) {
      assert lines[from + i] == FaceLines(cs)[i];
      FaceLineParses(ft, states[i], cs, i);
      TakeMore(m.corners, cs, 3 * i, 3);
    }
    TakeMore(m.corners, cs, 0, 0);
    Block(ft, lines, from, n, states);
  }

  lemma TakeMore<T>(a: seq<T>, xs: seq<T>, k: nat, d: nat)
    requires k + d <= |xs|
    ensures a + xs[..k] + xs[k..k + d] == a + xs[..k + d]
    ensures a + xs[..0] == a
  {
    assert xs[..k] + xs[k..k + d] == xs[..k + d];
  }

  lemma CommentsClean()
    ensures AllClean(Comments(), LINE_ENDS)
    ensures forall i :: 0 <= i < |Comments()| ==> Comments()[i] != "" && Comments()[i][0] == '#'
  {
    hide Clean, Join, AllClean;
    WordsClean1();
    WordsClean2();
    WordsClean3();
    WordsClean4();
    CommentClean(COMMENT_1, COMMENT_2);
    CommentClean(COMMENT_3, COMMENT_4);
    TwoClean(Join(COMMENT_1 + COMMENT_2, ' '), Join(COMMENT_3 + COMMENT_4, ' '));
  }

  lemma CommentClean(a: seq<string>, b: seq<string>)
    requires AllClean(a, LINE_ENDS) && AllClean(b, LINE_ENDS) && a != [] && a[0] == "#"
    ensures Clean(Join(a + b, ' '), LINE_ENDS)
    ensures Join(a + b, ' ') != "" && Join(a + b, ' ')[0] == '#'
  {
    BothClean(a, b);
    JoinClean(a + b, ' ', LINE_ENDS);
  }

  lemma TwoClean(a: string, b: string)
    requires Clean(a, LINE_ENDS) && Clean(b, LINE_ENDS)
    ensures AllClean([a, b], LINE_ENDS)
  {
  }

  lemma WordsClean1()
    ensures AllClean(COMMENT_1, LINE_ENDS)
  {
  }

  lemma WordsClean2()
    ensures AllClean(COMMENT_2, LINE_ENDS)
  {
  }

  lemma WordsClean3()
    ensures AllClean(COMMENT_3, LINE_ENDS)
  {
  }

  lemma WordsClean4()
    ensures AllClean(COMMENT_4, LINE_ENDS)
  {
  }

  lemma CommentsParse(ft: FloatText, lines: seq<string>)
    requires |lines| >= 2 && lines[..2] == Comments()
    ensures ParseLines(ft, lines, 2) == Some(EMPTY)
  {
    hide ParseLine, Comments;
    CommentsClean();
    assert lines[0] == Comments()[0] && lines[1] == Comments()[1];
    HashIsComment(ft, EMPTY, lines[0]);
    HashIsComment(ft, EMPTY, lines[1]);
    assert ParseLines(ft, lines, 1) == Some(EMPTY);
  }

  lemma AllLinesClean(ft: FloatText, m: Mesh)
    requires FloatsRoundTrip(ft, m)
    ensures AllClean(MeshLines(ft, m), LINE_ENDS)
  {
    hide Comments, TripleLines, PairLines, FaceLines, AllRoundTrip, AllClean;
    CommentsClean();
    TriplesClean(ft, "v", m.positions);
    PairsClean(ft, m.uvs);
    TriplesClean(ft, "vn", m.normals);
    FacesClean(ft, m.corners);
    var l1, l2 := TripleLines(ft, "v", m.positions), PairLines(ft, m.uvs);
    var l3, l4 := TripleLines(ft, "vn", m.normals), FaceLines(m.corners);
    BothClean(Comments(), l1);
    BothClean(Comments() + l1, l2);
    BothClean(Comments() + l1 + l2, l3);
    BothClean(Comments() + l1 + l2 + l3, l4);
  }

  lemma BothClean(a: seq<string>, b: seq<string>)
    requires AllClean(a, LINE_ENDS) && AllClean(b, LINE_ENDS)
    ensures AllClean(a + b, LINE_ENDS)
  {
    hide Clean;
  }

  lemma TriplesClean(ft: FloatText, tag: string, xs: seq<word>)
    requires AllRoundTrip(ft, xs) && (tag == "v" || tag == "vn")
    ensures AllClean(TripleLines(ft, tag, xs), LINE_ENDS)
  {
    hide ParseLine, TripleLine, RoundTrips, Clean;
    forall i | 0 <= i < |xs| / 3 ensures Clean(TripleLines(ft, tag, xs)[i], LINE_ENDS) {
      TripleLineParses(ft, EMPTY, tag, xs, i);
    }
  }

  lemma PairsClean(ft: FloatText, xs: seq<word>)
    requires AllRoundTrip(ft, xs)
    ensures AllClean(PairLines(ft, xs), LINE_ENDS)
  {
    hide ParseLine, PairLine, RoundTrips, Clean;
    forall i | 0 <= i < |xs| / 2 ensures Clean(PairLines(ft, xs)[i], LINE_ENDS) {
      PairLineParses(ft, EMPTY, xs, i);
    }
  }

  lemma FacesClean(ft: FloatText, cs: seq<Corner>)
    ensures AllClean(FaceLines(cs), LINE_ENDS)
  {
    hide ParseLine, FaceLine, Clean;
    forall i | 0 <= i < |cs| / 3 ensures Clean(FaceLines(cs)[i], LINE_ENDS) {
      FaceLineParses(ft, EMPTY, cs, i);
    }
  }

  // ----- whole files

  ghost predicate FloatsRoundTrip(ft: FloatText, m: Mesh) {
    AllRoundTrip(ft, m.positions) && AllRoundTrip(ft, m.uvs) && AllRoundTrip(ft, m.normals)
  }

  /** What the text keeps: whole triples, pairs and triangles. */
  function Whole(m: Mesh): Mesh {
    Mesh(m.positions[..|m.positions| / 3 * 3], m.uvs[..|m.uvs| / 2 * 2],
         m.normals[..|m.normals| / 3 * 3], m.corners[..|m.corners| / 3 * 3])
  }

  predicate Divides(m: Mesh) {
    |m.positions| % 3 == 0 && |m.uvs| % 2 == 0 && |m.normals| % 3 == 0 && |m.corners| % 3 == 0
  }

  lemma MeshLinesParse(ft: FloatText, m: Mesh, lines: seq<string>)
    requires FloatsRoundTrip(ft, m) && lines == MeshLines(ft, m) + [""]
    ensures ParseLines(ft, lines, |lines| - 1) == Some(Whole(m))
  {
    hide ParseLine, ParseLines, TripleLines, PairLines, FaceLines, Comments, FloatsRoundTrip, Whole;
    CommentsCount();
    Cuts(Comments(), TripleLines(ft, "v", m.positions), PairLines(ft, m.uvs),
         TripleLines(ft, "vn", m.normals), FaceLines(m.corners), lines);
    CommentsParse(ft, lines);
    BlocksParse(ft, m, lines);
  }

  lemma BlocksParse(ft: FloatText, m: Mesh, lines: seq<string>)
    requires FloatsRoundTrip(ft, m)
    requires |lines| == 3 + |m.positions| / 3 + |m.uvs| / 2 + |m.normals| / 3 + |m.corners| / 3
    requires ParseLines(ft, lines, 2) == Some(EMPTY)
    requires var k1 := 2 + |m.positions| / 3;
      var k2 := k1 + |m.uvs| / 2;
      var k3 := k2 + |m.normals| / 3;
      && lines[2..k1] == TripleLines(ft, "v", m.positions) && lines[k1..k2] == PairLines(ft, m.uvs)
      && lines[k2..k3] == TripleLines(ft, "vn", m.normals) && lines[k3..|lines| - 1] == FaceLines(m.corners)
    ensures ParseLines(ft, lines, |lines| - 1) == Some(Whole(m))
  {
    hide ParseLine, ParseLines, TripleLines, PairLines, FaceLines, AllRoundTrip;
    var w := Whole(m);
    var k1 := 2 + |m.positions| / 3;
    var k2 := k1 + |m.uvs| / 2;
    FromEmpty(w.positions);
    FromEmpty(w.uvs);
    FromEmpty(w.normals);
    FromEmpty(w.corners);
    TripleBlock(ft, lines, 2, EMPTY, "v", m.positions);
    PairBlock(ft, lines, k1, Mesh(w.positions, [], [], []), m.uvs);
    TripleBlock(ft, lines, k2, Mesh(w.positions, w.uvs, [], []), "vn", m.normals);
    FaceBlock(ft, lines, k2 + |m.normals| / 3, Mesh(w.positions, w.uvs, w.normals, []), m.corners);
  }

  lemma FromEmpty<T>(xs: seq<T>)
    ensures [] + xs == xs
  {
  }

  lemma Cuts<T>(c: seq<T>, l1: seq<T>, l2: seq<T>, l3: seq<T>, l4: seq<T>, lines: seq<T>)
    requires |lines| > 0 && lines[..|lines| - 1] == c + l1 + l2 + l3 + l4
    ensures var k1 := |c| + |l1|; var k2 := k1 + |l2|; var k3 := k2 + |l3|;
      && lines[..|c|] == c && lines[|c|..k1] == l1 && lines[k1..k2] == l2
      && lines[k2..k3] == l3 && lines[k3..|lines| - 1] == l4
  {
    var l := lines[..|lines| - 1];
    assert forall i :: 0 <= i < |l| ==> lines[i] == l[i];
  }

  lemma CommentsCount()
    ensures |Comments()| == 2
  {
  }

  /** Printing then parsing keeps exactly the whole triples, pairs and triangles. */
  lemma ParseOfPrint(ft: FloatText, m: Mesh)
    requires FloatsRoundTrip(ft, m)
    ensures ParseObj(ft, Unlines(MeshLines(ft, m))) == Some(Whole(m))
  {
    hide MeshLines, RoundTrips;
    var lines := MeshLines(ft, m) + [""];
    MeshLinesParse(ft, m, lines);
    AllLinesClean(ft, m);
    SplitUnlines(MeshLines(ft, m), LINE_ENDS);
    assert Tokens("", WHITESPACE) == [];
  }

  /** Decode, print, parse, encode. */
  function Reencode(ft: FloatText, data: seq<byte>): Option<seq<byte>> {
    match Unpack(data)
    case None => None
    case Some(m) =>
      match ParseObj(ft, Unlines(MeshLines(ft, m)))
      case None => None
      case Some(m') => if Packable(m') then Some(Pack(m')) else None
  }

  /** The round trip is byte-identical exactly when every count divides. */
  lemma RoundTripIsByteIdentical(ft: FloatText, data: seq<byte>)
    requires Unpack(data).Some? && FloatsRoundTrip(ft, Unpack(data).value)
    ensures Reencode(ft, data) == Some(data) <==> Divides(Unpack(data).value)
  {
    hide Unpack, ParseObj, MeshLines, Unlines, RoundTrips;
    var m := Unpack(data).value;
    PackOfUnpack(data);
    ParseOfPrint(ft, m);
    var w := Whole(m);
    assert Packable(w) by {
      forall c | c in w.corners ensures Int32Corner(c) { assert c in m.corners; }
    }
    if Divides(m) {
      assert w == m;
    } else {
      assert |Pack(w)| < |Pack(m)|;
    }
  }
}
