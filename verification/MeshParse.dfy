/** What `obj2binobj.py` makes of any text, line by line: which lines it fails on, and what the others add. */
module MeshParse {
  import opened MeshBytes
  import opened MeshText
  import opened Text

  // ----- faces

  /** A field that is neither empty nor an integer. */
  predicate BadField(field: string) {
    field != "" && ParseInt(field).None?
  }

  /** One of the first three fields of the vertex is bad; further ones are not looked at. */
  predicate BadVertex(vertex: string) {
    exists j :: 0 <= j < |Split(vertex, {'/'})| && j < 3 && BadField(Split(vertex, {'/'})[j])
  }

  /** Field `j` as an index from 0, and -1 when there is none. */
  predicate FieldIs(vertex: string, j: nat, index: int) {
    var fields := Split(vertex, {'/'});
    if j < |fields| && fields[j] != "" then ParseInt(fields[j]) == Some(index + 1) else index == -1
  }

  lemma VertexIs(vertex: string)
    ensures ParseVertex(vertex).None? <==> BadVertex(vertex)
    ensures ParseVertex(vertex).Some? ==>
      var c := ParseVertex(vertex).value;
      FieldIs(vertex, 0, c.position) && FieldIs(vertex, 1, c.uv) && FieldIs(vertex, 2, c.normal)
  {
    hide Split, ParseInt;
    var s := Split(vertex, {'/'});
    var fields := (s + ["", ""])[..3];
    assert fields[0] == s[0];
    assert fields[1] == if |s| > 1 then s[1] else "";
    assert fields[2] == if |s| > 2 then s[2] else "";
    assert BadField(fields[0]) ==> BadVertex(vertex);
    assert BadField(fields[1]) ==> BadVertex(vertex);
    assert BadField(fields[2]) ==> BadVertex(vertex);
    if BadVertex(vertex) {
      var j :| 0 <= j < |s| && j < 3 && BadField(s[j]);
      assert fields[j] == s[j];
    }
  }

  lemma {:induction false} FaceIs(vertices: seq<string>, k: nat)
    requires k <= |vertices|
    ensures ParseFace(vertices, k).None? <==> exists i :: 0 <= i < k && BadVertex(vertices[i])
    ensures ParseFace(vertices, k).Some? ==>
      var face := ParseFace(vertices, k).value;
      |face| == k && forall i :: 0 <= i < k ==> ParseVertex(vertices[i]) == Some(face[i])
  {
    hide ParseVertex, BadVertex;
    if k > 0 {
      FaceIs(vertices, k - 1);
      VertexIs(vertices[k - 1]);
    }
  }

  lemma {:induction false} FanIs(face: seq<Corner>, n: nat, i: nat)
    requires 1 <= n < |face| && i < n - 1
    ensures |Fan(face, n)| == 3 * (n - 1)
    ensures Fan(face, n)[3 * i] == face[0] && Fan(face, n)[3 * i + 1] == face[i + 1]
    ensures Fan(face, n)[3 * i + 2] == face[i + 2]
  {
    if n > 2 {
      FanIs(face, n - 1, if i < n - 2 then i else 0);
    }
  }

  /** A face of n corners is cut into n - 2 triangles: its first corner with each two neighbours among the rest. */
  lemma TrianglesAre(face: seq<Corner>, i: nat)
    ensures |Triangulate(face)| == if |face| > 2 then 3 * (|face| - 2) else 0
    ensures i + 2 < |face| ==>
      Triangulate(face)[3 * i..3 * i + 3] == [face[0], face[i + 1], face[i + 2]]
  {
    if |face| > 2 {
      FanIs(face, |face| - 1, if i + 2 < |face| then i else 0);
    }
  }

  // ----- lines

  predicate BadNumbers(ft: FloatText, parts: seq<string>, n: nat) {
    |parts| <= n || exists j :: 1 <= j <= n && ft.read(parts[j]).None?
  }

  /** A line with too few or unreadable numbers, or with a bad vertex; comments and other lines cannot fail. */
  predicate BadLine(ft: FloatText, line: string) {
    var parts := Tokens(line, WHITESPACE);
    && parts != []
    && (|| (parts[0] in {"v", "vn"} && BadNumbers(ft, parts, 3))
        || (parts[0] == "vt" && BadNumbers(ft, parts, 2))
        || (parts[0] == "f" && exists j :: 1 <= j < |parts| && BadVertex(parts[j])))
  }

  /** The numbers behind the tag. */
  predicate NumbersAre(ft: FloatText, parts: seq<string>, ws: seq<word>) {
    |parts| > |ws| && forall j :: 0 <= j < |ws| ==> ft.read(parts[j + 1]) == Some(ws[j])
  }

  /** What a good line adds: three numbers, two numbers, or the triangles of its vertices. */
  ghost predicate Adds(ft: FloatText, line: string, m: Mesh, t: Mesh) {
    var parts := Tokens(line, WHITESPACE);
    var tag := if parts == [] then "" else parts[0];
    && |m.positions| <= |t.positions| && |m.uvs| <= |t.uvs| && |m.normals| <= |t.normals| && |m.corners| <= |t.corners|
    && t.positions[..|m.positions|] == m.positions && t.uvs[..|m.uvs|] == m.uvs
    && t.normals[..|m.normals|] == m.normals && t.corners[..|m.corners|] == m.corners
    && |t.positions| == |m.positions| + (if tag == "v" then 3 else 0)
    && |t.uvs| == |m.uvs| + (if tag == "vt" then 2 else 0)
    && |t.normals| == |m.normals| + (if tag == "vn" then 3 else 0)
    && (tag == "v" ==> NumbersAre(ft, parts, t.positions[|m.positions|..]))
    && (tag == "vt" ==> NumbersAre(ft, parts, t.uvs[|m.uvs|..]))
    && (tag == "vn" ==> NumbersAre(ft, parts, t.normals[|m.normals|..]))
    && (tag != "f" ==> t.corners == m.corners)
    && (tag == "f" ==>
          exists face :: FaceOf(parts, face) && t.corners[|m.corners|..] == Triangulate(face))
  }

  predicate FaceOf(parts: seq<string>, face: seq<Corner>) {
    |parts| == |face| + 1 && forall i :: 0 <= i < |face| ==> ParseVertex(parts[i + 1]) == Some(face[i])
  }

  lemma {:induction false} ReadAllIs(ft: FloatText, parts: seq<string>)
    ensures ReadAll(ft, parts).None? <==> exists j :: 0 <= j < |parts| && ft.read(parts[j]).None?
    ensures ReadAll(ft, parts).Some? ==>
      var ws := ReadAll(ft, parts).value;
      |ws| == |parts| && forall j :: 0 <= j < |parts| ==> ft.read(parts[j]) == Some(ws[j])
  {
    if parts != [] {
      ReadAllIs(ft, parts[1..]);
      assert forall j :: 0 <= j < |parts| - 1 ==> parts[1..][j] == parts[j + 1];
    }
  }

  lemma NumbersRead(ft: FloatText, parts: seq<string>, n: nat)
    requires n < |parts|
    ensures ReadAll(ft, parts[1..n + 1]).None? <==> BadNumbers(ft, parts, n)
    ensures ReadAll(ft, parts[1..n + 1]).Some? ==>
      var ws := ReadAll(ft, parts[1..n + 1]).value;
      |ws| == n && NumbersAre(ft, parts, ws)
  {
    ReadAllIs(ft, parts[1..n + 1]);
    var some := parts[1..n + 1];
    assert forall j :: 0 <= j < n ==> some[j] == parts[j + 1];
    assert forall j :: 1 <= j <= n ==> parts[j] == some[j - 1];
  }

  lemma TagIsNoComment(line: string)
    ensures var parts := Tokens(line, WHITESPACE);
      parts != [] ==> |parts[0]| > 0 && (parts[0] in {"v", "vn", "vt", "f"} ==> parts[0][0] != '#')
  {
    hide Split;
    assert NoneEmpty(Tokens(line, WHITESPACE));
  }

  lemma LineIs(ft: FloatText, m: Mesh, line: string)
    ensures ParseLine(ft, m, line).None? <==> BadLine(ft, line)
    ensures ParseLine(ft, m, line).Some? ==> Adds(ft, line, m, ParseLine(ft, m, line).value)
  {
    TagIsNoComment(line);
    hide Tokens, ReadAll, ParseFace, Triangulate, BadNumbers, NumbersAre, FaceOf, BadVertex;
    var parts := Tokens(line, WHITESPACE);
    if parts != [] {
      if 3 < |parts| { NumbersRead(ft, parts, 3); }
      if 2 < |parts| { NumbersRead(ft, parts, 2); }
      ShortIsBad(ft, parts, 3);
      ShortIsBad(ft, parts, 2);
      FaceRead(parts);
    }
  }

  lemma ShortIsBad(ft: FloatText, parts: seq<string>, n: nat)
    ensures |parts| <= n ==> BadNumbers(ft, parts, n)
  {
  }

  lemma FaceRead(parts: seq<string>)
    requires parts != []
    ensures ParseFace(parts[1..], |parts| - 1).None? <==> exists j :: 1 <= j < |parts| && BadVertex(parts[j])
    ensures ParseFace(parts[1..], |parts| - 1).Some? ==> FaceOf(parts, ParseFace(parts[1..], |parts| - 1).value)
  {
    hide BadVertex, ParseVertex;
    var vertices := parts[1..];
    FaceIs(vertices, |vertices|);
    assert forall i :: 0 <= i < |vertices| ==> vertices[i] == parts[i + 1];
    if j :| 1 <= j < |parts| && BadVertex(parts[j]) {
      assert BadVertex(vertices[j - 1]);
    }
  }

  /** One of the first `k` lines is bad. */
  predicate SomeBad(ft: FloatText, lines: seq<string>, k: nat)
    requires k <= |lines|
  {
    exists i :: 0 <= i < k && BadLine(ft, lines[i])
  }

  /** Line `i` adds what it holds to what the lines before it gave. */
  ghost predicate AddsAt(ft: FloatText, lines: seq<string>, i: nat)
    requires i < |lines|
  {
    var before, after := ParseLines(ft, lines, i), ParseLines(ft, lines, i + 1);
    before.Some? && after.Some? && Adds(ft, lines[i], before.value, after.value)
  }

  lemma {:induction false} LinesAre(ft: FloatText, lines: seq<string>, k: nat)
    requires k <= |lines|
    ensures ParseLines(ft, lines, k).None? <==> SomeBad(ft, lines, k)
    ensures ParseLines(ft, lines, k).Some? ==> forall i :: 0 <= i < k ==> AddsAt(ft, lines, i)
  {
    hide ParseLine, BadLine, Adds;
    if k > 0 {
      LinesAre(ft, lines, k - 1);
      if ParseLines(ft, lines, k - 1).Some? {
        LineIs(ft, ParseLines(ft, lines, k - 1).value, lines[k - 1]);
      }
    }
  }

  /** The text is refused exactly when one of its lines is bad; otherwise each line in turn adds what it holds, and the
      mesh is what the last one leaves. */
  lemma TextIs(ft: FloatText, text: string)
    ensures var lines := Split(text, LINE_ENDS);
      && (ParseObj(ft, text).None? <==> SomeBad(ft, lines, |lines|))
      && (ParseObj(ft, text).Some? ==>
            && ParseLines(ft, lines, 0) == Some(Mesh([], [], [], []))
            && ParseLines(ft, lines, |lines|) == ParseObj(ft, text)
            && forall i :: 0 <= i < |lines| ==> AddsAt(ft, lines, i))
  {
    hide SomeBad, AddsAt, Split;
    var lines := Split(text, LINE_ENDS);
    LinesAre(ft, lines, |lines|);
  }
}
