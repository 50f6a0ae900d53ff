/** The two converters, step by step, against the functions of `MeshBytes` and `MeshText`. */
module MeshTools {
  import opened Octets
  import opened Text
  import opened MeshBytes
  import opened MeshText

  /** The buffer of `binobj2obj.py` with its shared `offset`. */
  class BinReader {
    const data: seq<byte>
    var offset: nat

    constructor (data: seq<byte>)
      ensures this.data == data && offset == 0
    {
      this.data := data;
      offset := 0;
    }

    ghost predicate Valid() reads this { offset <= |data| }

    function Rest(): seq<byte>
      requires Valid()
      reads this
    {
      data[offset..]
    }

    method ReadInt() returns (r: Option<int>)
      requires Valid()
      modifies this
      ensures Valid()
      ensures r == MeshBytes.ReadInt(old(Rest()))
      ensures r.Some? ==> |old(Rest())| >= 4 && Rest() == old(Rest())[4..]
    {
      if |data| < offset + 4 { return None; }
      r := Some(WordInt(BytesWord(data[offset..offset + 4])));
      assert data[offset..offset + 4] == Rest()[..4];
      offset := offset + 4;
    }

    /** `read_floats(read_int())` */
    method ReadFloats() returns (r: Option<seq<word>>)
      requires Valid()
      modifies this
      ensures Valid()
      ensures match MeshBytes.ReadFloats(old(Rest()))
              case None => r == None
              case Some((ws, rest)) => r == Some(ws) && Rest() == rest
    {
      var count := ReadInt();
      if count.None? || count.value < 0 || |data| < offset + 4 * count.value { return None; }
      r := Some(UnpackWords(data[offset..], count.value));
      offset := offset + 4 * count.value;
    }
  }

  method WriteTriples(out: string, ft: FloatText, tag: string, xs: seq<word>, ghost before: seq<string>)
    returns (r: string)
    requires out == Unlines(before)
    ensures r == Unlines(before + TripleLines(ft, tag, xs))
  {
    hide TripleLine, Unlines;
    r := out;
    ghost var lines := TripleLines(ft, tag, xs);
    assert before + lines[..0] == before;
    for i := 0 to |xs| / 3
      invariant r == Unlines(before + lines[..i])
    {
      r := r + TripleLine(ft, tag, xs, i) + "\n";
      UnlinesAppend(before + lines[..i], lines[i]);
      assert before + lines[..i + 1] == before + lines[..i] + [lines[i]];
    }
    assert lines[..|lines|] == lines;
  }

  method WritePairs(out: string, ft: FloatText, xs: seq<word>, ghost before: seq<string>) returns (r: string)
    requires out == Unlines(before)
    ensures r == Unlines(before + PairLines(ft, xs))
  {
    hide PairLine, Unlines;
    r := out;
    ghost var lines := PairLines(ft, xs);
    assert before + lines[..0] == before;
    for i := 0 to |xs| / 2
      invariant r == Unlines(before + lines[..i])
    {
      r := r + PairLine(ft, xs, i) + "\n";
      UnlinesAppend(before + lines[..i], lines[i]);
      assert before + lines[..i + 1] == before + lines[..i] + [lines[i]];
    }
    assert lines[..|lines|] == lines;
  }

  method WriteFaces(out: string, cs: seq<Corner>, ghost before: seq<string>) returns (r: string)
    requires out == Unlines(before)
    ensures r == Unlines(before + FaceLines(cs))
  {
    hide FaceLine, Unlines;
    r := out;
    ghost var lines := FaceLines(cs);
    assert before + lines[..0] == before;
    for t := 0 to |cs| / 3
      invariant r == Unlines(before + lines[..t])
    {
      r := r + FaceLine(cs, t) + "\n";
      UnlinesAppend(before + lines[..t], lines[t]);
      assert before + lines[..t + 1] == before + lines[..t] + [lines[t]];
    }
    assert lines[..|lines|] == lines;
  }

  method PrintMesh(ft: FloatText, m: Mesh) returns (out: string)
    ensures out == Unlines(MeshLines(ft, m))
  {
    hide TripleLines, PairLines, FaceLines, Comments, Unlines;
    out := Unlines(Comments());
    ghost var l0 := Comments();
    out := WriteTriples(out, ft, "v", m.positions, l0);
    ghost var l1 := l0 + TripleLines(ft, "v", m.positions);
    out := WritePairs(out, ft, m.uvs, l1);
    ghost var l2 := l1 + PairLines(ft, m.uvs);
    out := WriteTriples(out, ft, "vn", m.normals, l2);
    ghost var l3 := l2 + TripleLines(ft, "vn", m.normals);
    out := WriteFaces(out, m.corners, l3);
  }

  /** `binobj2obj.py`: None is a `struct.error` or the trailing-bytes refusal. */
  method BinobjToObj(ft: FloatText, data: seq<byte>) returns (r: Option<string>)
    ensures r == match Unpack(data)
                 case None => None
                 case Some(m) => Some(Unlines(MeshLines(ft, m)))
  {
    hide MeshLines, Unlines, UnpackCorners, UnpackWords, BytesWord, MeshBytes.ReadInt;
    var reader := new BinReader(data);
    assert reader.Rest() == data;
    var positions := reader.ReadFloats();
    if positions.None? { return None; }
    var uvs := reader.ReadFloats();
    if uvs.None? { return None; }
    var normals := reader.ReadFloats();
    if normals.None? { return None; }
    var count := reader.ReadInt();
    if count.None? || |data| != reader.offset + 12 * count.value { return None; }
    if count.value < 0 { return None; }
    var corners := UnpackCorners(data[reader.offset..], count.value);
    var out := PrintMesh(ft, Mesh(positions.value, uvs.value, normals.value, corners));
    r := Some(out);
  }

  /** One face: its vertices in order. */
  method ReadFace(vertices: seq<string>) returns (face: Option<seq<Corner>>)
    ensures face == ParseFace(vertices, |vertices|)
  {
    hide ParseVertex;
    var corners: seq<Corner> := [];
    for k := 0 to |vertices|
      invariant ParseFace(vertices, k) == Some(corners)
    {
      var c := ParseVertex(vertices[k]);
      if c.None? {
        FaceFails(vertices, k + 1, |vertices|);
        return None;
      }
      corners := corners + [c.value];
    }
    face := Some(corners);
  }

  lemma {:induction false} FaceFails(vertices: seq<string>, k: nat, n: nat)
    requires k <= n <= |vertices| && ParseFace(vertices, k).None?
    ensures ParseFace(vertices, n).None?
  {
    hide ParseVertex;
    if k < n { FaceFails(vertices, k, n - 1); }
  }

  lemma {:induction false} LinesFail(ft: FloatText, lines: seq<string>, k: nat, n: nat)
    requires k <= n <= |lines| && ParseLines(ft, lines, k).None?
    ensures ParseLines(ft, lines, n).None?
  {
    hide ParseLine;
    if k < n { LinesFail(ft, lines, k, n - 1); }
  }

  /** The fan loop. */
  method FanOut(face: seq<Corner>) returns (corners: seq<Corner>)
    ensures corners == Triangulate(face)
  {
    corners := [];
    var i := 1;
    while i < |face| - 1
      invariant 1 <= i && (|face| >= 2 ==> i <= |face| - 1)
      invariant i < |face| || i <= 1
      invariant corners == Fan(face, i)
    {
      corners := corners + [face[0], face[i], face[i + 1]];
      i := i + 1;
    }
  }

  /** `obj2binobj.py`: None is any Python exception. */
  method ObjToBinobj(ft: FloatText, text: string) returns (r: Option<seq<byte>>)
    ensures r == match ParseObj(ft, text)
                 case None => None
                 case Some(m) => if Packable(m) then Some(Pack(m)) else None
  {
    hide Packable, Pack, Tokens, ReadAll, ParseFace, Triangulate;
    var lines := Split(text, LINE_ENDS);
    var positions: seq<word>, uvs: seq<word>, normals: seq<word>, corners: seq<Corner> := [], [], [], [];
    for k := 0 to |lines|
      invariant ParseLines(ft, lines, k) == Some(Mesh(positions, uvs, normals, corners))
    {
      ghost var before := Mesh(positions, uvs, normals, corners);
      var parts := Tokens(lines[k], WHITESPACE);
      var failed := false;
      TokenNotEmpty(lines[k]);
      if parts == [] || parts[0][0] == '#' {
      } else if parts[0] == "v" || parts[0] == "vn" {
        var ws := if |parts| < 4 then None else ReadAll(ft, parts[1..4]);
        if ws.None? {
          failed := true;
        } else if parts[0] == "v" {
          positions := positions + ws.value;
        } else {
          normals := normals + ws.value;
        }
      } else if parts[0] == "vt" {
        var ws := if |parts| < 3 then None else ReadAll(ft, parts[1..3]);
        if ws.None? {
          failed := true;
        } else {
          uvs := uvs + ws.value;
        }
      } else if parts[0] == "f" {
        var face := ReadFace(parts[1..]);
        if face.None? {
          failed := true;
        } else {
          var triangles := FanOut(face.value);
          corners := corners + triangles;
        }
      }
      if failed {
        assert ParseLine(ft, before, lines[k]).None?;
        LinesFail(ft, lines, k + 1, |lines|);
        return None;
      }
      assert ParseLine(ft, before, lines[k]) == Some(Mesh(positions, uvs, normals, corners));
    }
    var m := Mesh(positions, uvs, normals, corners);
    r := if Packable(m) then Some(Pack(m)) else None;
  }

  lemma TokenNotEmpty(line: string)
    ensures NoneEmpty(Tokens(line, WHITESPACE))
  {
  }
}
