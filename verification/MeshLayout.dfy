/** Where every number of a mesh stands in the `.binobj` file (`obj2binobj.py`, `binobj2obj.py`). */
module MeshLayout {
  import opened MeshBytes
  import opened Octets

  /** Four bytes, the highest first. */
  function WordAt(data: seq<byte>, at: nat): nat
    requires at + 4 <= |data|
  {
    data[at] as nat * 0x100_0000 + data[at + 1] as nat * 0x1_0000 + data[at + 2] as nat * 0x100 + data[at + 3]
  }

  /** As a signed number, in two's complement. */
  function IntAt(data: seq<byte>, at: nat): int
    requires at + 4 <= |data|
  {
    if WordAt(data, at) < 0x8000_0000 then WordAt(data, at) else WordAt(data, at) - 0x1_0000_0000
  }

  /** A count, and then so many words. */
  predicate HoldsWords(data: seq<byte>, at: nat, ws: seq<word>) {
    && at + 4 + 4 * |ws| <= |data| && IntAt(data, at) == |ws|
    && forall i :: 0 <= i < |ws| ==> WordAt(data, at + 4 + 4 * i) == ws[i]
  }

  /** A count, and then so many corners, three signed numbers each. */
  predicate HoldsCorners(data: seq<byte>, at: nat, cs: seq<Corner>) {
    && at + 4 + 12 * |cs| <= |data| && IntAt(data, at) == |cs|
    && forall i :: 0 <= i < |cs| ==>
         && IntAt(data, at + 4 + 12 * i) == cs[i].position && IntAt(data, at + 4 + 12 * i + 4) == cs[i].uv
         && IntAt(data, at + 4 + 12 * i + 8) == cs[i].normal
  }

  lemma WordIs(before: seq<byte>, w: word, after: seq<byte>)
    ensures WordAt(before + WordBytes(w) + after, |before|) == w
  {
    var b, data := WordBytes(w), before + WordBytes(w) + after;
    var n := |before|;
    assert data[n] == b[0] && data[n + 1] == b[1] && data[n + 2] == b[2] && data[n + 3] == b[3];
    WordOfBytes(w);
  }

  lemma IntIs(before: seq<byte>, i: int, after: seq<byte>)
    requires IsInt32(i)
    ensures IntAt(before + WordBytes(IntWord(i)) + after, |before|) == i
  {
    hide WordBytes, WordAt;
    WordIs(before, IntWord(i), after);
  }

  lemma {:induction false} WordsAre(before: seq<byte>, ws: seq<word>, after: seq<byte>, i: nat)
    requires i < |ws|
    ensures WordAt(before + PackWords(ws) + after, |before| + 4 * i) == ws[i]
    decreases |ws|
  {
    hide WordBytes, WordAt;
    var rest := PackWords(ws[1..]);
    var first := before + WordBytes(ws[0]);
    if i == 0 {
      WordIs(before, ws[0], rest + after);
      assert before + PackWords(ws) + after == before + WordBytes(ws[0]) + (rest + after);
    } else {
      WordsAre(first, ws[1..], after, i - 1);
      assert before + PackWords(ws) + after == first + rest + after;
    }
  }

  lemma FloatsAre(before: seq<byte>, ws: seq<word>, after: seq<byte>)
    requires |ws| < INT32_LIMIT
    ensures HoldsWords(before + PackFloats(ws) + after, |before|, ws)
  {
    hide WordBytes, PackWords, WordAt, IntAt;
    var count := WordBytes(IntWord(|ws|));
    var data := before + PackFloats(ws) + after;
    IntIs(before, |ws|, PackWords(ws) + after);
    assert data == before + count + (PackWords(ws) + after);
    forall i | 0 <= i < |ws| ensures WordAt(data, |before| + 4 + 4 * i) == ws[i] {
      WordsAre(before + count, ws, after, i);
      assert data == (before + count) + PackWords(ws) + after;
    }
  }

  lemma CornerIs(before: seq<byte>, c: Corner, after: seq<byte>)
    requires Int32Corner(c)
    ensures var data, n := before + CornerBytes(c) + after, |before|;
      IntAt(data, n) == c.position && IntAt(data, n + 4) == c.uv && IntAt(data, n + 8) == c.normal
  {
    hide WordBytes, WordAt, IntAt;
    var p, t, q := WordBytes(IntWord(c.position)), WordBytes(IntWord(c.uv)), WordBytes(IntWord(c.normal));
    var data := before + CornerBytes(c) + after;
    IntIs(before, c.position, t + q + after);
    IntIs(before + p, c.uv, q + after);
    IntIs(before + p + t, c.normal, after);
    assert data == before + p + (t + q + after);
    assert data == (before + p) + t + (q + after);
    assert data == (before + p + t) + q + after;
  }

  lemma {:induction false} CornersAre(before: seq<byte>, cs: seq<Corner>, after: seq<byte>, i: nat)
    requires i < |cs| && forall c :: c in cs ==> Int32Corner(c)
    ensures var data, n := before + PackCorners(cs) + after, |before| + 12 * i;
      IntAt(data, n) == cs[i].position && IntAt(data, n + 4) == cs[i].uv && IntAt(data, n + 8) == cs[i].normal
    decreases |cs|
  {
    hide CornerBytes, IntAt;
    var rest := PackCorners(cs[1..]);
    var first := before + CornerBytes(cs[0]);
    if i == 0 {
      CornerIs(before, cs[0], rest + after);
      assert before + PackCorners(cs) + after == before + CornerBytes(cs[0]) + (rest + after);
    } else {
      CornersAre(first, cs[1..], after, i - 1);
      assert before + PackCorners(cs) + after == first + rest + after;
    }
  }

  lemma FacesAre(before: seq<byte>, cs: seq<Corner>)
    requires |cs| < INT32_LIMIT && forall c :: c in cs ==> Int32Corner(c)
    ensures HoldsCorners(before + PackFaces(cs), |before|, cs)
  {
    hide WordBytes, PackCorners, IntAt;
    var count := WordBytes(IntWord(|cs|));
    var data := before + PackFaces(cs);
    IntIs(before, |cs|, PackCorners(cs));
    assert data == before + count + PackCorners(cs);
    forall i | 0 <= i < |cs|
      ensures IntAt(data, |before| + 4 + 12 * i) == cs[i].position
      ensures IntAt(data, |before| + 4 + 12 * i + 4) == cs[i].uv
      ensures IntAt(data, |before| + 4 + 12 * i + 8) == cs[i].normal
    {
      CornersAre(before + count, cs, [], i);
      assert data == (before + count) + PackCorners(cs) + [];
    }
  }

  /** Counted positions, UVs and normals as 32-bit words, then the counted corners, three signed numbers each, all with
      the highest byte first, and nothing else. */
  lemma LayoutIs(m: Mesh)
    requires Packable(m)
    ensures var data := Pack(m);
      var uvs := 4 + 4 * |m.positions|;
      var normals := uvs + 4 + 4 * |m.uvs|;
      var corners := normals + 4 + 4 * |m.normals|;
      && |data| == corners + 4 + 12 * |m.corners|
      && HoldsWords(data, 0, m.positions) && HoldsWords(data, uvs, m.uvs) && HoldsWords(data, normals, m.normals)
      && HoldsCorners(data, corners, m.corners)
  {
    hide PackFloats, PackFaces, HoldsWords, HoldsCorners;
    var p, t, n := PackFloats(m.positions), PackFloats(m.uvs), PackFloats(m.normals);
    var f, data := PackFaces(m.corners), Pack(m);
    FloatsAre([], m.positions, t + (n + f));
    assert data == [] + p + (t + (n + f));
    FloatsAre(p, m.uvs, n + f);
    assert data == p + t + (n + f);
    FloatsAre(p + t, m.normals, f);
    assert data == (p + t) + n + f;
    FacesAre(p + t + n, m.corners);
  }
}
