/** The `.binobj` byte layout: big-endian 32-bit ints and opaque 32-bit float words. */
module MeshBytes {
  import opened Octets
  import opened Text

  type word = n: nat | n < 0x1_0000_0000
  const INT32_LIMIT: int := 0x8000_0000

  datatype Corner = Corner(position: int, uv: int, normal: int)

  /** What both tools hold between their two formats. */
  datatype Mesh = Mesh(positions: seq<word>, uvs: seq<word>, normals: seq<word>, corners: seq<Corner>)

  predicate IsInt32(i: int) { -INT32_LIMIT <= i < INT32_LIMIT }

  predicate Int32Corner(c: Corner) { IsInt32(c.position) && IsInt32(c.uv) && IsInt32(c.normal) }

  /** What `struct.pack` accepts. */
  predicate Packable(m: Mesh) {
    && |m.positions| < INT32_LIMIT && |m.uvs| < INT32_LIMIT && |m.normals| < INT32_LIMIT
    && |m.corners| < INT32_LIMIT
    && forall c :: c in m.corners ==> Int32Corner(c)
  }

  function WordBytes(w: word): (b: seq<byte>)
    ensures |b| == 4
  {
    [w / 256 / 256 / 256, w / 256 / 256 % 256, w / 256 % 256, w % 256]
  }

  function BytesWord(b: seq<byte>): word
    requires |b| == 4
  {
    ((b[0] as int * 256 + b[1]) * 256 + b[2]) * 256 + b[3]
  }

  lemma WordOfBytes(w: word)
    ensures BytesWord(WordBytes(w)) == w
  {
    var b := WordBytes(w);
    assert b[0] as int * 256 + b[1] == w / 256 / 256;
    assert (b[0] as int * 256 + b[1]) * 256 + b[2] == w / 256;
  }

  lemma BytesOfWord(b: seq<byte>)
    requires |b| == 4
    ensures WordBytes(BytesWord(b)) == b
  {
    var w := BytesWord(b);
    assert w / 256 == (b[0] as int * 256 + b[1]) * 256 + b[2];
    assert w / 256 / 256 == b[0] as int * 256 + b[1];
  }

  /** Two's complement. */
  function IntWord(i: int): word
    requires IsInt32(i)
  {
    if i < 0 then i + 0x1_0000_0000 else i
  }

  function WordInt(w: word): (i: int)
    ensures IsInt32(i)
  {
    if w < INT32_LIMIT then w else w - 0x1_0000_0000
  }

  // ----- writing

  function PackWords(ws: seq<word>): (b: seq<byte>)
    ensures |b| == 4 * |ws|
  {
    if ws == [] then [] else WordBytes(ws[0]) + PackWords(ws[1..])
  }

  function PackFloats(ws: seq<word>): (b: seq<byte>)
    requires |ws| < INT32_LIMIT
    ensures |b| == 4 + 4 * |ws|
  {
    WordBytes(IntWord(|ws|)) + PackWords(ws)
  }

  function CornerBytes(c: Corner): (b: seq<byte>)
    requires Int32Corner(c)
    ensures |b| == 12
  {
    WordBytes(IntWord(c.position)) + WordBytes(IntWord(c.uv)) + WordBytes(IntWord(c.normal))
  }

  function PackCorners(cs: seq<Corner>): (b: seq<byte>)
    requires forall c :: c in cs ==> Int32Corner(c)
    ensures |b| == 12 * |cs|
  {
    if cs == [] then [] else CornerBytes(cs[0]) + PackCorners(cs[1..])
  }

  function PackFaces(cs: seq<Corner>): (b: seq<byte>)
    requires |cs| < INT32_LIMIT && forall c :: c in cs ==> Int32Corner(c)
    ensures |b| == 4 + 12 * |cs|
  {
    WordBytes(IntWord(|cs|)) + PackCorners(cs)
  }

  function Pack(m: Mesh): (b: seq<byte>)
    requires Packable(m)
    ensures |b| == 16 + 4 * (|m.positions| + |m.uvs| + |m.normals|) + 12 * |m.corners|
  {
    PackFloats(m.positions) + (PackFloats(m.uvs) + (PackFloats(m.normals) + PackFaces(m.corners)))
  }

  // ----- reading; None is `struct.error` or the trailing-bytes refusal

  function ReadInt(data: seq<byte>): Option<int> {
    if |data| < 4 then None else Some(WordInt(BytesWord(data[..4])))
  }

  function UnpackWords(data: seq<byte>, count: nat): (ws: seq<word>)
    requires 4 * count <= |data|
    ensures |ws| == count
  {
    if count == 0 then [] else [BytesWord(data[..4])] + UnpackWords(data[4..], count - 1)
  }

  function BytesCorner(b: seq<byte>): (c: Corner)
    requires |b| == 12
    ensures Int32Corner(c)
  {
    Corner(WordInt(BytesWord(b[..4])), WordInt(BytesWord(b[4..8])), WordInt(BytesWord(b[8..])))
  }

  function UnpackCorners(data: seq<byte>, count: nat): (cs: seq<Corner>)
    requires 12 * count <= |data|
    ensures |cs| == count && forall c :: c in cs ==> Int32Corner(c)
  {
    if count == 0 then []
    else
      [BytesCorner(data[..12])] + UnpackCorners(data[12..], count - 1)
  }

  /** A counted float array and the bytes after it. */
  function ReadFloats(data: seq<byte>): Option<(seq<word>, seq<byte>)> {
    match ReadInt(data)
    case None => None
    case Some(count) =>
      if count < 0 || |data| < 4 + 4 * count then None
      else Some((UnpackWords(data[4..], count), data[4 + 4 * count..]))
  }

  /** The corners, which must end the data. */
  function ReadFaces(data: seq<byte>): Option<seq<Corner>> {
    match ReadInt(data)
    case None => None
    case Some(count) =>
      if count < 0 || |data| != 4 + 12 * count then None
      else Some(UnpackCorners(data[4..], count))
  }

  function Unpack(data: seq<byte>): Option<Mesh> {
    match ReadFloats(data)
    case None => None
    case Some((positions, d1)) =>
      match ReadFloats(d1)
      case None => None
      case Some((uvs, d2)) =>
        match ReadFloats(d2)
        case None => None
        case Some((normals, d3)) =>
          match ReadFaces(d3)
          case None => None
          case Some(corners) => Some(Mesh(positions, uvs, normals, corners))
  }

  // ----- the layout is a bijection

  lemma {:induction false} PackOfUnpackWords(data: seq<byte>, count: nat)
    requires 4 * count <= |data|
    ensures PackWords(UnpackWords(data, count)) == data[..4 * count]
  {
    if count > 0 {
      PackOfUnpackWords(data[4..], count - 1);
      BytesOfWord(data[..4]);
      assert data[..4 * count] == data[..4] + data[4..][..4 * (count - 1)];
    }
  }

  lemma CornerOfBytes(b: seq<byte>)
    requires |b| == 12
    ensures CornerBytes(BytesCorner(b)) == b
  {
    BytesOfWord(b[..4]);
    BytesOfWord(b[4..8]);
    BytesOfWord(b[8..]);
  }

  lemma BytesOfCorner(c: Corner)
    requires Int32Corner(c)
    ensures BytesCorner(CornerBytes(c)) == c
  {
    var b := CornerBytes(c);
    assert b[..4] == WordBytes(IntWord(c.position)) && b[4..8] == WordBytes(IntWord(c.uv));
    assert b[8..] == WordBytes(IntWord(c.normal));
    WordOfBytes(IntWord(c.position));
    WordOfBytes(IntWord(c.uv));
    WordOfBytes(IntWord(c.normal));
  }

  lemma CutPrefix(data: seq<byte>, n: nat, m: nat)
    requires n + m <= |data|
    ensures data[..n] + data[n..][..m] == data[..n + m]
  {
  }

  lemma {:induction false} PackOfUnpackCorners(data: seq<byte>, count: nat)
    requires 12 * count <= |data|
    ensures PackCorners(UnpackCorners(data, count)) == data[..12 * count]
  {
    hide BytesCorner, CornerBytes;
    if count > 0 {
      var cs := UnpackCorners(data, count);
      PackOfUnpackCorners(data[12..], count - 1);
      CornerOfBytes(data[..12]);
      assert cs[0] == BytesCorner(data[..12]) && cs[1..] == UnpackCorners(data[12..], count - 1);
      CutPrefix(data, 12, 12 * (count - 1));
    }
  }

  lemma PackOfReadFloats(data: seq<byte>)
    requires ReadFloats(data).Some?
    ensures var (ws, rest) := ReadFloats(data).value;
      |ws| < INT32_LIMIT && PackFloats(ws) + rest == data
  {
    BytesOfWord(data[..4]);
    var count := WordInt(BytesWord(data[..4]));
    PackOfUnpackWords(data[4..], count);
    assert data == data[..4] + data[4..][..4 * count] + data[4 + 4 * count..];
  }

  lemma PackOfReadFaces(data: seq<byte>)
    requires ReadFaces(data).Some?
    ensures var cs := ReadFaces(data).value;
      |cs| < INT32_LIMIT && (forall c :: c in cs ==> Int32Corner(c)) && PackFaces(cs) == data
  {
    var count := WordInt(BytesWord(data[..4]));
    BytesOfWord(data[..4]);
    PackOfUnpackCorners(data[4..], count);
    assert data == data[..4] + data[4..][..12 * count];
  }

  /** Whatever decodes was written by the encoder: nothing in the file is left over. */
  lemma PackOfUnpack(data: seq<byte>)
    requires Unpack(data).Some?
    ensures Packable(Unpack(data).value) && Pack(Unpack(data).value) == data
  {
    var (ps, d1) := ReadFloats(data).value;
    var (us, d2) := ReadFloats(d1).value;
    var (ns, d3) := ReadFloats(d2).value;
    PackOfReadFloats(data);
    PackOfReadFloats(d1);
    PackOfReadFloats(d2);
    PackOfReadFaces(d3);
  }

  lemma {:induction false} UnpackOfPackWords(ws: seq<word>, rest: seq<byte>)
    ensures UnpackWords(PackWords(ws) + rest, |ws|) == ws
  {
    if ws != [] {
      var data := PackWords(ws) + rest;
      assert data[..4] == WordBytes(ws[0]) && data[4..] == PackWords(ws[1..]) + rest;
      WordOfBytes(ws[0]);
      UnpackOfPackWords(ws[1..], rest);
    }
  }

  lemma {:induction false} UnpackOfPackCorners(cs: seq<Corner>)
    requires forall c :: c in cs ==> Int32Corner(c)
    ensures UnpackCorners(PackCorners(cs), |cs|) == cs
  {
    if cs != [] {
      var data := PackCorners(cs);
      assert cs[0] in cs;
      assert data[..12] == CornerBytes(cs[0]) && data[12..] == PackCorners(cs[1..]);
      BytesOfCorner(cs[0]);
      UnpackOfPackCorners(cs[1..]);
    }
  }

  lemma ReadOfPackFloats(ws: seq<word>, rest: seq<byte>)
    requires |ws| < INT32_LIMIT
    ensures ReadFloats(PackFloats(ws) + rest) == Some((ws, rest))
  {
    var data := PackFloats(ws) + rest;
    assert data[..4] == WordBytes(|ws|) && data[4..] == PackWords(ws) + rest;
    WordOfBytes(|ws|);
    UnpackOfPackWords(ws, rest);
    assert data[4 + 4 * |ws|..] == rest;
  }

  lemma UnpackOfPack(m: Mesh)
    requires Packable(m)
    ensures Unpack(Pack(m)) == Some(m)
  {
    var d3 := PackFaces(m.corners);
    var d2 := PackFloats(m.normals) + d3;
    var d1 := PackFloats(m.uvs) + d2;
    assert Pack(m) == PackFloats(m.positions) + d1;
    ReadOfPackFloats(m.positions, d1);
    ReadOfPackFloats(m.uvs, d2);
    ReadOfPackFloats(m.normals, d3);
    ReadOfPackFaces(m.corners);
  }

  lemma ReadOfPackFaces(cs: seq<Corner>)
    requires |cs| < INT32_LIMIT && forall c :: c in cs ==> Int32Corner(c)
    ensures ReadFaces(PackFaces(cs)) == Some(cs)
  {
    var data := PackFaces(cs);
    assert data[..4] == WordBytes(|cs|) && data[4..] == PackCorners(cs);
    WordOfBytes(|cs|);
    UnpackOfPackCorners(cs);
  }
}
