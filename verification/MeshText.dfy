/** The Wavefront text of a mesh: printing (`binobj2obj.py`) and parsing (`obj2binobj.py`). */
module MeshText {
  import opened Text
  import opened MeshBytes

  /** `str.split()` on ASCII text. */
  const WHITESPACE: set<char> := {' ', '\t', '\n', '\r', '\U{0B}', '\U{0C}', '\U{1C}', '\U{1D}', '\U{1E}', '\U{1F}'}
  /** Line ends of a file read in text mode; a CRLF only adds an empty line, which is skipped. */
  const LINE_ENDS: set<char> := {'\n', '\r'}

  /** `'%.9g' % x` and `float(s)` followed by rounding to 32 bits. */
  datatype FloatText = FloatText(show: word -> string, read: string -> Option<word>)

  /** The text of `w` is one token that reads back as `w`. */
  ghost predicate RoundTrips(ft: FloatText, w: word) {
    ft.show(w) != "" && Clean(ft.show(w), WHITESPACE) && ft.read(ft.show(w)) == Some(w)
  }

  // ----- printing

  const COMMENT_1: seq<string> := ["#", "3D", "mesh", "decoded", "from", ".binobj", "(source", "of"]
  const COMMENT_2: seq<string> := ["truth;", "baked", "back", "to", ".binobj", "at", "build", "time)."]
  const COMMENT_3: seq<string> := ["#", "UVs", "are", "stored", "raw", "here;", "the", "V"]
  const COMMENT_4: seq<string> := ["coordinate", "is", "flipped", "(1-v)", "at", "load", "time."]

  function Comments(): seq<string> {
    [Join(COMMENT_1 + COMMENT_2, ' '), Join(COMMENT_3 + COMMENT_4, ' ')]
  }

  function TripleLine(ft: FloatText, tag: string, xs: seq<word>, i: nat): string
    requires 3 * i + 2 < |xs|
  {
    Join([tag, ft.show(xs[3 * i]), ft.show(xs[3 * i + 1]), ft.show(xs[3 * i + 2])], ' ')
  }

  function PairLine(ft: FloatText, xs: seq<word>, i: nat): string
    requires 2 * i + 1 < |xs|
  {
    Join(["vt", ft.show(xs[2 * i]), ft.show(xs[2 * i + 1])], ' ')
  }

  function CornerText(c: Corner): string {
    Join([ShowInt(c.position + 1), ShowInt(c.uv + 1), ShowInt(c.normal + 1)], '/')
  }

  function FaceLine(cs: seq<Corner>, t: nat): string
    requires 3 * t + 2 < |cs|
  {
    Join(["f", CornerText(cs[3 * t]), CornerText(cs[3 * t + 1]), CornerText(cs[3 * t + 2])], ' ')
  }

  function TripleLines(ft: FloatText, tag: string, xs: seq<word>): (ls: seq<string>)
    ensures |ls| == |xs| / 3
  {
    seq(|xs| / 3, i requires 0 <= i < |xs| / 3 => TripleLine(ft, tag, xs, i))
  }

  function PairLines(ft: FloatText, xs: seq<word>): (ls: seq<string>)
    ensures |ls| == |xs| / 2
  {
    seq(|xs| / 2, i requires 0 <= i < |xs| / 2 => PairLine(ft, xs, i))
  }

  function FaceLines(cs: seq<Corner>): (ls: seq<string>)
    ensures |ls| == |cs| / 3
  {
    seq(|cs| / 3, t requires 0 <= t < |cs| / 3 => FaceLine(cs, t))
  }

  function MeshLines(ft: FloatText, m: Mesh): seq<string> {
    Comments() + TripleLines(ft, "v", m.positions) + PairLines(ft, m.uvs)
    + TripleLines(ft, "vn", m.normals) + FaceLines(m.corners)
  }

  // ----- parsing; None is any Python exception

  function ReadAll(ft: FloatText, parts: seq<string>): Option<seq<word>> {
    if parts == [] then Some([])
    else
      match ft.read(parts[0])
      case None => None
      case Some(w) =>
        match ReadAll(ft, parts[1..])
        case None => None
        case Some(ws) => Some([w] + ws)
  }

  /** An absent or empty field is index -1. */
  function ParseIndex(field: string): Option<int> {
    if field == "" then Some(-1)
    else
      match ParseInt(field)
      case None => None
      case Some(n) => Some(n - 1)
  }

  function ParseVertex(vertex: string): Option<Corner> {
    var fields := (Split(vertex, {'/'}) + ["", ""])[..3];
    match ParseIndex(fields[0])
    case None => None
    case Some(p) =>
      match ParseIndex(fields[1])
      case None => None
      case Some(t) =>
        match ParseIndex(fields[2])
        case None => None
        case Some(n) => Some(Corner(p, t, n))
  }

  /** The first k vertices of a face. */
  function ParseFace(vertices: seq<string>, k: nat): Option<seq<Corner>>
    requires k <= |vertices|
  {
    if k == 0 then Some([])
    else
      match ParseFace(vertices, k - 1)
      case None => None
      case Some(face) =>
        match ParseVertex(vertices[k - 1])
        case None => None
        case Some(c) => Some(face + [c])
  }

  /** The triangles (face[0], face[i], face[i + 1]) for 1 <= i < n. */
  function Fan(face: seq<Corner>, n: nat): seq<Corner>
    requires n < |face| || n <= 1
  {
    if n <= 1 then [] else Fan(face, n - 1) + [face[0], face[n - 1], face[n]]
  }

  function Triangulate(face: seq<Corner>): seq<Corner> {
    if |face| == 0 then [] else Fan(face, |face| - 1)
  }

  function ParseLine(ft: FloatText, m: Mesh, line: string): Option<Mesh> {
    var parts := Tokens(line, WHITESPACE);
    if parts == [] || '#' == parts[0][0] then Some(m)
    else if parts[0] == "v" || parts[0] == "vn" then
      if |parts| < 4 then None
      else
        match ReadAll(ft, parts[1..4])
        case None => None
        case Some(ws) =>
          Some(if parts[0] == "v" then m.(positions := m.positions + ws) else m.(normals := m.normals + ws))
    else if parts[0] == "vt" then
      if |parts| < 3 then None
      else
        match ReadAll(ft, parts[1..3])
        case None => None
        case Some(ws) => Some(m.(uvs := m.uvs + ws))
    else if parts[0] == "f" then
      match ParseFace(parts[1..], |parts| - 1)
      case None => None
      case Some(face) => Some(m.(corners := m.corners + Triangulate(face)))
    else Some(m)
  }

  /** The first k lines. */
  function ParseLines(ft: FloatText, lines: seq<string>, k: nat): Option<Mesh>
    requires k <= |lines|
  {
    if k == 0 then Some(EMPTY)
    else
      match ParseLines(ft, lines, k - 1)
      case None => None
      case Some(before) => ParseLine(ft, before, lines[k - 1])
  }

  const EMPTY: Mesh := Mesh([], [], [], [])

  function ParseObj(ft: FloatText, text: string): Option<Mesh> {
    var lines := Split(text, LINE_ENDS);
    ParseLines(ft, lines, |lines|)
  }
}
