// The PLY record extractors of `model_io.rs` (and their copies in `scene.rs`):
// each one reads a few named properties of one PLY element and appends what it
// finds to an array of the shape being loaded. The loader loops of
// `Scene::from_json` run them over every element of the payload.

module ModelIo {
  import opened Vectors
  import opened SceneComponents

  /** The property values the extractors read; every other PLY property type is
      `OtherProperty`. */
  datatype Property = Float(value: real) | Int(n: int) | ListInt(items: seq<int>) | OtherProperty

  /** One PLY element: its properties by name. */
  type PlyRecord = map<string, Property>

  /** The parsed payload: the list of elements of each element name. */
  type PlyPayload = map<string, seq<PlyRecord>>

  predicate Has3(v: PlyRecord, a: string, b: string, c: string)
  {
    a in v && b in v && c in v
  }

  /** When all three properties are present they are floats (any other variant is
      unreachable in the extractors). */
  predicate Floats3(v: PlyRecord, a: string, b: string, c: string)
  {
    Has3(v, a, b, c) ==> v[a].Float? && v[b].Float? && v[c].Float?
  }

  /** The values `get_positions`, `get_normals` append: the three floats, when all
      three keys are present. */
  function Vec3Of(v: PlyRecord, a: string, b: string, c: string): (r: seq<Vec3>)
    requires Floats3(v, a, b, c)
    ensures |r| == (if Has3(v, a, b, c) then 1 else 0)
    ensures Has3(v, a, b, c) ==> r[0] == Vec3(v[a].value, v[b].value, v[c].value)
  {
    if !Has3(v, a, b, c) then [] else [Vec3(v[a].value, v[b].value, v[c].value)]
  }

  predicate PositionOk(v: PlyRecord) { Floats3(v, "x", "y", "z") }

  function PositionOf(v: PlyRecord): seq<Vec3>
    requires PositionOk(v)
  {
    Vec3Of(v, "x", "y", "z")
  }

  predicate NormalOk(v: PlyRecord) { Floats3(v, "nx", "ny", "nz") }

  function NormalOf(v: PlyRecord): seq<Vec3>
    requires NormalOk(v)
  {
    Vec3Of(v, "nx", "ny", "nz")
  }

  predicate TexcoordOk(v: PlyRecord)
  {
    "u" in v && "v" in v ==> v["u"].Float? && v["v"].Float?
  }

  /** The value `get_texcoords` appends: `(u, 1 - v)`, flipped vertically. */
  function TexcoordOf(v: PlyRecord): (r: seq<Vec2>)
    requires TexcoordOk(v)
    ensures |r| == (if "u" in v && "v" in v then 1 else 0)
    ensures |r| == 1 ==> r[0].x == v["u"].value && r[0].y + v["v"].value == 1.0
  {
    if "u" in v && "v" in v then [Vec2(v["u"].value, 1.0 - v["v"].value)] else []
  }

  predicate RadiusOk(v: PlyRecord)
  {
    "radius" in v ==> v["radius"].Float?
  }

  function RadiusOf(v: PlyRecord): (r: seq<real>)
    requires RadiusOk(v)
    ensures |r| == (if "radius" in v then 1 else 0)
    ensures |r| == 1 ==> r[0] == v["radius"].value
  {
    if "radius" in v then [v["radius"].value] else []
  }

  predicate ColorOk(v: PlyRecord)
  {
    Floats3(v, "red", "green", "blue") && (Has3(v, "red", "green", "blue") && "alpha" in v ==> v["alpha"].Float?)
  }

  /** The value `get_colors` appends: red, green, blue and, when present, alpha;
      opaque otherwise. */
  function ColorOf(v: PlyRecord): (r: seq<Vec4>)
    requires ColorOk(v)
    ensures |r| == (if Has3(v, "red", "green", "blue") then 1 else 0)
    ensures |r| == 1 ==>
      (r[0].x == v["red"].value && r[0].y == v["green"].value && r[0].z == v["blue"].value
       && r[0].w == (if "alpha" in v then v["alpha"].value else 1.0))
  {
    if !Has3(v, "red", "green", "blue") then []
    else
      var alpha := if "alpha" in v then v["alpha"].value else 1.0;
      [Vec4(v["red"].value, v["green"].value, v["blue"].value, alpha)]
  }

  /** A vertex element every vertex extractor can read. */
  predicate VertexRecordOk(v: PlyRecord)
  {
    PositionOk(v) && NormalOk(v) && TexcoordOk(v) && ColorOk(v) && RadiusOk(v)
  }

  /** The `vertex_indices` property, when present, is an integer list (faces, lines)
      and has the two indices a line reads. */
  predicate IndexListOk(v: PlyRecord, minLength: nat)
  {
    "vertex_indices" in v ==> v["vertex_indices"].ListInt? && |v["vertex_indices"].items| >= minLength
  }

  /** The triangle `get_faces` appends: a list of exactly three indices. */
  function TriangleOf(f: PlyRecord): seq<Int3>
    requires IndexListOk(f, 0)
  {
    if "vertex_indices" !in f then []
    else
      var ix := f["vertex_indices"].items;
      if |ix| == 3 then [Int3(ix[0], ix[1], ix[2])] else []
  }

  /** The quad `get_faces` appends: a list of exactly four indices. */
  function QuadOf(f: PlyRecord): seq<Int4>
    requires IndexListOk(f, 0)
  {
    if "vertex_indices" !in f then []
    else
      var ix := f["vertex_indices"].items;
      if |ix| == 4 then [Int4(ix[0], ix[1], ix[2], ix[3])] else []
  }

  /** A face adds a triangle for three indices (in order), a quad for four, and
      nothing for any other count or when the property is missing; never both. */
  lemma FaceKinds(f: PlyRecord)
    requires IndexListOk(f, 0)
    ensures |TriangleOf(f)| + |QuadOf(f)| <= 1
    ensures |TriangleOf(f)| == 1 <==> "vertex_indices" in f && |f["vertex_indices"].items| == 3
    ensures |QuadOf(f)| == 1 <==> "vertex_indices" in f && |f["vertex_indices"].items| == 4
    ensures |TriangleOf(f)| == 1 ==>
      var ix := f["vertex_indices"].items;
      TriangleOf(f)[0] == Int3(ix[0], ix[1], ix[2])
    ensures |QuadOf(f)| == 1 ==>
      var ix := f["vertex_indices"].items;
      QuadOf(f)[0] == Int4(ix[0], ix[1], ix[2], ix[3])
  {
  }

  /** The line `get_lines` appends: the first two indices of the list, whatever
      its length. */
  function LineOf(l: PlyRecord): (r: seq<Int2>)
    requires IndexListOk(l, 2)
    ensures |r| == (if "vertex_indices" in l then 1 else 0)
    ensures |r| == 1 ==> r[0] == Int2(l["vertex_indices"].items[0], l["vertex_indices"].items[1])
  {
    if "vertex_indices" !in l then []
    else
      var ix := l["vertex_indices"].items;
      [Int2(ix[0], ix[1])]
  }

  predicate PointRecordOk(p: PlyRecord)
  {
    "vertex_indices" in p ==> p["vertex_indices"].Int?
  }

  /** The point `get_points` appends: the single index. */
  function PointOf(p: PlyRecord): (r: seq<int>)
    requires PointRecordOk(p)
    ensures |r| == (if "vertex_indices" in p then 1 else 0)
    ensures |r| == 1 ==> r[0] == p["vertex_indices"].n
  {
    if "vertex_indices" in p then [p["vertex_indices"].n] else []
  }

  /** What the vertex loop of `from_json` does with one vertex: all five vertex
      extractors, each appending to its own array. */
  function VertexStep(s: Shape, v: PlyRecord): Shape
    requires VertexRecordOk(v)
  {
    s.(positions := s.positions + PositionOf(v), normals := s.normals + NormalOf(v),
       texcoords := s.texcoords + TexcoordOf(v), colors := s.colors + ColorOf(v),
       radius := s.radius + RadiusOf(v))
  }

  /** The shape after the vertex loop over `vs`. */
  function VerticesRead(s: Shape, vs: seq<PlyRecord>): Shape
    requires forall k :: 0 <= k < |vs| ==> VertexRecordOk(vs[k])
  {
    if |vs| == 0 then s else VertexStep(VerticesRead(s, vs[..|vs| - 1]), vs[|vs| - 1])
  }

  /** The shape after the face loop over `fs`. */
  function FacesRead(s: Shape, fs: seq<PlyRecord>): Shape
    requires forall k :: 0 <= k < |fs| ==> IndexListOk(fs[k], 0)
  {
    if |fs| == 0 then s
    else
      var r := FacesRead(s, fs[..|fs| - 1]);
      r.(triangles := r.triangles + TriangleOf(fs[|fs| - 1]), quads := r.quads + QuadOf(fs[|fs| - 1]))
  }

  /** The shape after the line loop over `ls`. */
  function LinesRead(s: Shape, ls: seq<PlyRecord>): Shape
    requires forall k :: 0 <= k < |ls| ==> IndexListOk(ls[k], 2)
  {
    if |ls| == 0 then s
    else
      var r := LinesRead(s, ls[..|ls| - 1]);
      r.(lines := r.lines + LineOf(ls[|ls| - 1]))
  }

  /** The shape after the point loop over `ps`. */
  function PointsRead(s: Shape, ps: seq<PlyRecord>): Shape
    requires forall k :: 0 <= k < |ps| ==> PointRecordOk(ps[k])
  {
    if |ps| == 0 then s
    else
      var r := PointsRead(s, ps[..|ps| - 1]);
      r.(points := r.points + PointOf(ps[|ps| - 1]))
  }

  /** The arrays of a shape being loaded from a PLY file. */
  class ShapeLoader {
    var shape: Shape

    constructor (s: Shape)
      ensures shape == s
    {
      shape := s;
    }

    /** `get_positions`. */
    method GetPositions(v: PlyRecord)
      requires PositionOk(v)
      modifies this
      ensures shape == old(shape).(positions := old(shape.positions) + PositionOf(v))
    {
      if !("x" in v && "y" in v && "z" in v) {
        return;
      }
      var x := v["x"].value;
      var y := v["y"].value;
      var z := v["z"].value;
      shape := shape.(positions := shape.positions + [Vec3(x, y, z)]);
    }

    /** `get_normals`. */
    method GetNormals(v: PlyRecord)
      requires NormalOk(v)
      modifies this
      ensures shape == old(shape).(normals := old(shape.normals) + NormalOf(v))
    {
      if !("nx" in v && "ny" in v && "nz" in v) {
        return;
      }
      var nx := v["nx"].value;
      var ny := v["ny"].value;
      var nz := v["nz"].value;
      shape := shape.(normals := shape.normals + [Vec3(nx, ny, nz)]);
    }

    /** `get_texcoords`. */
    method GetTexcoords(v: PlyRecord)
      requires TexcoordOk(v)
      modifies this
      ensures shape == old(shape).(texcoords := old(shape.texcoords) + TexcoordOf(v))
    {
      if !("u" in v && "v" in v) {
        return;
      }
      var u := v["u"].value;
      var w := v["v"].value;
      shape := shape.(texcoords := shape.texcoords + [Vec2(u, 1.0 - w)]);
    }

    /** `get_radius`. */
    method GetRadius(v: PlyRecord)
      requires RadiusOk(v)
      modifies this
      ensures shape == old(shape).(radius := old(shape.radius) + RadiusOf(v))
    {
      if "radius" !in v {
        return;
      }
      var r := v["radius"].value;
      shape := shape.(radius := shape.radius + [r]);
    }

    /** `get_colors`. */
    method GetColors(v: PlyRecord)
      requires ColorOk(v)
      modifies this
      ensures shape == old(shape).(colors := old(shape.colors) + ColorOf(v))
    {
      if !("red" in v && "green" in v && "blue" in v) {
        return;
      }
      var red := v["red"].value;
      var green := v["green"].value;
      var blue := v["blue"].value;
      if "alpha" in v {
        var alpha := v["alpha"].value;
        shape := shape.(colors := shape.colors + [Vec4(red, green, blue, alpha)]);
      } else {
        shape := shape.(colors := shape.colors + [Vec4(red, green, blue, 1.0)]);
      }
    }

    /** `get_faces`: only `triangles` or `quads` can change, by at most one face. */
    method GetFaces(f: PlyRecord)
      requires IndexListOk(f, 0)
      modifies this
      ensures shape == old(shape).(triangles := old(shape.triangles) + TriangleOf(f),
                                   quads := old(shape.quads) + QuadOf(f))
    {
      if "vertex_indices" !in f {
        return;
      }
      var ix := f["vertex_indices"].items;
      if |ix| == 3 {
        shape := shape.(triangles := shape.triangles + [Int3(ix[0], ix[1], ix[2])]);
      } else if |ix| == 4 {
        shape := shape.(quads := shape.quads + [Int4(ix[0], ix[1], ix[2], ix[3])]);
      }
    }

    /** `get_points`. */
    method GetPoints(p: PlyRecord)
      requires PointRecordOk(p)
      modifies this
      ensures shape == old(shape).(points := old(shape.points) + PointOf(p))
    {
      if "vertex_indices" !in p {
        return;
      }
      var index := p["vertex_indices"].n;
      shape := shape.(points := shape.points + [index]);
    }

    /** `get_lines`. */
    method GetLines(l: PlyRecord)
      requires IndexListOk(l, 2)
      modifies this
      ensures shape == old(shape).(lines := old(shape.lines) + LineOf(l))
    {
      if "vertex_indices" !in l {
        return;
      }
      var ix := l["vertex_indices"].items;
      shape := shape.(lines := shape.lines + [Int2(ix[0], ix[1])]);
    }

    /** The vertex loop of `from_json`: all five vertex extractors on each vertex. */
    method ReadVertices(vs: seq<PlyRecord>)
      requires forall k :: 0 <= k < |vs| ==> VertexRecordOk(vs[k])
      modifies this
      ensures shape == VerticesRead(old(shape), vs)
    {
      var n := 0;
      while n < |vs|
        invariant 0 <= n <= |vs|
        invariant shape == VerticesRead(old(shape), vs[..n])
      {
        assert vs[..n + 1][..n] == vs[..n];
        GetPositions(vs[n]);
        GetNormals(vs[n]);
        GetTexcoords(vs[n]);
        GetColors(vs[n]);
        GetRadius(vs[n]);
        n := n + 1;
      }
      assert vs[..n] == vs;
    }

    /** The face loop of `from_json`. */
    method ReadFaces(fs: seq<PlyRecord>)
      requires forall k :: 0 <= k < |fs| ==> IndexListOk(fs[k], 0)
      modifies this
      ensures shape == FacesRead(old(shape), fs)
    {
      var n := 0;
      while n < |fs|
        invariant 0 <= n <= |fs|
        invariant shape == FacesRead(old(shape), fs[..n])
      {
        assert fs[..n + 1][..n] == fs[..n];
        GetFaces(fs[n]);
        n := n + 1;
      }
      assert fs[..n] == fs;
    }

    /** The line loop of `from_json`. */
    method ReadLines(ls: seq<PlyRecord>)
      requires forall k :: 0 <= k < |ls| ==> IndexListOk(ls[k], 2)
      modifies this
      ensures shape == LinesRead(old(shape), ls)
    {
      var n := 0;
      while n < |ls|
        invariant 0 <= n <= |ls|
        invariant shape == LinesRead(old(shape), ls[..n])
      {
        assert ls[..n + 1][..n] == ls[..n];
        GetLines(ls[n]);
        n := n + 1;
      }
      assert ls[..n] == ls;
    }

    /** The point loop of `from_json`. */
    method ReadPoints(ps: seq<PlyRecord>)
      requires forall k :: 0 <= k < |ps| ==> PointRecordOk(ps[k])
      modifies this
      ensures shape == PointsRead(old(shape), ps)
    {
      var n := 0;
      while n < |ps|
        invariant 0 <= n <= |ps|
        invariant shape == PointsRead(old(shape), ps[..n])
      {
        assert ps[..n + 1][..n] == ps[..n];
        GetPoints(ps[n]);
        n := n + 1;
      }
      assert ps[..n] == ps;
    }

    /** The element loops of `from_json` over a parsed PLY payload. */
    method ReadPayload(payload: PlyPayload)
      requires PayloadOk(payload)
      modifies this
      ensures shape == PayloadRead(old(shape), payload)
    {
      if "vertex" in payload {
        ReadVertices(ElementsOf(payload, "vertex"));
      }
      if "face" in payload {
        ReadFaces(ElementsOf(payload, "face"));
      }
      if "line" in payload {
        ReadLines(ElementsOf(payload, "line"));
      }
      if "point" in payload {
        ReadPoints(ElementsOf(payload, "point"));
      }
    }
  }

  /** The elements of one name in the payload; none when the name is absent. */
  function ElementsOf(payload: PlyPayload, name: string): seq<PlyRecord>
  {
    if name in payload then payload[name] else []
  }

  /** Every element of the payload can be read by the extractors of its kind. */
  predicate PayloadOk(payload: PlyPayload)
  {
    (forall k :: 0 <= k < |ElementsOf(payload, "vertex")| ==> VertexRecordOk(ElementsOf(payload, "vertex")[k])) &&
    (forall k :: 0 <= k < |ElementsOf(payload, "face")| ==> IndexListOk(ElementsOf(payload, "face")[k], 0)) &&
    (forall k :: 0 <= k < |ElementsOf(payload, "line")| ==> IndexListOk(ElementsOf(payload, "line")[k], 2)) &&
    (forall k :: 0 <= k < |ElementsOf(payload, "point")| ==> PointRecordOk(ElementsOf(payload, "point")[k]))
  }

  /** The shape after `from_json` has read a PLY payload into it: vertices, then
      faces, lines and points. */
  function PayloadRead(s: Shape, payload: PlyPayload): Shape
    requires PayloadOk(payload)
  {
    PointsRead(LinesRead(FacesRead(VerticesRead(s, ElementsOf(payload, "vertex")),
                                   ElementsOf(payload, "face")),
                         ElementsOf(payload, "line")),
               ElementsOf(payload, "point"))
  }

  /** A vertex carrying position, normal, texture coordinates and colour. */
  predicate FullVertex(v: PlyRecord)
  {
    Has3(v, "x", "y", "z") && Has3(v, "nx", "ny", "nz") && "u" in v && "v" in v
    && Has3(v, "red", "green", "blue")
  }

  /** The vertex loop only appends, and leaves the element arrays alone; when
      every vertex carries position, normal, texture coordinates and colour, the
      per-vertex arrays grow in step, by one entry per vertex each. */
  lemma {:induction false} VertexArraysInStep(s: Shape, vs: seq<PlyRecord>)
    requires forall k :: 0 <= k < |vs| ==> VertexRecordOk(vs[k])
    ensures var r := VerticesRead(s, vs);
      r.points == s.points && r.lines == s.lines && r.triangles == s.triangles && r.quads == s.quads
      && |s.positions| <= |r.positions| <= |s.positions| + |vs| && r.positions[..|s.positions|] == s.positions
    ensures (forall k :: 0 <= k < |vs| ==> FullVertex(vs[k])) ==>
      var r := VerticesRead(s, vs);
      |r.positions| == |s.positions| + |vs| && |r.normals| == |s.normals| + |vs|
      && |r.texcoords| == |s.texcoords| + |vs| && |r.colors| == |s.colors| + |vs|
  {
    if |vs| > 0 {
      VertexArraysInStep(s, vs[..|vs| - 1]);
      var r := VerticesRead(s, vs[..|vs| - 1]);
      assert VerticesRead(s, vs).positions == r.positions + PositionOf(vs[|vs| - 1]);
      assert r.positions[..|s.positions|] == s.positions;
      assert (r.positions + PositionOf(vs[|vs| - 1]))[..|s.positions|] == r.positions[..|s.positions|];
    }
  }

  /** A shape loaded from scratch out of full vertices has one normal, texture
      coordinate and colour per position. */
  lemma FullVerticesMatch(s: Shape, vs: seq<PlyRecord>)
    requires |s.positions| == 0 && |s.normals| == 0 && |s.texcoords| == 0 && |s.colors| == 0
    requires forall k :: 0 <= k < |vs| ==> VertexRecordOk(vs[k]) && FullVertex(vs[k])
    ensures var r := VerticesRead(s, vs);
      |r.positions| == |vs| && |r.normals| == |r.positions| && |r.texcoords| == |r.positions|
      && |r.colors| == |r.positions|
  {
    VertexArraysInStep(s, vs);
  }

  /** The face loop adds at most one element per face, and exactly one when every
      face has three or four indices. */
  lemma {:induction false} FacesSplit(s: Shape, fs: seq<PlyRecord>)
    requires forall k :: 0 <= k < |fs| ==> IndexListOk(fs[k], 0)
    ensures var r := FacesRead(s, fs);
      r.positions == s.positions && r.lines == s.lines && r.points == s.points
      && |r.triangles| + |r.quads| <= |s.triangles| + |s.quads| + |fs|
    ensures (forall k :: 0 <= k < |fs| ==> "vertex_indices" in fs[k] && |fs[k]["vertex_indices"].items| in {3, 4})
      ==> var r := FacesRead(s, fs);
      |r.triangles| + |r.quads| == |s.triangles| + |s.quads| + |fs|
  {
    if |fs| > 0 {
      FacesSplit(s, fs[..|fs| - 1]);
      FaceKinds(fs[|fs| - 1]);
    }
  }
}
