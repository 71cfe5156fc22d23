/** Pixels, straws and tubes of a LoKI detector bank
    (examples/loki/LOKI_geometry.py, classes Cylinder, Pixel, Straw and Tube).

    A tube holds one straw geometry repeated at every tube offset; a straw
    holds one pixel geometry repeated at every straw offset; a pixel holds
    the offsets of its STRAW_RESOLUTION copies along the straw. Flattening
    walks tube, then straw, then pixel and hands every pixel the next
    detector number from the shared pixel counter. */
module Geometry {
  import opened Util
  import opened Vectors
  import opened Ids
  import opened NexusInfo
  import opened StrawReorder
  import opened LokiConfig

  datatype Alignment = Horizontal | Vertical

  // ---------------------------------------------------------------------
  // Cylinder
  // ---------------------------------------------------------------------

  /** The distinct points of a vertex list (Python's set(vertices)). */
  function Distinct(vs: seq<Vec3>): set<Vec3> {
    set i | 0 <= i < |vs| :: vs[i]
  }

  lemma {:induction false} DistinctBound(vs: seq<Vec3>)
    ensures |Distinct(vs)| <= |vs|
    decreases |vs|
  {
    if |vs| > 0 {
      var init := vs[..|vs| - 1];
      DistinctBound(init);
      assert Distinct(vs) == Distinct(init) + {vs[|vs| - 1]} by {
        forall v | v in Distinct(vs) ensures v in Distinct(init) + {vs[|vs| - 1]} {
          var i :| 0 <= i < |vs| && vs[i] == v;
          if i < |vs| - 1 {
            assert init[i] == v;
          }
        }
        forall v | v in Distinct(init) ensures v in Distinct(vs) {
          var i :| 0 <= i < |init| && init[i] == v;
          assert vs[i] == v;
        }
      }
    }
  }

  datatype CylinderError = NotThreeUniqueVertices  // RuntimeError

  /** Cylinder(vertices_coordinates): the vertex list is kept in the given
      order when it holds exactly N_VERTICES = 3 distinct points. */
  function NewCylinder(vs: seq<Vec3>): (r: Result<seq<Vec3>, CylinderError>)
    ensures r.Ok? ==> r.value == vs && |vs| >= 3
  {
    DistinctBound(vs);
    if |Distinct(vs)| != 3 then Err(NotThreeUniqueVertices) else Ok(vs)
  }

  /** Three points make a cylinder exactly when they are pairwise distinct. */
  lemma CylinderOfThree(a: Vec3, b: Vec3, c: Vec3)
    ensures NewCylinder([a, b, c]).Ok? <==> a != b && b != c && a != c
  {
    var vs := [a, b, c];
    assert Distinct(vs) == {a, b, c} by {
      assert vs[0] == a && vs[1] == b && vs[2] == c;
    }
    if a != b && b != c && a != c {
      assert |{a, b, c}| == 3 by {
        assert {a, b, c} == {a} + {b} + {c};
        assert |{a} + {b}| == 2;
      }
    } else {
      assert |{a, b, c}| < 3 by {
        if a == b { assert {a, b, c} == {a, c}; }
        else if b == c { assert {a, b, c} == {a, b}; }
        else { assert {a, b, c} == {a, b}; }
      }
    }
  }

  /** Fewer than three points can never make a cylinder. */
  lemma CylinderNeedsThree(vs: seq<Vec3>)
    requires |vs| < 3
    ensures NewCylinder(vs).Err?
  {
    DistinctBound(vs);
  }

  // ---------------------------------------------------------------------
  // Pixel
  // ---------------------------------------------------------------------

  /** Every pixel offset shifted by the straw offset (get_pixel_data). */
  function PixelRow(o: Vec3, pixelOffsets: seq<Vec3>): (r: seq<Vec3>)
    ensures |r| == |pixelOffsets|
    ensures forall p :: 0 <= p < |r| ==> r[p] == Add(o, pixelOffsets[p])
  {
    seq(|pixelOffsets|, p requires 0 <= p < |pixelOffsets| => Add(o, pixelOffsets[p]))
  }

  /** {units: unit} */
  function UnitsAttr(unit: string): (a: Attrs)
    ensures a.Keys == {Units} && a[Units] == Str(unit)
  {
    map[Units := Str(unit)]
  }

  /** get_cylinder_geo_data: one cylinder made of vertices 0, 1 and 2, and the
      coordinates of the first three vertices with the length unit. */
  function CylinderGeoData(vertices: seq<Vec3>, unit: string): (r: seq<(string, Node)>)
    requires |vertices| >= 3
    ensures Keys(r) == ["cylinders", "vertices"]
    ensures r[0].1 == Node(Array([Array([Int(0), Int(1), Int(2)])]), None)
    ensures r[1].1 == Node(Array([VectorList(vertices[0]), VectorList(vertices[1]), VectorList(vertices[2])]),
                           Some(UnitsAttr(unit)))
  {
    [("cylinders", ValuesAttrs(Array([Array([Int(0), Int(1), Int(2)])]), None)),
     ("vertices", ValuesAttrs(Array([VectorList(vertices[0]), VectorList(vertices[1]), VectorList(vertices[2])]),
                              Some(UnitsAttr(unit))))]
  }

  /** Pixel: a cylinder (its vertices) and the offsets of all pixels along
      the straw. */
  class Pixel {
    const vertices: seq<Vec3>
    var offsets: seq<Vec3>

    /** Pixel(vertices): only built from a vertex list that NewCylinder
        accepts; the RuntimeError path is taken by the caller. */
    constructor (vs: seq<Vec3>)
      requires NewCylinder(vs).Ok?
      ensures vertices == vs && |vertices| >= 3 && offsets == []
    {
      vertices := vs;
      offsets := [];
    }

    /** set_pixel_xyz_offsets */
    method SetPixelXyzOffsets(o: seq<Vec3>)
      modifies this
      ensures offsets == o
    {
      offsets := o;
    }

    /** get_pixel_data(straw_offset): every pixel offset shifted by the straw
        offset, and for each pixel the next number of the pixel counter. */
    method GetPixelData(strawOffset: Vec3, counter: IdIterator) returns (offs: seq<Vec3>, ids: seq<int>)
      requires counter.iterating
      modifies counter
      ensures offs == PixelRow(strawOffset, offsets)
      ensures ids == Consecutive(old(counter.current), |offsets|)
      ensures counter.iterating && counter.current == old(counter.current) + |offsets|
    {
      offs, ids := [], [];
      var j := 0;
      while j < |offsets|
        invariant 0 <= j <= |offsets|
        invariant offs == PixelRow(strawOffset, offsets[..j])
        invariant ids == Consecutive(old(counter.current), j)
        invariant counter.iterating && counter.current == old(counter.current) + j
      {
        offs := offs + [Add(strawOffset, offsets[j])];
        var id := counter.Next();
        ids := ids + [id.value];
        j := j + 1;
      }
      assert offsets[..j] == offsets;
    }
  }

  // ---------------------------------------------------------------------
  // Straw
  // ---------------------------------------------------------------------

  /** The rotation applied to the normalised first base vector: about the x
      axis (in the source's row order) for a horizontal bank, about the y
      axis for a vertical one; s and c are the sine and cosine of the angle. */
  function Rotate(al: Alignment, s: real, c: real, v: Vec3): (r: Vec3)
    ensures al.Horizontal? ==> r.x == v.x
    ensures al.Vertical? ==> r.y == v.y
  {
    match al
    case Horizontal => Vec3(v.x, -s * v.y + c * v.z, c * v.y + s * v.z)
    case Vertical => Vec3(c * v.x + s * v.z, v.y, -s * v.x + c * v.z)
  }

  /** Angle of outer straw idx, in degrees: 360 / (NUM_STRAWS_PER_TUBE - 1)
      per step, plus the alignment offset. */
  function StrawAngle(idx: nat): (deg: real)
    ensures idx < NumStrawsPerTube - 1 ==> StrawAlignmentOffsetDeg <= deg < StrawAlignmentOffsetDeg + 360.0
  {
    (360.0 / ((NumStrawsPerTube - 1) as real)) * (idx as real) + StrawAlignmentOffsetDeg
  }

  /** Outer straw idx (0-based, after the centre straw): at distance `dist`
      along the direction `dir` rotated by StrawAngle(idx). */
  function OuterStrawOffset(al: Alignment, dir: Vec3, sin: real -> real, cos: real -> real,
                            dist: real, idx: nat): (r: Vec3)
    ensures al.Horizontal? ==> r.x == dist * dir.x
    ensures al.Vertical? ==> r.y == dist * dir.y
  {
    Scale(Rotate(al, sin(StrawAngle(idx)), cos(StrawAngle(idx)), dir), dist)
  }

  /** The straw offsets before reordering: the centre straw at the origin,
      then the outer straws along the rotated direction of the normalised
      first base vector. Sine and cosine (of an angle in degrees) and the
      norm are inputs. */
  function RawStrawOffsets(al: Alignment, baseVec1: Vec3, nrm: Vec3 -> real,
                           sin: real -> real, cos: real -> real, dist: real): (r: seq<Vec3>)
    requires nrm(baseVec1) != 0.0
    ensures |r| == NumStrawsPerTube && r[0] == Zero
    ensures forall idx :: 0 <= idx < NumStrawsPerTube - 1 ==>
      r[idx + 1] == OuterStrawOffset(al, Div(baseVec1, nrm(baseVec1)), sin, cos, dist, idx)
  {
    var dir := Div(baseVec1, nrm(baseVec1));
    [Zero] + seq(NumStrawsPerTube - 1, idx requires 0 <= idx < NumStrawsPerTube - 1 =>
                   OuterStrawOffset(al, dir, sin, cos, dist, idx))
  }

  /** The offsets of the STRAW_RESOLUTION pixels along a straw: j times the
      pixel length vector. */
  function PixelOffsets(vec: Vec3): (r: seq<Vec3>)
    ensures |r| == StrawResolution
    ensures forall j :: 0 <= j < StrawResolution ==> r[j] == Scale(vec, j as real)
  {
    seq(StrawResolution, j requires 0 <= j < StrawResolution => Scale(vec, j as real))
  }

  /** One pixel length along the straw, (C - A) / STRAW_RESOLUTION. */
  function PixelLength(a: Vec3, c: Vec3): (vec: Vec3)
    ensures Add(a, Scale(vec, StrawResolution as real)) == c
  {
    Div(Sub(c, a), StrawResolution as real)
  }

  /** The vertices of the first pixel: A, B and the end of the first pixel. */
  function FirstPixelVertices(a: Vec3, b: Vec3, c: Vec3): seq<Vec3> {
    [a, b, Add(a, PixelLength(a, c))]
  }

  /** The pixels tile the straw: the first starts at offset zero, and the
      far end of the last pixel is C. */
  lemma PixelsSpanStraw(a: Vec3, c: Vec3)
    ensures var vec := PixelLength(a, c);
      PixelOffsets(vec)[0] == Zero &&
      Add(Add(a, vec), PixelOffsets(vec)[StrawResolution - 1]) == c
  {
    var vec := PixelLength(a, c);
    assert PixelOffsets(vec)[StrawResolution - 1] == Scale(vec, 511.0);
  }

  /** For each straw offset (moved by the tube offset), the shifted pixel
      offsets. */
  function StrawBlocks(strawOffsets: seq<Vec3>, tubeOffset: Vec3, pixelOffsets: seq<Vec3>): (r: seq<seq<Vec3>>)
    ensures |r| == |strawOffsets|
    ensures forall s :: 0 <= s < |r| ==> r[s] == PixelRow(Add(strawOffsets[s], tubeOffset), pixelOffsets)
  {
    seq(|strawOffsets|, s requires 0 <= s < |strawOffsets| => PixelRow(Add(strawOffsets[s], tubeOffset), pixelOffsets))
  }

  /** The pixels of one tube, straw by straw. */
  function StrawData(strawOffsets: seq<Vec3>, tubeOffset: Vec3, pixelOffsets: seq<Vec3>): seq<Vec3> {
    Concat(StrawBlocks(strawOffsets, tubeOffset, pixelOffsets))
  }

  /** For each tube offset, the pixels of that tube. */
  function TubeBlocks(tubeOffsets: seq<Vec3>, strawOffsets: seq<Vec3>, pixelOffsets: seq<Vec3>): (r: seq<seq<Vec3>>)
    ensures |r| == |tubeOffsets|
    ensures forall t :: 0 <= t < |r| ==> r[t] == StrawData(strawOffsets, tubeOffsets[t], pixelOffsets)
  {
    seq(|tubeOffsets|, t requires 0 <= t < |tubeOffsets| => StrawData(strawOffsets, tubeOffsets[t], pixelOffsets))
  }

  /** All pixel positions of a tube layout, tube by tube. */
  function TubeData(tubeOffsets: seq<Vec3>, strawOffsets: seq<Vec3>, pixelOffsets: seq<Vec3>): seq<Vec3> {
    Concat(TubeBlocks(tubeOffsets, strawOffsets, pixelOffsets))
  }

  class Straw {
    const pointA: Vec3
    const pointB: Vec3
    const pointC: Vec3
    const bankId: int
    /** None while the offsets are still the initial [None] * NUM_STRAWS_PER_TUBE. */
    var strawOffsets: Option<seq<Vec3>>
    var pixel: Pixel?

    /** Both set_straw_offsets and populate_with_pixels have run. */
    predicate Ready()
      reads this
    {
      strawOffsets.Some? && pixel != null && |pixel.vertices| >= 3
    }

    constructor (a: Vec3, b: Vec3, c: Vec3, detectorBankId: int)
      ensures pointA == a && pointB == b && pointC == c && bankId == detectorBankId
      ensures strawOffsets == None && pixel == null
    {
      pointA, pointB, pointC, bankId := a, b, c, detectorBankId;
      strawOffsets := None;
      pixel := null;
    }

    /** set_straw_offsets(alignment, base_vec_1): the seven straw offsets in
        the order reorder_straw_offsets_in_list gives them. */
    method SetStrawOffsets(al: Alignment, baseVec1: Vec3, nrm: Vec3 -> real,
                           sin: real -> real, cos: real -> real, dist: real)
      requires nrm(baseVec1) != 0.0
      modifies this
      ensures strawOffsets == Reorder(RawStrawOffsets(al, baseVec1, nrm, sin, cos, dist), NumStrawsPerTube, Zero)
      ensures strawOffsets.Some?
      ensures pixel == old(pixel)
    {
      var dir := Div(baseVec1, nrm(baseVec1));
      var offs := [Zero];
      var idx := 0;
      while idx < NumStrawsPerTube - 1
        invariant 0 <= idx <= NumStrawsPerTube - 1
        invariant |offs| == idx + 1 && offs[0] == Zero
        invariant forall k :: 0 <= k < idx ==> offs[k + 1] == OuterStrawOffset(al, dir, sin, cos, dist, k)
      {
        offs := offs + [OuterStrawOffset(al, dir, sin, cos, dist, idx)];
        idx := idx + 1;
      }
      ghost var raw := RawStrawOffsets(al, baseVec1, nrm, sin, cos, dist);
      assert offs == raw by {
        forall k | 0 <= k < |offs| ensures offs[k] == raw[k] {
          if k > 0 {
            assert offs[(k - 1) + 1] == raw[(k - 1) + 1];
          }
        }
      }
      ReorderOddIsPermutation(offs, Zero);
      strawOffsets := Reorder(offs, NumStrawsPerTube, Zero);
    }

    /** populate_with_pixels: the pixel cylinder [A, B, A + (C - A) / RES]
        and the STRAW_RESOLUTION pixel offsets. Fails (RuntimeError, no pixel
        set) when those three points are not distinct. */
    method PopulateWithPixels() returns (ok: bool)
      modifies this
      ensures ok <==> NewCylinder(FirstPixelVertices(pointA, pointB, pointC)).Ok?
      ensures ok ==> pixel != null && fresh(pixel)
      ensures ok ==> pixel.vertices == FirstPixelVertices(pointA, pointB, pointC)
      ensures ok ==> pixel.offsets == PixelOffsets(PixelLength(pointA, pointC))
      ensures !ok ==> pixel == old(pixel)
      ensures strawOffsets == old(strawOffsets)
    {
      var vec := PixelLength(pointA, pointC);
      var verts := FirstPixelVertices(pointA, pointB, pointC);
      if NewCylinder(verts).Err? {
        return false;
      }
      var p := new Pixel(verts);
      p.SetPixelXyzOffsets(PixelOffsets(vec));
      pixel := p;
      ok := true;
    }

    /** get_straw_data(tube_offset): the pixel data of every straw, straw by
        straw, drawing detector numbers from the pixel counter. */
    method GetStrawData(tubeOffset: Vec3, counter: IdIterator) returns (offs: seq<Vec3>, ids: seq<int>)
      requires Ready() && counter.iterating
      modifies counter
      ensures offs == StrawData(strawOffsets.value, tubeOffset, pixel.offsets)
      ensures ids == Consecutive(old(counter.current), |offs|)
      ensures counter.iterating && counter.current == old(counter.current) + |offs|
    {
      var so := strawOffsets.value;
      var P := pixel.offsets;
      ghost var blocks := StrawBlocks(so, tubeOffset, P);
      offs, ids := [], [];
      var s := 0;
      while s < |so|
        invariant 0 <= s <= |so|
        invariant offs == Concat(blocks[..s])
        invariant ids == Consecutive(old(counter.current), |offs|)
        invariant counter.iterating && counter.current == old(counter.current) + |offs|
      {
        var o, n := pixel.GetPixelData(Add(so[s], tubeOffset), counter);
        ConcatPrefixStep(blocks, s);
        ConsecutiveAppend(old(counter.current), |offs|, |o|);
        offs := offs + o;
        ids := ids + n;
        s := s + 1;
      }
      assert blocks[..s] == blocks;
    }
  }

  /** Consecutive runs glue together. */
  lemma ConsecutiveAppend(start: int, a: nat, b: nat)
    ensures Consecutive(start, a) + Consecutive(start + a, b) == Consecutive(start, a + b)
  {
  }

  // ---------------------------------------------------------------------
  // Tube
  // ---------------------------------------------------------------------

  /** The geometry fields when the tube has no straw: five empty fields. */
  function EmptyGeometry(): (r: seq<(string, Node)>)
    ensures Keys(r) == ["detector_number", "pixel_shape", "x_pixel_offset", "y_pixel_offset", "z_pixel_offset"]
    ensures forall i :: 0 <= i < |r| ==> r[i].1 == Node(Array([]), None)
  {
    var e := ValuesAttrs(Array([]), None);
    [("detector_number", e), ("pixel_shape", e), ("x_pixel_offset", e), ("y_pixel_offset", e), ("z_pixel_offset", e)]
  }

  function Ints(s: seq<int>): (v: Value)
    ensures v.Array? && |v.items| == |s|
    ensures forall i :: 0 <= i < |s| ==> v.items[i] == Int(s[i])
  {
    Array(seq(|s|, i requires 0 <= i < |s| => Int(s[i])))
  }

  /** One coordinate (0 = x, 1 = y, 2 = z) of every offset, as a list of floats. */
  function Coordinates(offs: seq<Vec3>, axis: nat): (v: Value)
    requires axis < 3
    ensures v.Array? && |v.items| == |offs|
    ensures forall i :: 0 <= i < |offs| ==> v.items[i] == Num(Component(offs[i], axis))
  {
    Array(seq(|offs|, i requires 0 <= i < |offs| => Num(Component(offs[i], axis))))
  }

  /** The five geometry fields built from the detector numbers and the
      pixel positions. */
  function GeometryFields(ids: seq<int>, offs: seq<Vec3>, vertices: seq<Vec3>, unit: string): seq<(string, Node)>
    requires |vertices| >= 3
  {
    [("detector_number", ValuesAttrs(Ints(ids), None)),
     ("pixel_shape", ValuesAttrs(Dict(CylinderGeoData(vertices, unit)), Some(ClassAttr("NXcylindrical_geometry")))),
     ("x_pixel_offset", ValuesAttrs(Coordinates(offs, 0), Some(UnitsAttr(unit)))),
     ("y_pixel_offset", ValuesAttrs(Coordinates(offs, 1), Some(UnitsAttr(unit)))),
     ("z_pixel_offset", ValuesAttrs(Coordinates(offs, 2), Some(UnitsAttr(unit))))]
  }

  /** get_geometry_data for a tube with a straw: detector numbers from
      firstId on, the pixel cylinder, and the x, y and z offsets of every
      pixel of every straw of every tube. */
  function GeometryData(tubeOffsets: seq<Vec3>, strawOffsets: seq<Vec3>, pixelOffsets: seq<Vec3>,
                        vertices: seq<Vec3>, firstId: int, unit: string): (r: seq<(string, Node)>)
    requires |vertices| >= 3
    ensures Keys(r) == ["detector_number", "pixel_shape", "x_pixel_offset", "y_pixel_offset", "z_pixel_offset"]
  {
    var offs := TubeData(tubeOffsets, strawOffsets, pixelOffsets);
    GeometryFields(Consecutive(firstId, |offs|), offs, vertices, unit)
  }

  /** S straw offsets and P pixel offsets give S * P pixels. */
  lemma StrawDataLength(strawOffsets: seq<Vec3>, tubeOffset: Vec3, pixelOffsets: seq<Vec3>)
    ensures |StrawData(strawOffsets, tubeOffset, pixelOffsets)| == |strawOffsets| * |pixelOffsets|
  {
    ConcatLength(StrawBlocks(strawOffsets, tubeOffset, pixelOffsets), |pixelOffsets|);
  }

  /** Pixel s * P + p of one tube sits at straw offset s plus the tube
      offset plus pixel offset p. */
  lemma StrawDataAt(strawOffsets: seq<Vec3>, tubeOffset: Vec3, pixelOffsets: seq<Vec3>, s: nat, p: nat)
    requires s < |strawOffsets| && p < |pixelOffsets|
    ensures s * |pixelOffsets| + p < |StrawData(strawOffsets, tubeOffset, pixelOffsets)|
    ensures StrawData(strawOffsets, tubeOffset, pixelOffsets)[s * |pixelOffsets| + p]
      == Add(Add(strawOffsets[s], tubeOffset), pixelOffsets[p])
  {
    ConcatAt(StrawBlocks(strawOffsets, tubeOffset, pixelOffsets), |pixelOffsets|, s, p);
  }

  /** Every block of the tube layout holds S * P pixels. */
  lemma TubeBlockLengths(tubeOffsets: seq<Vec3>, strawOffsets: seq<Vec3>, pixelOffsets: seq<Vec3>)
    ensures forall t :: 0 <= t < |tubeOffsets| ==>
      |TubeBlocks(tubeOffsets, strawOffsets, pixelOffsets)[t]| == |strawOffsets| * |pixelOffsets|
  {
    forall t | 0 <= t < |tubeOffsets|
      ensures |TubeBlocks(tubeOffsets, strawOffsets, pixelOffsets)[t]| == |strawOffsets| * |pixelOffsets|
    {
      StrawDataLength(strawOffsets, tubeOffsets[t], pixelOffsets);
    }
  }

  /** T tube offsets give T * (S * P) pixels. */
  lemma TubeDataLength(tubeOffsets: seq<Vec3>, strawOffsets: seq<Vec3>, pixelOffsets: seq<Vec3>)
    ensures |TubeData(tubeOffsets, strawOffsets, pixelOffsets)| == |tubeOffsets| * (|strawOffsets| * |pixelOffsets|)
  {
    TubeBlockLengths(tubeOffsets, strawOffsets, pixelOffsets);
    ConcatLength(TubeBlocks(tubeOffsets, strawOffsets, pixelOffsets), |strawOffsets| * |pixelOffsets|);
  }

  /** Block t of the tube layout is the straw data at tube offset t: entry
      t * (S * P) + i is entry i of that block. */
  lemma TubeDataAt(tubeOffsets: seq<Vec3>, strawOffsets: seq<Vec3>, pixelOffsets: seq<Vec3>, t: nat, i: nat)
    requires t < |tubeOffsets| && i < |strawOffsets| * |pixelOffsets|
    ensures |StrawData(strawOffsets, tubeOffsets[t], pixelOffsets)| == |strawOffsets| * |pixelOffsets|
    ensures t * (|strawOffsets| * |pixelOffsets|) + i < |TubeData(tubeOffsets, strawOffsets, pixelOffsets)|
    ensures TubeData(tubeOffsets, strawOffsets, pixelOffsets)[t * (|strawOffsets| * |pixelOffsets|) + i]
      == StrawData(strawOffsets, tubeOffsets[t], pixelOffsets)[i]
  {
    TubeBlockLengths(tubeOffsets, strawOffsets, pixelOffsets);
    ConcatAt(TubeBlocks(tubeOffsets, strawOffsets, pixelOffsets), |strawOffsets| * |pixelOffsets|, t, i);
  }

  /** Pixel (t, s, p) of the flattened layout: index t * S * P + s * P + p
      holds straw offset s plus tube offset t plus pixel offset p. */
  lemma PixelPosition(tubeOffsets: seq<Vec3>, strawOffsets: seq<Vec3>, pixelOffsets: seq<Vec3>, t: nat, s: nat, p: nat)
    requires t < |tubeOffsets| && s < |strawOffsets| && p < |pixelOffsets|
    ensures var k := t * (|strawOffsets| * |pixelOffsets|) + (s * |pixelOffsets| + p);
      var offs := TubeData(tubeOffsets, strawOffsets, pixelOffsets);
      k < |offs| && offs[k] == Add(Add(strawOffsets[s], tubeOffsets[t]), pixelOffsets[p])
  {
    var j := s * |pixelOffsets| + p;
    StrawDataAt(strawOffsets, tubeOffsets[t], pixelOffsets, s, p);
    StrawDataLength(strawOffsets, tubeOffsets[t], pixelOffsets);
    TubeDataAt(tubeOffsets, strawOffsets, pixelOffsets, t, j);
  }

  /** What get_geometry_data promises: n = T * S * P detector numbers,
      consecutive from the counter's value, and x, y, z offset lists of the
      same length whose i-th entries are the coordinates of the i-th pixel of
      the flattened layout. */
  lemma GeometryDataFields(tubeOffsets: seq<Vec3>, strawOffsets: seq<Vec3>, pixelOffsets: seq<Vec3>,
                           vertices: seq<Vec3>, firstId: int, unit: string)
    requires |vertices| >= 3
    ensures var r := GeometryData(tubeOffsets, strawOffsets, pixelOffsets, vertices, firstId, unit);
      var offs := TubeData(tubeOffsets, strawOffsets, pixelOffsets);
      Keys(r) == ["detector_number", "pixel_shape", "x_pixel_offset", "y_pixel_offset", "z_pixel_offset"] &&
      |offs| == |tubeOffsets| * (|strawOffsets| * |pixelOffsets|) &&
      |r[0].1.values.items| == |offs| &&
      (forall i :: 0 <= i < |offs| ==> r[0].1.values.items[i] == Int(firstId + i)) &&
      (forall i :: 0 <= i < |offs| ==> r[2].1.values.items[i] == Num(offs[i].x)) &&
      (forall i :: 0 <= i < |offs| ==> r[3].1.values.items[i] == Num(offs[i].y)) &&
      (forall i :: 0 <= i < |offs| ==> r[4].1.values.items[i] == Num(offs[i].z)) &&
      r[1].1 == Node(Dict(CylinderGeoData(vertices, unit)), Some(ClassAttr("NXcylindrical_geometry")))
  {
    TubeDataLength(tubeOffsets, strawOffsets, pixelOffsets);
  }

  class Tube {
    const alignment: Alignment
    const pointStart: Vec3
    const pointEnd: Vec3
    var xyzOffsets: seq<Vec3>
    var straw: Straw?

    constructor (start: Vec3, end: Vec3, al: Alignment)
      ensures pointStart == start && pointEnd == end && alignment == al
      ensures xyzOffsets == [] && straw == null
    {
      alignment, pointStart, pointEnd := al, start, end;
      xyzOffsets := [];
      straw := null;
    }

    /** set_xyz_offsets */
    method SetXyzOffsets(o: seq<Vec3>)
      modifies this
      ensures xyzOffsets == o && straw == old(straw)
    {
      xyzOffsets := o;
    }

    /** populate_with_uniform_straws(bank_id, base_vec_1, base_vec_2): a new
        straw from the tube start (A) through the point half a straw diameter
        along the normalised base_vec_1 + base_vec_2 (B) to the tube end (C),
        with its straw offsets and its pixels. `ok` is false when the pixel
        cylinder is rejected (the RuntimeError); the straw is then in place
        without pixels. */
    method PopulateWithUniformStraws(bankId: int, baseVec1: Vec3, baseVec2: Vec3, nrm: Vec3 -> real,
                                     sin: real -> real, cos: real -> real, dist: real)
      returns (ok: bool)
      requires nrm(baseVec1) != 0.0 && nrm(Add(baseVec1, baseVec2)) != 0.0
      modifies this
      ensures straw != null && fresh(straw) && straw.bankId == bankId
      ensures straw.pointA == pointStart && straw.pointC == pointEnd
      ensures straw.pointB == Add(pointStart, Scale(Div(Add(baseVec1, baseVec2), nrm(Add(baseVec1, baseVec2))), StrawDiameter / 2.0))
      ensures straw.strawOffsets == Reorder(RawStrawOffsets(alignment, baseVec1, nrm, sin, cos, dist), NumStrawsPerTube, Zero)
      ensures ok <==> straw.Ready()
      ensures ok <==> NewCylinder(FirstPixelVertices(straw.pointA, straw.pointB, straw.pointC)).Ok?
      ensures ok ==> fresh(straw.pixel) && straw.pixel.offsets == PixelOffsets(PixelLength(pointStart, pointEnd))
      ensures ok ==> straw.pixel.vertices == FirstPixelVertices(straw.pointA, straw.pointB, straw.pointC)
      ensures xyzOffsets == old(xyzOffsets)
    {
      var r := Add(baseVec1, baseVec2);
      var rVector := Div(r, nrm(r));
      var pointRadial := Add(pointStart, Scale(rVector, StrawDiameter / 2.0));
      var st := new Straw(pointStart, pointRadial, pointEnd, bankId);
      straw := st;
      st.SetStrawOffsets(alignment, baseVec1, nrm, sin, cos, dist);
      ok := st.PopulateWithPixels();
    }

    /** The geometry data of the tube when detector numbers start at
        firstId: five empty fields without a straw, otherwise the flattened
        pixel layout of every tube offset. */
    function Geometry(firstId: int, lengthUnit: string): (r: seq<(string, Node)>)
      reads this, straw, if straw == null then null else straw.pixel
      requires straw == null || straw.Ready()
      ensures Keys(r) == ["detector_number", "pixel_shape", "x_pixel_offset", "y_pixel_offset", "z_pixel_offset"]
    {
      if straw == null then EmptyGeometry()
      else GeometryData(xyzOffsets, straw.strawOffsets.value, straw.pixel.offsets, straw.pixel.vertices,
                        firstId, lengthUnit)
    }

    /** get_geometry_data: five empty fields without a straw; otherwise the
        flattened pixel data of every tube offset, with detector numbers drawn
        from the pixel counter. */
    method GetGeometryData(counter: IdIterator, lengthUnit: string) returns (r: seq<(string, Node)>)
      requires straw == null || straw.Ready()
      requires counter.iterating
      modifies counter
      ensures counter.iterating
      ensures r == old(Geometry(counter.current, lengthUnit))
      ensures straw == null ==> counter.current == old(counter.current)
      ensures straw != null ==>
        counter.current == old(counter.current) + |TubeData(xyzOffsets, straw.strawOffsets.value, straw.pixel.offsets)|
    {
      if straw == null {
        return EmptyGeometry();
      }
      var offs, ids := FlattenPixels(counter);
      r := GeometryFields(ids, offs, straw.pixel.vertices, lengthUnit);
    }

    /** The loop of get_geometry_data: for every tube offset, the straw data
        at that offset, appended in order. */
    method FlattenPixels(counter: IdIterator) returns (offs: seq<Vec3>, ids: seq<int>)
      requires straw != null && straw.Ready() && counter.iterating
      modifies counter
      ensures offs == TubeData(xyzOffsets, straw.strawOffsets.value, straw.pixel.offsets)
      ensures ids == Consecutive(old(counter.current), |offs|)
      ensures counter.iterating && counter.current == old(counter.current) + |offs|
    {
      var S := straw.strawOffsets.value;
      var P := straw.pixel.offsets;
      var T := xyzOffsets;
      ghost var tubes := TubeBlocks(T, S, P);
      offs, ids := [], [];
      var t := 0;
      while t < |T|
        invariant 0 <= t <= |T|
        invariant straw.Ready() && straw.strawOffsets.value == S && straw.pixel.offsets == P
        invariant offs == Concat(tubes[..t])
        invariant ids == Consecutive(old(counter.current), |offs|)
        invariant counter.iterating && counter.current == old(counter.current) + |offs|
      {
        var o, n := straw.GetStrawData(T[t], counter);
        assert offs + o == Concat(tubes[..t + 1]) by {
          assert o == tubes[t];
          ConcatPrefixStep(tubes, t);
        }
        ConsecutiveAppend(old(counter.current), |offs|, |o|);
        offs := offs + o;
        ids := ids + n;
        t := t + 1;
      }
      assert tubes[..t] == tubes;
    }
  }

  /** The reordered straw offsets of set_straw_offsets are a rearrangement
      of the raw ones: seven offsets, each as often as before. */
  lemma StrawOffsetsPermutation(al: Alignment, baseVec1: Vec3, nrm: Vec3 -> real,
                                sin: real -> real, cos: real -> real, dist: real)
    requires nrm(baseVec1) != 0.0
    ensures var raw := RawStrawOffsets(al, baseVec1, nrm, sin, cos, dist);
      var sorted := Reorder(raw, NumStrawsPerTube, Zero);
      sorted.Some? && |sorted.value| == NumStrawsPerTube &&
      multiset(sorted.value) == multiset(raw)
  {
    var raw := RawStrawOffsets(al, baseVec1, nrm, sin, cos, dist);
    ReorderOddIsPermutation(raw, Zero);
  }

  /** The order of the reordered straw offsets: the outer straws 4, 5, 6, then
      the centre straw (the origin) at index 3, then outer straws 3, 2, 1. */
  lemma StrawOffsetsOrder(al: Alignment, baseVec1: Vec3, nrm: Vec3 -> real,
                          sin: real -> real, cos: real -> real, dist: real)
    requires nrm(baseVec1) != 0.0
    ensures var raw := RawStrawOffsets(al, baseVec1, nrm, sin, cos, dist);
      Reorder(raw, NumStrawsPerTube, Zero) == Some([raw[4], raw[5], raw[6], raw[0], raw[3], raw[2], raw[1]]) &&
      Reorder(raw, NumStrawsPerTube, Zero).value[3] == Zero
  {
    var raw := RawStrawOffsets(al, baseVec1, nrm, sin, cos, dist);
    ReorderSeven(raw, Zero);
  }
}
