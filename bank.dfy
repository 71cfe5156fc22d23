/** A LoKI detector bank (examples/loki/LOKI_geometry.py, class Bank): the
    corner points of its two faces moved to the bank's own origin, the checks
    that the corners describe a feasible bank, the grid of tube positions, and
    the NeXus description of the bank. */
module Banks {
  import opened Util
  import opened Vectors
  import opened Ids
  import opened NexusInfo
  import opened StrawReorder
  import opened LokiConfig
  import opened Geometry

  // ---------------------------------------------------------------------
  // Moving the corners to the bank origin
  // ---------------------------------------------------------------------

  /** Every point scaled by SCALE_FACTOR and then moved by -translation. */
  function Transformed(ps: seq<Vec3>, scale: real, translation: Vec3): (r: seq<Vec3>)
    ensures |r| == |ps|
    ensures forall i :: 0 <= i < |ps| ==> r[i] == Sub(Scale(ps[i], scale), translation)
  {
    seq(|ps|, i requires 0 <= i < |ps| => Sub(Scale(ps[i], scale), translation))
  }

  /** _set_bank_geometry: rewrites the caller's corner lists in place. */
  method SetBankGeometry(a: array<Vec3>, b: array<Vec3>, scale: real, translation: Vec3)
    requires a.Length == 4 && b.Length == 4 && a != b
    modifies a, b
    ensures a[..] == Transformed(old(a[..]), scale, translation)
    ensures b[..] == Transformed(old(b[..]), scale, translation)
  {
    for i := 0 to 4
      invariant forall k :: 0 <= k < i ==> a[k] == Sub(Scale(old(a[k]), scale), translation)
      invariant forall k :: 0 <= k < i ==> b[k] == Sub(Scale(old(b[k]), scale), translation)
      invariant forall k :: i <= k < 4 ==> a[k] == old(a[k]) && b[k] == old(b[k])
    {
      a[i] := Sub(Scale(a[i], scale), translation);
      b[i] := Sub(Scale(b[i], scale), translation);
    }
  }

  /** Moving by the scaled first corner puts that corner at the origin. */
  lemma FirstCornerAtOrigin(a: seq<Vec3>, scale: real)
    requires |a| >= 1
    ensures Transformed(a, scale, Scale(a[0], scale))[0] == Zero
  {
  }

  /** The move keeps the differences between corresponding corners, up to the
      scale. */
  lemma TransformedDifference(a: seq<Vec3>, b: seq<Vec3>, scale: real, t: Vec3, i: nat)
    requires i < |a| && i < |b|
    ensures Sub(Transformed(a, scale, t)[i], Transformed(b, scale, t)[i]) == Scale(Sub(a[i], b[i]), scale)
  {
    var d := Sub(Transformed(a, scale, t)[i], Transformed(b, scale, t)[i]);
    assert d.x == (a[i].x - b[i].x) * scale;
    assert d.y == (a[i].y - b[i].y) * scale;
    assert d.z == (a[i].z - b[i].z) * scale;
  }

  // ---------------------------------------------------------------------
  // Feasibility checks
  // ---------------------------------------------------------------------

  datatype BankError =
    | NotCuboid              // ValueError of _is_bank_cuboid
    | TubesTooClose          // ValueError of _check_tube_center_distance
    | CornersNotInPlane      // RuntimeError of _grid_corners_in_plane
    | SingleTubeColumn       // stands in for base_vec_2 /= 0 (tube_width = 1), where numpy goes on with inf/nan
    | UnreasonableAlignment  // ValueError of _get_detector_bank_orientation

  /** _is_bank_cuboid: all four tube lengths |A[i] - B[i]| are one value. */
  predicate IsCuboid(a: seq<Vec3>, b: seq<Vec3>, nrm: Vec3 -> real)
    requires |a| == 4 && |b| == 4
  {
    forall i :: 0 <= i < 4 ==> nrm(Sub(a[i], b[i])) == nrm(Sub(a[0], b[0]))
  }

  /** The rounded tube centre distance of _check_tube_center_distance:
      |A[0] - A[1]| / (TUBE_DEPTH - 1), rounded to FRACTIONAL_PRECISION digits
      by `round2`. */
  function TubeCenterDistance(a: seq<Vec3>, nrm: Vec3 -> real, round2: real -> real): real
    requires |a| >= 2
  {
    round2(nrm(Sub(a[0], a[1])) / ((TubeDepth - 1) as real))
  }

  /** All points have the same coordinate on the given axis. */
  predicate SharedAxis(ps: seq<Vec3>, axis: nat)
    requires |ps| >= 1 && axis < 3
  {
    forall i :: 0 <= i < |ps| ==> Component(ps[i], axis) == Component(ps[0], axis)
  }

  /** _grid_corners_in_plane: some axis has one value for all corners. */
  predicate InPlane(ps: seq<Vec3>)
    requires |ps| >= 1
  {
    SharedAxis(ps, 0) || SharedAxis(ps, 1) || SharedAxis(ps, 2)
  }

  /** _get_detector_bank_orientation: the tube direction A[0] - B[0] is
      checked on x first, then y; z alone is no alignment. */
  function Orientation(a0: Vec3, b0: Vec3): (r: Result<Alignment, BankError>)
    ensures r == Ok(Horizontal) <==> Sub(a0, b0).x != 0.0
    ensures r == Ok(Vertical) <==> Sub(a0, b0).x == 0.0 && Sub(a0, b0).y != 0.0
    ensures r.Err? <==> Sub(a0, b0).x == 0.0 && Sub(a0, b0).y == 0.0
    ensures r.Err? ==> r.error == UnreasonableAlignment
  {
    var direction := Sub(a0, b0);
    if Dot(UnitX, direction) != 0.0 then Ok(Horizontal)
    else if Dot(UnitY, direction) != 0.0 then Ok(Vertical)
    else Err(UnreasonableAlignment)
  }

  /** int(num_tubes / TUBE_DEPTH) */
  function TubeWidth(numTubes: nat): (w: nat)
    ensures w * TubeDepth <= numTubes < (w + 1) * TubeDepth
  {
    numTubes / TubeDepth
  }

  /** The checks of Bank.__init__ on the moved corners, in the order the
      constructor runs them; the first failing one decides the error. The
      source raises for the cuboid, spacing, plane and orientation checks;
      SingleTubeColumn marks the tube width of 1, where the source divides
      by zero and goes on with a non-finite base_vec_2. */
  function CheckBank(a: seq<Vec3>, b: seq<Vec3>, numTubes: nat, nrm: Vec3 -> real, round2: real -> real)
    : (r: Result<Alignment, BankError>)
    requires |a| == 4 && |b| == 4
    ensures r == Err(NotCuboid) <==> !IsCuboid(a, b, nrm)
    ensures r == Err(TubesTooClose) <==> IsCuboid(a, b, nrm) && TubeCenterDistance(a, nrm, round2) < ImagingTubeD
    ensures r.Ok? <==>
      IsCuboid(a, b, nrm) && TubeCenterDistance(a, nrm, round2) >= ImagingTubeD && InPlane(a) &&
      TubeWidth(numTubes) != 1 && Orientation(a[0], b[0]).Ok?
    ensures r.Ok? ==> r == Orientation(a[0], b[0])
  {
    if !IsCuboid(a, b, nrm) then Err(NotCuboid)
    else if TubeCenterDistance(a, nrm, round2) < ImagingTubeD then Err(TubesTooClose)
    else if !InPlane(a) then Err(CornersNotInPlane)
    else if TubeWidth(numTubes) == 1 then Err(SingleTubeColumn)
    else Orientation(a[0], b[0])
  }

  /** Corresponding corners that all differ by one vector form a cuboid,
      whatever the scale and the norm. */
  lemma ParallelFacesAreCuboid(a: seq<Vec3>, b: seq<Vec3>, scale: real, t: Vec3, nrm: Vec3 -> real)
    requires |a| == 4 && |b| == 4
    requires forall i :: 0 <= i < 4 ==> Sub(a[i], b[i]) == Sub(a[0], b[0])
    ensures IsCuboid(Transformed(a, scale, t), Transformed(b, scale, t), nrm)
  {
    forall i | 0 <= i < 4
      ensures nrm(Sub(Transformed(a, scale, t)[i], Transformed(b, scale, t)[i]))
           == nrm(Sub(Transformed(a, scale, t)[0], Transformed(b, scale, t)[0]))
    {
      TransformedDifference(a, b, scale, t, i);
      TransformedDifference(a, b, scale, t, 0);
    }
  }

  /** Scaling and moving keeps a shared coordinate shared. */
  lemma TransformKeepsSharedAxis(ps: seq<Vec3>, scale: real, t: Vec3, axis: nat)
    requires |ps| >= 1 && axis < 3 && SharedAxis(ps, axis)
    ensures SharedAxis(Transformed(ps, scale, t), axis)
  {
    var r := Transformed(ps, scale, t);
    forall i | 0 <= i < |ps| ensures Component(r[i], axis) == Component(r[0], axis) {
      assert Component(ps[i], axis) == Component(ps[0], axis);
    }
  }

  /** With a non-zero scale, the alignment of the moved corners is the
      alignment of the original ones. */
  lemma TransformKeepsOrientation(a: seq<Vec3>, b: seq<Vec3>, scale: real, t: Vec3)
    requires |a| >= 1 && |b| >= 1 && scale != 0.0
    ensures Orientation(Transformed(a, scale, t)[0], Transformed(b, scale, t)[0]) == Orientation(a[0], b[0])
  {
    TransformedDifference(a, b, scale, t, 0);
    var d := Sub(a[0], b[0]);
    NonZeroProduct(d.x, scale);
    NonZeroProduct(d.y, scale);
  }

  lemma NonZeroProduct(x: real, s: real)
    requires s != 0.0
    ensures x * s == 0.0 <==> x == 0.0
  {
    if x != 0.0 {
      if x > 0.0 && s > 0.0 { assert x * s > 0.0; }
      else if x > 0.0 { assert x * s < 0.0; }
      else if s > 0.0 { assert x * s < 0.0; }
      else { assert x * s > 0.0; }
    }
  }

  // ---------------------------------------------------------------------
  // Tube grid
  // ---------------------------------------------------------------------

  /** Row x_i of the tube grid: base_vec_1 * x_i + base_vec_2 * y_i for each
      column y_i. */
  function GridRow(b1: Vec3, b2: Vec3, x: nat, width: nat): (r: seq<Vec3>)
    ensures |r| == width
    ensures forall y :: 0 <= y < width ==> r[y] == Add(Scale(b1, x as real), Scale(b2, y as real))
  {
    seq(width, y requires 0 <= y < width => Add(Scale(b1, x as real), Scale(b2, y as real)))
  }

  function GridRows(b1: Vec3, b2: Vec3, depth: nat, width: nat): (r: seq<seq<Vec3>>)
    ensures |r| == depth
    ensures forall x :: 0 <= x < depth ==> r[x] == GridRow(b1, b2, x, width)
  {
    seq(depth, x requires 0 <= x < depth => GridRow(b1, b2, x, width))
  }

  /** The tube offsets of _get_tube_point_offsets, row after row. */
  function TubeGrid(b1: Vec3, b2: Vec3, depth: nat, width: nat): seq<Vec3> {
    Concat(GridRows(b1, b2, depth, width))
  }

  /** depth * width offsets. */
  lemma TubeGridLength(b1: Vec3, b2: Vec3, depth: nat, width: nat)
    ensures |TubeGrid(b1, b2, depth, width)| == depth * width
  {
    ConcatLength(GridRows(b1, b2, depth, width), width);
  }

  /** Entry x * width + y is base_vec_1 * x + base_vec_2 * y (row x,
      column y). */
  lemma TubeGridAt(b1: Vec3, b2: Vec3, depth: nat, width: nat, x: nat, y: nat)
    requires x < depth && y < width
    ensures x * width + y < |TubeGrid(b1, b2, depth, width)|
    ensures TubeGrid(b1, b2, depth, width)[x * width + y] == Add(Scale(b1, x as real), Scale(b2, y as real))
  {
    ConcatAt(GridRows(b1, b2, depth, width), width, x, y);
  }

  /** The first tube of the grid sits at the bank origin. */
  lemma TubeGridStartsAtOrigin(b1: Vec3, b2: Vec3, depth: nat, width: nat)
    requires depth > 0 && width > 0
    ensures TubeGrid(b1, b2, depth, width)[0] == Zero
  {
    TubeGridAt(b1, b2, depth, width, 0, 0);
    ScaleByZero(b1);
    ScaleByZero(b2);
  }

  // ---------------------------------------------------------------------
  // Bank
  // ---------------------------------------------------------------------

  datatype BuildError =
    | UndefinedDirection     // stands in for a division by a zero norm, where numpy goes on with nan
    | PixelCylinderRejected  // RuntimeError of the pixel Cylinder

  class Bank {
    const bankId: int
    const numTubes: nat
    /** The bank position: the scaled first corner plus the scaled offset. */
    const bankTranslation: Vec3
    /** The corners after _set_bank_geometry. */
    const cornersA: seq<Vec3>
    const cornersB: seq<Vec3>
    const tubeDepth: nat
    const tubeWidth: nat
    const baseVec1: Vec3
    const baseVec2: Vec3
    const alignment: Alignment
    const detectorTube: Tube
    /** None while the NeXus dictionary is still the empty {}. */
    var nexusDict: Option<Node>

    /** Four corners per face; the detector tube runs from the first corner
        of face A to the first corner of face B with the bank's alignment. */
    predicate Valid() {
      |cornersA| == 4 && |cornersB| == 4 &&
      detectorTube.alignment == alignment &&
      detectorTube.pointStart == cornersA[0] && detectorTube.pointEnd == cornersB[0]
    }

    /** The state Bank.__init__ ends in once every check has passed. */
    constructor (a: seq<Vec3>, b: seq<Vec3>, tubes: nat, translation: Vec3, id: int, al: Alignment)
      requires |a| == 4 && |b| == 4 && TubeWidth(tubes) != 1
      ensures bankId == id && numTubes == tubes && bankTranslation == translation
      ensures cornersA == a && cornersB == b && alignment == al
      ensures tubeDepth == TubeDepth && tubeWidth == TubeWidth(tubes)
      ensures baseVec1 == Div(a[1], (TubeDepth - 1) as real)
      ensures baseVec2 == Div(a[2], (TubeWidth(tubes) - 1) as real)
      ensures fresh(detectorTube)
      ensures detectorTube.pointStart == a[0] && detectorTube.pointEnd == b[0] && detectorTube.alignment == al
      ensures detectorTube.xyzOffsets == [] && detectorTube.straw == null
      ensures nexusDict == None
      ensures Valid()
    {
      bankId, numTubes, bankTranslation := id, tubes, translation;
      cornersA, cornersB, alignment := a, b, al;
      tubeDepth, tubeWidth := TubeDepth, TubeWidth(tubes);
      baseVec1 := Div(a[1], (TubeDepth - 1) as real);
      baseVec2 := Div(a[2], (TubeWidth(tubes) - 1) as real);
      detectorTube := new Tube(a[0], b[0], al);
      nexusDict := None;
    }

    /** Bank(bank_geo, bank_id): moves the caller's corner lists (even when a
        check then fails), runs the checks and, when all pass, builds the
        bank with its single detector tube. */
    static method New(bankA: array<Vec3>, bankB: array<Vec3>, numTubes: nat, bankOffset: Vec3, bankId: int,
                      scale: real, nrm: Vec3 -> real, round2: real -> real)
      returns (r: Result<Bank, BankError>)
      requires bankA.Length == 4 && bankB.Length == 4 && bankA != bankB
      modifies bankA, bankB
      ensures bankA[..] == Transformed(old(bankA[..]), scale, Scale(old(bankA[0]), scale))
      ensures bankB[..] == Transformed(old(bankB[..]), scale, Scale(old(bankA[0]), scale))
      ensures r.Ok? <==> CheckBank(bankA[..], bankB[..], numTubes, nrm, round2).Ok?
      ensures r.Err? ==> Err(r.error) == CheckBank(bankA[..], bankB[..], numTubes, nrm, round2)
      ensures r.Ok? ==> fresh(r.value) && fresh(r.value.detectorTube) && r.value.Valid()
      ensures r.Ok? ==> r.value.cornersA == bankA[..] && r.value.cornersB == bankB[..]
      ensures r.Ok? ==> r.value.bankTranslation == Add(Scale(old(bankA[0]), scale), Scale(bankOffset, scale))
      ensures r.Ok? ==> Ok(r.value.alignment) == CheckBank(bankA[..], bankB[..], numTubes, nrm, round2)
      ensures r.Ok? ==> r.value.bankId == bankId && r.value.numTubes == numTubes && r.value.nexusDict == None
      ensures r.Ok? ==> r.value.tubeDepth == TubeDepth && r.value.tubeWidth == TubeWidth(numTubes)
      ensures r.Ok? ==> r.value.baseVec1 == Div(bankA[1], (TubeDepth - 1) as real)
      ensures r.Ok? ==> r.value.baseVec2 == Div(bankA[2], (TubeWidth(numTubes) - 1) as real)
      ensures r.Ok? ==> r.value.detectorTube.pointStart == bankA[0] && r.value.detectorTube.pointEnd == bankB[0]
      ensures r.Ok? ==> r.value.detectorTube.alignment == r.value.alignment
      ensures r.Ok? ==> r.value.detectorTube.xyzOffsets == [] && r.value.detectorTube.straw == null
    {
      var offset := Scale(bankOffset, scale);
      var translation := Scale(bankA[0], scale);
      SetBankGeometry(bankA, bankB, scale, translation);
      translation := Add(translation, offset);
      var check := CheckBank(bankA[..], bankB[..], numTubes, nrm, round2);
      if check.Err? {
        return Err(check.error);
      }
      var bank := new Bank(bankA[..], bankB[..], numTubes, translation, bankId, check.value);
      r := Ok(bank);
    }

    /** _get_tube_point_offsets */
    method GetTubePointOffsets() returns (offs: seq<Vec3>)
      ensures offs == TubeGrid(baseVec1, baseVec2, tubeDepth, tubeWidth)
    {
      ghost var rows := GridRows(baseVec1, baseVec2, tubeDepth, tubeWidth);
      offs := [];
      var x := 0;
      while x < tubeDepth
        invariant 0 <= x <= tubeDepth
        invariant offs == Concat(rows[..x])
      {
        ghost var before := offs;
        var y := 0;
        while y < tubeWidth
          invariant 0 <= y <= tubeWidth
          invariant offs == before + rows[x][..y]
        {
          offs := offs + [Add(Scale(baseVec1, x as real), Scale(baseVec2, y as real))];
          y := y + 1;
        }
        assert rows[x][..y] == rows[x];
        ConcatSnoc(rows[..x], rows[x]);
        assert rows[..x + 1] == rows[..x] + [rows[x]];
        x := x + 1;
      }
      assert rows[..x] == rows;
    }

    /** build_detector_bank: the tube gets the grid offsets and is filled with
        straws and pixels. The source divides by the norms of base_vec_1 and
        base_vec_1 + base_vec_2; where either norm is zero numpy continues
        with nan offsets, and the model stops with UndefinedDirection. */
    method BuildDetectorBank(nrm: Vec3 -> real, sin: real -> real, cos: real -> real, dist: real)
      returns (r: Result<Tube, BuildError>)
      requires Valid()
      modifies detectorTube
      ensures detectorTube.xyzOffsets == TubeGrid(baseVec1, baseVec2, tubeDepth, tubeWidth)
      ensures nrm(baseVec1) == 0.0 || nrm(Add(baseVec1, baseVec2)) == 0.0 ==>
        r == Err(UndefinedDirection) && detectorTube.straw == old(detectorTube.straw)
      ensures r == Err(UndefinedDirection) <==> nrm(baseVec1) == 0.0 || nrm(Add(baseVec1, baseVec2)) == 0.0
      ensures r.Ok? <==>
        nrm(baseVec1) != 0.0 && nrm(Add(baseVec1, baseVec2)) != 0.0 && detectorTube.straw != null &&
        NewCylinder(FirstPixelVertices(detectorTube.straw.pointA, detectorTube.straw.pointB,
                                       detectorTube.straw.pointC)).Ok?
      ensures nrm(baseVec1) != 0.0 && nrm(Add(baseVec1, baseVec2)) != 0.0 ==>
        detectorTube.straw != null && fresh(detectorTube.straw) && detectorTube.straw.bankId == bankId &&
        detectorTube.straw.pointA == cornersA[0] && detectorTube.straw.pointC == cornersB[0] &&
        detectorTube.straw.pointB ==
          Add(cornersA[0], Scale(Div(Add(baseVec1, baseVec2), nrm(Add(baseVec1, baseVec2))), StrawDiameter / 2.0))
      ensures r.Ok? ==> r.value == detectorTube
      ensures r.Ok? ==> detectorTube.straw != null && fresh(detectorTube.straw) && detectorTube.straw.Ready()
      ensures r.Ok? ==>
        detectorTube.straw.strawOffsets ==
          Reorder(RawStrawOffsets(alignment, baseVec1, nrm, sin, cos, dist), NumStrawsPerTube, Zero)
      ensures r.Ok? ==>
        detectorTube.straw.pixel.offsets == PixelOffsets(PixelLength(cornersA[0], cornersB[0]))
      ensures r.Err? && r.error == PixelCylinderRejected ==>
        detectorTube.straw != null && fresh(detectorTube.straw) &&
        NewCylinder(FirstPixelVertices(detectorTube.straw.pointA, detectorTube.straw.pointB,
                                       detectorTube.straw.pointC)).Err?
    {
      var offs := GetTubePointOffsets();
      detectorTube.SetXyzOffsets(offs);
      if nrm(baseVec1) == 0.0 || nrm(Add(baseVec1, baseVec2)) == 0.0 {
        return Err(UndefinedDirection);
      }
      var ok := detectorTube.PopulateWithUniformStraws(bankId, baseVec1, baseVec2, nrm, sin, cos, dist);
      if ok {
        r := Ok(detectorTube);
      } else {
        r := Err(PixelCylinderRejected);
      }
    }

    /** compound_detector_geometry(transform_path, transform_as_nxlog): the
        tube's geometry data with the bank's translation, as an NXdetector
        node, which also becomes the bank's NeXus dictionary. The caller
        supplies the norm of the translation. */
    method CompoundDetectorGeometry(pixelIds: IdIterator, transformIds: IdIterator, transformPath: string,
                                    asNxLog: bool, translationNorm: real, lengthUnit: string)
      returns (n: Node)
      requires detectorTube.straw == null || detectorTube.straw.Ready()
      requires pixelIds.iterating && transformIds.iterating && pixelIds != transformIds
      requires NormOf(translationNorm, bankTranslation)
      modifies this, pixelIds, transformIds
      ensures nexusDict == Some(n)
      ensures n == old(DetectorNodeOf(pixelIds.current, transformIds.current, transformPath, asNxLog,
                                      translationNorm, lengthUnit))
      ensures pixelIds.iterating && transformIds.iterating
      ensures transformIds.current == old(transformIds.current) + 1
      ensures detectorTube.straw == null ==> pixelIds.current == old(pixelIds.current)
      ensures detectorTube.straw != null ==>
        pixelIds.current == old(pixelIds.current) +
          |TubeData(detectorTube.xyzOffsets, detectorTube.straw.strawOffsets.value, detectorTube.straw.pixel.offsets)|
    {
      n := DetectorNode(pixelIds, transformIds, transformPath, asNxLog, translationNorm, lengthUnit);
      SetNexusDict(n);
    }

    /** Stores the node as the bank's NeXus dictionary. */
    method SetNexusDict(n: Node)
      modifies this
      ensures nexusDict == Some(n)
    {
      nexusDict := Some(n);
    }

    /** The node compound_detector_geometry builds from the tube's geometry
        data with detector numbers from firstPixelId and transformation
        transId. */
    function DetectorNodeOf(firstPixelId: int, transId: int, transformPath: string, asNxLog: bool,
                            translationNorm: real, lengthUnit: string): Node
      reads detectorTube, detectorTube.straw, if detectorTube.straw == null then null else detectorTube.straw.pixel
      requires detectorTube.straw == null || detectorTube.straw.Ready()
      requires NormOf(translationNorm, bankTranslation)
    {
      ComponentGeometry(Detector, detectorTube.Geometry(firstPixelId, lengthUnit), bankTranslation,
                        translationNorm, transformPath, "", asNxLog, transId, lengthUnit)
    }

    /** The node compound_detector_geometry builds, before it is stored. */
    method DetectorNode(pixelIds: IdIterator, transformIds: IdIterator, transformPath: string,
                        asNxLog: bool, translationNorm: real, lengthUnit: string)
      returns (n: Node)
      requires detectorTube.straw == null || detectorTube.straw.Ready()
      requires pixelIds.iterating && transformIds.iterating && pixelIds != transformIds
      requires NormOf(translationNorm, bankTranslation)
      modifies pixelIds, transformIds
      ensures n == old(DetectorNodeOf(pixelIds.current, transformIds.current, transformPath, asNxLog,
                                      translationNorm, lengthUnit))
      ensures pixelIds.iterating && transformIds.iterating
      ensures transformIds.current == old(transformIds.current) + 1
      ensures detectorTube.straw == null ==> pixelIds.current == old(pixelIds.current)
      ensures detectorTube.straw != null ==>
        pixelIds.current == old(pixelIds.current) +
          |TubeData(detectorTube.xyzOffsets, detectorTube.straw.strawOffsets.value, detectorTube.straw.pixel.offsets)|
    {
      var geo := detectorTube.GetGeometryData(pixelIds, lengthUnit);
      var transId := transformIds.Next();
      n := ComponentGeometry(Detector, geo, bankTranslation, translationNorm, transformPath, "", asNxLog,
                             transId.value, lengthUnit);
    }

    /** add_data(det_data, time_of_flight, time_unit): `data` and
        `time_of_flight` NXlog groups added to the NeXus dictionary. Before
        compound_detector_geometry the dictionary is empty and the source
        raises KeyError: `ok` is false and nothing changes. */
    method AddDetectorData(detData: Value, timeOfFlight: Value, timeUnit: string) returns (ok: bool)
      modifies this
      ensures ok <==> old(nexusDict).Some? && old(nexusDict).value.values.Dict?
      ensures ok ==> nexusDict == Some(AddData(old(nexusDict).value, detData, Some((timeOfFlight, timeUnit))))
      ensures !ok ==> nexusDict == old(nexusDict)
    {
      if nexusDict.None? || !nexusDict.value.values.Dict? {
        return false;
      }
      nexusDict := Some(AddData(nexusDict.value, detData, Some((timeOfFlight, timeUnit))));
      ok := true;
    }

    /** get_number_of_pixels */
    function NumberOfPixels(): nat {
      PixelCount(numTubes)
    }
  }

  /** num_tubes * STRAW_RESOLUTION * NUM_STRAWS_PER_TUBE */
  function PixelCount(numTubes: nat): nat {
    numTubes * StrawResolution * NumStrawsPerTube
  }

  /** When TUBE_DEPTH divides the tube count, the reported pixel count is
      the number of pixels the flattened geometry holds: depth * width tube
      offsets, seven straws per tube, STRAW_RESOLUTION pixels per straw. */
  lemma PixelCountMatchesLayout(numTubes: nat, tubeOffsets: seq<Vec3>, strawOffsets: seq<Vec3>,
                                pixelOffsets: seq<Vec3>)
    requires numTubes % TubeDepth == 0
    requires |tubeOffsets| == TubeDepth * TubeWidth(numTubes)
    requires |strawOffsets| == NumStrawsPerTube && |pixelOffsets| == StrawResolution
    ensures PixelCount(numTubes) == |TubeData(tubeOffsets, strawOffsets, pixelOffsets)|
  {
    TubeDataLength(tubeOffsets, strawOffsets, pixelOffsets);
    assert TubeDepth * TubeWidth(numTubes) == numTubes;
  }

  /** Otherwise the reported count is larger: the grid only holds
      TUBE_DEPTH * int(num_tubes / TUBE_DEPTH) tubes. */
  lemma PixelCountOvercounts(numTubes: nat)
    requires numTubes % TubeDepth != 0
    ensures PixelCount(numTubes) > TubeDepth * TubeWidth(numTubes) * StrawResolution * NumStrawsPerTube
  {
    assert TubeDepth * TubeWidth(numTubes) < numTubes;
  }
}
