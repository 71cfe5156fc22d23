/** The nine loki_banks records pass the feasibility checks of Bank: each
    face lies in a coordinate plane, every tube (A[i] to B[i]) is the same
    vector, the tube direction gives an alignment, and the tube count fills
    whole rows of TUBE_DEPTH tubes. */
module LokiBanksValid {
  import opened Util
  import opened Vectors
  import opened LokiConfig
  import opened Geometry
  import opened Banks

  /** The coordinate both faces of bank `id` keep fixed: x for the banks
      left and right of the beam, y for those above and below. */
  function PlaneAxis(id: nat): (axis: nat)
    requires id < |LokiBanks|
    ensures axis < 3
  {
    if id == 2 || id == 4 || id == 6 || id == 8 then 1 else 0
  }

  /** A[i] - B[i] for every corner i of bank `id`. */
  function TubeVector(id: nat): Vec3
    requires id < |LokiBanks|
  {
    if id == 0 || id == 1 || id == 3 then Vec3(-1000.0, 0.0, 0.0)
    else if id == 5 || id == 7 then Vec3(-1200.0, 0.0, 0.0)
    else if id == 2 || id == 4 then Vec3(0.0, -500.0, 0.0)
    else Vec3(0.0, -1200.0, 0.0)
  }

  /** The alignment a bank with these tubes gets. */
  function ExpectedAlignment(id: nat): Alignment
    requires id < |LokiBanks|
  {
    if PlaneAxis(id) == 0 then Horizontal else Vertical
  }

  /** What a record promises, given the coordinate its faces keep fixed and
      the vector every tube spans: four corners per face, both faces in the
      plane, all tubes equal, whole rows of TUBE_DEPTH tubes and more than
      one column, and a first-to-second corner distance of about 81. */
  predicate RecordFacts(r: BankRecord, axis: nat, tube: Vec3)
    requires axis < 3
  {
    |r.a| == 4 && |r.b| == 4 &&
    SharedAxis(r.a, axis) && SharedAxis(r.b, axis) &&
    (forall i :: 0 <= i < 4 ==> Sub(r.a[i], r.b[i]) == tube) &&
    r.numTubes % TubeDepth == 0 && TubeWidth(r.numTubes) > 1 &&
    6560.0 <= NormSq(Sub(r.a[0], r.a[1])) <= 6562.0
  }

  lemma Bank0Facts()
    ensures RecordFacts(LokiBanks[0], 0, Vec3(-1000.0, 0.0, 0.0))
  {
  }

  lemma Bank1Facts()
    ensures RecordFacts(LokiBanks[1], 0, Vec3(-1000.0, 0.0, 0.0))
  {
  }

  lemma Bank2Facts()
    ensures RecordFacts(LokiBanks[2], 1, Vec3(0.0, -500.0, 0.0))
  {
  }

  lemma Bank3Facts()
    ensures RecordFacts(LokiBanks[3], 0, Vec3(-1000.0, 0.0, 0.0))
  {
  }

  lemma Bank4Facts()
    ensures RecordFacts(LokiBanks[4], 1, Vec3(0.0, -500.0, 0.0))
  {
  }

  lemma Bank5Facts()
    ensures RecordFacts(LokiBanks[5], 0, Vec3(-1200.0, 0.0, 0.0))
  {
  }

  lemma Bank6Facts()
    ensures RecordFacts(LokiBanks[6], 1, Vec3(0.0, -1200.0, 0.0))
  {
  }

  lemma Bank7Facts()
    ensures RecordFacts(LokiBanks[7], 0, Vec3(-1200.0, 0.0, 0.0))
  {
  }

  lemma Bank8Facts()
    ensures RecordFacts(LokiBanks[8], 1, Vec3(0.0, -1200.0, 0.0))
  {
  }

  /** Every record of loki_banks has the facts above, with the plane axis
      and tube vector of its bank. */
  lemma RecordShape(id: nat)
    requires id < |LokiBanks|
    ensures RecordFacts(LokiBanks[id], PlaneAxis(id), TubeVector(id))
  {
    if id == 0 {
      Bank0Facts();
    } else if id == 1 {
      Bank1Facts();
    } else if id == 2 {
      Bank2Facts();
    } else if id == 3 {
      Bank3Facts();
    } else if id == 4 {
      Bank4Facts();
    } else if id == 5 {
      Bank5Facts();
    } else if id == 6 {
      Bank6Facts();
    } else if id == 7 {
      Bank7Facts();
    } else {
      Bank8Facts();
    }
  }

  /** The tube direction of every record gives the expected alignment. */
  lemma RecordAlignment(id: nat)
    requires id < |LokiBanks|
    ensures |LokiBanks[id].a| >= 1 && |LokiBanks[id].b| >= 1
    ensures Orientation(LokiBanks[id].a[0], LokiBanks[id].b[0]) == Ok(ExpectedAlignment(id))
  {
    RecordShape(id);
    AlignmentFromTube(LokiBanks[id], PlaneAxis(id), TubeVector(id), ExpectedAlignment(id));
  }

  lemma AlignmentFromTube(r: BankRecord, axis: nat, tube: Vec3, al: Alignment)
    requires axis < 3 && RecordFacts(r, axis, tube)
    requires al == Horizontal ==> tube.x != 0.0
    requires al == Vertical ==> tube.x == 0.0 && tube.y != 0.0
    ensures Orientation(r.a[0], r.b[0]) == Ok(al)
  {
    assert Sub(r.a[0], r.b[0]) == tube;
  }

  /** round(x, 2): a rounding to hundredths is never more than half a
      hundredth away. */
  ghost predicate RoundsToHundredths(round2: real -> real) {
    forall x :: -0.005 <= round2(x) - x <= 0.005
  }

  /** Scaling a vector by s scales its squared length by s * s. */
  lemma NormSqScale(v: Vec3, s: real)
    ensures NormSq(Scale(v, s)) == s * s * NormSq(v)
  {
    assert Scale(v, s).x * Scale(v, s).x == s * s * (v.x * v.x);
    assert Scale(v, s).y * Scale(v, s).y == s * s * (v.y * v.y);
    assert Scale(v, s).z * Scale(v, s).z == s * s * (v.z * v.z);
  }

  /** A non-negative number whose square is at least k * k is at least k. */
  lemma SqrtLowerBound(n: real, k: real)
    requires n >= 0.0 && k >= 0.0 && n * n >= k * k
    ensures n >= k
  {
    if n < k {
      PositiveProduct(k - n, k + n);
    }
  }

  lemma PositiveProduct(a: real, b: real)
    requires a > 0.0 && b > 0.0
    ensures a * b > 0.0
  {
  }

  lemma AtLeastOneSquare(s: real)
    requires s >= 1.0 || s <= -1.0
    ensures s * s >= 1.0
  {
    if s >= 1.0 {
      assert s * s >= s * 1.0;
    } else {
      assert s * s >= (-s) * 1.0;
    }
  }

  lemma ProductAtLeast(a: real, b: real, c: real)
    requires a >= 1.0 && b >= c >= 0.0
    ensures a * b >= c
  {
    assert a * b >= 1.0 * b;
  }

  /** The corners as _set_bank_geometry leaves them: scaled and moved so
      that the first corner of face A is the origin. */
  function Moved(ps: seq<Vec3>, a0: Vec3, scale: real): (r: seq<Vec3>)
    ensures |r| == |ps|
  {
    Transformed(ps, scale, Scale(a0, scale))
  }

  /** The vector between the first two corners of face A, whose length
      the spacing check measures. */
  function FirstGap(a: seq<Vec3>): Vec3
    requires |a| >= 2
  {
    Sub(a[0], a[1])
  }

  /** Moving scales the first gap. */
  lemma MovedGap(a: seq<Vec3>, scale: real)
    requires |a| >= 2
    ensures FirstGap(Moved(a, a[0], scale)) == Scale(FirstGap(a), scale)
  {
    var m := Moved(a, a[0], scale);
    assert m[0] == Sub(Scale(a[0], scale), Scale(a[0], scale));
    assert m[1] == Sub(Scale(a[1], scale), Scale(a[0], scale));
  }

  /** With a scale factor of magnitude at least one, a face whose first two
      corners are at least 78 apart passes the spacing check: the rounded
      tube centre distance is at least 26 - 0.005. */
  lemma SpacingFromGap(a: seq<Vec3>, scale: real, nrm: Vec3 -> real, round2: real -> real)
    requires |a| >= 2 && NormSq(FirstGap(a)) >= 78.0 * 78.0
    requires scale >= 1.0 || scale <= -1.0
    requires RoundsToHundredths(round2)
    requires NormOf(nrm(FirstGap(Moved(a, a[0], scale))), FirstGap(Moved(a, a[0], scale)))
    ensures TubeCenterDistance(Moved(a, a[0], scale), nrm, round2) >= ImagingTubeD
  {
    var d := FirstGap(a);
    MovedGap(a, scale);
    var n := nrm(Scale(d, scale));
    NormSqScale(d, scale);
    AtLeastOneSquare(scale);
    ProductAtLeast(scale * scale, NormSq(d), 78.0 * 78.0);
    SqrtLowerBound(n, 78.0);
    assert round2(n / 3.0) >= n / 3.0 - 0.005;
  }

  /** Every loki_banks record, scaled by a factor of magnitude at least
      one and moved to its first corner, passes all checks of Bank.__init__
      with the expected alignment. The norm needs to be exact only where the
      spacing check takes it; any norm passes the cuboid check, since all
      tubes are one vector. */
  lemma LokiBanksPassChecks(id: nat, scale: real, nrm: Vec3 -> real, round2: real -> real)
    requires id < |LokiBanks|
    requires scale >= 1.0 || scale <= -1.0
    requires RoundsToHundredths(round2)
    requires |LokiBanks[id].a| >= 2
    requires NormOf(nrm(FirstGap(Moved(LokiBanks[id].a, LokiBanks[id].a[0], scale))),
                    FirstGap(Moved(LokiBanks[id].a, LokiBanks[id].a[0], scale)))
    ensures |LokiBanks[id].a| == 4 && |LokiBanks[id].b| == 4
    ensures CheckBank(Moved(LokiBanks[id].a, LokiBanks[id].a[0], scale),
                      Moved(LokiBanks[id].b, LokiBanks[id].a[0], scale),
                      LokiBanks[id].numTubes, nrm, round2)
            == Ok(ExpectedAlignment(id))
  {
    var r := LokiBanks[id];
    var t := Scale(r.a[0], scale);
    RecordShape(id);
    ParallelFacesAreCuboid(r.a, r.b, scale, t, nrm);
    SpacingFromGap(r.a, scale, nrm, round2);
    TransformKeepsSharedAxis(r.a, scale, t, PlaneAxis(id));
    RecordAlignment(id);
    TransformKeepsOrientation(r.a, r.b, scale, t);
  }
}
