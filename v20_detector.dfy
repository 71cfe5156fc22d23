/** The V20 example script's DENEX delay-line detector: the detector-id and
    pixel-offset grids __add_detector builds with numpy's arange and
    reshape. */
module V20Detector {
  import opened Util

  // ---------------------------------------------------------------------
  // The detector-id grid of __add_detector
  // ---------------------------------------------------------------------

  /** pixels_per_axis of the DENEX detector. */
  const PixelsPerAxis: nat := 150

  const Int32Max: int := 0x7fff_ffff
  const Int64Max: int := 0x7fff_ffff_ffff_ffff

  /** numpy's reshape of a flat sequence into `rows` rows of `cols`
      elements, in row-major order. */
  function Reshape(flat: seq<int>, rows: nat, cols: nat): (r: seq<seq<int>>)
    requires |flat| == rows * cols
    ensures |r| == rows
    ensures forall i :: 0 <= i < rows ==> |r[i]| == cols
    decreases rows
  {
    if rows == 0 then []
    else
      var k := (rows - 1) * cols;
      Reshape(flat[..k], rows - 1, cols) + [flat[k..]]
  }

  /** Flattening the rows again gives the original sequence. */
  lemma {:induction false} ReshapeFlatten(flat: seq<int>, rows: nat, cols: nat)
    requires |flat| == rows * cols
    ensures Concat(Reshape(flat, rows, cols)) == flat
    decreases rows
  {
    if rows > 0 {
      var k := (rows - 1) * cols;
      var init := Reshape(flat[..k], rows - 1, cols);
      ReshapeFlatten(flat[..k], rows - 1, cols);
      ConcatSnoc(init, flat[k..]);
      assert flat[..k] + flat[k..] == flat;
    }
  }

  /** Element (i, j) of the grid is element i * cols + j of the flat sequence. */
  lemma ReshapeAt(flat: seq<int>, rows: nat, cols: nat, i: nat, j: nat)
    requires |flat| == rows * cols && i < rows && j < cols
    ensures i * cols + j < |flat|
    ensures Reshape(flat, rows, cols)[i][j] == flat[i * cols + j]
  {
    ReshapeFlatten(flat, rows, cols);
    ConcatAt(Reshape(flat, rows, cols), cols, i, j);
  }

  /** np.reshape(np.arange(0, p ** 2, 1), (p, p)): the grid both
      detector_ids and offsets are built from. */
  function ArangeGrid(p: nat): (grid: seq<seq<int>>)
    ensures |grid| == p
    ensures forall r :: 0 <= r < p ==> |grid[r]| == p
  {
    Reshape(Consecutive(0, p * p), p, p)
  }

  /** The value at row r, column c is p * r + c. */
  lemma GridAt(p: nat, r: nat, c: nat)
    requires r < p && c < p
    ensures ArangeGrid(p)[r][c] == p * r + c
  {
    ReshapeAt(Consecutive(0, p * p), p, p, r, c);
  }

  /** Every value 0 .. p * p - 1 stands at row v / p, column v % p. */
  lemma GridHasEveryId(p: nat, v: nat)
    requires v < p * p
    ensures v / p < p && v % p < p
    ensures ArangeGrid(p)[v / p][v % p] == v
  {
    var r, c := v / p, v % p;
    if r >= p {
      MulMono(p, r, p);
      assert false;
    }
    GridAt(p, r, c);
  }

  /** No value stands in two cells: the grid is one-to-one. */
  lemma GridInjective(p: nat, r1: nat, c1: nat, r2: nat, c2: nat)
    requires r1 < p && c1 < p && r2 < p && c2 < p
    requires ArangeGrid(p)[r1][c1] == ArangeGrid(p)[r2][c2]
    ensures r1 == r2 && c1 == c2
  {
    GridAt(p, r1, c1);
    GridAt(p, r2, c2);
    RowMajorUnique(p, r1, c1, r2, c2);
  }

  /** Row-major positions p * r + c with c < p are distinct. */
  lemma RowMajorUnique(p: nat, r1: nat, c1: nat, r2: nat, c2: nat)
    requires c1 < p && c2 < p && p * r1 + c1 == p * r2 + c2
    ensures r1 == r2 && c1 == c2
  {
    if r1 < r2 {
      RowsApart(p, r1, r2);
      assert false;
    } else if r2 < r1 {
      RowsApart(p, r2, r1);
      assert false;
    }
  }

  lemma RowsApart(p: nat, r1: nat, r2: nat)
    requires r1 < r2
    ensures p * r1 + p <= p * r2
  {
    MulMono(r1 + 1, r2, p);
  }

  /** The grid values run from 0 to p * p - 1. */
  lemma GridBounds(p: nat, r: nat, c: nat)
    requires r < p && c < p
    ensures 0 <= ArangeGrid(p)[r][c] <= p * p - 1
  {
    GridAt(p, r, c);
    MulMono(r, p - 1, p);
  }

  /** With 150 pixels per axis, detector_ids (and offsets, the same grid in
      int64) holds 150 * r + c at row r, column c, so each id 0 .. 22499
      stands once, at row id / 150 and column id % 150; and every id fits
      the int32 dtype the script asks for. */
  lemma DenexGrid(p: nat)
    requires p == PixelsPerAxis
    ensures forall r, c :: 0 <= r < p && 0 <= c < p ==>
              ArangeGrid(p)[r][c] == 150 * r + c && ArangeGrid(p)[r][c] <= 22499 <= Int32Max
    ensures forall id :: 0 <= id < 22500 ==> ArangeGrid(p)[id / 150][id % 150] == id
  {
    forall r, c | 0 <= r < p && 0 <= c < p
      ensures ArangeGrid(p)[r][c] == 150 * r + c && ArangeGrid(p)[r][c] <= 22499
    {
      GridBounds(p, r, c);
      GridAt(p, r, c);
    }
    forall id | 0 <= id < 22500
      ensures ArangeGrid(p)[id / 150][id % 150] == id
    {
      GridHasEveryId(p, id);
    }
  }

  /** The larger 65535-pixel grid the script's comment mentions has ids
      beyond int32, which is why it would need int64; they fit int64. */
  lemma WideGridNeedsInt64(p: nat)
    requires p == 65535
    ensures ArangeGrid(p)[p - 1][p - 1] > Int32Max
    ensures forall r, c :: 0 <= r < p && 0 <= c < p ==> ArangeGrid(p)[r][c] <= Int64Max
  {
    GridAt(p, p - 1, p - 1);
    forall r, c | 0 <= r < p && 0 <= c < p
      ensures ArangeGrid(p)[r][c] <= Int64Max
    {
      GridBounds(p, r, c);
    }
  }
}
