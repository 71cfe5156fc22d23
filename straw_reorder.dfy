/** The fixed permutation applied to the radial straw offsets of a tube
    (reorder_straw_offsets_in_list in examples/loki/LOKI_geometry.py).

    The source builds the reordered list with three list operations:
      sorted = [0] * len(u);  sorted[mid] = u[0];
      sorted[:mid] = u[mid:];  sorted[mid:] = reversed(u[1:mid])
    The first slice assignment replaces mid elements by len(u) - mid elements,
    so it shortens the list and moves u[0] down to position mid - 1 when the
    straw count is odd; the model follows those list operations literally. */
module StrawReorder {
  import opened Util

  /** mid_point = int((NUM_STRAWS_PER_TUBE - 1) / 2 + 1). For a positive
      count this is floor((n - 1) / 2) + 1; for n = 0 Python gives
      int(0.5) = 0, which the Euclidean division below also gives. */
  function MidPoint(numStraws: nat): (m: nat)
    ensures numStraws >= 1 ==> 2 * m - 1 <= numStraws <= 2 * m
    ensures numStraws % 2 == 1 ==> 2 * (m - 1) + 1 == numStraws
    ensures numStraws == 0 ==> m == 0
  {
    var q := (numStraws - 1) / 2 + 1;
    assert q >= 0;
    q
  }

  /** s[:k] = x on a Python list. */
  function AssignPrefix<T>(s: seq<T>, k: nat, x: seq<T>): seq<T> {
    x + (if k <= |s| then s[k..] else [])
  }

  /** s[k:] = x on a Python list. */
  function AssignSuffix<T>(s: seq<T>, k: nat, x: seq<T>): seq<T> {
    (if k <= |s| then s[..k] else s) + x
  }

  /** reorder_straw_offsets_in_list(u), with the straw count of the
      configuration and the list filler (the integer 0 of `[0] * len`)
      as parameters. None is the IndexError raised by `sorted[mid] = u[0]`
      when the list has no position mid (or no element 0). Every element
      of a result is an input offset or the filler. */
  function Reorder<T>(u: seq<T>, numStraws: nat, filler: T): (r: Option<seq<T>>)
    ensures r.None? <==> |u| <= MidPoint(numStraws)
    ensures r.Some? ==> forall x | x in r.value :: x in u || x == filler
  {
    var mid := MidPoint(numStraws);
    if |u| == 0 || mid >= |u| then None
    else
      var sorted := seq(|u|, _ => filler)[mid := u[0]];
      var withFront := AssignPrefix(sorted, mid, u[mid..]);
      var res := AssignSuffix(withFront, mid, Reverse(Slice(u, 1, mid)));
      ReorderDrawsFrom(u, mid, filler, sorted, withFront, res);
      Some(res)
  }

  /** The three list assignments only move input elements and the filler. */
  lemma ReorderDrawsFrom<T>(u: seq<T>, mid: nat, filler: T, sorted: seq<T>, withFront: seq<T>, res: seq<T>)
    requires mid < |u|
    requires sorted == seq(|u|, _ => filler)[mid := u[0]]
    requires withFront == AssignPrefix(sorted, mid, u[mid..])
    requires res == AssignSuffix(withFront, mid, Reverse(Slice(u, 1, mid)))
    ensures forall x | x in res :: x in u || x == filler
  {
    var middle := Slice(u, 1, mid);
    var back := Reverse(middle);
    assert middle == (if 1 <= mid then u[1..mid] else []);
    forall x | x in res ensures x in u || x == filler {
      if x in back {
        var k :| 0 <= k < |back| && back[k] == x;
        assert x == middle[|back| - 1 - k];
      } else {
        assert x in withFront;
        if x !in u[mid..] {
          assert x in sorted[mid..];
          var k :| mid <= k < |sorted| && sorted[k] == x;
        }
      }
    }
  }

  /** For an odd straw count n >= 3 and a list of n offsets, the reordered
      list is u[mid:] followed by u[0] and then u[1:mid] reversed. */
  lemma ReorderOdd<T>(u: seq<T>, filler: T)
    requires |u| >= 3 && |u| % 2 == 1
    ensures var mid := (|u| - 1) / 2 + 1;
      Reorder(u, |u|, filler) == Some(u[mid..] + [u[0]] + Reverse(u[1..mid]))
  {
    var mid := MidPoint(|u|);
    var sorted := seq(|u|, _ => filler)[mid := u[0]];
    var withFront := AssignPrefix(sorted, mid, u[mid..]);
    assert |u[mid..]| == mid - 1;
    assert withFront[..mid] == u[mid..] + [u[0]] by {
      assert withFront == u[mid..] + sorted[mid..];
      assert sorted[mid..][0] == u[0];
    }
    assert Slice(u, 1, mid) == u[1..mid];
  }

  /** For an odd count the result has the same length and holds the same
      elements, each as often: it is a permutation. */
  lemma ReorderOddIsPermutation<T>(u: seq<T>, filler: T)
    requires |u| >= 3 && |u| % 2 == 1
    ensures Reorder(u, |u|, filler).Some?
    ensures |Reorder(u, |u|, filler).value| == |u|
    ensures multiset(Reorder(u, |u|, filler).value) == multiset(u)
  {
    var mid := (|u| - 1) / 2 + 1;
    ReorderOdd(u, filler);
    RotatePermutes(u, mid);
  }

  /** u[mid:] + [u[0]] + reversed(u[1:mid]) rearranges u. */
  lemma RotatePermutes<T>(u: seq<T>, mid: nat)
    requires 1 <= mid <= |u|
    ensures multiset(u[mid..] + [u[0]] + Reverse(u[1..mid])) == multiset(u)
  {
    ReverseMultiset(u[1..mid]);
    assert u == [u[0]] + u[1..mid] + u[mid..];
  }

  /** The first list element (the centre straw, whose offset is the zero
      vector) ends up at position mid - 1. */
  lemma ReorderOddCentre<T>(u: seq<T>, filler: T)
    requires |u| >= 3 && |u| % 2 == 1
    ensures Reorder(u, |u|, filler).Some?
    ensures Reorder(u, |u|, filler).value[(|u| - 1) / 2] == u[0]
  {
    ReorderOdd(u, filler);
  }

  /** The LoKI case, seven straws: [u0..u6] becomes [u4, u5, u6, u0, u3, u2, u1]. */
  lemma ReorderSeven<T>(u: seq<T>, filler: T)
    requires |u| == 7
    ensures Reorder(u, 7, filler) == Some([u[4], u[5], u[6], u[0], u[3], u[2], u[1]])
  {
    ReorderOdd(u, filler);
    assert (|u| - 1) / 2 + 1 == 4;
    var r := Reverse(u[1..4]);
    assert r == [u[3], u[2], u[1]] by {
      assert |r| == 3 && r[0] == u[3] && r[1] == u[2] && r[2] == u[1];
    }
    assert u[4..] + [u[0]] + r == [u[4], u[5], u[6], u[0], u[3], u[2], u[1]];
  }

  /** With an even count n the list comes back one element short and the
      first element is gone: u[mid:] followed by u[1:mid] reversed. */
  lemma ReorderEvenDropsFirst<T>(u: seq<T>, filler: T)
    requires |u| >= 2 && |u| % 2 == 0
    ensures var mid := |u| / 2;
      Reorder(u, |u|, filler) == Some(u[mid..] + Reverse(u[1..mid]))
    ensures |Reorder(u, |u|, filler).value| == |u| - 1
  {
    var mid := MidPoint(|u|);
    assert mid == |u| / 2;
    var sorted := seq(|u|, _ => filler)[mid := u[0]];
    var withFront := AssignPrefix(sorted, mid, u[mid..]);
    assert withFront[..mid] == u[mid..];
    assert Slice(u, 1, mid) == u[1..mid];
  }

  /** A one-element list has no position mid = 1: the source raises IndexError. */
  lemma ReorderSingleFails<T>(u: seq<T>, filler: T)
    requires |u| == 1
    ensures Reorder(u, 1, filler) == None
  {
  }
}
