/** Event-id decoding and chopper-time truncation of the V20 subpulse
    aggregator (examples/v20/subpulse_aggregator.py). A raw event id packs a
    16-bit x position in its high half and a 16-bit y position in its low
    half; each position is scaled down to one of Nx (Ny) pixel columns (rows)
    and the pixel becomes the detector id. Events are then cut to the span of
    the chopper top-dead-centre timestamps. */
module Subpulse {
  import opened Util

  /** uint_max = 2 ** 16 - 1 */
  const UintMax: nat := 65535
  const Nx: nat := 300
  const Ny: nat := 300

  // ---------------------------------------------------------------------
  // Position to pixel index
  // ---------------------------------------------------------------------

  /** position_to_index(pos, count): pos // (uint_max // count). A zero
      count raises ZeroDivisionError (None); a count above uint_max makes the
      step zero, and NumPy's integer floor division by zero gives 0. */
  function PositionToIndex(pos: nat, count: nat): (r: Option<nat>)
    ensures r.None? <==> count == 0
    ensures count > UintMax ==> r == Some(0)
  {
    if count == 0 then None
    else
      var step := UintMax / count;
      if step == 0 then Some(0) else Some(pos / step)
  }

  /** With 300 pixels the step is 218: index i covers positions
      218 * i .. 218 * i + 217. The step does not divide the 65536 positions
      evenly, so positions 65400..65535 form a 301st band, index 300. */
  lemma IndexRangeFor300(pos: nat)
    requires pos <= UintMax
    ensures PositionToIndex(pos, Nx).Some?
    ensures 218 * PositionToIndex(pos, Nx).value <= pos < 218 * (PositionToIndex(pos, Nx).value + 1)
    ensures PositionToIndex(pos, Nx).value <= Nx
    ensures PositionToIndex(pos, Nx).value == Nx <==> pos >= 65400
  {
    assert UintMax / Nx == 218;
  }

  // ---------------------------------------------------------------------
  // Event ids
  // ---------------------------------------------------------------------

  /** The unsigned 32-bit event ids. */
  newtype uint32 = i: int | 0 <= i < 0x1_0000_0000

  /** (event_id >> 16) & 0xffff: the x position, bits 16..31. On a
      non-negative number a right shift by 16 is a floor division by 2^16
      and the mask a remainder modulo 2^16. */
  function PositionX(id: uint32): (x: nat)
    ensures x < 65536
  {
    ((id as int) / 0x1_0000) % 0x1_0000
  }

  /** event_id & 0xffff: the y position, bits 0..15. */
  function PositionY(id: uint32): (y: nat)
    ensures y < 65536
  {
    (id as int) % 0x1_0000
  }

  /** The raw event id a detector writes for positions x and y. */
  function EventId(x: nat, y: nat): (id: uint32)
    requires x < 65536 && y < 65536
  {
    (x * 0x1_0000 + y) as uint32
  }

  /** Decoding recovers both positions of an encoded event id. */
  lemma DecodeEncode(x: nat, y: nat)
    requires x < 65536 && y < 65536
    ensures PositionX(EventId(x, y)) == x && PositionY(EventId(x, y)) == y
  {
  }

  /** Every event id is the encoding of its two positions. */
  lemma EncodeDecode(id: uint32)
    ensures EventId(PositionX(id), PositionY(id)) == id
  {
  }

  /** convert_id(event_id, id_offset): id_offset + ix + Nx * iy. */
  function ConvertId(id: uint32, idOffset: int): (r: int)
    ensures idOffset <= r <= idOffset + Nx + Nx * Ny
  {
    var ix := PositionToIndex(PositionX(id), Nx).value;
    var iy := PositionToIndex(PositionY(id), Ny).value;
    IndexRangeFor300(PositionX(id));
    IndexRangeFor300(PositionY(id));
    idOffset + ix + Nx * iy
  }

  /** The band of x positions past the last full step spills into the next
      row: x = 65400, y = 0 and x = 0, y = 218 are different pixels (column
      300 of row 0, column 0 of row 1) yet get the same detector id. */
  lemma ConvertIdCollides()
    ensures EventId(65400, 0) != EventId(0, 218)
    ensures ConvertId(EventId(65400, 0), 0) == ConvertId(EventId(0, 218), 0) == Nx
  {
    DecodeEncode(65400, 0);
    DecodeEncode(0, 218);
    IndexRangeFor300(65400);
    IndexRangeFor300(218);
  }

  /** The pixel index with the last band folded into the last pixel, so
      that indices stay in 0..count-1. */
  function ClampedIndex(pos: nat, count: nat): (r: Option<nat>)
    ensures r.None? <==> count == 0
    ensures r.Some? ==> r.value < count
    ensures 0 < count <= UintMax && PositionToIndex(pos, count).value < count ==>
      r == PositionToIndex(pos, count)
  {
    match PositionToIndex(pos, count)
    case None => None
    case Some(i) => Some(if i < count then i else count - 1)
  }

  /** The detector id with clamped indices: ids stay in
      id_offset .. id_offset + Nx * Ny - 1. */
  function ConvertIdClamped(id: uint32, idOffset: int): (r: int)
    ensures idOffset <= r < idOffset + Nx * Ny
  {
    idOffset + ClampedIndex(PositionX(id), Nx).value + Nx * ClampedIndex(PositionY(id), Ny).value
  }

  /** With clamping, one detector id is one pixel: equal ids mean equal
      column and row indices. */
  lemma ConvertIdClampedInjective(id1: uint32, id2: uint32, idOffset: int)
    requires ConvertIdClamped(id1, idOffset) == ConvertIdClamped(id2, idOffset)
    ensures ClampedIndex(PositionX(id1), Nx) == ClampedIndex(PositionX(id2), Nx)
    ensures ClampedIndex(PositionY(id1), Ny) == ClampedIndex(PositionY(id2), Ny)
  {
    var x1, y1 := ClampedIndex(PositionX(id1), Nx).value, ClampedIndex(PositionY(id1), Ny).value;
    var x2, y2 := ClampedIndex(PositionX(id2), Nx).value, ClampedIndex(PositionY(id2), Ny).value;
    RowMajorUnique(x1, y1, x2, y2);
  }

  /** Column and row are read back from a row-major index. */
  lemma RowMajorUnique(x1: nat, y1: nat, x2: nat, y2: nat)
    requires x1 < Nx && x2 < Nx && x1 + Nx * y1 == x2 + Nx * y2
    ensures x1 == x2 && y1 == y2
  {
  }

  /** Below the last band the clamped id is the id the source computes. */
  lemma ConvertIdClampedAgrees(id: uint32, idOffset: int)
    requires PositionX(id) < 65400 && PositionY(id) < 65400
    ensures ConvertIdClamped(id, idOffset) == ConvertId(id, idOffset)
  {
    IndexRangeFor300(PositionX(id));
    IndexRangeFor300(PositionY(id));
  }

  // ---------------------------------------------------------------------
  // Truncation to the chopper time range
  // ---------------------------------------------------------------------

  predicate Sorted(s: seq<int>) {
    forall i, j :: 0 <= i <= j < |s| ==> s[i] <= s[j]
  }

  /** np.searchsorted(a, v, 'left') on an ascending array: the number of
      leading elements below v. */
  function SearchSortedLeft(a: seq<int>, v: int): (i: nat)
    ensures i <= |a|
    ensures forall j :: 0 <= j < i ==> a[j] < v
    ensures i < |a| ==> a[i] >= v
  {
    if |a| == 0 || a[0] >= v then 0 else 1 + SearchSortedLeft(a[1..], v)
  }

  /** np.searchsorted(a, v, 'right') on an ascending array: the number of
      leading elements at or below v. */
  function SearchSortedRight(a: seq<int>, v: int): (i: nat)
    ensures i <= |a|
    ensures forall j :: 0 <= j < i ==> a[j] <= v
    ensures i < |a| ==> a[i] > v
  {
    if |a| == 0 || a[0] > v then 0 else 1 + SearchSortedRight(a[1..], v)
  }

  /** The elements of s within [lo, hi], in order: the reference for what
      the truncation keeps. */
  function Window(s: seq<int>, lo: int, hi: int): (r: seq<int>)
    ensures forall t :: t in r <==> t in s && lo <= t <= hi
  {
    if |s| == 0 then []
    else (if lo <= s[0] <= hi then [s[0]] else []) + Window(s[1..], lo, hi)
  }

  datatype Truncated = Truncated(chopperTimes: seq<int>, eventId: seq<int>, eventTimes: seq<int>,
                                 wfmChopperTimes: seq<int>)

  /** truncate_to_chopper_time_range: events between the first and the
      second-to-last chopper timestamp, WFM chopper timestamps between the
      first and the last, and the chopper timestamps without their last two.
      Fewer than two chopper timestamps raise IndexError (None). */
  function TruncateToChopperTimeRange(chopper: seq<int>, eventId: seq<int>, eventTimes: seq<int>,
                                      wfm: seq<int>): (r: Option<Truncated>)
    ensures r.None? <==> |chopper| < 2
    ensures r.Some? ==> r.value.chopperTimes == chopper[..|chopper| - 2]
  {
    if |chopper| < 2 then None
    else
      var start := SearchSortedLeft(eventTimes, chopper[0]);
      var end := SearchSortedRight(eventTimes, chopper[|chopper| - 2]);
      var wfmStart := SearchSortedLeft(wfm, chopper[0]);
      var wfmEnd := SearchSortedRight(wfm, chopper[|chopper| - 1]);
      Some(Truncated(chopper[..|chopper| - 2], Slice(eventId, start, end), Slice(eventTimes, start, end),
                     Slice(wfm, wfmStart, wfmEnd)))
  }

  /** The tail of an ascending sequence is ascending. */
  lemma SortedTail(s: seq<int>)
    requires |s| > 0 && Sorted(s)
    ensures Sorted(s[1..])
  {
    assert forall i, j :: 0 <= i <= j < |s| - 1 ==> s[1..][i] == s[i + 1] && s[1..][j] == s[j + 1];
  }

  /** A sequence with no element in the window has an empty window. */
  lemma {:induction false} WindowEmpty(s: seq<int>, lo: int, hi: int)
    requires forall i :: 0 <= i < |s| ==> !(lo <= s[i] <= hi)
    ensures Window(s, lo, hi) == []
    decreases |s|
  {
    if |s| > 0 {
      WindowEmpty(s[1..], lo, hi);
    }
  }

  /** When nothing in s is below lo, the window is the prefix up to the
      right search position of hi. */
  lemma {:induction false} WindowOfPrefix(s: seq<int>, lo: int, hi: int)
    requires Sorted(s)
    requires forall i :: 0 <= i < |s| ==> lo <= s[i]
    ensures Window(s, lo, hi) == s[..SearchSortedRight(s, hi)]
    decreases |s|
  {
    if |s| > 0 {
      if s[0] <= hi {
        SortedTail(s);
        WindowOfPrefix(s[1..], lo, hi);
        assert s[..SearchSortedRight(s, hi)] == [s[0]] + s[1..][..SearchSortedRight(s[1..], hi)];
      } else {
        WindowEmpty(s[1..], lo, hi);
      }
    }
  }

  /** On an ascending sequence, slicing between the left search position
      of lo and the right search position of hi keeps exactly the window. */
  lemma {:induction false} SortedSliceIsWindow(s: seq<int>, lo: int, hi: int)
    requires Sorted(s)
    ensures Slice(s, SearchSortedLeft(s, lo), SearchSortedRight(s, hi)) == Window(s, lo, hi)
    decreases |s|
  {
    if |s| > 0 {
      if s[0] >= lo {
        WindowFromFirst(s, lo, hi);
      } else if s[0] > hi {
        WindowEmpty(s, lo, hi);
      } else {
        SortedTail(s);
        SortedSliceIsWindow(s[1..], lo, hi);
        WindowSkipsFirst(s, lo, hi);
      }
    }
  }

  /** With nothing below lo, the slice starts at the front. */
  lemma WindowFromFirst(s: seq<int>, lo: int, hi: int)
    requires Sorted(s) && |s| > 0 && s[0] >= lo
    ensures Slice(s, SearchSortedLeft(s, lo), SearchSortedRight(s, hi)) == Window(s, lo, hi)
  {
    assert SearchSortedLeft(s, lo) == 0;
    WindowOfPrefix(s, lo, hi);
  }

  /** A first element below lo is neither sliced nor in the window. */
  lemma WindowSkipsFirst(s: seq<int>, lo: int, hi: int)
    requires |s| > 0 && s[0] < lo && s[0] <= hi
    ensures Slice(s, SearchSortedLeft(s, lo), SearchSortedRight(s, hi))
            == Slice(s[1..], SearchSortedLeft(s[1..], lo), SearchSortedRight(s[1..], hi))
    ensures Window(s, lo, hi) == Window(s[1..], lo, hi)
  {
    var a, b := SearchSortedLeft(s[1..], lo), SearchSortedRight(s[1..], hi);
    assert SearchSortedLeft(s, lo) == a + 1 && SearchSortedRight(s, hi) == b + 1;
    SliceOfTail(s, a, b);
    assert Window(s, lo, hi) == [] + Window(s[1..], lo, hi);
  }

  /** Slicing the tail is slicing one further along. */
  lemma SliceOfTail(s: seq<int>, a: nat, b: nat)
    requires |s| > 0 && a <= |s| - 1 && b <= |s| - 1
    ensures Slice(s, a + 1, b + 1) == Slice(s[1..], a, b)
  {
    if a <= b {
      assert s[a + 1..b + 1] == s[1..][a..b];
    }
  }

  /** The kept event times are exactly the times, in order, between the
      first and the second-to-last chopper timestamp; the kept WFM chopper
      times those between the first and the last chopper timestamp. */
  lemma TruncationKeepsWindow(chopper: seq<int>, eventId: seq<int>, eventTimes: seq<int>, wfm: seq<int>)
    requires |chopper| >= 2 && Sorted(eventTimes) && Sorted(wfm)
    ensures TruncateToChopperTimeRange(chopper, eventId, eventTimes, wfm).Some?
    ensures TruncateToChopperTimeRange(chopper, eventId, eventTimes, wfm).value.eventTimes
            == Window(eventTimes, chopper[0], chopper[|chopper| - 2])
    ensures TruncateToChopperTimeRange(chopper, eventId, eventTimes, wfm).value.wfmChopperTimes
            == Window(wfm, chopper[0], chopper[|chopper| - 1])
  {
    SortedSliceIsWindow(eventTimes, chopper[0], chopper[|chopper| - 2]);
    SortedSliceIsWindow(wfm, chopper[0], chopper[|chopper| - 1]);
  }

  /** Event ids and event times are cut with the same bounds: when they
      were parallel arrays they stay parallel, the k-th kept id next to the
      k-th kept time, both taken from the position of the first kept event. */
  lemma TruncationKeepsPairs(chopper: seq<int>, eventId: seq<int>, eventTimes: seq<int>, wfm: seq<int>)
    requires |chopper| >= 2 && |eventId| == |eventTimes|
    ensures TruncateToChopperTimeRange(chopper, eventId, eventTimes, wfm).Some?
    ensures var r := TruncateToChopperTimeRange(chopper, eventId, eventTimes, wfm).value;
      var start := SearchSortedLeft(eventTimes, chopper[0]);
      |r.eventId| == |r.eventTimes| &&
      (|r.eventId| > 0 ==>
        start + |r.eventId| <= |eventId| &&
        r.eventId == eventId[start..start + |r.eventId|] && r.eventTimes == eventTimes[start..start + |r.eventId|])
  {
  }
}
