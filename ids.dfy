/** The monotonic identifier generators of the LoKI geometry generator
    (examples/loki/LOKI_geometry.py, IdIterator and the three module-level
    counters pixel_id_iter, straw_id_iter and transform_id_iter). */
module Ids {
  import opened Util

  /** IdIterator: remembers a start value; iter() (re)starts the count at
      start, and each next() hands out the current value and advances by one.
      Calling next() before iter() fails in the source (the counter field does
      not exist yet): `iterating` records whether iter() has run. */
  class IdIterator {
    const start: int
    var current: int
    var iterating: bool

    /** IdIterator(start) */
    constructor (start: int)
      ensures this.start == start && !iterating
    {
      this.start := start;
      current := start;
      iterating := false;
    }

    /** iter(it): sets the counter to start and returns the iterator itself. */
    method Iter()
      modifies this
      ensures iterating && current == start
    {
      current := start;
      iterating := true;
    }

    /** next(it): the current value, then one more. None stands for the
        AttributeError raised when iter() has not been called. */
    method Next() returns (id: Option<int>)
      modifies this
      ensures iterating == old(iterating)
      ensures old(iterating) ==> id == Some(old(current)) && current == old(current) + 1
      ensures !old(iterating) ==> id == None && current == old(current)
    {
      if iterating {
        id := Some(current);
        current := current + 1;
      } else {
        id := None;
      }
    }

    /** IdIterator.reset(start): a brand-new iterator; no existing iterator
        is touched (the method modifies nothing). */
    static method Reset(start: int) returns (it: IdIterator)
      ensures fresh(it) && it.start == start && !it.iterating
    {
      it := new IdIterator(start);
    }
  }

  /** Successive next() calls after iter() give start, start + 1, start + 2:
      no gap, no repeat. */
  method FirstThreeIds(start: int) returns (a: int, b: int, c: int)
    ensures a == start && b == start + 1 && c == start + 2
  {
    var it := new IdIterator(start);
    it.Iter();
    var r := it.Next();
    a := r.value;
    r := it.Next();
    b := r.value;
    r := it.Next();
    c := r.value;
  }

  /** Resetting produces a new iterator and leaves a running one alone: the
      running one continues where it was. */
  method ResetKeepsRunningIterator(start: int, other: int) returns (before: int, after: int)
    ensures before == start && after == start + 1
  {
    var it := new IdIterator(start);
    it.Iter();
    var r := it.Next();
    before := r.value;
    var restarted := IdIterator.Reset(other);
    restarted.Iter();
    var s := restarted.Next();
    r := it.Next();
    after := r.value;
  }

  /** The three module-level generators, already started with iter(): pixel
      numbers from the configured det_pixel_id_start, straw numbers from 0,
      transformation numbers from 1. */
  class Counters {
    const pixel: IdIterator
    const straw: IdIterator
    const transform: IdIterator

    ghost predicate Valid()
      reads this, pixel, straw, transform
    {
      pixel != straw && pixel != transform && straw != transform &&
      pixel.iterating && straw.iterating && transform.iterating
    }

    constructor (detPixelIdStart: int)
      ensures Valid()
      ensures fresh(pixel) && fresh(straw) && fresh(transform)
      ensures pixel.current == detPixelIdStart
      ensures straw.current == 0
      ensures transform.current == 1
    {
      var p := new IdIterator(detPixelIdStart);
      p.Iter();
      var s := new IdIterator(0);
      s.Iter();
      var t := new IdIterator(1);
      t.Iter();
      pixel, straw, transform := p, s, t;
    }
  }
}
