/** Small building blocks shared by the rest of the model: failure-carrying
    wrappers, Python's str.split / str.join, Python slicing with negative and
    out-of-range indices, and the decimal rendering done by str(int). */
module Util {

  datatype Option<+T> = None | Some(value: T)

  datatype Result<+T, +E> = Ok(value: T) | Err(error: E)

  // ---------------------------------------------------------------------
  // str.split(sep) with a one-character separator, and sep.join(parts)
  // ---------------------------------------------------------------------

  /** Python's s.split(sep): the pieces between separators, empty pieces
      included; never an empty list. */
  function Split(s: string, sep: char): (r: seq<string>)
    ensures |r| >= 1
    ensures forall i :: 0 <= i < |r| ==> sep !in r[i]
    decreases |s|
  {
    if |s| == 0 then [""]
    else
      var rest := Split(s[1..], sep);
      if s[0] == sep then [""] + rest
      else [[s[0]] + rest[0]] + rest[1..]
  }

  /** Python's sep.join(parts). */
  function Join(parts: seq<string>, sep: string): string
    decreases |parts|
  {
    if |parts| == 0 then ""
    else if |parts| == 1 then parts[0]
    else parts[0] + sep + Join(parts[1..], sep)
  }

  /** Splitting and joining back with the same separator gives the string back. */
  lemma {:induction false} JoinSplit(s: string, sep: char)
    ensures Join(Split(s, sep), [sep]) == s
    decreases |s|
  {
    if |s| > 0 {
      var rest := Split(s[1..], sep);
      JoinSplit(s[1..], sep);
      if s[0] == sep {
        assert Split(s, sep) == [""] + rest;
        assert s == [s[0]] + s[1..];
      } else {
        var r := Split(s, sep);
        assert r == [[s[0]] + rest[0]] + rest[1..];
        if |rest| == 1 {
          assert s == [s[0]] + s[1..];
        } else {
          assert r[1..] == rest[1..];
          assert Join(rest, [sep]) == rest[0] + [sep] + Join(rest[1..], [sep]);
          assert s == [s[0]] + s[1..];
        }
      }
    }
  }

  /** Joining one more part on the end. */
  lemma {:induction false} JoinSnoc(parts: seq<string>, last: string, sep: string)
    requires |parts| >= 1
    ensures Join(parts + [last], sep) == Join(parts, sep) + sep + last
    decreases |parts|
  {
    if |parts| > 1 {
      JoinSnoc(parts[1..], last, sep);
      assert (parts + [last])[1..] == parts[1..] + [last];
    }
  }

  /** A join of two or more parts is the join of all but the last, the
      separator and the last part. */
  lemma JoinInit(parts: seq<string>, sep: string)
    requires |parts| >= 2
    ensures Join(parts, sep) == Join(parts[..|parts| - 1], sep) + sep + parts[|parts| - 1]
  {
    var n := |parts|;
    assert parts[..n - 1] + [parts[n - 1]] == parts;
    JoinSnoc(parts[..n - 1], parts[n - 1], sep);
  }

  /** A join of two or more parts is the first part, the separator and the
      join of the rest. */
  lemma JoinFirst(parts: seq<string>, sep: string)
    requires |parts| >= 2
    ensures Join(parts, sep) == parts[0] + sep + Join(parts[1..], sep)
  {
  }

  /** A join of three or more parts is the first part, the join of the
      middle ones and the last part, with separators between. */
  lemma JoinMiddle(parts: seq<string>, sep: string)
    requires |parts| >= 3
    ensures var n := |parts|;
      Join(parts, sep) == parts[0] + sep + Join(parts[1..n - 1], sep) + sep + parts[n - 1]
  {
    var n := |parts|;
    var rest := parts[1..];
    assert Join(rest, sep) == Join(parts[1..n - 1], sep) + sep + parts[n - 1] by {
      JoinInit(rest, sep);
      assert rest[..n - 2] == parts[1..n - 1];
    }
    JoinFirst(parts, sep);
    SeparatedAssoc(parts[0], Join(parts[1..n - 1], sep), parts[n - 1], sep);
  }

  lemma SeparatedAssoc(first: string, middle: string, last: string, sep: string)
    ensures first + sep + (middle + sep + last) == first + sep + middle + sep + last
  {
  }

  /** A join of four or more parts, with its last two parts written out. */
  lemma JoinLastTwo(parts: seq<string>, sep: string)
    requires |parts| >= 4
    ensures var n := |parts|;
      Join(parts, sep) == parts[0] + sep + Join(parts[1..n - 2], sep) + sep + parts[n - 2] + sep + parts[n - 1]
  {
    var n := |parts|;
    var middle := parts[1..n - 1];
    assert Join(middle, sep) == Join(parts[1..n - 2], sep) + sep + parts[n - 2] by {
      JoinInit(middle, sep);
      assert middle[..n - 3] == parts[1..n - 2];
    }
    JoinMiddle(parts, sep);
    SeparatedAssoc4(parts[0], Join(parts[1..n - 2], sep), parts[n - 2], parts[n - 1], sep);
  }

  lemma SeparatedAssoc4(first: string, parent: string, component: string, last: string, sep: string)
    ensures first + sep + (parent + sep + component) + sep + last
            == first + sep + parent + sep + component + sep + last
  {
  }

  /** Joining with "" puts the first part in front of the rest. */
  lemma JoinEmptyCons(parts: seq<string>)
    requires |parts| >= 1
    ensures Join(parts, "") == parts[0] + Join(parts[1..], "")
  {
    if |parts| == 1 {
      assert parts[0] + "" == parts[0];
    }
  }

  /** s with every occurrence of c taken out. */
  function RemoveAll(s: string, c: char): (r: string)
    ensures c !in r
    ensures |r| <= |s|
  {
    if |s| == 0 then ""
    else if s[0] == c then RemoveAll(s[1..], c)
    else [s[0]] + RemoveAll(s[1..], c)
  }

  /** Splitting on a separator and joining with "" removes the separators. */
  lemma {:induction false} JoinEmptySplit(s: string, sep: char)
    ensures Join(Split(s, sep), "") == RemoveAll(s, sep)
    decreases |s|
  {
    if |s| > 0 {
      var rest := Split(s[1..], sep);
      JoinEmptySplit(s[1..], sep);
      if s[0] == sep {
        JoinEmptyCons([""] + rest);
        assert ([""] + rest)[1..] == rest;
      } else {
        var r := [[s[0]] + rest[0]] + rest[1..];
        assert Split(s, sep) == r;
        JoinEmptyCons(r);
        JoinEmptyCons(rest);
        assert r[1..] == rest[1..];
      }
    }
  }

  /** Splitting at the last separator: the pieces before it, then the tail
      after it. */
  lemma {:induction false} SplitAtLast(s: string, sep: char, k: nat)
    requires k < |s| && s[k] == sep && sep !in s[k + 1..]
    ensures Split(s, sep) == Split(s[..k], sep) + [s[k + 1..]]
    decreases k
  {
    var rest := Split(s[1..], sep);
    if k == 0 {
      assert s[1..] == s[k + 1..];
      SplitNoSep(s[1..], sep);
    } else {
      assert s[1..][k..] == s[k + 1..];
      SplitAtLast(s[1..], sep, k - 1);
      assert s[1..][..k - 1] == s[..k][1..];
      var front := Split(s[..k][1..], sep);
      assert rest == front + [s[k + 1..]];
      if s[0] != sep {
        assert Split(s[..k], sep) == [[s[0]] + front[0]] + front[1..];
        assert rest[1..] == front[1..] + [s[k + 1..]];
      } else {
        assert Split(s[..k], sep) == [""] + front;
      }
    }
  }

  /** Joining separator-free pieces and splitting again recovers the pieces. */
  lemma {:induction false} SplitJoin(parts: seq<string>, sep: char)
    requires |parts| >= 1
    requires forall i :: 0 <= i < |parts| ==> sep !in parts[i]
    ensures Split(Join(parts, [sep]), sep) == parts
    decreases |parts|
  {
    if |parts| == 1 {
      SplitNoSep(parts[0], sep);
    } else {
      SplitJoin(parts[1..], sep);
      SplitPrefix(parts[0], Join(parts[1..], [sep]), sep);
      assert Join(parts, [sep]) == parts[0] + [sep] + Join(parts[1..], [sep]);
      assert [parts[0]] + parts[1..] == parts;
    }
  }

  /** A string without the separator splits into itself. */
  lemma {:induction false} SplitNoSep(s: string, sep: char)
    requires sep !in s
    ensures Split(s, sep) == [s]
    decreases |s|
  {
    if |s| > 0 {
      assert s[1..] == s[1..];
      assert forall k :: 0 <= k < |s[1..]| ==> s[1..][k] == s[k + 1];
      SplitNoSep(s[1..], sep);
      assert [s[0]] + s[1..] == s;
    }
  }

  /** Splitting a separator-free head, a separator and a tail. */
  lemma {:induction false} SplitPrefix(head: string, tail: string, sep: char)
    requires sep !in head
    ensures Split(head + [sep] + tail, sep) == [head] + Split(tail, sep)
    decreases |head|
  {
    var s := head + [sep] + tail;
    if |head| == 0 {
      assert s[0] == sep && s[1..] == tail;
    } else {
      assert s[1..] == head[1..] + [sep] + tail;
      assert sep !in head[1..] by {
        forall k | 0 <= k < |head[1..]| ensures head[1..][k] != sep {
          assert head[1..][k] == head[k + 1];
        }
      }
      SplitPrefix(head[1..], tail, sep);
      assert [head[0]] + head[1..] == head;
    }
  }

  /** A string splits into one piece exactly when it has no separator. */
  lemma {:induction false} SplitSingle(s: string, sep: char)
    ensures |Split(s, sep)| == 1 <==> sep !in s
    decreases |s|
  {
    if sep !in s {
      SplitNoSep(s, sep);
    } else if |s| > 0 && s[0] != sep {
      assert sep in s[1..] by {
        var k :| 0 <= k < |s| && s[k] == sep;
        assert s[1..][k - 1] == sep;
      }
      SplitSingle(s[1..], sep);
    }
  }

  // ---------------------------------------------------------------------
  // Python slicing and indexing
  // ---------------------------------------------------------------------

  /** How Python turns a slice bound into a position in a sequence of length
      n: negative bounds count from the end, and both sides are clamped. */
  function SliceBound(i: int, n: nat): (r: nat)
    ensures r <= n
    ensures 0 <= i <= n ==> r == i
    ensures -(n as int) <= i < 0 ==> r == n + i
  {
    if i < 0 then (if i + n < 0 then 0 else i + n)
    else if i > n then n
    else i
  }

  /** Python's s[lo:hi]; an empty result when the bounds cross. */
  function Slice<T>(s: seq<T>, lo: int, hi: int): (r: seq<T>)
    ensures |r| <= |s|
  {
    var a, b := SliceBound(lo, |s|), SliceBound(hi, |s|);
    if a <= b then s[a..b] else []
  }

  /** s[lo:-k] for bounds inside s. */
  lemma SliceFromEnd<T>(s: seq<T>, lo: nat, k: nat)
    requires 1 <= k && lo + k <= |s|
    ensures Slice(s, lo, -(k as int)) == s[lo..|s| - k]
  {
  }

  /** Python's s[i], with IndexError as None. */
  function At<T>(s: seq<T>, i: int): (r: Option<T>)
    ensures r.Some? <==> -|s| <= i < |s|
    ensures 0 <= i < |s| ==> r == Some(s[i])
    ensures -|s| <= i < 0 ==> r == Some(s[|s| + i])
  {
    if 0 <= i < |s| then Some(s[i])
    else if -|s| <= i < 0 then Some(s[|s| + i])
    else None
  }

  function Reverse<T>(s: seq<T>): (r: seq<T>)
    ensures |r| == |s|
    ensures forall k :: 0 <= k < |s| ==> r[k] == s[|s| - 1 - k]
  {
    if |s| == 0 then [] else Reverse(s[1..]) + [s[0]]
  }

  lemma ReverseMultiset<T>(s: seq<T>)
    ensures multiset(Reverse(s)) == multiset(s)
  {
    if |s| > 0 {
      ReverseMultiset(s[1..]);
      assert s == [s[0]] + s[1..];
    }
  }

  /** The consecutive integers start, start + 1, ..., start + n - 1. */
  function Consecutive(start: int, n: nat): (r: seq<int>)
    ensures |r| == n
    ensures forall k :: 0 <= k < n ==> r[k] == start + k
  {
    seq(n, k => start + k)
  }

  /** The blocks one after the other (Python's repeated `list += block`). */
  function Concat<T>(blocks: seq<seq<T>>): (r: seq<T>)
  {
    if |blocks| == 0 then [] else Concat(blocks[..|blocks| - 1]) + blocks[|blocks| - 1]
  }

  /** Appending one more block. */
  lemma ConcatSnoc<T>(blocks: seq<seq<T>>, b: seq<T>)
    ensures Concat(blocks + [b]) == Concat(blocks) + b
  {
    assert (blocks + [b])[..|blocks|] == blocks;
  }

  /** One more block of a prefix. */
  lemma ConcatPrefixStep<T>(blocks: seq<seq<T>>, k: nat)
    requires k < |blocks|
    ensures Concat(blocks[..k + 1]) == Concat(blocks[..k]) + blocks[k]
  {
    ConcatSnoc(blocks[..k], blocks[k]);
    assert blocks[..k + 1] == blocks[..k] + [blocks[k]];
  }

  /** With blocks all of length m, the concatenation has |blocks| * m elements. */
  lemma {:induction false} ConcatLength<T>(blocks: seq<seq<T>>, m: nat)
    requires forall k :: 0 <= k < |blocks| ==> |blocks[k]| == m
    ensures |Concat(blocks)| == |blocks| * m
    decreases |blocks|
  {
    if |blocks| > 0 {
      ConcatLength(blocks[..|blocks| - 1], m);
    }
  }

  /** Element i * m + j of the concatenation is element j of block i. */
  lemma {:induction false} ConcatAt<T>(blocks: seq<seq<T>>, m: nat, i: nat, j: nat)
    requires forall k :: 0 <= k < |blocks| ==> |blocks[k]| == m
    requires i < |blocks| && j < m
    ensures i * m + j < |Concat(blocks)| && Concat(blocks)[i * m + j] == blocks[i][j]
    decreases |blocks|
  {
    var n := |blocks| - 1;
    var init := blocks[..n];
    ConcatLength(init, m);
    assert Concat(blocks) == Concat(init) + blocks[n];
    if i < n {
      ConcatAt(init, m, i, j);
      MulMono(i + 1, n, m);
      assert i * m + j < n * m;
    } else {
      assert i * m + j == n * m + j;
    }
  }

  lemma MulMono(a: nat, b: nat, m: nat)
    requires a <= b
    ensures a * m <= b * m
  {
  }

  // ---------------------------------------------------------------------
  // str(int)
  // ---------------------------------------------------------------------

  function DigitChar(d: nat): (c: char)
    requires d < 10
    ensures '0' <= c <= '9'
  {
    (('0' as int) + d) as char
  }

  /** Decimal digits of a natural number, most significant first, no leading zero. */
  function NatToString(n: nat): (r: string)
    ensures |r| >= 1
    ensures forall i :: 0 <= i < |r| ==> '0' <= r[i] <= '9'
    ensures |r| > 1 ==> r[0] != '0'
    decreases n
  {
    if n < 10 then [DigitChar(n)]
    else NatToString(n / 10) + [DigitChar(n % 10)]
  }

  /** Python's str(i) for an integer. */
  function IntToString(i: int): (r: string)
    ensures |r| >= 1
    ensures i >= 0 <==> r[0] != '-'
  {
    if i >= 0 then NatToString(i) else "-" + NatToString(-i)
  }

  /** The value denoted by a string of decimal digits. */
  function DigitsValue(s: string): nat
    requires forall i :: 0 <= i < |s| ==> '0' <= s[i] <= '9'
  {
    if |s| == 0 then 0
    else 10 * DigitsValue(s[..|s| - 1]) + ((s[|s| - 1] as int) - ('0' as int))
  }

  lemma DigitCharValue(d: nat)
    requires d < 10
    ensures (DigitChar(d) as int) - ('0' as int) == d
  {
  }

  /** Reading the decimal rendering back gives the number. */
  lemma {:induction false} NatToStringValue(n: nat)
    ensures DigitsValue(NatToString(n)) == n
    decreases n
  {
    DigitCharValue(n % 10);
    if n >= 10 {
      NatToStringValue(n / 10);
      var s := NatToString(n);
      assert s[..|s| - 1] == NatToString(n / 10);
    } else {
      DigitCharValue(n);
    }
  }

  lemma NatToStringInjective(m: nat, n: nat)
    requires NatToString(m) == NatToString(n)
    ensures m == n
  {
    NatToStringValue(m);
    NatToStringValue(n);
  }

  /** Distinct integers render as distinct strings. */
  lemma IntToStringInjective(i: int, j: int)
    requires IntToString(i) == IntToString(j)
    ensures i == j
  {
    if i >= 0 && j >= 0 {
      NatToStringInjective(i, j);
    } else if i < 0 && j < 0 {
      var a, b := NatToString(-i), NatToString(-j);
      assert a == ("-" + a)[1..];
      assert b == ("-" + b)[1..];
      NatToStringInjective(-i, -j);
    }
  }
}
