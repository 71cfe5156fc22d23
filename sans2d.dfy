/** The SANS2D example script: reading the spectrum-number to detector-id
    map file, converting an event-id array in place with it, and the path
    arithmetic of __copy_log and __copy_and_truncate. */
module Sans2d {
  import opened Util
  import opened BuilderCalls

  // ---------------------------------------------------------------------
  // csv rows with delimiter ' ' and skipinitialspace
  // ---------------------------------------------------------------------

  /** The characters of s up to its first space. */
  function Word(s: string): (w: string)
    ensures w <= s && ' ' !in w
    ensures |w| < |s| ==> s[|w|] == ' '
  {
    if |s| == 0 || s[0] == ' ' then "" else [s[0]] + Word(s[1..])
  }

  /** The fields the csv reader produces from the start of a field on: spaces
      where a field would start are skipped, a space after a field ends it,
      and the end of the line after a space yields one last empty field. */
  function FieldsFrom(s: string): (r: seq<string>)
    ensures |r| >= 1
    decreases |s|
  {
    if |s| == 0 then [""]
    else if s[0] == ' ' then FieldsFrom(s[1..])
    else
      var w := Word(s);
      if |w| == |s| then [w] else [w] + FieldsFrom(s[|w| + 1..])
  }

  /** One row of the map file (a line without its terminator): an empty
      line is an empty row. Quoting is not modelled. */
  function Fields(line: string): (r: seq<string>)
    ensures r == [] <==> line == ""
  {
    if |line| == 0 then [] else FieldsFrom(line)
  }

  /** No field holds a space, and only the last one can be empty. */
  lemma {:induction false} FieldsShape(s: string)
    ensures forall i :: 0 <= i < |FieldsFrom(s)| ==> ' ' !in FieldsFrom(s)[i]
    ensures forall i :: 0 <= i < |FieldsFrom(s)| - 1 ==> FieldsFrom(s)[i] != ""
    decreases |s|
  {
    if |s| > 0 {
      if s[0] == ' ' {
        FieldsShape(s[1..]);
      } else {
        var w := Word(s);
        if |w| < |s| {
          FieldsShape(s[|w| + 1..]);
        }
      }
    }
  }

  lemma {:induction false} WordOfJoin(w: string, rest: string)
    requires ' ' !in w
    requires rest == "" || rest[0] == ' '
    ensures Word(w + rest) == w
    decreases |w|
  {
    if |w| > 0 {
      assert (w + rest)[1..] == w[1..] + rest;
      WordOfJoin(w[1..], rest);
    }
  }

  /** Space-separated non-empty fields without spaces are read back as
      written. */
  lemma {:induction false} FieldsOfJoin(fs: seq<string>)
    requires |fs| >= 1
    requires forall i :: 0 <= i < |fs| ==> fs[i] != "" && ' ' !in fs[i]
    ensures Fields(Join(fs, " ")) == fs
    decreases |fs|
  {
    if |fs| == 1 {
      WordOfJoin(fs[0], "");
      assert fs[0] + "" == fs[0];
    } else {
      var rest := Join(fs[1..], " ");
      var s := fs[0] + " " + rest;
      assert Join(fs, " ") == s;
      WordOfJoin(fs[0], " " + rest);
      assert fs[0] + (" " + rest) == s;
      assert s[|fs[0]| + 1..] == rest;
      FieldsOfJoin(fs[1..]);
      assert rest != "" by {
        assert Fields(rest) == fs[1..];
      }
      assert FieldsFrom(s) == [fs[0]] + FieldsFrom(rest);
    }
  }

  /** Spaces before a field are skipped, however many there are. */
  lemma FieldsSkipRepeatedSpaces()
    ensures Fields("  12  7") == ["12", "7"]
  {
    assert Word("12  7") == "12";
    assert FieldsFrom("12  7") == ["12"] + FieldsFrom(" 7");
    assert Word("7") == "7";
    assert FieldsFrom(" 7") == FieldsFrom("7") == ["7"];
  }

  /** A space after the last field gives one more, empty, field. */
  lemma FieldsTrailingSpace()
    ensures Fields("12 7 ") == ["12", "7", ""]
  {
    assert Word("12 7 ") == "12";
    assert FieldsFrom("12 7 ") == ["12"] + FieldsFrom("7 ");
    assert Word("7 ") == "7";
    assert FieldsFrom("7 ") == ["7"] + FieldsFrom("");
  }

  // ---------------------------------------------------------------------
  // int(field)
  // ---------------------------------------------------------------------

  predicate AllDigits(s: string) {
    forall i :: 0 <= i < |s| ==> '0' <= s[i] <= '9'
  }

  /** Python's int(s) for an optional sign followed by decimal digits;
      anything else is a ValueError (None). */
  function ParseInt(s: string): (r: Option<int>)
    ensures r.Some? ==> s != "" && s != "-" && s != "+"
  {
    if |s| >= 2 && (s[0] == '-' || s[0] == '+') && AllDigits(s[1..]) then
      var magnitude: int := DigitsValue(s[1..]);
      Some(if s[0] == '-' then -magnitude else magnitude)
    else if |s| >= 1 && AllDigits(s) then Some(DigitsValue(s))
    else None
  }

  /** Reading digits back gives their value. */
  lemma ParseDigits(s: string)
    requires |s| >= 1 && AllDigits(s)
    ensures ParseInt(s) == Some(DigitsValue(s))
  {
    assert '0' <= s[0] <= '9';
  }

  /** A minus sign before digits negates their value. */
  lemma ParseNegative(digits: string)
    requires |digits| >= 1 && AllDigits(digits)
    ensures ParseInt("-" + digits) == Some(-(DigitsValue(digits) as int))
  {
    assert ("-" + digits)[1..] == digits;
  }

  /** int(str(i)) == i. */
  lemma ParseIntRoundTrip(i: int)
    ensures ParseInt(IntToString(i)) == Some(i)
  {
    if i >= 0 {
      assert IntToString(i) == NatToString(i);
      ParseDigits(NatToString(i));
      NatToStringValue(i);
    } else {
      var digits := NatToString(-i);
      assert IntToString(i) == "-" + digits;
      ParseNegative(digits);
      NatToStringValue(-i);
    }
  }

  // ---------------------------------------------------------------------
  // The spectrum-number to detector-id map
  // ---------------------------------------------------------------------

  datatype RowError = MissingColumn | NotAnInteger(column: nat)

  /** Why reading the map file fails: the row on the given line (counted
      from 0, header included) is bad. */
  datatype MapError = BadRow(line: nat, error: RowError)

  /** The (spectrum, detector) entry of one row: int(rows[1]) is evaluated
      before int(rows[0]), and a row with fewer than two fields raises
      IndexError before either. */
  function ParseRow(fields: seq<string>): (r: Result<(int, int), RowError>)
    ensures r == Err(MissingColumn) <==> |fields| < 2
    ensures r.Ok? <==> |fields| >= 2 && ParseInt(fields[0]).Some? && ParseInt(fields[1]).Some?
    ensures r.Ok? ==> ParseInt(fields[1]) == Some(r.value.0) && ParseInt(fields[0]) == Some(r.value.1)
    ensures r == Err(NotAnInteger(0)) ==> ParseInt(fields[1]).Some?
  {
    if |fields| < 2 then Err(MissingColumn)
    else match ParseInt(fields[1])
      case None => Err(NotAnInteger(1))
      case Some(spectrum) =>
        match ParseInt(fields[0])
        case None => Err(NotAnInteger(0))
        case Some(detector) => Ok((spectrum, detector))
  }

  /** The entry of one line of the map file. */
  function RowEntry(line: string): (r: Result<(int, int), RowError>)
    ensures ' ' !in line ==> r == Err(MissingColumn)
  {
    ParseRow(Fields(line))
  }

  /** A line written as "<detector> <spectrum>" reads back as the entry
      (spectrum, detector). */
  lemma RowEntryRoundTrip(detector: int, spectrum: int)
    ensures RowEntry(IntToString(detector) + " " + IntToString(spectrum)) == Ok((spectrum, detector))
  {
    var fs := [IntToString(detector), IntToString(spectrum)];
    NoSpaceInInt(detector);
    NoSpaceInInt(spectrum);
    FieldsOfJoin(fs);
    assert Join(fs, " ") == IntToString(detector) + " " + IntToString(spectrum);
    ParseIntRoundTrip(detector);
    ParseIntRoundTrip(spectrum);
  }

  lemma NoSpaceInInt(i: int)
    ensures IntToString(i) != "" && ' ' !in IntToString(i)
  {
    var s := IntToString(i);
    if i < 0 {
      assert s == "-" + NatToString(-i);
    }
  }

  /** The entry of every row, in order. */
  function RowEntries(rows: seq<string>): (r: seq<Result<(int, int), RowError>>)
    ensures |r| == |rows| && forall i :: 0 <= i < |rows| ==> r[i] == RowEntry(rows[i])
  {
    seq(|rows|, i requires 0 <= i < |rows| => RowEntry(rows[i]))
  }

  /** The entries of rows read one after the other, the first of them on
      line `first` of the file; the first bad row stops the reading. */
  function Collect(results: seq<Result<(int, int), RowError>>, first: nat): (r: Result<seq<(int, int)>, MapError>)
    ensures r.Ok? ==> |r.value| == |results|
    ensures r.Ok? ==> forall i :: 0 <= i < |results| ==> results[i] == Ok(r.value[i])
    ensures r.Err? ==>
      first <= r.error.line < first + |results| &&
      results[r.error.line - first] == Err(r.error.error) &&
      forall i :: 0 <= i < r.error.line - first ==> results[i].Ok?
    decreases |results|
  {
    if |results| == 0 then Ok([])
    else match results[0]
      case Err(e) => Err(BadRow(first, e))
      case Ok(entry) =>
        match Collect(results[1..], first + 1)
        case Err(e) => Err(e)
        case Ok(entries) => Ok([entry] + entries)
  }

  /** A dict filled from the entries in order: a later entry overwrites an
      earlier one with the same key. */
  function FoldMap(entries: seq<(int, int)>): (m: map<int, int>)
    decreases |entries|
  {
    if |entries| == 0 then map[]
    else
      var n := |entries| - 1;
      FoldMap(entries[..n])[entries[n].0 := entries[n].1]
  }

  /** The last entry with a given key decides its value. */
  lemma {:induction false} FoldMapLastWins(entries: seq<(int, int)>, i: nat)
    requires i < |entries|
    requires forall j :: i < j < |entries| ==> entries[j].0 != entries[i].0
    ensures entries[i].0 in FoldMap(entries)
    ensures FoldMap(entries)[entries[i].0] == entries[i].1
    decreases |entries|
  {
    var n := |entries| - 1;
    if i < n {
      FoldMapLastWins(entries[..n], i);
    }
  }

  /** The keys are exactly the keys of the entries. */
  lemma {:induction false} FoldMapKeys(entries: seq<(int, int)>, k: int)
    ensures k in FoldMap(entries) <==> exists i :: 0 <= i < |entries| && entries[i].0 == k
    decreases |entries|
  {
    if |entries| > 0 {
      var n := |entries| - 1;
      FoldMapKeys(entries[..n], k);
      if k in FoldMap(entries[..n]) {
        var i :| 0 <= i < n && entries[..n][i].0 == k;
        assert entries[i].0 == k;
      }
      if exists i :: 0 <= i < |entries| && entries[i].0 == k {
        var i :| 0 <= i < |entries| && entries[i].0 == k;
        if i < n {
          assert entries[..n][i].0 == k;
        }
      }
    }
  }

  const HeaderLines: nat := 3

  /** Where the rows start: after three header lines, or at the end of a
      shorter file. */
  function RowsStart(lines: seq<string>): (h: nat)
    ensures h <= |lines| && h <= HeaderLines
    ensures h < HeaderLines ==> h == |lines|
  {
    if |lines| < HeaderLines then |lines| else HeaderLines
  }

  /** The dict of a sequence of row entries, or the first bad row. */
  function EntryMap(results: seq<Result<(int, int), RowError>>, first: nat): Result<map<int, int>, MapError>
  {
    match Collect(results, first)
    case Err(e) => Err(e)
    case Ok(entries) => Ok(FoldMap(entries))
  }

  /** __get_spectrum_number_to_detector_id_map on the lines of the file. */
  function SpectrumMap(lines: seq<string>): (r: Result<map<int, int>, MapError>)
    ensures |lines| <= HeaderLines ==> r == Ok(map[])
    ensures r.Err? ==> HeaderLines <= r.error.line < |lines| && RowEntry(lines[r.error.line]) == Err(r.error.error)
  {
    var h := RowsStart(lines);
    EntryMap(RowEntries(lines[h..]), h)
  }

  /** Only the rows after the three header lines matter. */
  lemma HeaderIgnored(h1: seq<string>, h2: seq<string>, rows: seq<string>)
    requires |h1| == HeaderLines && |h2| == HeaderLines
    ensures SpectrumMap(h1 + rows) == SpectrumMap(h2 + rows)
  {
    assert (h1 + rows)[HeaderLines..] == rows;
    assert (h2 + rows)[HeaderLines..] == rows;
  }

  /** In the dict of the entries, the last entry with a key decides its
      value. */
  lemma EntryMapLastWins(results: seq<Result<(int, int), RowError>>, first: nat, k: nat, key: int, value: int)
    requires EntryMap(results, first).Ok?
    requires k < |results| && results[k] == Ok((key, value))
    requires forall j :: k < j < |results| ==> results[j].Ok? ==> results[j].value.0 != key
    ensures key in EntryMap(results, first).value
    ensures EntryMap(results, first).value[key] == value
  {
    var entries := Collect(results, first).value;
    forall j | k < j < |entries|
      ensures entries[j].0 != entries[k].0
    {
      assert results[j] == Ok(entries[j]);
    }
    FoldMapLastWins(entries, k);
  }

  /** The keys of the dict of the entries are the keys of the entries. */
  lemma EntryMapKeys(results: seq<Result<(int, int), RowError>>, first: nat, key: int)
    requires EntryMap(results, first).Ok?
    ensures key in EntryMap(results, first).value <==>
      exists k :: 0 <= k < |results| && results[k].Ok? && results[k].value.0 == key
  {
    var entries := Collect(results, first).value;
    FoldMapKeys(entries, key);
    if key in EntryMap(results, first).value {
      var k :| 0 <= k < |entries| && entries[k].0 == key;
      assert results[k] == Ok(entries[k]);
    }
    if exists k :: 0 <= k < |results| && results[k].Ok? && results[k].value.0 == key {
      var k :| 0 <= k < |results| && results[k].Ok? && results[k].value.0 == key;
      assert results[k] == Ok(entries[k]);
    }
  }

  /** A successful read maps every spectrum number of a row, and the value
      of a spectrum number is the detector id of the last row naming it. */
  lemma SpectrumMapLastRowWins(lines: seq<string>, i: nat, spectrum: int, detector: int)
    requires SpectrumMap(lines).Ok?
    requires HeaderLines <= i < |lines|
    requires RowEntry(lines[i]) == Ok((spectrum, detector))
    requires forall j :: i < j < |lines| ==>
               RowEntry(lines[j]).Ok? ==> RowEntry(lines[j]).value.0 != spectrum
    ensures spectrum in SpectrumMap(lines).value
    ensures SpectrumMap(lines).value[spectrum] == detector
  {
    var results := RowEntries(lines[HeaderLines..]);
    var k := i - HeaderLines;
    assert results[k] == Ok((spectrum, detector)) by {
      RowEntriesShift(lines, HeaderLines, k);
      assert HeaderLines + k == i;
    }
    LaterEntriesOtherKeys(lines, i, spectrum);
    assert EntryMap(results, HeaderLines).Ok? by {
      assert RowsStart(lines) == HeaderLines;
    }
    EntryMapLastWins(results, HeaderLines, k, spectrum, detector);
  }

  /** The rows after line i, none naming the spectrum number, give entries
      with other keys. */
  lemma LaterEntriesOtherKeys(lines: seq<string>, i: nat, spectrum: int)
    requires HeaderLines <= i < |lines|
    requires forall j :: i < j < |lines| ==>
               RowEntry(lines[j]).Ok? ==> RowEntry(lines[j]).value.0 != spectrum
    ensures var results := RowEntries(lines[HeaderLines..]);
      forall j :: i - HeaderLines < j < |results| ==> results[j].Ok? ==> results[j].value.0 != spectrum
  {
    var results := RowEntries(lines[HeaderLines..]);
    forall j | i - HeaderLines < j < |results|
      ensures results[j].Ok? ==> results[j].value.0 != spectrum
    {
      RowEntriesShift(lines, HeaderLines, j);
    }
  }

  /** The spectrum number of every row is a key of a successful read. */
  lemma SpectrumMapHasRowKey(lines: seq<string>, i: nat)
    requires SpectrumMap(lines).Ok?
    requires HeaderLines <= i < |lines| && RowEntry(lines[i]).Ok?
    ensures RowEntry(lines[i]).value.0 in SpectrumMap(lines).value
  {
    var results := RowEntries(lines[HeaderLines..]);
    var k := i - HeaderLines;
    RowEntriesShift(lines, HeaderLines, k);
    EntryMapKeys(results, HeaderLines, results[k].value.0);
  }

  /** Every key of a successful read is the spectrum number of a row. */
  lemma SpectrumMapKeyFromRow(lines: seq<string>, spectrum: int)
    requires SpectrumMap(lines).Ok? && spectrum in SpectrumMap(lines).value
    ensures exists i :: HeaderLines <= i < |lines| && RowEntry(lines[i]).Ok? &&
                        RowEntry(lines[i]).value.0 == spectrum
  {
    var h := RowsStart(lines);
    var results := RowEntries(lines[h..]);
    EntryMapKeys(results, h, spectrum);
    var k :| 0 <= k < |results| && results[k].Ok? && results[k].value.0 == spectrum;
    RowEntriesShift(lines, h, k);
  }

  /** The read succeeds exactly when every row after the header parses;
      a failure names the first bad row. */
  lemma SpectrumMapOkExactly(lines: seq<string>)
    ensures SpectrumMap(lines).Ok? <==> forall i :: HeaderLines <= i < |lines| ==> RowEntry(lines[i]).Ok?
    ensures SpectrumMap(lines).Err? ==>
      forall i :: HeaderLines <= i < SpectrumMap(lines).error.line ==> RowEntry(lines[i]).Ok?
  {
    var h := RowsStart(lines);
    var results := RowEntries(lines[h..]);
    assert SpectrumMap(lines).Ok? <==> Collect(results, h).Ok?;
    CollectOkExactly(results, h);
    forall i | HeaderLines <= i < |lines| ensures RowEntry(lines[i]) == results[i - h] {
      RowEntriesShift(lines, h, i - h);
    }
  }

  /** Collecting succeeds exactly when every entry is Ok. */
  lemma CollectOkExactly(results: seq<Result<(int, int), RowError>>, first: nat)
    ensures Collect(results, first).Ok? <==> forall i :: 0 <= i < |results| ==> results[i].Ok?
  {
    var c := Collect(results, first);
    if c.Err? {
      assert !results[c.error.line - first].Ok?;
    }
  }

  /** Entry k of the rows from line h on is the entry of line h + k. */
  lemma RowEntriesShift(lines: seq<string>, h: nat, k: nat)
    requires h <= |lines| && k < |lines| - h
    ensures RowEntries(lines[h..])[k] == RowEntry(lines[h + k])
  {
    assert lines[h..][k] == lines[h + k];
  }

  /** The map file as the script reads it: line by line, and then the rest
      through the csv reader. */
  class MapFile {
    const lines: seq<string>
    var position: nat

    predicate Valid()
      reads this
    {
      position <= |lines|
    }

    constructor (lines: seq<string>)
      ensures this.lines == lines && position == 0 && Valid()
    {
      this.lines := lines;
      position := 0;
    }

    /** readline(): the next line, or "" at the end of the file. */
    method ReadLine() returns (line: string)
      requires Valid()
      modifies this
      ensures Valid()
      ensures old(position) < |lines| ==> line == lines[old(position)] && position == old(position) + 1
      ensures old(position) == |lines| ==> line == "" && position == old(position)
    {
      if position < |lines| {
        line := lines[position];
        position := position + 1;
      } else {
        line := "";
      }
    }
  }

  /** Skip the three header lines, then build the map from the rest. */
  method ReadSpectrumMap(file: MapFile) returns (r: Result<map<int, int>, MapError>)
    requires file.Valid() && file.position == 0
    modifies file
    ensures r == SpectrumMap(file.lines)
  {
    var n := 0;
    while n < HeaderLines
      invariant 0 <= n <= HeaderLines
      invariant file.Valid()
      invariant file.position == if n < |file.lines| then n else |file.lines|
    {
      var _ := file.ReadLine();
      n := n + 1;
    }
    var start := file.position;
    assert start == RowsStart(file.lines);
    r := EntryMap(RowEntries(file.lines[start..]), start);
  }

  // ---------------------------------------------------------------------
  // Spectrum numbers to detector ids, in place
  // ---------------------------------------------------------------------

  /** The position of the first spectrum number the map does not know, or
      |s| when it knows them all. */
  function FirstUnknown(s: seq<int>, m: map<int, int>): (i: nat)
    ensures i <= |s|
    ensures forall k :: 0 <= k < i ==> s[k] in m
    ensures i < |s| ==> s[i] !in m
  {
    if |s| == 0 || s[0] !in m then 0 else 1 + FirstUnknown(s[1..], m)
  }

  /** Every element replaced by the detector id the map gives it. */
  function Converted(s: seq<int>, m: map<int, int>): (r: seq<int>)
    requires forall k :: 0 <= k < |s| ==> s[k] in m
    ensures |r| == |s| && forall k :: 0 <= k < |s| ==> r[k] == m[s[k]]
  {
    seq(|s|, k requires 0 <= k < |s| => m[s[k]])
  }

  /** __convert_spectrum_numbers_to_detector_ids with the map already read:
      each element, in order, is overwritten by its detector id. An unknown
      spectrum number stops the loop with KeyError, reported as the missing
      key; the elements before it have been converted and the rest are
      untouched. */
  method ConvertSpectrumNumbers(ids: array<int>, detSpecMap: map<int, int>) returns (missing: Option<int>)
    modifies ids
    ensures missing.None? <==> FirstUnknown(old(ids[..]), detSpecMap) == ids.Length
    ensures missing.None? ==> ids[..] == Converted(old(ids[..]), detSpecMap)
    ensures missing.Some? ==>
      var stop := FirstUnknown(old(ids[..]), detSpecMap);
      stop < ids.Length && missing.value == old(ids[stop]) && missing.value !in detSpecMap &&
      ids[..stop] == Converted(old(ids[..stop]), detSpecMap) &&
      ids[stop..] == old(ids[stop..])
  {
    ghost var original := ids[..];
    var i := 0;
    while i < ids.Length
      invariant 0 <= i <= ids.Length
      invariant i <= FirstUnknown(original, detSpecMap)
      invariant forall k :: 0 <= k < i ==> ids[k] == detSpecMap[original[k]]
      invariant forall k :: i <= k < ids.Length ==> ids[k] == original[k]
    {
      if ids[i] !in detSpecMap {
        missing := Some(ids[i]);
        assert FirstUnknown(original, detSpecMap) == i;
        assert ids[..i] == Converted(original[..i], detSpecMap);
        return;
      }
      ids[i] := detSpecMap[ids[i]];
      i := i + 1;
    }
    missing := None;
  }

  // ---------------------------------------------------------------------
  // __copy_log
  // ---------------------------------------------------------------------

  /** The builder calls of __copy_log. With a component class, the last
      '/'-segment of the destination names the NXlog and the one before it
      the component, created under the segments between the first and those
      two; split('/')[-2] raises IndexError when there is no '/'. The time
      and value datasets are copied in every case. */
  function CopyLog(source: string, destination: string, nxComponentClass: Option<string>)
    : (r: Result<seq<Call>, PathError>)
    ensures r.Err? <==> nxComponentClass.Some? && '/' !in destination
    ensures r.Ok? ==> |r.value| >= 1 && r.value[|r.value| - 1] == CopyItems(LogCopies(source, destination))
    ensures nxComponentClass.None? ==> r == Ok([CopyItems(LogCopies(source, destination))])
  {
    if nxComponentClass.None? then Ok([CopyItems(LogCopies(source, destination))])
    else
      var parts := Split(destination, '/');
      SplitSingle(destination, '/');
      if |parts| < 2 then Err(NoComponentSegment)
      else
        var n := |parts|;
        Ok([AddNxGroup(AtPath(Join(Slice(parts, 1, -2), "/")), parts[n - 2], nxComponentClass.value),
            AddNxGroup(PreviousGroup, parts[n - 1], "NXlog"),
            CopyItems(LogCopies(source, destination))])
  }

  /** For a destination built from segments: the component is the
      second-last segment, created under the segments after the first and
      before the component, and the log is the last segment. */
  lemma CopyLogSegments(source: string, segments: seq<string>, nxComponentClass: string)
    requires |segments| >= 2
    requires forall i :: 0 <= i < |segments| ==> '/' !in segments[i]
    ensures var n := |segments|;
      CopyLog(source, Join(segments, "/"), Some(nxComponentClass)) ==
      Ok([AddNxGroup(AtPath(Join(Slice(segments, 1, -2), "/")), segments[n - 2], nxComponentClass),
          AddNxGroup(PreviousGroup, segments[n - 1], "NXlog"),
          CopyItems(LogCopies(source, Join(segments, "/")))])
  {
    SplitJoin(segments, '/');
  }

  /** The guide pressure log of the script's main block: the NXguide
      guide_1 goes under instrument (the entry name is dropped), and the
      NXlog pressure under it. */
  lemma GuidePressureLog(entry: string)
    requires entry != "" && '/' !in entry
    ensures var destination := Join([entry, "instrument", "guide_1", "pressure"], "/");
      CopyLog("raw_data_1/selog/Guide_Pressure/value_log", destination, Some("NXguide")) ==
      Ok([AddNxGroup(AtPath("instrument"), "guide_1", "NXguide"),
          AddNxGroup(PreviousGroup, "pressure", "NXlog"),
          CopyItems(LogCopies("raw_data_1/selog/Guide_Pressure/value_log", destination))])
  {
    var segments := [entry, "instrument", "guide_1", "pressure"];
    CopyLogSegments("raw_data_1/selog/Guide_Pressure/value_log", segments, "NXguide");
    SliceFromEnd(segments, 1, 2);
    assert segments[1..2] == ["instrument"];
  }

  // ---------------------------------------------------------------------
  // __copy_and_truncate
  // ---------------------------------------------------------------------

  /** The target path after `if target[0] == "/": target = target[0:]`:
      the slice from 0 is the whole path, so a leading '/' stays. */
  function TargetPath(target: string): (path: string)
    requires target != ""
    ensures path == target
  {
    if target[0] == '/' then
      assert target[0..|target|] == target;
      Slice(target, 0, |target|)
    else target
  }

  /** The parent as written: the segments between the first and the last,
      joined with "". It never holds a '/', so it always names a single
      group directly below the root. */
  function ParentAsWritten(path: string): (parent: string)
    ensures '/' !in parent
  {
    var parts := Slice(Split(path, '/'), 1, -1);
    assert forall i :: 0 <= i < |parts| ==> '/' !in parts[i];
    JoinEmptyNoSep(parts, '/');
    Join(parts, "")
  }

  /** The dataset name: the last '/'-segment. */
  function LastSegment(path: string): (name: string)
    ensures '/' !in name
  {
    var parts := Split(path, '/');
    parts[|parts| - 1]
  }

  /** __copy_and_truncate as written: target[0] raises IndexError on an
      empty path; the dataset goes under ParentAsWritten, is named by the
      last segment, and holds source[:truncate_to_size]. */
  function CopyAndTruncate(source: seq<int>, target: string, truncateToSize: int): (r: Result<Call, PathError>)
    ensures r.Err? <==> target == ""
    ensures r.Ok? ==> r.value.AddDataset? && r.value.data == Slice(source, 0, truncateToSize)
  {
    if |target| == 0 then Err(EmptyPath)
    else
      var path := TargetPath(target);
      Ok(AddDataset(ParentAsWritten(path), LastSegment(path), Slice(source, 0, truncateToSize)))
  }

  /** The copied data is the first truncate_to_size elements, or all of
      them when there are fewer. */
  lemma TruncatedData(source: seq<int>, size: nat)
    ensures Slice(source, 0, size) == source[..if size < |source| then size else |source|]
  {
  }

  /** For a path built from segments, the parent as written is the
      segments between the first and the last run together, and the name
      is the last segment. */
  lemma ParentOfSegments(segments: seq<string>)
    requires |segments| >= 1
    requires forall i :: 0 <= i < |segments| ==> '/' !in segments[i]
    ensures ParentAsWritten(Join(segments, "/")) == Join(Slice(segments, 1, -1), "")
    ensures LastSegment(Join(segments, "/")) == segments[|segments| - 1]
  {
    var path := Join(segments, "/");
    assert Split(path, '/') == segments by {
      SplitJoin(segments, '/');
    }
    SegmentsOf(path, segments);
  }

  /** The parent as written and the name, read off the segments of the
      path. */
  lemma SegmentsOf(path: string, parts: seq<string>)
    requires Split(path, '/') == parts
    ensures |parts| >= 1
    ensures ParentAsWritten(path) == Join(Slice(parts, 1, -1), "")
    ensures LastSegment(path) == parts[|parts| - 1]
  {
  }

  lemma JoinNonEmpty(parts: seq<string>, sep: string)
    requires |parts| >= 1 && parts[0] != ""
    ensures Join(parts, sep) != "" && Join(parts, sep)[0] == parts[0][0]
  {
  }

  /** As written, for a path built from segments, the first of them not
      empty: the call the function makes. */
  lemma CopyAndTruncateSegments(source: seq<int>, segments: seq<string>, truncateToSize: int)
    requires |segments| >= 1 && segments[0] != ""
    requires forall i :: 0 <= i < |segments| ==> '/' !in segments[i]
    ensures CopyAndTruncate(source, Join(segments, "/"), truncateToSize) ==
      Ok(AddDataset(Join(Slice(segments, 1, -1), ""), segments[|segments| - 1], Slice(source, 0, truncateToSize)))
  {
    JoinNonEmpty(segments, "/");
    ParentOfSegments(segments);
  }

  /** Joining with "" puts no separator in. */
  lemma {:induction false} JoinEmptyNoSep(parts: seq<string>, sep: char)
    requires forall i :: 0 <= i < |parts| ==> sep !in parts[i]
    ensures sep !in Join(parts, "")
    decreases |parts|
  {
    if |parts| > 1 {
      JoinEmptyNoSep(parts[1..], sep);
      assert Join(parts, "") == parts[0] + Join(parts[1..], "");
    }
  }

  /** As written, a target with two or more groups between the entry and
      the dataset names one parent group: the groups run together, and
      the parent path no longer splits into them. */
  lemma CopyAndTruncateMergesGroups(source: seq<int>, segments: seq<string>, truncateToSize: int)
    requires |segments| >= 4 && segments[0] != ""
    requires forall i :: 0 <= i < |segments| ==> '/' !in segments[i]
    ensures var parent := CopyAndTruncate(source, Join(segments, "/"), truncateToSize).value.parentPath;
      parent == Join(segments[1..|segments| - 1], "") &&
      Split(parent, '/') == [parent] != segments[1..|segments| - 1]
  {
    CopyAndTruncateSegments(source, segments, truncateToSize);
    var middle := segments[1..|segments| - 1];
    SliceFromEnd(segments, 1, 1);
    JoinEmptyNoSep(middle, '/');
    SplitNoSep(Join(middle, ""), '/');
  }

  /** For a three-segment target "root/group/name" with no leading '/',
      the copy as written and the corrected copy make the same call: the
      dataset `name` under the parent group `group`. */
  lemma CopyAndTruncateThreeSegments(source: seq<int>, truncateToSize: int, root: string, group: string, name: string)
    requires root != "" && '/' !in root && '/' !in group && '/' !in name
    ensures CopyAndTruncate(source, root + "/" + group + "/" + name, truncateToSize) ==
      Ok(AddDataset(group, name, Slice(source, 0, truncateToSize)))
    ensures CopyAndTruncateFixed(source, root + "/" + group + "/" + name, truncateToSize) ==
      CopyAndTruncate(source, root + "/" + group + "/" + name, truncateToSize)
  {
    var segments := [root, group, name];
    var target := Join(segments, "/");
    assert target == root + "/" + group + "/" + name by {
      assert Join(segments[1..], "/") == group + "/" + name by {
        assert segments[1..][1..] == [name];
      }
    }
    assert forall i :: 0 <= i < |segments| ==> '/' !in segments[i];
    var data := Slice(source, 0, truncateToSize);
    assert Join(Slice(segments, 1, -1), "") == group by {
      assert Slice(segments, 1, -1) == [group];
    }
    CopyAndTruncateSegments(source, segments, truncateToSize);
    assert CopyAndTruncate(source, target, truncateToSize) == Ok(AddDataset(group, name, data));
    assert Join(segments[1..2], "/") == group by {
      assert segments[1..2] == [group];
    }
    CopyAndTruncateFixedPaths(source, segments, false, truncateToSize);
    assert "" + target == target;
  }

  /** The script's commented-out copies (event_id, event_index,
      event_time_zero, event_time_offset) have three segments and no
      leading '/': as written they name the parent group
      "detector_1_events" and the dataset by its last segment, exactly as
      the corrected copy does, so neither defect shows on them. */
  lemma CopyAndTruncateDetectorEvents(source: seq<int>, truncateToSize: int, name: string)
    requires '/' !in name
    ensures CopyAndTruncate(source, "raw_data_1/detector_1_events/" + name, truncateToSize) ==
      Ok(AddDataset("detector_1_events", name, Slice(source, 0, truncateToSize)))
    ensures CopyAndTruncateFixed(source, "raw_data_1/detector_1_events/" + name, truncateToSize) ==
      CopyAndTruncate(source, "raw_data_1/detector_1_events/" + name, truncateToSize)
  {
    var root, group := "raw_data_1", "detector_1_events";
    assert '/' !in root && '/' !in group;
    assert root + "/" + group + "/" + name == "raw_data_1/detector_1_events/" + name;
    CopyAndTruncateThreeSegments(source, truncateToSize, root, group, name);
  }

  /** As written, a leading '/' is not removed: the first split segment
      is the empty one before it, so the entry name becomes part of the
      parent, which then differs from the parent of the same path without
      the '/'. For instance "/raw_data_1/detector_1_events/event_id" gives
      "raw_data_1detector_1_events" where "raw_data_1/detector_1_events/event_id"
      gives "detector_1_events". */
  lemma CopyAndTruncateKeepsLeadingSlash(source: seq<int>, path: string, truncateToSize: int)
    requires path != "" && path[0] != '/' && '/' in path
    ensures var withSlash := CopyAndTruncate(source, "/" + path, truncateToSize).value.parentPath;
      var without := CopyAndTruncate(source, path, truncateToSize).value.parentPath;
      withSlash == Split(path, '/')[0] + without && withSlash != without
  {
    ParentGainsFirstSegment(path);
  }

  /** With a '/' in front, the parent as written gains the path's first
      segment, which is not empty. */
  lemma ParentGainsFirstSegment(path: string)
    requires path != "" && path[0] != '/' && '/' in path
    ensures Split(path, '/')[0] != ""
    ensures ParentAsWritten("/" + path) == Split(path, '/')[0] + ParentAsWritten(path)
  {
    var parts := Split(path, '/');
    var m := |parts|;
    assert m >= 2 by {
      SplitSingle(path, '/');
    }
    assert parts[0] != "" by {
      assert parts[0] == [path[0]] + Split(path[1..], '/')[0];
    }
    var padded := [""] + parts;
    assert ParentAsWritten("/" + path) == Join(parts[..m - 1], "") by {
      assert Split("/" + path, '/') == padded by {
        SplitPrefix("", path, '/');
        assert "" + ['/'] + path == "/" + path;
      }
      SliceFromEnd(padded, 1, 1);
      assert padded[1..m] == parts[..m - 1];
    }
    assert ParentAsWritten(path) == Join(parts[1..m - 1], "") by {
      SliceFromEnd(parts, 1, 1);
    }
    assert Join(parts[..m - 1], "") == parts[0] + Join(parts[1..m - 1], "") by {
      JoinEmptyCons(parts[..m - 1]);
      assert parts[..m - 1][1..] == parts[1..m - 1];
    }
  }

  /** The target path with a leading '/' removed, as evidently intended. */
  function TargetPathFixed(target: string): (path: string)
    requires target != ""
  {
    if target[0] == '/' then target[1..] else target
  }

  /** The parent as evidently intended: the segments between the first and
      the last, joined with '/'. */
  function ParentFixed(path: string): string
  {
    Join(Slice(Split(path, '/'), 1, -1), "/")
  }

  /** __copy_and_truncate as evidently intended: a leading '/' is
      stripped and the parent keeps its '/' separators. */
  function CopyAndTruncateFixed(source: seq<int>, target: string, truncateToSize: int): (r: Result<Call, PathError>)
    ensures r.Err? <==> target == ""
    ensures r.Ok? ==> r.value.AddDataset? && r.value.data == Slice(source, 0, truncateToSize)
  {
    if |target| == 0 then Err(EmptyPath)
    else
      var path := TargetPathFixed(target);
      Ok(AddDataset(ParentFixed(path), LastSegment(path), Slice(source, 0, truncateToSize)))
  }

  /** The corrected copy names the groups between the entry and the
      dataset as a '/'-path, whether or not the target starts with '/';
      splitting that parent path gives those groups back. */
  lemma CopyAndTruncateFixedPaths(source: seq<int>, segments: seq<string>, leadingSlash: bool, truncateToSize: int)
    requires |segments| >= 2 && segments[0] != ""
    requires forall i :: 0 <= i < |segments| ==> '/' !in segments[i]
    ensures var target := (if leadingSlash then "/" else "") + Join(segments, "/");
      var n := |segments|;
      CopyAndTruncateFixed(source, target, truncateToSize) ==
        Ok(AddDataset(Join(segments[1..n - 1], "/"), segments[n - 1], Slice(source, 0, truncateToSize)))
    ensures |segments| >= 3 ==> Split(Join(segments[1..|segments| - 1], "/"), '/') == segments[1..|segments| - 1]
  {
    var joined := Join(segments, "/");
    var target := (if leadingSlash then "/" else "") + joined;
    JoinNonEmpty(segments, "/");
    assert TargetPathFixed(target) == joined by {
      if leadingSlash {
        assert target[0] == '/' && target[1..] == joined;
      } else {
        assert target == joined;
      }
    }
    FixedParts(segments);
    if |segments| >= 3 {
      MiddleSplits(segments);
    }
  }

  /** The segments between the first and the last, joined with '/', split
      back into themselves. */
  lemma MiddleSplits(segments: seq<string>)
    requires |segments| >= 3
    requires forall i :: 0 <= i < |segments| ==> '/' !in segments[i]
    ensures Split(Join(segments[1..|segments| - 1], "/"), '/') == segments[1..|segments| - 1]
  {
    var middle := segments[1..|segments| - 1];
    forall i | 0 <= i < |middle|
      ensures '/' !in middle[i]
    {
      assert middle[i] == segments[i + 1];
    }
    SplitJoin(middle, '/');
  }

  /** The corrected parent and the name of a path built from segments. */
  lemma FixedParts(segments: seq<string>)
    requires |segments| >= 2
    requires forall i :: 0 <= i < |segments| ==> '/' !in segments[i]
    ensures ParentFixed(Join(segments, "/")) == Join(segments[1..|segments| - 1], "/")
    ensures LastSegment(Join(segments, "/")) == segments[|segments| - 1]
  {
    SplitJoin(segments, '/');
    SliceFromEnd(segments, 1, 1);
  }
}
