/** The AMOR supplement script: the name of the file it writes, derived
    from the input file name, and the start time it re-emits in ISO 8601
    form. Reading and writing the HDF5 files is not part of this model; the
    input file name and the stored start-time string are parameters. */
module Amor {
  import opened Util

  // ---------------------------------------------------------------------
  // output_filename
  // ---------------------------------------------------------------------

  const TweakedSuffix: string := "_tweaked.nxs"

  /** ''.join(input_file.split('.')[:-1]) + "_tweaked.nxs". */
  function OutputFilename(inputFile: string): (r: string)
    ensures |r| >= |TweakedSuffix| && r[|r| - |TweakedSuffix|..] == TweakedSuffix
  {
    Join(Slice(Split(inputFile, '.'), 0, -1), "") + TweakedSuffix
  }

  /** The position of the last '.' of s. */
  function LastDot(s: string): (k: nat)
    requires '.' in s
    ensures k < |s| && s[k] == '.' && '.' !in s[k + 1..]
  {
    if s[|s| - 1] == '.' then |s| - 1
    else
      assert '.' in s[..|s| - 1] by {
        var i :| 0 <= i < |s| && s[i] == '.';
        assert s[..|s| - 1][i] == '.';
      }
      var k := LastDot(s[..|s| - 1]);
      assert s[k + 1..] == s[..|s| - 1][k + 1..] + [s[|s| - 1]];
      k
  }

  /** The output name is the input up to its last '.', with every other
      '.' dropped too, followed by the suffix; an input without '.' gives
      the bare suffix. So "a.b.hdf" gives "ab_tweaked.nxs" and "./x.hdf"
      gives "/x_tweaked.nxs". */
  lemma OutputFilenameStem(inputFile: string)
    ensures '.' in inputFile ==>
      OutputFilename(inputFile) == RemoveAll(inputFile[..LastDot(inputFile)], '.') + TweakedSuffix
    ensures '.' !in inputFile ==> OutputFilename(inputFile) == TweakedSuffix
  {
    var parts := Split(inputFile, '.');
    if '.' in inputFile {
      var k := LastDot(inputFile);
      SplitAtLast(inputFile, '.', k);
      var front := Split(inputFile[..k], '.');
      assert Slice(parts, 0, -1) == front by {
        assert parts == front + [inputFile[k + 1..]];
        assert parts[..|parts| - 1] == front;
      }
      JoinEmptySplit(inputFile[..k], '.');
    } else {
      SplitNoSep(inputFile, '.');
      assert Slice(parts, 0, -1) == [];
    }
  }

  /** The output name has no '.' before the suffix, whatever the input. */
  lemma OutputFilenameDotFree(inputFile: string)
    ensures var r := OutputFilename(inputFile);
      '.' !in r[..|r| - |TweakedSuffix|]
  {
    OutputFilenameStem(inputFile);
    var r := OutputFilename(inputFile);
    if '.' in inputFile {
      assert r[..|r| - |TweakedSuffix|] == RemoveAll(inputFile[..LastDot(inputFile)], '.');
    } else {
      assert r[..|r| - |TweakedSuffix|] == "";
    }
  }

  // ---------------------------------------------------------------------
  // start_time: strptime("%Y-%m-%d %H:%M:%S") then isoformat()
  // ---------------------------------------------------------------------

  datatype DateTime = DateTime(year: nat, month: nat, day: nat, hour: nat, minute: nat, second: nat)

  predicate IsLeapYear(year: nat)
  {
    year % 4 == 0 && (year % 100 != 0 || year % 400 == 0)
  }

  function DaysInMonth(year: nat, month: nat): (days: nat)
    requires 1 <= month <= 12
    ensures 28 <= days <= 31
  {
    if month == 2 then (if IsLeapYear(year) then 29 else 28)
    else if month == 4 || month == 6 || month == 9 || month == 11 then 30
    else 31
  }

  /** What the datetime constructor accepts (years 1 .. 9999, no leap
      seconds). */
  predicate Valid(dt: DateTime)
  {
    1 <= dt.year <= 9999 && 1 <= dt.month <= 12 && 1 <= dt.day <= DaysInMonth(dt.year, dt.month) &&
    dt.hour < 24 && dt.minute < 60 && dt.second < 60
  }

  /** Each field fits its zero-padded width: four digits for the year,
      two for the others. */
  predicate Fits(dt: DateTime)
  {
    dt.year < 10000 && dt.month < 100 && dt.day < 100 && dt.hour < 100 && dt.minute < 100 && dt.second < 100
  }

  predicate IsDigit(c: char)
  {
    '0' <= c <= '9'
  }

  function DigitValue(c: char): (d: nat)
    requires IsDigit(c)
    ensures d < 10
  {
    (c as int) - ('0' as int)
  }

  /** s has the shape "DDDD-DD-DD?DD:DD:DD", with `sep` at the '?'. */
  predicate Shaped(s: string, sep: char)
  {
    |s| == 19 &&
    IsDigit(s[0]) && IsDigit(s[1]) && IsDigit(s[2]) && IsDigit(s[3]) && s[4] == '-' &&
    IsDigit(s[5]) && IsDigit(s[6]) && s[7] == '-' &&
    IsDigit(s[8]) && IsDigit(s[9]) && s[10] == sep &&
    IsDigit(s[11]) && IsDigit(s[12]) && s[13] == ':' &&
    IsDigit(s[14]) && IsDigit(s[15]) && s[16] == ':' &&
    IsDigit(s[17]) && IsDigit(s[18])
  }

  /** The two-digit number at positions i, i + 1. */
  function TwoDigits(s: string, i: nat): (n: nat)
    requires i + 1 < |s| && IsDigit(s[i]) && IsDigit(s[i + 1])
    ensures n < 100
  {
    10 * DigitValue(s[i]) + DigitValue(s[i + 1])
  }

  /** The date and time written in a shaped string. */
  function Fields(s: string): DateTime
    requires Shaped(s, ' ')
  {
    DateTime(100 * TwoDigits(s, 0) + TwoDigits(s, 2), TwoDigits(s, 5), TwoDigits(s, 8),
             TwoDigits(s, 11), TwoDigits(s, 14), TwoDigits(s, 17))
  }

  /** datetime.strptime(s, "%Y-%m-%d %H:%M:%S") on zero-padded input: None
      where it raises ValueError, for a string that does not match the
      format or a date or time out of range (a 30 February, a 29 February
      outside a leap year, second 60). */
  function ParseStartTime(s: string): (r: Option<DateTime>)
    ensures r.Some? ==> Shaped(s, ' ') && Valid(r.value)
  {
    if !Shaped(s, ' ') then None
    else
      var dt := Fields(s);
      if Valid(dt) then Some(dt) else None
  }

  /** The two zero-padded digits of n < 100. */
  function Pad2(n: nat): (r: seq<char>)
    requires n < 100
    ensures |r| == 2 && IsDigit(r[0]) && IsDigit(r[1])
  {
    [DigitChar(n / 10), DigitChar(n % 10)]
  }

  /** The date and time as "YYYY-MM-DD?HH:MM:SS", zero-padded, with `sep`
      at the '?'. */
  function Render(dt: DateTime, sep: char): (s: string)
    requires Fits(dt)
    ensures |s| == 19
  {
    var y, m, d, h, mi, se := Pad2(dt.year / 100), Pad2(dt.month), Pad2(dt.day),
                              Pad2(dt.hour), Pad2(dt.minute), Pad2(dt.second);
    var y2 := Pad2(dt.year % 100);
    [y[0], y[1], y2[0], y2[1], '-', m[0], m[1], '-', d[0], d[1], sep,
     h[0], h[1], ':', mi[0], mi[1], ':', se[0], se[1]]
  }

  /** A rendering has the shape strptime's format describes. */
  lemma RenderShaped(dt: DateTime, sep: char)
    requires Fits(dt)
    ensures Shaped(Render(dt, sep), sep)
  {
    var s := Render(dt, sep);
    assert IsDigit(s[0]) && IsDigit(s[1]) && IsDigit(s[2]) && IsDigit(s[3]);
    assert IsDigit(s[5]) && IsDigit(s[6]) && IsDigit(s[8]) && IsDigit(s[9]);
    assert IsDigit(s[11]) && IsDigit(s[12]) && IsDigit(s[14]) && IsDigit(s[15]);
    assert IsDigit(s[17]) && IsDigit(s[18]);
  }

  /** isoformat() of a datetime without microseconds or time zone:
      "YYYY-MM-DDTHH:MM:SS". */
  function IsoFormat(dt: DateTime): (s: string)
    requires Fits(dt)
    ensures Shaped(s, 'T')
  {
    RenderShaped(dt, 'T');
    Render(dt, 'T')
  }

  /** The start time the script writes: the stored string parsed and
      re-emitted by isoformat(); None where strptime raises. */
  function StartTimeIso(timeStr: string): (r: Option<string>)
    ensures r.Some? ==> Shaped(r.value, 'T')
  {
    match ParseStartTime(timeStr)
    case None => None
    case Some(dt) => Some(IsoFormat(dt))
  }

  /** Reading two padded digits back gives the number. */
  lemma Pad2Value(n: nat, s: string, i: nat)
    requires n < 100 && i + 1 < |s| && s[i..i + 2] == Pad2(n)
    ensures IsDigit(s[i]) && IsDigit(s[i + 1]) && TwoDigits(s, i) == n
  {
    assert s[i] == Pad2(n)[0] && s[i + 1] == Pad2(n)[1];
  }

  /** Padding the number two digits denote gives the digits back. */
  lemma TwoDigitsPad(s: string, i: nat)
    requires i + 1 < |s| && IsDigit(s[i]) && IsDigit(s[i + 1])
    ensures Pad2(TwoDigits(s, i)) == s[i..i + 2]
  {
    var a, b := DigitValue(s[i]), DigitValue(s[i + 1]);
    assert (10 * a + b) / 10 == a && (10 * a + b) % 10 == b;
  }

  /** Rendering a valid date and time with a space and parsing it gives it
      back. */
  lemma ParseRender(dt: DateTime)
    requires Valid(dt)
    ensures ParseStartTime(Render(dt, ' ')) == Some(dt)
  {
    var s := Render(dt, ' ');
    RenderShaped(dt, ' ');
    assert Fields(s) == dt by {
      Pad2Value(dt.year / 100, s, 0);
      Pad2Value(dt.year % 100, s, 2);
      Pad2Value(dt.month, s, 5);
      Pad2Value(dt.day, s, 8);
      Pad2Value(dt.hour, s, 11);
      Pad2Value(dt.minute, s, 14);
      Pad2Value(dt.second, s, 17);
    }
  }

  /** Whatever strptime accepts is the rendering, with a space, of what it
      parsed: no information is lost. */
  lemma RenderParse(s: string)
    requires ParseStartTime(s).Some?
    ensures Render(ParseStartTime(s).value, ' ') == s
  {
    var dt := ParseStartTime(s).value;
    var hi, lo := TwoDigits(s, 0), TwoDigits(s, 2);
    assert dt.year / 100 == hi && dt.year % 100 == lo;
    TwoDigitsPad(s, 0);
    TwoDigitsPad(s, 2);
    TwoDigitsPad(s, 5);
    TwoDigitsPad(s, 8);
    TwoDigitsPad(s, 11);
    TwoDigitsPad(s, 14);
    TwoDigitsPad(s, 17);
    var r := Render(dt, ' ');
    forall i | 0 <= i < 19
      ensures r[i] == s[i]
    {
    }
  }

  /** The script's reformatting keeps every character of an accepted start
      time and only turns the space between date and time into 'T';
      anything strptime rejects is rejected. */
  lemma StartTimeIsoReplacesSpace(timeStr: string)
    ensures StartTimeIso(timeStr).Some? <==> ParseStartTime(timeStr).Some?
    ensures StartTimeIso(timeStr).Some? ==>
      StartTimeIso(timeStr).value == timeStr[..10] + "T" + timeStr[11..]
  {
    if ParseStartTime(timeStr).Some? {
      var dt := ParseStartTime(timeStr).value;
      RenderParse(timeStr);
      var iso := IsoFormat(dt);
      var r := Render(dt, ' ');
      assert |iso| == |timeStr[..10] + "T" + timeStr[11..]|;
      forall i | 0 <= i < 19
        ensures iso[i] == (timeStr[..10] + "T" + timeStr[11..])[i]
      {
        assert i != 10 ==> iso[i] == r[i];
      }
    }
  }

  /** A date and time written out by isoformat() reads back as itself
      once the 'T' is a space again. */
  lemma IsoFormatRoundTrip(dt: DateTime)
    requires Valid(dt)
    ensures var iso := IsoFormat(dt);
      ParseStartTime(iso[..10] + " " + iso[11..]) == Some(dt)
  {
    var iso := IsoFormat(dt);
    var r := Render(dt, ' ');
    assert iso[..10] + " " + iso[11..] == r by {
      forall i | 0 <= i < 19
        ensures (iso[..10] + " " + iso[11..])[i] == r[i]
      {
      }
    }
    ParseRender(dt);
  }

  /** 29 February is accepted in a leap year and rejected otherwise;
      1900 is not a leap year, 2000 is. */
  lemma LeapDay(dt: DateTime)
    requires dt.month == 2 && dt.day == 29 && 1 <= dt.year <= 9999
    requires dt.hour < 24 && dt.minute < 60 && dt.second < 60
    ensures Valid(dt) <==> IsLeapYear(dt.year)
    ensures ParseStartTime(Render(DateTime(dt.year, 2, 28, dt.hour, dt.minute, dt.second), ' ')).Some?
  {
    ParseRender(DateTime(dt.year, 2, 28, dt.hour, dt.minute, dt.second));
  }

  lemma CenturyLeapYears()
    ensures !IsLeapYear(1900) && IsLeapYear(2000) && IsLeapYear(2020) && !IsLeapYear(2021)
  {
  }
}
