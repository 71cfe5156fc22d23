/** The V20 example script: the path arithmetic of __copy_log and
    __copy_existing_data. The script's NexusBuilder calls are recorded as
    BuilderCalls values; the detector grid is in V20Detector. */
module V20 {
  import opened Util
  import opened BuilderCalls
  import Sans2d

  // ---------------------------------------------------------------------
  // __copy_log
  // ---------------------------------------------------------------------

  /** The builder calls of __copy_log. The log group is named after the last
      '/'-segment of the destination. With a component class, the
      second-last segment names a component group created under segments
      1 .. len - 3, and the log group goes inside it; without one, the log
      group goes under segments 1 .. len - 2. Either way, the time and value
      datasets are copied last. A class with a destination without '/'
      fails on split_destination[-2]. */
  function CopyLog(source: string, destination: string, nxComponentClass: Option<string>)
    : (r: Result<seq<Call>, PathError>)
    ensures r.Err? <==> nxComponentClass.Some? && '/' !in destination
    ensures r.Ok? ==> |r.value| >= 2 && r.value[|r.value| - 1] == CopyItems(LogCopies(source, destination))
    ensures r.Ok? ==> var group := r.value[|r.value| - 2];
      group.AddNxGroup? && group.nxClass == "NXlog" &&
      group.name == Split(destination, '/')[|Split(destination, '/')| - 1]
  {
    var parts := Split(destination, '/');
    var n := |parts|;
    var logName := parts[n - 1];
    if nxComponentClass.Some? then
      SplitSingle(destination, '/');
      if n < 2 then Err(NoComponentSegment)
      else
        Ok([AddNxGroup(AtPath(Join(Slice(parts, 1, -2), "/")), parts[n - 2], nxComponentClass.value),
            AddNxGroup(PreviousGroup, logName, "NXlog"),
            CopyItems(LogCopies(source, destination))])
    else
      Ok([AddNxGroup(AtPath(Join(Slice(parts, 1, -1), "/")), logName, "NXlog"),
          CopyItems(LogCopies(source, destination))])
  }

  /** Without a class, and with a group between the entry and the log, the
      log group is made under the segments between the entry and the log
      name, joined with '/'. */
  lemma CopyLogWithoutClass(source: string, segments: seq<string>)
    requires |segments| >= 3
    requires forall i :: 0 <= i < |segments| ==> '/' !in segments[i]
    ensures var n := |segments|;
      var destination := Join(segments, "/");
      CopyLog(source, destination, None) ==
        Ok([AddNxGroup(AtPath(Join(Slice(segments, 1, -1), "/")), segments[n - 1], "NXlog"),
            CopyItems(LogCopies(source, destination))])
  {
    SplitJoin(segments, '/');
  }

  /** Without a class, the entry, the path of the group the log is made
      under and the log name rebuild the destination: the log group is
      created exactly where the copies go. */
  lemma CopyLogWithoutClassRebuilds(source: string, segments: seq<string>)
    requires |segments| >= 3
    requires forall i :: 0 <= i < |segments| ==> '/' !in segments[i]
    ensures var group := CopyLog(source, Join(segments, "/"), None).value[0];
      group.AddNxGroup? && group.parent.AtPath? &&
      Join(segments, "/") == segments[0] + "/" + group.parent.path + "/" + group.name
  {
    CopyLogWithoutClass(source, segments);
    SliceFromEnd(segments, 1, 1);
    JoinMiddle(segments, "/");
  }

  /** With a class, the component group is made under the segments between
      the entry and the component, and the log group inside it. */
  lemma CopyLogWithClass(source: string, segments: seq<string>, nxComponentClass: string)
    requires |segments| >= 2
    requires forall i :: 0 <= i < |segments| ==> '/' !in segments[i]
    ensures var n := |segments|;
      var destination := Join(segments, "/");
      CopyLog(source, destination, Some(nxComponentClass)) ==
        Ok([AddNxGroup(AtPath(Join(Slice(segments, 1, -2), "/")), segments[n - 2], nxComponentClass),
            AddNxGroup(PreviousGroup, segments[n - 1], "NXlog"),
            CopyItems(LogCopies(source, destination))])
  {
    SplitJoin(segments, '/');
  }

  /** With a class and at least one group between the entry and the
      component, the entry, the component's parent path, the component and
      the log name rebuild the destination. */
  lemma CopyLogWithClassRebuilds(source: string, segments: seq<string>, nxComponentClass: string)
    requires |segments| >= 4
    requires forall i :: 0 <= i < |segments| ==> '/' !in segments[i]
    ensures var calls := CopyLog(source, Join(segments, "/"), Some(nxComponentClass)).value;
      calls[0].AddNxGroup? && calls[0].parent.AtPath? && calls[1].AddNxGroup? &&
      Join(segments, "/") == segments[0] + "/" + calls[0].parent.path + "/" + calls[0].name + "/" + calls[1].name
  {
    var n := |segments|;
    CopyLogWithClass(source, segments, nxComponentClass);
    SliceFromEnd(segments, 1, 2);
    JoinLastTwo(segments, "/");
  }


  /** The V20 and SANS2D scripts make the same calls when a component class
      is given; without one, V20 creates the NXlog group that SANS2D
      leaves to exist already. */
  lemma CopyLogAgreesWithSans2d(source: string, destination: string, nxComponentClass: Option<string>)
    ensures nxComponentClass.Some? ==> CopyLog(source, destination, nxComponentClass)
                                       == Sans2d.CopyLog(source, destination, nxComponentClass)
    ensures nxComponentClass.None? ==> |CopyLog(source, destination, nxComponentClass).value|
                                       == |Sans2d.CopyLog(source, destination, nxComponentClass).value| + 1
  {
  }

  // ---------------------------------------------------------------------
  // __copy_existing_data
  // ---------------------------------------------------------------------

  /** The event group of the existing file. */
  const EventSource: string := "entry-01/Delayline_events"

  /** The destination of the event group below the entry. */
  function RawEventData(entry: string): string
  {
    entry + "/instrument/detector_1/raw_event_data"
  }

  /** The event datasets copied below the event group. */
  const EventDatasets: seq<string> := ["event_id", "event_index", "event_time_offset", "event_time_zero"]

  /** The single copy_items call of __copy_existing_data: the event group
      and then each of its event datasets. raw_event_path is the destination
      group with a trailing '/'. */
  function CopyExistingData(entry: string): (r: Call)
    ensures r.CopyItems? && |r.pairs| == 1 + |EventDatasets|
    ensures r.pairs[0] == (EventSource, RawEventData(entry))
  {
    var rawEventPath := RawEventData(entry) + "/";
    CopyItems([(EventSource, RawEventData(entry))] +
              seq(|EventDatasets|, i requires 0 <= i < |EventDatasets| =>
                    (EventSource + "/" + EventDatasets[i], rawEventPath + EventDatasets[i])))
  }

  /** The pair copies a dataset directly below the event group to the
      dataset of the same name directly below raw_event_data. */
  ghost predicate CopiesChild(pair: (string, string), entry: string)
  {
    exists name :: name != "" && '/' !in name &&
                   pair == (EventSource + "/" + name, RawEventData(entry) + "/" + name)
  }

  /** Five pairs; each copies a path below the event group to the same
      relative path below raw_event_data: the group to the group, then
      each child to the child of the same name. */
  lemma CopyExistingDataMirrors(entry: string)
    ensures |CopyExistingData(entry).pairs| == 5
    ensures CopyExistingData(entry).pairs[0] == (EventSource, RawEventData(entry))
    ensures forall i :: 1 <= i < |CopyExistingData(entry).pairs| ==> CopiesChild(CopyExistingData(entry).pairs[i], entry)
  {
    var pairs := CopyExistingData(entry).pairs;
    assert |EventDatasets| == 4;
    forall i | 1 <= i < |pairs|
      ensures CopiesChild(pairs[i], entry)
    {
      var name := EventDatasets[i - 1];
      assert name != "" && '/' !in name;
      assert pairs[i] == (EventSource + "/" + name, RawEventData(entry) + "/" + name);
    }
  }

  /** No two pairs share a destination. */
  lemma CopyExistingDataDistinct(entry: string)
    ensures var pairs := CopyExistingData(entry).pairs;
      forall i, j :: 0 <= i < j < |pairs| ==> pairs[i].1 != pairs[j].1
  {
    var raw := RawEventData(entry);
    var pairs := CopyExistingData(entry).pairs;
    forall i, j | 0 <= i < j < |pairs|
      ensures pairs[i].1 != pairs[j].1
    {
      if i == 0 {
        assert |pairs[i].1| < |pairs[j].1|;
      } else {
        var a, b := EventDatasets[i - 1], EventDatasets[j - 1];
        assert a != b;
        assert (raw + "/" + a)[|raw| + 1..] == a;
        assert (raw + "/" + b)[|raw| + 1..] == b;
      }
    }
  }
}
