/** The nested `{values, attributes}` dictionaries that the LoKI generator
    builds before writing a NeXus file (class NexusInfo and its callers in
    examples/loki/LOKI_geometry.py).

    A Python dictionary of nodes is an ordered sequence of (key, node) pairs;
    Put and Lookup give it Python's dict semantics (an assignment to an
    existing key keeps that key's position, a new key goes to the end). */
module NexusInfo {
  import opened Util
  import opened Vectors
  import opened Ids

  /** What can sit under the `values` key of a node. */
  datatype Value =
    | Str(s: string)                      // str
    | Int(i: int)                         // int
    | Num(r: real)                        // float
    | Time(iso: string)                   // datetime
    | Array(items: seq<Value>)            // list or numpy array
    | Dict(entries: seq<(string, Node)>)  // a dict of further nodes
    | NoneValue                           // None

  /** A node: its data and its attribute dictionary (None when the source
      stores `attributes: None`). */
  datatype Node = Node(values: Value, attrs: Option<map<string, Value>>)

  type Attrs = map<string, Value>

  const NxClass: string := "NX_class"
  const Units: string := "units"
  const TransformationType: string := "transformation_type"
  const DependsOn: string := "depends_on"
  const VectorKey: string := "vector"
  const NxLogValue: string := "value"
  const TimeKey: string := "time"
  const Transformations: string := "transformations"
  const NameKey: string := "name"

  // ---------------------------------------------------------------------
  // Python dict of nodes
  // ---------------------------------------------------------------------

  function Keys(es: seq<(string, Node)>): (r: seq<string>)
    ensures |r| == |es|
    ensures forall i :: 0 <= i < |es| ==> r[i] == es[i].0
  {
    if |es| == 0 then [] else [es[0].0] + Keys(es[1..])
  }

  /** d[k], None when k is missing (KeyError). */
  function Lookup(es: seq<(string, Node)>, k: string): Option<Node> {
    if |es| == 0 then None
    else if es[0].0 == k then Some(es[0].1)
    else Lookup(es[1..], k)
  }

  /** d[k] succeeds exactly for the keys of d, and yields the value stored
      with k. */
  lemma {:induction false} LookupFound(es: seq<(string, Node)>, k: string)
    ensures Lookup(es, k).None? <==> k !in Keys(es)
    ensures Lookup(es, k).Some? ==> (k, Lookup(es, k).value) in es
    decreases |es|
  {
    if |es| > 0 && es[0].0 != k {
      LookupFound(es[1..], k);
      assert Keys(es) == [es[0].0] + Keys(es[1..]);
    }
  }

  /** d[k] = v. */
  function Put(es: seq<(string, Node)>, k: string, v: Node): (r: seq<(string, Node)>)
    ensures Lookup(r, k) == Some(v)
    ensures forall j :: j != k ==> Lookup(r, j) == Lookup(es, j)
  {
    if |es| == 0 then [(k, v)]
    else if es[0].0 == k then [(k, v)] + es[1..]
    else [es[0]] + Put(es[1..], k, v)
  }

  /** Assigning to an existing key keeps the order of the keys; a new key
      goes to the end. */
  lemma {:induction false} PutKeys(es: seq<(string, Node)>, k: string, v: Node)
    ensures Keys(Put(es, k, v)) == if k in Keys(es) then Keys(es) else Keys(es) + [k]
  {
    if |es| > 0 && es[0].0 != k {
      PutKeys(es[1..], k, v);
      assert Keys(es) == [es[0].0] + Keys(es[1..]);
      assert Put(es, k, v) == [es[0]] + Put(es[1..], k, v);
    }
  }

  predicate UniqueKeys(es: seq<(string, Node)>) {
    forall i, j :: 0 <= i < j < |es| ==> es[i].0 != es[j].0
  }

  // ---------------------------------------------------------------------
  // Class attributes and simple builders
  // ---------------------------------------------------------------------

  /** {NX_class: name}, as returned by the get_*_class_attr getters. */
  function ClassAttr(name: string): (a: Attrs)
    ensures a.Keys == {NxClass} && a[NxClass] == Str(name)
  {
    map[NxClass := Str(name)]
  }

  /** get_values_attrs_as_dict(values, attrs). */
  function ValuesAttrs(values: Value, attrs: Option<Attrs>): (n: Node)
    ensures n.values == values && n.attrs == attrs
  {
    Node(values, attrs)
  }

  /** get_nx_user: every field of the user becomes a node without attributes,
      grouped under an NXuser node. The input is a Python dict, so its keys
      are distinct. */
  function NxUser(user: seq<(string, Value)>): (n: Node)
    requires forall i, j :: 0 <= i < j < |user| ==> user[i].0 != user[j].0
    ensures n.attrs == Some(ClassAttr("NXuser"))
    ensures n.values.Dict? && |n.values.entries| == |user|
    ensures forall i :: 0 <= i < |user| ==>
      Lookup(n.values.entries, user[i].0) == Some(Node(user[i].1, None))
  {
    var es := seq(|user|, i requires 0 <= i < |user| => (user[i].0, Node(user[i].1, None)));
    forall i | 0 <= i < |user|
      ensures Lookup(es, user[i].0) == Some(Node(user[i].1, None))
    {
      LookupUnique(es, i);
    }
    Node(Dict(es), Some(ClassAttr("NXuser")))
  }

  /** In a dict with distinct keys, looking up the i-th key gives the i-th node. */
  lemma {:induction false} LookupUnique(es: seq<(string, Node)>, i: nat)
    requires i < |es|
    requires UniqueKeys(es)
    ensures Lookup(es, es[i].0) == Some(es[i].1)
  {
    if i > 0 {
      LookupUnique(es[1..], i - 1);
    }
  }

  /** Entry.get_nx_entry: the top-level `entry` group with an empty NXinstrument
      group, the title, the experiment identifier and description and the
      start time. */
  function NxEntry(title: Value, experimentId: Value, experimentDesc: Value, startTime: Value): (r: seq<(string, Node)>)
    ensures Keys(r) == ["entry"]
    ensures r[0].1.attrs == Some(ClassAttr("NXentry"))
    ensures r[0].1.values.Dict?
    ensures |r[0].1.values.entries| == 5
    ensures r[0].1.values.entries[0] == ("instrument", Node(Dict([]), Some(ClassAttr("NXinstrument"))))
    ensures r[0].1.values.entries[1] == ("title", Node(title, None))
    ensures r[0].1.values.entries[2] == ("experiment_identifier", Node(experimentId, None))
    ensures r[0].1.values.entries[3] == ("experiment_description", Node(experimentDesc, None))
    ensures r[0].1.values.entries[4] == ("start_time", Node(startTime, None))
  {
    var inner := [
      ("instrument", ValuesAttrs(Dict([]), Some(ClassAttr("NXinstrument")))),
      ("title", ValuesAttrs(title, None)),
      ("experiment_identifier", ValuesAttrs(experimentId, None)),
      ("experiment_description", ValuesAttrs(experimentDesc, None)),
      ("start_time", ValuesAttrs(startTime, None))];
    [("entry", ValuesAttrs(Dict(inner), Some(ClassAttr("NXentry"))))]
  }

  /** The entry group get_nx_entry builds, read back as a dict: `entry` is an
      NXentry group whose keys are distinct, and every field is found under
      its own name, with `instrument` an empty NXinstrument group. */
  lemma NxEntryLookups(title: Value, experimentId: Value, experimentDesc: Value, startTime: Value)
    ensures Lookup(NxEntry(title, experimentId, experimentDesc, startTime), "entry").Some?
    ensures var e := Lookup(NxEntry(title, experimentId, experimentDesc, startTime), "entry").value;
      e.attrs == Some(ClassAttr("NXentry")) && e.values.Dict? && UniqueKeys(e.values.entries) &&
      Lookup(e.values.entries, "instrument") == Some(Node(Dict([]), Some(ClassAttr("NXinstrument")))) &&
      Lookup(e.values.entries, "title") == Some(Node(title, None)) &&
      Lookup(e.values.entries, "experiment_identifier") == Some(Node(experimentId, None)) &&
      Lookup(e.values.entries, "experiment_description") == Some(Node(experimentDesc, None)) &&
      Lookup(e.values.entries, "start_time") == Some(Node(startTime, None))
  {
    var r := NxEntry(title, experimentId, experimentDesc, startTime);
    LookupUnique(r, 0);
    var es := r[0].1.values.entries;
    assert UniqueKeys(es) by {
      assert Keys(es) == ["instrument", "title", "experiment_identifier", "experiment_description", "start_time"];
    }
    LookupUnique(es, 0);
    LookupUnique(es, 1);
    LookupUnique(es, 2);
    LookupUnique(es, 3);
    LookupUnique(es, 4);
  }

  // ---------------------------------------------------------------------
  // Transformations
  // ---------------------------------------------------------------------

  datatype TransformKind = Translation | Rotation

  function KindName(k: TransformKind): (s: string)
    ensures s == "translation" || s == "rotation"
    ensures k.Translation? <==> s == "translation"
  {
    match k
    case Translation => "translation"
    case Rotation => "rotation"
  }

  /** The vector attribute [x for x in vector]: a list of three floats. */
  function VectorList(v: Vec3): (r: Value)
    ensures r.Array? && |r.items| == 3
    ensures r.items[0] == Num(v.x) && r.items[1] == Num(v.y) && r.items[2] == Num(v.z)
  {
    Array([Num(v.x), Num(v.y), Num(v.z)])
  }

  /** _get_location_dataset: the value with its units, transformation type,
      dependency and direction vector as attributes. */
  function LocationDataset(value: Value, vector: Vec3, unit: string, kind: TransformKind, dependPath: string): (n: Node)
    ensures n.values == value
    ensures n.attrs.Some? && n.attrs.value.Keys == {Units, TransformationType, DependsOn, VectorKey}
    ensures n.attrs.value[Units] == Str(unit)
    ensures n.attrs.value[TransformationType] == Str(KindName(kind))
    ensures n.attrs.value[DependsOn] == Str(dependPath)
    ensures n.attrs.value[VectorKey] == VectorList(vector)
  {
    Node(value, Some(map[Units := Str(unit), TransformationType := Str(KindName(kind)),
                         DependsOn := Str(dependPath), VectorKey := VectorList(vector)]))
  }

  datatype InfoError =
    | NoneNotSubscriptable  // get_nx_log_group(None) without a time axis: TypeError

  /** The default time axis of an NXlog: 0, 1, ..., len - 1 for a list or
      array of values, [0] for anything else. */
  function DefaultTime(values: Value): (t: Value)
    ensures t.Array?
    ensures values.Array? ==> |t.items| == |values.items|
    ensures values.Array? ==> forall i :: 0 <= i < |t.items| ==> t.items[i] == Int(i)
    ensures !values.Array? ==> t.items == [Int(0)]
  {
    if values.Array? then Array(seq(|values.items|, i => Int(i))) else Array([Int(0)])
  }

  /** get_nx_log_group(nx_log_data, time, time_unit). The data node moves
      under `value` with its attributes cleared to {}; those attributes are
      merged over {NX_class: NXlog} on the new group (a key present in both
      takes the data's value). */
  function NxLogGroup(data: Option<Node>, time: Option<Value>, timeUnit: string): (r: Result<Node, InfoError>)
    ensures r.Err? <==> data.None? && time.None?
  {
    if time.None? && data.None? then Err(NoneNotSubscriptable)
    else
      var t := if time.Some? then time.value else DefaultTime(data.value.values);
      var d := if data.Some? then data.value else Node(Dict([]), Some(map[]));
      var attributes := if d.attrs.Some? then d.attrs.value else map[];
      Ok(Node(Dict([(NxLogValue, Node(d.values, Some(map[]))),
                    (TimeKey, Node(t, Some(map[Units := Str(timeUnit)])))]),
              Some(ClassAttr("NXlog") + attributes)))
  }

  /** What an NXlog group built from a data node holds: the same values under
      `value` (now without attributes), a time axis under `time`, and the
      data's attributes on the group, with NX_class NXlog unless the data
      named a class of its own. */
  lemma NxLogGroupContents(data: Node, time: Option<Value>, timeUnit: string)
    ensures NxLogGroup(Some(data), time, timeUnit).Ok?
    ensures var g := NxLogGroup(Some(data), time, timeUnit).value;
      g.values.Dict? && Keys(g.values.entries) == [NxLogValue, TimeKey] &&
      Lookup(g.values.entries, NxLogValue) == Some(Node(data.values, Some(map[]))) &&
      Lookup(g.values.entries, TimeKey) ==
        Some(Node(if time.Some? then time.value else DefaultTime(data.values), Some(map[Units := Str(timeUnit)]))) &&
      g.attrs.Some? &&
      (data.attrs.Some? ==> forall a :: a in data.attrs.value ==> a in g.attrs.value && g.attrs.value[a] == data.attrs.value[a]) &&
      (data.attrs.None? || NxClass !in data.attrs.value ==> g.attrs.value[NxClass] == Str("NXlog")) &&
      g.attrs.value.Keys == {NxClass} + (if data.attrs.Some? then data.attrs.value.Keys else {})
  {
    var g := NxLogGroup(Some(data), time, timeUnit).value;
    assert Keys(g.values.entries) == [NxLogValue, TimeKey];
  }

  /** The key of a transformation: 'trans_' + str(id). */
  function TransKey(transId: int): (k: string)
    ensures |k| > 6 && k[..6] == "trans_"
  {
    "trans_" + IntToString(transId)
  }

  /** Distinct transformation numbers give distinct keys. */
  lemma TransKeyInjective(i: int, j: int)
    requires TransKey(i) == TransKey(j)
    ensures i == j
  {
    assert TransKey(i)[6..] == IntToString(i);
    assert TransKey(j)[6..] == IntToString(j);
    IntToStringInjective(i, j);
  }

  /** _get_transformation with the number the transformation counter hands
      out: an NXtransformations group holding only the location dataset,
      under 'trans_<id>'. */
  function Transformation(transId: int, location: Node): (n: Node)
    ensures n.attrs == Some(ClassAttr("NXtransformations"))
    ensures n.values.Dict? && Keys(n.values.entries) == [TransKey(transId)]
    ensures Lookup(n.values.entries, TransKey(transId)) == Some(location)
  {
    var es := [(TransKey(transId), location)];
    assert Keys(es) == [TransKey(transId)];
    Node(Dict(es), Some(ClassAttr("NXtransformations")))
  }

  /** _get_nxlog_transformation: as Transformation, but the location dataset
      is wrapped in an NXlog group (default time axis, unit 'ns'). */
  function NxLogTransformation(transId: int, location: Node): (n: Node)
    ensures n.attrs == Some(ClassAttr("NXtransformations"))
    ensures n.values.Dict? && Keys(n.values.entries) == [TransKey(transId)]
    ensures NxLogGroup(Some(location), None, "ns").Ok?
    ensures Lookup(n.values.entries, TransKey(transId)) == Some(NxLogGroup(Some(location), None, "ns").value)
  {
    var es := [(TransKey(transId), NxLogGroup(Some(location), None, "ns").value)];
    assert Keys(es) == [TransKey(transId)];
    Node(Dict(es), Some(ClassAttr("NXtransformations")))
  }

  /** get_transform_translation / get_transform_rotation, and their NXlog
      variants, drawing the transformation number from the shared counter. */
  method NextTransformation(counter: IdIterator, value: Value, vector: Vec3, unit: string,
                            kind: TransformKind, dependPath: string, asNxLog: bool)
    returns (n: Node)
    requires counter.iterating
    modifies counter
    ensures counter.iterating && counter.current == old(counter.current) + 1
    ensures var loc := LocationDataset(value, vector, unit, kind, dependPath);
      n == if asNxLog then NxLogTransformation(old(counter.current), loc)
           else Transformation(old(counter.current), loc)
  {
    var id := counter.Next();
    var loc := LocationDataset(value, vector, unit, kind, dependPath);
    if asNxLog {
      n := NxLogTransformation(id.value, loc);
    } else {
      n := Transformation(id.value, loc);
    }
  }

  /** The direction stored for a position: position / norm, or (0, 0, 1) for
      the zero position. The norm is an input: the caller supplies
      np.linalg.norm(position), which is zero exactly for the zero vector. */
  function Direction(position: Vec3, norm: real): (v: Vec3)
    requires norm >= 0.0 && (norm == 0.0 <==> position == Zero)
    ensures norm != 0.0 ==> Scale(v, norm) == position
    ensures norm == 0.0 ==> v == UnitZ
  {
    if norm != 0.0 then Div(position, norm) else UnitZ
  }

  /** depends_on for a transformation group with the given key. */
  function DependsOnPath(transformPath: string, key: string, asNxLog: bool): (p: string)
    ensures asNxLog ==> p == transformPath + key + "/" + NxLogValue
    ensures !asNxLog ==> p == transformPath + key
  {
    if asNxLog then transformPath + key + "/" + NxLogValue else transformPath + key
  }

  /** get_transformations_as_dict(geo_data, position, transform_path, name,
      as_nx_log) with the transformation number transId drawn from the
      counter and the length unit of the configuration. */
  function TransformationsAsDict(geo: seq<(string, Node)>, position: Vec3, norm: real,
                                 transformPath: string, name: string, asNxLog: bool,
                                 transId: int, lengthUnit: string): (r: seq<(string, Node)>)
    requires norm >= 0.0 && (norm == 0.0 <==> position == Zero)
    ensures var loc := LocationDataset(Array([Num(norm)]), Direction(position, norm), lengthUnit, Translation, ".");
      Lookup(r, Transformations) ==
        Some(if asNxLog then NxLogTransformation(transId, loc) else Transformation(transId, loc))
    ensures |transformPath| > 0 ==>
      Lookup(r, DependsOn) == Some(Node(Str(DependsOnPath(transformPath, TransKey(transId), asNxLog)), None))
    ensures |transformPath| == 0 ==> Lookup(r, DependsOn) == Lookup(geo, DependsOn)
    ensures |name| > 0 ==> Lookup(r, NameKey) == Some(Node(Array([Str(name)]), None))
    ensures |name| == 0 ==> Lookup(r, NameKey) == Lookup(geo, NameKey)
    ensures forall k :: k != Transformations && k != DependsOn && k != NameKey ==> Lookup(r, k) == Lookup(geo, k)
  {
    var loc := LocationDataset(Array([Num(norm)]), Direction(position, norm), lengthUnit, Translation, ".");
    var t := if asNxLog then NxLogTransformation(transId, loc) else Transformation(transId, loc);
    var dep := Node(Str(DependsOnPath(transformPath, TransKey(transId), asNxLog)), None);
    var nm := Node(Array([Str(name)]), None);
    PutChainLookups(geo, t, |transformPath| > 0, dep, |name| > 0, nm);
    var g1 := Put(geo, Transformations, t);
    var g2 := if |transformPath| > 0 then Put(g1, DependsOn, dep) else g1;
    if |name| > 0 then Put(g2, NameKey, nm) else g2
  }

  /** The three assignments of get_transformations_as_dict (the
      transformations group, then depends_on and the name when present)
      set exactly those keys. */
  lemma PutChainLookups(geo: seq<(string, Node)>, t: Node, withDep: bool, dep: Node, withName: bool, nm: Node)
    ensures var g1 := Put(geo, Transformations, t);
      var g2 := if withDep then Put(g1, DependsOn, dep) else g1;
      var g3 := if withName then Put(g2, NameKey, nm) else g2;
      Lookup(g3, Transformations) == Some(t) &&
      (withDep ==> Lookup(g3, DependsOn) == Some(dep)) &&
      (!withDep ==> Lookup(g3, DependsOn) == Lookup(geo, DependsOn)) &&
      (withName ==> Lookup(g3, NameKey) == Some(nm)) &&
      (!withName ==> Lookup(g3, NameKey) == Lookup(geo, NameKey)) &&
      (forall k :: k != Transformations && k != DependsOn && k != NameKey ==> Lookup(g3, k) == Lookup(geo, k))
  {
    assert Transformations[0] == 't' && DependsOn[0] == 'd' && NameKey[0] == 'n';
  }

  /** The depends_on path written by get_transformations_as_dict names the
      one transformation it created: removing the transformation path (and,
      for an NXlog, the trailing '/value') leaves a key of the
      transformations group. */
  lemma DependsOnNamesTransformation(geo: seq<(string, Node)>, position: Vec3, norm: real,
                                     transformPath: string, name: string, asNxLog: bool,
                                     transId: int, lengthUnit: string)
    requires norm >= 0.0 && (norm == 0.0 <==> position == Zero)
    requires |transformPath| > 0
    ensures var r := TransformationsAsDict(geo, position, norm, transformPath, name, asNxLog, transId, lengthUnit);
      var dep := Lookup(r, DependsOn).value.values.s;
      var key := if asNxLog then dep[|transformPath|..|dep| - 6] else dep[|transformPath|..];
      dep[..|transformPath|] == transformPath &&
      Lookup(Lookup(r, Transformations).value.values.entries, key).Some?
  {
    var r := TransformationsAsDict(geo, position, norm, transformPath, name, asNxLog, transId, lengthUnit);
    TransformationsHoldKey(geo, position, norm, transformPath, name, asNxLog, transId, lengthUnit);
    DependsOnFindsKey(r, transformPath, TransKey(transId), asNxLog);
  }

  /** The transformations group written by get_transformations_as_dict
      holds the key trans_<id>. */
  lemma TransformationsHoldKey(geo: seq<(string, Node)>, position: Vec3, norm: real,
                               transformPath: string, name: string, asNxLog: bool,
                               transId: int, lengthUnit: string)
    requires norm >= 0.0 && (norm == 0.0 <==> position == Zero)
    ensures var r := TransformationsAsDict(geo, position, norm, transformPath, name, asNxLog, transId, lengthUnit);
      Lookup(r, Transformations).Some? && Lookup(r, Transformations).value.values.Dict? &&
      Lookup(Lookup(r, Transformations).value.values.entries, TransKey(transId)).Some?
  {
    var loc := LocationDataset(Array([Num(norm)]), Direction(position, norm), lengthUnit, Translation, ".");
    if asNxLog {
      var t := NxLogTransformation(transId, loc);
      assert Lookup(t.values.entries, TransKey(transId)).Some?;
    } else {
      var t := Transformation(transId, loc);
      assert Lookup(t.values.entries, TransKey(transId)).Some?;
    }
  }

  /** In a dictionary whose depends_on was written for key k and whose
      transformations group holds k, the depends_on path leads to k. */
  lemma DependsOnFindsKey(r: seq<(string, Node)>, transformPath: string, k: string, asNxLog: bool)
    requires Lookup(r, DependsOn) == Some(Node(Str(DependsOnPath(transformPath, k, asNxLog)), None))
    requires Lookup(r, Transformations).Some? && Lookup(r, Transformations).value.values.Dict?
    requires Lookup(Lookup(r, Transformations).value.values.entries, k).Some?
    ensures var dep := Lookup(r, DependsOn).value.values.s;
      var key := if asNxLog then dep[|transformPath|..|dep| - 6] else dep[|transformPath|..];
      dep[..|transformPath|] == transformPath &&
      Lookup(Lookup(r, Transformations).value.values.entries, key).Some?
  {
    DependsOnPathStrips(transformPath, k, asNxLog);
  }

  /** Removing the transformation path (and, for an NXlog, '/value') from a
      depends_on path gives back the key. */
  lemma DependsOnPathStrips(transformPath: string, key: string, asNxLog: bool)
    ensures var dep := DependsOnPath(transformPath, key, asNxLog);
      dep[..|transformPath|] == transformPath &&
      key == if asNxLog then dep[|transformPath|..|dep| - 6] else dep[|transformPath|..]
  {
    var dep := DependsOnPath(transformPath, key, asNxLog);
    if asNxLog {
      assert dep == transformPath + key + "/value";
    } else {
      assert dep == transformPath + key;
    }
  }

  /** Which component a geometry dictionary describes, with its NeXus class. */
  datatype ComponentKind = Detector | Source | Sample | DiskChopper | Monitor | Slit

  function ComponentClass(k: ComponentKind): string {
    match k
    case Detector => "NXdetector"
    case Source => "NXsource"
    case Sample => "NXsample"
    case DiskChopper => "NXdisk_chopper"
    case Monitor => "NXmonitor"
    case Slit => "NXslit"
  }

  /** compound_geometry of Source, Sample, DiskChopper, Monitor and Slit
      (SimpleNexusClass._get_transformation on an empty dict), and
      Bank.compound_detector_geometry (on the tube's geometry data, without
      a name): the transformations wrapped in a node of the component's class. */
  function ComponentGeometry(kind: ComponentKind, geo: seq<(string, Node)>, position: Vec3, norm: real,
                             transformPath: string, name: string, asNxLog: bool,
                             transId: int, lengthUnit: string): (n: Node)
    requires norm >= 0.0 && (norm == 0.0 <==> position == Zero)
    ensures n.attrs == Some(ClassAttr(ComponentClass(kind)))
    ensures n.values.Dict?
    ensures Lookup(n.values.entries, Transformations).Some?
    ensures forall k :: k != Transformations && k != DependsOn && k != NameKey ==>
      Lookup(n.values.entries, k) == Lookup(geo, k)
  {
    Node(Dict(TransformationsAsDict(geo, position, norm, transformPath, name, asNxLog, transId, lengthUnit)),
         Some(ClassAttr(ComponentClass(kind))))
  }

  /** A simple component (empty geometry dictionary) ends up with exactly
      the transformations, plus depends_on when a path is given and the name
      when one is given, in that order. */
  lemma SimpleComponentKeys(kind: ComponentKind, position: Vec3, norm: real,
                            transformPath: string, name: string, asNxLog: bool,
                            transId: int, lengthUnit: string)
    requires norm >= 0.0 && (norm == 0.0 <==> position == Zero)
    ensures var n := ComponentGeometry(kind, [], position, norm, transformPath, name, asNxLog, transId, lengthUnit);
      Keys(n.values.entries) ==
        [Transformations] + (if |transformPath| > 0 then [DependsOn] else [])
                          + (if |name| > 0 then [NameKey] else [])
  {
    var loc := LocationDataset(Array([Num(norm)]), Direction(position, norm), lengthUnit, Translation, ".");
    var t := if asNxLog then NxLogTransformation(transId, loc) else Transformation(transId, loc);
    var dep := Node(Str(DependsOnPath(transformPath, TransKey(transId), asNxLog)), None);
    var nm := Node(Array([Str(name)]), None);
    FreshKeysInOrder(t, dep, nm, |transformPath| > 0, |name| > 0);
  }

  /** The three assignments of get_transformations_as_dict on an empty dict
      leave the keys in assignment order. */
  lemma FreshKeysInOrder(t: Node, dep: Node, nm: Node, withDep: bool, withName: bool)
    ensures var g1 := Put([], Transformations, t);
      var g2 := if withDep then Put(g1, DependsOn, dep) else g1;
      var g3 := if withName then Put(g2, NameKey, nm) else g2;
      Keys(g3) == [Transformations] + (if withDep then [DependsOn] else []) + (if withName then [NameKey] else [])
  {
    var g1 := Put([], Transformations, t);
    assert g1 == [(Transformations, t)];
    assert |Transformations| == 15 && |DependsOn| == 10 && |NameKey| == 4;
    assert Put(g1, DependsOn, dep) == [g1[0]] + Put([], DependsOn, dep);
    var g2 := if withDep then Put(g1, DependsOn, dep) else g1;
    assert g2 == if withDep then [(Transformations, t), (DependsOn, dep)] else g1;
    if withName {
      if withDep {
        assert Put(g2, NameKey, nm) == [g2[0]] + Put(g2[1..], NameKey, nm);
        assert Put(g2[1..], NameKey, nm) == [g2[1]] + Put([], NameKey, nm);
      } else {
        assert Put(g2, NameKey, nm) == [g2[0]] + Put([], NameKey, nm);
      }
    }
    var g3 := if withName then Put(g2, NameKey, nm) else g2;
    assert g3 == g2 + (if withName then [(NameKey, nm)] else []);
  }

  /** Bank.add_data and Monitor.add_data: `data` (and, for a bank,
      `time_of_flight` with its unit) as NXlog groups added to the
      component's values. */
  function AddData(component: Node, data: Value, timeOfFlight: Option<(Value, string)>): (r: Node)
    requires component.values.Dict?
    ensures r.attrs == component.attrs && r.values.Dict?
    ensures Lookup(r.values.entries, "data") == Some(NxLogGroup(Some(Node(data, None)), None, "ns").value)
    ensures timeOfFlight.Some? ==>
      Lookup(r.values.entries, "time_of_flight") == Some(NxLogGroup(Some(Node(timeOfFlight.value.0, Some(map[Units := Str(timeOfFlight.value.1)]))), None, "ns").value)
    ensures forall k :: k != "data" && k != "time_of_flight" ==> Lookup(r.values.entries, k) == Lookup(component.values.entries, k)
  {
    var withData := Put(component.values.entries, "data", NxLogGroup(Some(Node(data, None)), None, "ns").value);
    if timeOfFlight.Some? then
      var tof := NxLogGroup(Some(Node(timeOfFlight.value.0, Some(map[Units := Str(timeOfFlight.value.1)]))), None, "ns").value;
      Node(Dict(Put(withData, "time_of_flight", tof)), component.attrs)
    else
      Node(Dict(withData), component.attrs)
  }
}
