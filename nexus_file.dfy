/** Writing the `{values, attributes}` tree to a NeXus file and reading it
    back by dot-separated paths (NexusFileBuilder and NexusFileLoader in
    examples/loki/LOKI_geometry.py). The HDF5 file is modelled as a map from
    member paths (the names from the root down) to what is stored there. */
module NexusFile {
  import opened Util
  import opened NexusInfo

  type Path = seq<string>

  /** An HDF5 object: a dataset with its data, or a group; both carry
      attributes. */
  datatype Stored = Dataset(data: Value, attrs: Attrs) | Group(attrs: Attrs)

  /** The file: every member by its path. The root group is the empty path
      and is not listed. */
  type Store = map<Path, Stored>

  datatype WriteError =
    | NameExists(path: Path)   // h5py refuses to create a member twice
    | NotIterable(path: Path)  // a node whose values are None: TypeError

  /** The value types written as a dataset (VALID_ARRAY_TYPES_NXS and
      VALID_DATA_TYPES_NXS); everything else becomes a group. */
  predicate IsLeaf(v: Value) {
    v.Array? || v.Str? || v.Int? || v.Num? || v.Time?
  }

  /** _add_attributes: the node's attributes, none when it has None. */
  function AttrsOf(n: Node): Attrs {
    if n.attrs.Some? then n.attrs.value else map[]
  }

  /** What _construct_nxs_file stores for one node. */
  function StoredFor(n: Node): Stored {
    if IsLeaf(n.values) then Dataset(n.values, AttrsOf(n)) else Group(AttrsOf(n))
  }

  /** _construct_nxs_file(nxs_data, group) from the i-th element of the
      dictionary v on: a leaf value becomes a dataset, a dictionary a group
      that is filled in turn, and None fails. Nothing already in the file is
      changed. */
  function WriteGroup(v: Value, i: nat, group: Path, st: Store): (r: Result<Store, WriteError>)
    requires v.Dict? && i <= |v.entries|
    ensures r.Ok? ==> forall q :: q in st ==> q in r.value && r.value[q] == st[q]
    decreases v, |v.entries| - i
  {
    if i == |v.entries| then Ok(st)
    else
      var name := v.entries[i].0;
      var node := v.entries[i].1;
      var path := group + [name];
      assert v.entries[i] in v.entries;
      if path in st then Err(NameExists(path))
      else if IsLeaf(node.values) then WriteGroup(v, i + 1, group, st[path := StoredFor(node)])
      else if node.values.Dict? then
        match WriteGroup(node.values, 0, path, st[path := StoredFor(node)])
        case Err(e) => Err(e)
        case Ok(st2) => WriteGroup(v, i + 1, group, st2)
      else Err(NotIterable(path))
  }

  /** Every member of the file sits in a group that is also in the file. */
  ghost predicate Rooted(st: Store) {
    forall p :: p in st && |p| > 1 ==> p[..|p| - 1] in st && st[p[..|p| - 1]].Group?
  }

  /** Writing into the root or into a group of the file keeps every member
      inside a group. */
  lemma {:induction false} WriteGroupRooted(v: Value, i: nat, group: Path, st: Store)
    requires v.Dict? && i <= |v.entries|
    requires Rooted(st) && (group == [] || (group in st && st[group].Group?))
    requires WriteGroup(v, i, group, st).Ok?
    ensures Rooted(WriteGroup(v, i, group, st).value)
    decreases v, |v.entries| - i
  {
    if i < |v.entries| {
      var name := v.entries[i].0;
      var node := v.entries[i].1;
      var path := group + [name];
      assert v.entries[i] in v.entries;
      var st1 := st[path := StoredFor(node)];
      assert path[..|path| - 1] == group;
      assert Rooted(st1);
      if IsLeaf(node.values) {
        WriteGroupRooted(v, i + 1, group, st1);
      } else {
        WriteGroupRooted(node.values, 0, path, st1);
        var st2 := WriteGroup(node.values, 0, path, st1).value;
        WriteGroupRooted(v, i + 1, group, st2);
      }
    }
  }

  /** Each element of the dictionary, from the i-th on, ends up in the
      group: a dataset holding its values when they are a leaf, a group
      otherwise, with the node's attributes either way. */
  lemma {:induction false} WriteGroupPlacesElements(v: Value, i: nat, group: Path, st: Store, j: nat)
    requires v.Dict? && i <= j < |v.entries|
    requires WriteGroup(v, i, group, st).Ok?
    ensures group + [v.entries[j].0] in WriteGroup(v, i, group, st).value
    ensures WriteGroup(v, i, group, st).value[group + [v.entries[j].0]] == StoredFor(v.entries[j].1)
    decreases |v.entries| - i
  {
    var node := v.entries[i].1;
    var path := group + [v.entries[i].0];
    var st1 := st[path := StoredFor(node)];
    if IsLeaf(node.values) {
      if j > i {
        WriteGroupPlacesElements(v, i + 1, group, st1, j);
      }
    } else {
      var st2 := WriteGroup(node.values, 0, path, st1).value;
      if j > i {
        WriteGroupPlacesElements(v, i + 1, group, st2, j);
      }
    }
  }

  /** The file name rule of NexusFileBuilder.__init__: the format is
      appended, after a dot, unless '.' + format already occurs anywhere in
      the name. */
  function BuilderFilename(filename: string, fileFormat: string): (r: string)
    ensures Contains(r, "." + fileFormat)
    ensures Contains(filename, "." + fileFormat) ==> r == filename
    ensures !Contains(filename, "." + fileFormat) ==> r == filename + "." + fileFormat
  {
    if Contains(filename, "." + fileFormat) then filename
    else
      var r := Join([filename, fileFormat], ".");
      JoinFirst([filename, fileFormat], ".");
      assert [filename, fileFormat][1..] == [fileFormat];
      assert r == filename + "." + fileFormat;
      assert OccursAt(r, "." + fileFormat, |filename|);
      r
  }

  /** t occurs in s (Python's `t in s` on strings). */
  predicate Contains(s: string, t: string) {
    exists i :: 0 <= i <= |s| && OccursAt(s, t, i)
  }

  predicate OccursAt(s: string, t: string, i: int) {
    0 <= i && i + |t| <= |s| && s[i..i + |t|] == t
  }

  /** Choosing the name twice changes nothing. */
  lemma BuilderFilenameIdempotent(filename: string, fileFormat: string)
    ensures BuilderFilename(BuilderFilename(filename, fileFormat), fileFormat) == BuilderFilename(filename, fileFormat)
  {
  }

  /** NexusFileBuilder: the tree to write and the file it goes to. */
  class NexusFileBuilder {
    const dataStruct: seq<(string, Node)>
    const filename: string
    /** The contents of hf5_file. */
    var store: Store
    var closed: bool

    /** NexusFileBuilder(data_struct, filename, file_format): opening the
        file for writing leaves it empty. */
    constructor (data: seq<(string, Node)>, name: string, fileFormat: string)
      ensures dataStruct == data && filename == BuilderFilename(name, fileFormat)
      ensures store == map[] && !closed
    {
      dataStruct := data;
      filename := BuilderFilename(name, fileFormat);
      store := map[];
      closed := false;
    }

    /** construct_nxs_file: writes the whole tree and closes the file. When
        a write fails the exception leaves the file open. */
    method ConstructNxsFile() returns (ok: bool)
      modifies this
      ensures ok == WriteGroup(Dict(dataStruct), 0, [], old(store)).Ok?
      ensures ok ==> store == WriteGroup(Dict(dataStruct), 0, [], old(store)).value && closed
    {
      ok := Construct(Dict(dataStruct), []);
      if ok {
        closed := true;
      }
    }

    /** _construct_nxs_file(nxs_data, group) */
    method Construct(v: Value, group: Path) returns (ok: bool)
      requires v.Dict?
      modifies this
      ensures ok == WriteGroup(v, 0, group, old(store)).Ok?
      ensures ok ==> store == WriteGroup(v, 0, group, old(store)).value
      ensures closed == old(closed)
      decreases v
    {
      var i := 0;
      while i < |v.entries|
        invariant 0 <= i <= |v.entries|
        invariant WriteGroup(v, 0, group, old(store)) == WriteGroup(v, i, group, store)
        invariant closed == old(closed)
      {
        var name := v.entries[i].0;
        var node := v.entries[i].1;
        var path := group + [name];
        assert v.entries[i] in v.entries;
        if path in store {
          return false;
        }
        if IsLeaf(node.values) {
          store := store[path := StoredFor(node)];
        } else if node.values.Dict? {
          store := store[path := StoredFor(node)];
          var childOk := Construct(node.values, path);
          if !childOk {
            return false;
          }
        } else {
          return false;
        }
        i := i + 1;
      }
      ok := true;
    }
  }

  // ---------------------------------------------------------------------
  // Loading
  // ---------------------------------------------------------------------

  datatype LoadError =
    | NotLoaded            // no load_file yet: the content is None
    | KeyMissing(path: Path)
    | NotAGroup(path: Path)  // a dataset indexed by a member name

  /** _get_data(dot_path_list, nexus_data) below the group at `prefix`:
      each name but the last selects a group, the last one the result. */
  function Walk(st: Store, prefix: Path, parts: seq<string>): (r: Result<Stored, LoadError>)
    requires |parts| >= 1
    ensures r.Ok? ==> prefix + parts in st && r.value == st[prefix + parts]
    decreases |parts|
  {
    var p := prefix + [parts[0]];
    if p !in st then Err(KeyMissing(p))
    else if |parts| == 1 then
      assert prefix + parts == p;
      Ok(st[p])
    else if st[p].Dataset? then Err(NotAGroup(p))
    else
      assert prefix + parts == p + parts[1..];
      Walk(st, p, parts[1..])
  }

  /** In a rooted file every proper prefix of a member is a group. */
  lemma {:induction false} AncestorsAreGroups(st: Store, p: Path, k: nat)
    requires Rooted(st) && p in st && 1 <= k < |p|
    ensures p[..k] in st && st[p[..k]].Group?
    decreases |p| - k
  {
    if k + 1 < |p| {
      AncestorsAreGroups(st, p, k + 1);
      assert p[..k + 1][..k] == p[..k];
    } else {
      assert p[..|p| - 1] == p[..k];
    }
  }

  /** Walking a rooted file along a member's path from one of its prefixes
      reaches that member. */
  lemma {:induction false} WalkFinds(st: Store, prefix: Path, parts: seq<string>)
    requires Rooted(st) && |parts| >= 1 && prefix + parts in st
    ensures Walk(st, prefix, parts) == Ok(st[prefix + parts])
    decreases |parts|
  {
    var full := prefix + parts;
    var p := prefix + [parts[0]];
    assert full[..|prefix| + 1] == p;
    if |parts| == 1 {
      assert full == p;
    } else {
      AncestorsAreGroups(st, full, |prefix| + 1);
      assert p + parts[1..] == full;
      WalkFinds(st, p, parts[1..]);
    }
  }

  /** get_data's lookup: the dot path split at '.' and walked from the root. */
  function GetDataIn(st: Store, dotPath: string): (r: Result<Stored, LoadError>)
    ensures r.Ok? ==> Split(dotPath, '.') in st && r.value == st[Split(dotPath, '.')]
  {
    assert [] + Split(dotPath, '.') == Split(dotPath, '.');
    Walk(st, [], Split(dotPath, '.'))
  }

  /** The loader finds every member of a rooted file under its names joined
      with dots, as long as no name contains a dot. */
  lemma LoaderFindsMember(st: Store, p: Path)
    requires Rooted(st) && p in st && |p| >= 1
    requires forall i :: 0 <= i < |p| ==> '.' !in p[i]
    ensures GetDataIn(st, Join(p, ".")) == Ok(st[p])
  {
    SplitJoin(p, '.');
    assert [] + p == p;
    WalkFinds(st, [], p);
  }

  /** A tree written by the builder into an empty file reads back: every
      element of the top-level dictionary whose key has no dot is found
      under its key, as a dataset of its values or as a group. */
  lemma BuiltFileLoads(dataStruct: seq<(string, Node)>, j: nat)
    requires WriteGroup(Dict(dataStruct), 0, [], map[]).Ok?
    requires j < |dataStruct| && '.' !in dataStruct[j].0
    ensures GetDataIn(WriteGroup(Dict(dataStruct), 0, [], map[]).value, dataStruct[j].0)
            == Ok(StoredFor(dataStruct[j].1))
  {
    var st := WriteGroup(Dict(dataStruct), 0, [], map[]).value;
    WriteGroupRooted(Dict(dataStruct), 0, [], map[]);
    WriteGroupPlacesElements(Dict(dataStruct), 0, [], map[], j);
    var p := [dataStruct[j].0];
    assert [] + p == p;
    LoaderFindsMember(st, p);
    assert Join(p, ".") == dataStruct[j].0;
  }

  /** NexusFileLoader: the path of the file and, once loaded, its content. */
  class NexusFileLoader {
    const filePath: string
    var content: Option<Store>

    constructor (path: string)
      ensures filePath == path && content == None
    {
      filePath := path;
      content := None;
    }

    /** load_file: opening the file for reading; its content is a parameter,
        since the file system is not modelled. */
    method LoadFile(fileContent: Store)
      modifies this
      ensures content == Some(fileContent)
    {
      content := Some(fileContent);
    }

    /** get_data(dot_path): the member at the dot path. */
    function GetData(dotPath: string): (r: Result<Stored, LoadError>)
      reads this
      ensures content.None? ==> r == Err(NotLoaded)
      ensures content.Some? ==> r == GetDataIn(content.value, dotPath)
    {
      if content.None? then Err(NotLoaded) else GetDataIn(content.value, dotPath)
    }

    /** get_attributes(dot_path), and the second half of
        get_data(dot_path, get_attrs=True): the member's attributes. */
    function GetAttributes(dotPath: string): (r: Result<Attrs, LoadError>)
      reads this
      ensures r.Ok? <==> GetData(dotPath).Ok?
      ensures r.Ok? ==> r.value == GetData(dotPath).value.attrs
    {
      match GetData(dotPath)
      case Err(e) => Err(e)
      case Ok(s) => Ok(s.attrs)
    }
  }
}
