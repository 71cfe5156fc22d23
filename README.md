# NeXus example generators: a Dafny model

The repository has scripts that write example NeXus (HDF5) files for
neutron instruments. This project models their deterministic core in
Dafny and proves properties of that model.

- **LoKI geometry generator** (`examples/loki/LOKI_geometry.py`, with its
  bank records in `examples/loki/detector_banks_geo.py`). It turns the four
  corner points of each face of a detector bank into:
  - a grid of tube offsets;
  - seven reordered straw offsets per tube;
  - 512 pixel offsets per straw;
  - flat per-pixel offset arrays with consecutive detector numbers drawn
    from shared counters.

  It wraps these in the `{values, attributes}` tree of `NexusInfo`, and
  `NexusFileBuilder` writes that tree to a file. `NexusFileLoader` reads
  it back by dot-separated paths.
- **V20 scripts.** `subpulse_aggregator.py` decodes 32-bit event ids into
  300 x 300 pixel indices and cuts sorted event and chopper timestamp
  arrays to the chopper window. `V20_example.py` builds the DENEX detector
  id grid and the group paths for copied logs and event data.
- **SANS2D script.** It reads the spectrum-to-detector map, converts an
  id array in place, and splits the paths for copied logs and truncated
  datasets.
- **AMOR script.** It derives the output file name and re-emits the start
  time in ISO 8601 form (`YYYY-MM-DDTHH:MM:SS`).

## How the model is built

- **Geometry.** Coordinates are exact `real` 3-vectors (module `Vectors`).
  The source's floating-point norms, sines, cosines and `round` come in as
  function parameters. The predicate `NormOf` states what a norm must
  satisfy where a proof needs it.
- **Mutable objects are Dafny classes.** `IdIterator`, `Pixel`, `Straw`,
  `Tube`, `Bank`, `NexusFileBuilder`, `NexusFileLoader` and the SANS2D map
  file are classes whose methods update fields. Each such method is proved
  against a specification function (`TubeGrid`, `TubeData`,
  `GeometryData`, `WriteGroup`, `SpectrumMap`, `Converted`).
- **Arrays.** The id array of the SANS2D conversion is a Dafny `array`.
  So are the corner lists that `_set_bank_geometry` rewrites in place.
- **The NeXus tree** is a datatype. A node holds a value (leaf data or an
  ordered dictionary) and an optional attribute map. Python's dict
  assignment is `NexusInfo.Put`.
- **The HDF5 file** is a map from paths to stored groups and datasets.
- **Builder calls.** Calls into the external `NexusBuilder` library are
  recorded as values of `BuilderCalls.Call`.
- **Python semantics.** Negative-index slicing is `Util.Slice`.
  `str.split` and `str.join` are `Util.Split` and `Util.Join`, and the two
  are proved inverse.

**The straw reorder follows the code.** In
`reorder_straw_offsets_in_list` the slice assignment at line 79 first
shortens the list, so the centre straw lands at index 3 and the result
for seven straws is `[u4, u5, u6, u0, u3, u2, u1]`.
`StrawReorder.ReorderSeven` proves that order.

## Model

| member | source | states |
|---|---|---|
| StrawReorder.MidPoint | examples/loki/LOKI_geometry.py:76 | mid_point is half the straw count rounded up (2m - 1 <= n <= 2m) for n >= 1, and 0 for n = 0; for an odd count, m - 1 is the index of the middle straw |
| StrawReorder.Reorder | examples/loki/LOKI_geometry.py:71-81 | raises IndexError exactly when the list has no position mid_point; otherwise every item of the result is an input offset or the `0` filler |
| StrawReorder.ReorderOdd | examples/loki/LOKI_geometry.py:71-81 | for an odd count n >= 3 on a list of n items, the result is `u[mid:] + [u[0]] + reversed(u[1:mid])` |
| StrawReorder.ReorderOddIsPermutation | examples/loki/LOKI_geometry.py:71-81 | for an odd count the result has the same length and the same multiset of items as the input |
| StrawReorder.RotatePermutes | examples/loki/LOKI_geometry.py:77-79 | moving a front block behind a reversed block keeps the multiset of items |
| StrawReorder.ReorderOddCentre | examples/loki/LOKI_geometry.py:77-79 | for an odd count the first straw (the centre) ends up at index mid - 1, not at mid |
| StrawReorder.ReorderSeven | examples/loki/LOKI_geometry.py:71-81 | for seven straws the order is exactly `[u4, u5, u6, u0, u3, u2, u1]` |
| StrawReorder.ReorderEvenDropsFirst | examples/loki/LOKI_geometry.py:71-81 | for an even count >= 2 the result is one item short and u[0] is lost: `u[mid:] + reversed(u[1:mid])` |
| StrawReorder.ReorderSingleFails | examples/loki/LOKI_geometry.py:78 | a one-straw list raises IndexError, because position mid = 1 does not exist |
| Ids.IdIterator.constructor | examples/loki/LOKI_geometry.py:95-96 | a new counter remembers its start and is not yet iterating |
| Ids.IdIterator.Iter | examples/loki/LOKI_geometry.py:98-100 | `iter()` restarts the count at the start value |
| Ids.IdIterator.Next | examples/loki/LOKI_geometry.py:102-105 | once started, `next` returns the current value and advances it by exactly one; before `iter()` it fails and changes nothing |
| Ids.IdIterator.Reset | examples/loki/LOKI_geometry.py:107-109 | `reset` returns a fresh, unstarted counter, so no existing counter is touched |
| Ids.FirstThreeIds | examples/loki/LOKI_geometry.py:94-105 | after `iter()`, three `next` calls give start, start+1, start+2 |
| Ids.ResetKeepsRunningIterator | examples/loki/LOKI_geometry.py:107-109 | a running counter continues where it was after a reset elsewhere |
| Ids.Counters.constructor | examples/loki/LOKI_geometry.py:112-114 | three distinct started counters: pixel ids from det_pixel_id_start, straw ids from 0, transformation ids from 1 |
| NexusInfo.NxUser | examples/loki/LOKI_geometry.py:167-175 | an NXuser group whose every user field is found under its own name |
| NexusInfo.LookupUnique | examples/loki/LOKI_geometry.py:167-175 | in a dictionary with unique keys, the i-th key looks up the i-th value |
| NexusInfo.NxEntry | examples/loki/LOKI_geometry.py:809-822 | the result is the single top-level `entry` group, of class NXentry, holding instrument, title, experiment_identifier, experiment_description and start_time in that order |
| NexusInfo.NxEntryLookups | examples/loki/LOKI_geometry.py:809-822 | `entry` is found in the result and is an NXentry group with distinct keys; `instrument` is an empty NXinstrument group, and title, experiment_identifier, experiment_description and start_time are each found under their own name with the given value |
| NexusInfo.Put | examples/loki/LOKI_geometry.py:279-315 | dict assignment: the key now maps to the new value and every other key is unchanged |
| NexusInfo.PutKeys | examples/loki/LOKI_geometry.py:279-315 | assignment keeps the key order and appends a new key at the end |
| NexusInfo.LookupFound | examples/loki/LOKI_geometry.py:279-315 | a lookup fails exactly when the key is absent; a found value is an entry of the dictionary |
| NexusInfo.KindName | examples/loki/LOKI_geometry.py:182-201 | the transformation type is "translation" exactly for a translation, else "rotation" |
| NexusInfo.DefaultTime | examples/loki/LOKI_geometry.py:220-227 | without a time, the axis is 0, 1, ... as long as the data, or [0] for scalar data |
| NexusInfo.NxLogGroup | examples/loki/LOKI_geometry.py:218-246 | fails (None is not subscriptable) exactly when neither data nor time is given |
| NexusInfo.NxLogGroupContents | examples/loki/LOKI_geometry.py:218-246 | an NXlog group holds `value` (the data, attributes cleared) and `time` with its unit; the data's attributes move to the group, whose class is NXlog unless the data named one |
| NexusInfo.TransKey | examples/loki/LOKI_geometry.py:212 | transformation names start with `trans_` |
| NexusInfo.TransKeyInjective | examples/loki/LOKI_geometry.py:212 | different transformation ids give different names |
| NexusInfo.Transformation | examples/loki/LOKI_geometry.py:248-256 | an NXtransformations group with exactly one key, `trans_<id>`, holding the location dataset |
| NexusInfo.NxLogTransformation | examples/loki/LOKI_geometry.py:203-216 | the same single key, holding the location dataset wrapped as an NXlog group |
| NexusInfo.NextTransformation | examples/loki/LOKI_geometry.py:181-201 | draws exactly one id from the transformation counter and builds the transformation (plain or NXlog) under that id |
| NexusInfo.Direction | examples/loki/LOKI_geometry.py:282-286 | the unit direction times the norm gives back the position; a zero position gets the z axis |
| NexusInfo.DependsOnPath | examples/loki/LOKI_geometry.py:296-304 | `depends_on` is transform_path + key, with `/value` appended for an NXlog transformation |
| NexusInfo.TransformationsAsDict | examples/loki/LOKI_geometry.py:279-315 | adds `transformations` (the translation by norm along the direction), `depends_on` when a path is given and `name` as `[name]` when one is given; every other key is unchanged |
| NexusInfo.PutChainLookups | examples/loki/LOKI_geometry.py:288-315 | the three assignments leave each of the three keys holding its own value |
| NexusInfo.DependsOnNamesTransformation | examples/loki/LOKI_geometry.py:279-315 | with a path, `depends_on` points at the one transformation key stored under `transformations` |
| NexusInfo.TransformationsHoldKey | examples/loki/LOKI_geometry.py:288-295 | the stored `transformations` group has exactly the key `trans_<id>` |
| NexusInfo.DependsOnFindsKey | examples/loki/LOKI_geometry.py:296-304 | stripping the path (and `/value`) from `depends_on` gives back the transformation key |
| NexusInfo.DependsOnPathStrips | examples/loki/LOKI_geometry.py:296-304 | `depends_on` starts with the path and ends with the key, or with key + `/value` for NXlog |
| NexusInfo.ComponentGeometry | examples/loki/LOKI_geometry.py:825-951 | each component's node has its NX class, holds a `transformations` group and keeps every geometry key other than those three |
| NexusInfo.SimpleComponentKeys | examples/loki/LOKI_geometry.py:835-840 | a simple component holds exactly `transformations`, then `depends_on` if a path is given, then `name` if one is given |
| NexusInfo.FreshKeysInOrder | examples/loki/LOKI_geometry.py:288-315 | on an empty dictionary the keys come out in assignment order |
| NexusInfo.AddData | examples/loki/LOKI_geometry.py:781-789 | `data` (and `time_of_flight` with its unit) become NXlog groups; the attributes and every other key are unchanged |
| Geometry.DistinctBound | examples/loki/LOKI_geometry.py:349 | a list has no more distinct elements than items |
| Geometry.NewCylinder | examples/loki/LOKI_geometry.py:348-355 | a constructed cylinder keeps the vertices in the given order |
| Geometry.CylinderOfThree | examples/loki/LOKI_geometry.py:348-355 | three vertices make a cylinder exactly when they are pairwise different |
| Geometry.CylinderNeedsThree | examples/loki/LOKI_geometry.py:348-355 | any list whose set of vertices is not of size 3 raises RuntimeError |
| Geometry.PixelRow | examples/loki/LOKI_geometry.py:414-420 | pixel p of a straw lies at the straw offset plus pixel offset p |
| Geometry.Pixel.constructor | examples/loki/LOKI_geometry.py:381-385 | a pixel keeps its three or more vertices and starts with no offsets |
| Geometry.Pixel.SetPixelXyzOffsets | examples/loki/LOKI_geometry.py:387-388 | stores the pixel offsets |
| Geometry.Pixel.GetPixelData | examples/loki/LOKI_geometry.py:414-420 | one position per pixel offset, with consecutive ids from the counter, which advances by the pixel count |
| Geometry.Rotate | examples/loki/LOKI_geometry.py:450-460 | rotation about x keeps x (horizontal tubes); rotation about y keeps y (vertical tubes) |
| Geometry.StrawAngle | examples/loki/LOKI_geometry.py:462-465 | the angle of each of the six outer straws lies within one turn starting at the 5 degree alignment offset |
| Geometry.OuterStrawOffset | examples/loki/LOKI_geometry.py:461-467 | an outer straw offset keeps the tube-axis component of the normalised direction, scaled by the straw distance (x for horizontal tubes, y for vertical ones) |
| Geometry.RawStrawOffsets | examples/loki/LOKI_geometry.py:448-467 | seven offsets: the centre straw at the origin, then six straws rotated round the tube axis |
| Geometry.PixelLength | examples/loki/LOKI_geometry.py:481-482 | STRAW_RESOLUTION pixel lengths laid end to end from A reach C |
| Geometry.PixelOffsets | examples/loki/LOKI_geometry.py:486-487 | 512 offsets, offset j = j times the pixel vector |
| Geometry.PixelsSpanStraw | examples/loki/LOKI_geometry.py:481-487 | the first pixel starts at offset zero and the last pixel ends at C |
| Geometry.StrawBlocks | examples/loki/LOKI_geometry.py:518-526 | block s holds the pixel row of straw s, moved by the tube offset |
| Geometry.StrawData | examples/loki/LOKI_geometry.py:518-526 | the pixels of one tube, straw after straw (StrawDataLength and StrawDataAt state its length and entries) |
| Geometry.TubeBlocks | examples/loki/LOKI_geometry.py:605-609 | block t holds the straw data of tube t |
| Geometry.TubeData | examples/loki/LOKI_geometry.py:605-609 | all pixels of the layout, tube after tube (TubeDataLength, TubeDataAt and PixelPosition state its length and entries) |
| Geometry.Straw.constructor | examples/loki/LOKI_geometry.py:434-444 | a straw keeps its points A, B, C and its bank id, with no offsets and no pixel yet |
| Geometry.Straw.SetStrawOffsets | examples/loki/LOKI_geometry.py:446-475 | the stored offsets are the reorder of the raw rotated offsets, and the pixel is unchanged |
| Geometry.Straw.PopulateWithPixels | examples/loki/LOKI_geometry.py:477-500 | succeeds exactly when the first pixel's vertices [A, B, A + vec] form a cylinder; the pixel then holds the 512 offsets |
| Geometry.Straw.GetStrawData | examples/loki/LOKI_geometry.py:518-526 | positions of every pixel of every straw, straw after straw, with consecutive ids |
| Geometry.ConsecutiveAppend | examples/loki/LOKI_geometry.py:594-629 | two consecutive id runs appended are one run, so no id is skipped or repeated |
| Geometry.EmptyGeometry | examples/loki/LOKI_geometry.py:597-603 | without a straw, all five fields are present and empty |
| Geometry.Ints | examples/loki/LOKI_geometry.py:621-629 | the detector-number array lists the ids in order |
| Geometry.Coordinates | examples/loki/LOKI_geometry.py:621-629 | each offset array lists one coordinate of the positions, in order |
| Geometry.StrawDataLength | examples/loki/LOKI_geometry.py:518-526 | a tube offset yields straws x pixels positions |
| Geometry.StrawDataAt | examples/loki/LOKI_geometry.py:518-526 | entry s*P + p is straw s plus pixel p plus the tube offset |
| Geometry.TubeDataLength | examples/loki/LOKI_geometry.py:605-609 | the flat layout has tubes x straws x pixels entries |
| Geometry.TubeDataAt | examples/loki/LOKI_geometry.py:605-609 | entry t*(S*P) + i of the flat layout is entry i of tube t's straw data |
| Geometry.PixelPosition | examples/loki/LOKI_geometry.py:594-629 | entry (t*S + s)*P + p is tube offset t + straw offset s + pixel offset p |
| Geometry.GeometryData | examples/loki/LOKI_geometry.py:605-629 | a tube with a straw has the same five geometry fields, in the same order, as one without |
| Geometry.GeometryDataFields | examples/loki/LOKI_geometry.py:594-629 | the five fields: detector numbers k, k+1, ..., and x, y, z arrays of the same length whose i-th entries are pixel i's coordinates, plus the pixel shape |
| Geometry.Tube.constructor | examples/loki/LOKI_geometry.py:542-549 | a tube keeps its end points and alignment, with no offsets and no straw |
| Geometry.Tube.SetXyzOffsets | examples/loki/LOKI_geometry.py:551-552 | stores the tube offsets and leaves the straw |
| Geometry.Tube.PopulateWithUniformStraws | examples/loki/LOKI_geometry.py:560-575 | creates the straw with B half a straw diameter along the normalised base_vec_1 + base_vec_2, reordered straw offsets and, when the cylinder check passes, its pixels |
| Geometry.Tube.GetGeometryData | examples/loki/LOKI_geometry.py:594-629 | returns the geometry fields for the counter's current value and advances the counter by the pixel count (not at all without a straw) |
| Geometry.Tube.Geometry | examples/loki/LOKI_geometry.py:594-629 | with or without a straw, the tube's geometry data has the five fields detector_number, pixel_shape and x, y, z_pixel_offset |
| Geometry.Tube.FlattenPixels | examples/loki/LOKI_geometry.py:605-609 | the nested tube, straw and pixel loops yield the flat layout with consecutive ids |
| Geometry.StrawOffsetsPermutation | examples/loki/LOKI_geometry.py:446-475 | the reordered straw offsets are the seven raw offsets, each as often as before |
| Geometry.StrawOffsetsOrder | examples/loki/LOKI_geometry.py:474 | the stored order is raw straws 4, 5, 6, 0, 3, 2, 1, with the centre straw (the origin) at index 3 |
| Banks.Transformed | examples/loki/LOKI_geometry.py:668-678 | every corner is scaled and then moved by minus the translation |
| Banks.SetBankGeometry | examples/loki/LOKI_geometry.py:668-678 | rewrites both corner arrays in place with the transformed corners |
| Banks.FirstCornerAtOrigin | examples/loki/LOKI_geometry.py:668-675 | moving by the scaled first corner puts that corner at the origin |
| Banks.TransformedDifference | examples/loki/LOKI_geometry.py:668-675 | the move keeps corner differences up to the scale |
| Banks.Orientation | examples/loki/LOKI_geometry.py:738-753 | HORIZONTAL exactly when A0 - B0 has a non-zero x; VERTICAL exactly when x is zero and y is not; otherwise ValueError |
| Banks.TubeWidth | examples/loki/LOKI_geometry.py:644 | `int(num_tubes / TUBE_DEPTH)` is the whole number of full rows |
| Banks.IsCuboid | examples/loki/LOKI_geometry.py:704-725 | the cuboid test: all four tube lengths |A[i] - B[i]| are one value (ParallelFacesAreCuboid and CheckBank state what passes it) |
| Banks.TubeCenterDistance | examples/loki/LOKI_geometry.py:708-712 | the tube spacing |A0 - A1| / (TUBE_DEPTH - 1), rounded by the `round2` parameter (CheckBank states its comparison with IMAGING_TUBE_D) |
| Banks.InPlane | examples/loki/LOKI_geometry.py:727-736 | some coordinate axis has one value for all four corners (TransformKeepsSharedAxis states that the move keeps it) |
| Banks.CheckBank | examples/loki/LOKI_geometry.py:637-666 | the cuboid ValueError exactly when the tube lengths differ; the spacing ValueError exactly when the lengths agree and the tubes are too close; success exactly when these pass, the corners lie in a plane, the tube width is not 1 and the orientation exists, and then the orientation is the result (width 1 is the model's stand-in for the division by zero at line 661) |
| Banks.ParallelFacesAreCuboid | examples/loki/LOKI_geometry.py:719-725 | corners that all differ by one vector pass the cuboid check under any norm and any move |
| Banks.TransformKeepsSharedAxis | examples/loki/LOKI_geometry.py:727-736 | scaling and moving keeps a face in its coordinate plane |
| Banks.TransformKeepsOrientation | examples/loki/LOKI_geometry.py:738-753 | with a non-zero scale, the moved corners have the original alignment |
| Banks.TubeGridLength | examples/loki/LOKI_geometry.py:686-694 | the grid holds depth x width tube offsets |
| Banks.TubeGridAt | examples/loki/LOKI_geometry.py:686-694 | entry x*width + y is base_vec_1 * x + base_vec_2 * y |
| Banks.TubeGridStartsAtOrigin | examples/loki/LOKI_geometry.py:686-694 | the first tube sits at the bank origin |
| Banks.TubeGrid | examples/loki/LOKI_geometry.py:686-694 | the tube offsets row after row (TubeGridLength, TubeGridAt and GetTubePointOffsets state its length, entries and loop) |
| Banks.Bank.constructor | examples/loki/LOKI_geometry.py:637-666 | the state a bank ends in after its checks: corners, base vectors divided by depth - 1 and width - 1, a fresh tube from A0 to B0, and an empty NeXus dictionary |
| Banks.Bank.New | examples/loki/LOKI_geometry.py:637-666 | moves the caller's corner arrays in place (even when a check then fails); builds the bank exactly when CheckBank passes on the moved corners, otherwise returns CheckBank's error, with SingleTubeColumn standing in for the infinite base_vec_2 of line 661; a built bank has tube depth 4, tube width `int(num_tubes/4)`, base_vec_1 = A[1]/(depth-1) and base_vec_2 = A[2]/(width-1) over the moved corners, and a fresh tube from A[0] to B[0] with no offsets and no straw |
| Banks.Bank.GetTubePointOffsets | examples/loki/LOKI_geometry.py:686-694 | the nested loops produce the tube grid, row after row |
| Banks.Bank.BuildDetectorBank | examples/loki/LOKI_geometry.py:696-702 | the tube gets the grid offsets; the result is the tube exactly when both norms are non-zero and the pixel cylinder is accepted, and UndefinedDirection exactly when a norm is zero; with non-zero norms the new straw carries the bank id and runs from A[0] through the radial point to B[0], with the reordered offsets and its 512 pixel offsets; where the source would divide by a zero norm (lines 461, 567) and go on with nan, the model stops with UndefinedDirection and leaves the straw as it was |
| Banks.Bank.CompoundDetectorGeometry | examples/loki/LOKI_geometry.py:764-779 | stores the NXdetector node built from the tube's geometry; draws exactly one transformation id and advances the pixel counter by the tube's pixel count (not at all without a straw) |
| Banks.Bank.SetNexusDict | examples/loki/LOKI_geometry.py:776 | stores the node as the bank's NeXus dictionary |
| Banks.Bank.DetectorNode | examples/loki/LOKI_geometry.py:770-775 | builds the detector node with the bank translation; draws exactly one transformation id and advances the pixel counter by the tube's pixel count (not at all without a straw) |
| Banks.Bank.AddDetectorData | examples/loki/LOKI_geometry.py:781-789 | succeeds exactly when the NeXus dictionary is a filled dictionary; it then gains `data` and `time_of_flight` NXlog groups; otherwise it is unchanged |
| Banks.Bank.NumberOfPixels | examples/loki/LOKI_geometry.py:794-795 | the bank's pixel count, PixelCount of its tube count |
| Banks.PixelCount | examples/loki/LOKI_geometry.py:794-795 | num_tubes * STRAW_RESOLUTION * NUM_STRAWS_PER_TUBE; PixelCountMatchesLayout and PixelCountOvercounts compare it with the flattened layout |
| Banks.PixelCountMatchesLayout | examples/loki/LOKI_geometry.py:794-795 | when TUBE_DEPTH divides the tube count, get_number_of_pixels equals the number of flattened pixels |
| Banks.PixelCountOvercounts | examples/loki/LOKI_geometry.py:794-795 | otherwise the reported count exceeds the pixels the grid holds |
| NexusFile.WriteGroup | examples/loki/LOKI_geometry.py:989-1002 | writing a group never overwrites what is already stored |
| NexusFile.WriteGroupRooted | examples/loki/LOKI_geometry.py:989-1002 | every stored path's parent is a stored group, so the file is a tree |
| NexusFile.WriteGroupPlacesElements | examples/loki/LOKI_geometry.py:989-1002 | each element of a dictionary is stored under group + name, as a dataset for leaf values and as a group otherwise |
| NexusFile.BuilderFilename | examples/loki/LOKI_geometry.py:981-982 | the chosen name always contains `.format`; a name that has it is kept; a name without it gains exactly that suffix |
| NexusFile.BuilderFilenameIdempotent | examples/loki/LOKI_geometry.py:981-982 | choosing the name twice changes nothing |
| NexusFile.NexusFileBuilder.constructor | examples/loki/LOKI_geometry.py:978-983 | the builder keeps the data and the derived file name, with an empty open file |
| NexusFile.NexusFileBuilder.ConstructNxsFile | examples/loki/LOKI_geometry.py:985-987 | writes the whole tree and closes the file exactly when every write succeeds |
| NexusFile.NexusFileBuilder.Construct | examples/loki/LOKI_geometry.py:989-1002 | the recursive writer's loop stores what the tree specifies, and fails on a name already used |
| NexusFile.Walk | examples/loki/LOKI_geometry.py:1036-1041 | a found member is the member stored at that path |
| NexusFile.AncestorsAreGroups | examples/loki/LOKI_geometry.py:1036-1041 | in a rooted file every prefix of a stored path is a group |
| NexusFile.WalkFinds | examples/loki/LOKI_geometry.py:1036-1041 | every stored path of a rooted file is found by the walk |
| NexusFile.GetDataIn | examples/loki/LOKI_geometry.py:1023-1025 | a found member is the one stored at the dot path's names |
| NexusFile.LoaderFindsMember | examples/loki/LOKI_geometry.py:1023-1041 | the dot path of a stored member (names without dots) loads that member |
| NexusFile.BuiltFileLoads | examples/loki/LOKI_geometry.py:985-1041 | a top-level element written by the builder loads back by its name as what was written |
| NexusFile.NexusFileLoader.constructor | examples/loki/LOKI_geometry.py:1016-1018 | the loader remembers the path and has no content yet |
| NexusFile.NexusFileLoader.LoadFile | examples/loki/LOKI_geometry.py:1020-1021 | the loader holds the file content |
| NexusFile.NexusFileLoader.GetData | examples/loki/LOKI_geometry.py:1023-1030 | before loading it fails; afterwards it is the dot-path lookup in the content |
| NexusFile.NexusFileLoader.GetAttributes | examples/loki/LOKI_geometry.py:1032-1048 | succeeds exactly when the member is found, and gives that member's attributes |
| LokiBanksValid.Bank0Facts | examples/loki/detector_banks_geo.py:16-25 | bank 0: both faces share x, every tube is (-1000, 0, 0), 224 tubes in full rows, first corner gap about 81 |
| LokiBanksValid.Bank1Facts | examples/loki/detector_banks_geo.py:26-34 | bank 1: both faces share x, every tube is (-1000, 0, 0), full rows |
| LokiBanksValid.Bank2Facts | examples/loki/detector_banks_geo.py:35-43 | bank 2: both faces share y, every tube is (0, -500, 0), full rows |
| LokiBanksValid.Bank3Facts | examples/loki/detector_banks_geo.py:44-52 | bank 3: both faces share x, every tube is (-1000, 0, 0), full rows |
| LokiBanksValid.Bank4Facts | examples/loki/detector_banks_geo.py:53-61 | bank 4: both faces share y, every tube is (0, -500, 0), full rows |
| LokiBanksValid.Bank5Facts | examples/loki/detector_banks_geo.py:62-70 | bank 5: both faces share x, every tube is (-1200, 0, 0), full rows |
| LokiBanksValid.Bank6Facts | examples/loki/detector_banks_geo.py:71-79 | bank 6: both faces share y, every tube is (0, -1200, 0), full rows |
| LokiBanksValid.Bank7Facts | examples/loki/detector_banks_geo.py:80-88 | bank 7: both faces share x, every tube is (-1200, 0, 0), full rows |
| LokiBanksValid.Bank8Facts | examples/loki/detector_banks_geo.py:89-97 | bank 8: both faces share y, every tube is (0, -1200, 0), full rows |
| LokiBanksValid.RecordShape | examples/loki/detector_banks_geo.py:16-97 | every record lies in its plane, has equal tubes and whole rows of TUBE_DEPTH |
| LokiBanksValid.RecordAlignment | examples/loki/detector_banks_geo.py:16-97 | banks 0, 1, 3, 5, 7 are horizontal and banks 2, 4, 6, 8 vertical |
| LokiBanksValid.PlaneAxis | examples/loki/detector_banks_geo.py:16-97 | the shared coordinate is a real axis |
| LokiBanksValid.Moved | examples/loki/LOKI_geometry.py:668-675 | moving keeps the number of corners |
| LokiBanksValid.MovedGap | examples/loki/LOKI_geometry.py:708-717 | moving scales the gap between the first two corners |
| LokiBanksValid.SpacingFromGap | examples/loki/LOKI_geometry.py:708-717 | with a scale of magnitude at least 1, a first gap of at least 78 passes the tube-spacing check |
| LokiBanksValid.LokiBanksPassChecks | examples/loki/detector_banks_geo.py:16-97 | every record, scaled and moved, passes all bank checks with the expected alignment |
| Subpulse.PositionToIndex | examples/v20/subpulse_aggregator.py:26-29 | `pos // (65535 // count)`: a zero count raises ZeroDivisionError; a count above 65535 makes the step zero, and numpy's floor division by zero gives 0 |
| Subpulse.IndexRangeFor300 | examples/v20/subpulse_aggregator.py:26-29 | with 300 pixels the step is 218: positions 65400..65535 give index 300, and every index lies in 0..300 |
| Subpulse.PositionX | examples/v20/subpulse_aggregator.py:33 | x is bits 16..31 of the id |
| Subpulse.PositionY | examples/v20/subpulse_aggregator.py:34 | y is bits 0..15 of the id |
| Subpulse.DecodeEncode | examples/v20/subpulse_aggregator.py:33-34 | decoding an id built from x and y gives x and y back |
| Subpulse.EncodeDecode | examples/v20/subpulse_aggregator.py:33-34 | every 32-bit id is rebuilt from its x and y |
| Subpulse.ConvertId | examples/v20/subpulse_aggregator.py:32-40 | the detector id is id_offset + ix + 300 * iy for the decoded indices |
| Subpulse.ConvertIdCollides | examples/v20/subpulse_aggregator.py:26-40 | as written, two different pixels share detector id 300 |
| Subpulse.ClampedIndex | examples/v20/subpulse_aggregator.py:26-29 | the clamped index lies in 0..count-1 and agrees with the source wherever the source's is in range |
| Subpulse.ConvertIdClamped | examples/v20/subpulse_aggregator.py:32-40 | corrected ids lie in id_offset .. id_offset + 89999 |
| Subpulse.ConvertIdClampedInjective | examples/v20/subpulse_aggregator.py:32-40 | corrected ids are unique per (column, row) index |
| Subpulse.ConvertIdClampedAgrees | examples/v20/subpulse_aggregator.py:32-40 | the corrected id equals the source's wherever both indices are in range |
| Subpulse.SearchSortedLeft | examples/v20/subpulse_aggregator.py:65 | numpy `searchsorted(side='left')` on an ascending array: the first position whose item is not below the value |
| Subpulse.SearchSortedRight | examples/v20/subpulse_aggregator.py:66 | numpy `searchsorted(side='right')` on an ascending array: the first position whose item is above the value |
| Subpulse.Window | examples/v20/subpulse_aggregator.py:65-74 | an item is kept exactly when it lies between the bounds, inclusive |
| Subpulse.TruncateToChopperTimeRange | examples/v20/subpulse_aggregator.py:61-78 | fails (IndexError) exactly when there are fewer than two chopper times; otherwise returns the chopper times without their last two |
| Subpulse.SortedSliceIsWindow | examples/v20/subpulse_aggregator.py:65-74 | on an ascending array, slicing between the two search positions keeps exactly the items in the closed window |
| Subpulse.TruncationKeepsWindow | examples/v20/subpulse_aggregator.py:65-74 | kept event times are those in [chopper[0], chopper[-2]], and kept WFM times are those in [chopper[0], chopper[-1]] |
| Subpulse.TruncationKeepsPairs | examples/v20/subpulse_aggregator.py:65-68 | event ids and times are cut with the same bounds, so parallel arrays stay parallel |
| V20Detector.Reshape | examples/v20/V20_example.py:59 | the reshape has the requested rows and columns |
| V20Detector.ReshapeFlatten | examples/v20/V20_example.py:59 | flattening the reshape gives back the flat array |
| V20Detector.ReshapeAt | examples/v20/V20_example.py:59 | cell (i, j) is flat item i*cols + j |
| V20Detector.ArangeGrid | examples/v20/V20_example.py:58-62 | the grid is square |
| V20Detector.GridAt | examples/v20/V20_example.py:58-62 | cell (r, c) is p*r + c |
| V20Detector.GridHasEveryId | examples/v20/V20_example.py:58-62 | every id below p*p sits at (id div p, id mod p) |
| V20Detector.GridInjective | examples/v20/V20_example.py:58-62 | no id appears in two cells |
| V20Detector.GridBounds | examples/v20/V20_example.py:58-62 | ids lie in 0..p*p - 1 |
| V20Detector.DenexGrid | examples/v20/V20_example.py:58-62 | for 150 pixels per axis: cell (r, c) is 150r + c, at most 22499, and every id 0..22499 appears |
| V20Detector.WideGridNeedsInt64 | examples/v20/V20_example.py:58 | with 65535 pixels per axis the ids exceed int32 but fit int64 |
| V20.CopyLog | examples/v20/V20_example.py:22-34 | fails exactly for a class with a destination without '/'; the log group is NXlog, named by the last segment; the copies come last |
| V20.CopyLogWithoutClass | examples/v20/V20_example.py:30-31 | without a class, the NXlog group is made under segments 1..len-2 joined with '/' |
| V20.CopyLogWithoutClassRebuilds | examples/v20/V20_example.py:30-34 | entry + parent path + log name rebuild the destination |
| V20.CopyLogWithClass | examples/v20/V20_example.py:25-29 | with a class, the component (second-last segment) goes under segments 1..len-3 and the log inside it |
| V20.CopyLogWithClassRebuilds | examples/v20/V20_example.py:25-34 | entry + parent path + component + log name rebuild the destination |
| V20.CopyLogAgreesWithSans2d | examples/v20/V20_example.py:22-34 | with a class, V20 and SANS2D make the same calls; without one, V20 makes one more (the NXlog group) |
| V20.CopyExistingData | examples/v20/V20_example.py:8-19 | one copy_items call of five pairs, the first copying the event group to raw_event_data |
| V20.CopyExistingDataMirrors | examples/v20/V20_example.py:8-19 | five pairs: the event group to raw_event_data, then each event dataset to the child of that name |
| V20.CopyExistingDataDistinct | examples/v20/V20_example.py:12-19 | no two pairs share a destination |
| Sans2d.Fields | examples/sans2d/SANS2D_example.py:59-61 | the space-delimited reader with skipinitialspace gives no fields exactly for an empty line |
| Sans2d.FieldsShape | examples/sans2d/SANS2D_example.py:59-61 | fields contain no space, and only the last one can be empty |
| Sans2d.FieldsOfJoin | examples/sans2d/SANS2D_example.py:59-66 | reading back non-empty space-free fields joined by single spaces gives the fields |
| Sans2d.FieldsSkipRepeatedSpaces | examples/sans2d/SANS2D_example.py:59-61 | leading and repeated spaces are skipped |
| Sans2d.FieldsTrailingSpace | examples/sans2d/SANS2D_example.py:59-61 | a trailing space yields an empty last field |
| Sans2d.ParseInt | examples/sans2d/SANS2D_example.py:67 | `int()` accepts no empty string and no bare sign |
| Sans2d.ParseDigits | examples/sans2d/SANS2D_example.py:67 | a digit string parses to its decimal value |
| Sans2d.ParseNegative | examples/sans2d/SANS2D_example.py:67 | '-' followed by digits parses to the negated value |
| Sans2d.ParseIntRoundTrip | examples/sans2d/SANS2D_example.py:67 | every integer's decimal form parses back to it |
| Sans2d.ParseRow | examples/sans2d/SANS2D_example.py:67 | IndexError exactly for fewer than two fields; success exactly when both fields parse, giving (int(rows[1]), int(rows[0])); column 1 is parsed before column 0 |
| Sans2d.RowEntry | examples/sans2d/SANS2D_example.py:59-67 | a line without a space has fewer than two fields and raises IndexError |
| Sans2d.RowEntryRoundTrip | examples/sans2d/SANS2D_example.py:67 | the row "detector spectrum" gives the entry spectrum -> detector |
| Sans2d.RowEntries | examples/sans2d/SANS2D_example.py:66-67 | one parsed entry per row, in order |
| Sans2d.Collect | examples/sans2d/SANS2D_example.py:67 | the comprehension succeeds with every row's entry, or stops at the first bad row |
| Sans2d.FoldMapLastWins | examples/sans2d/SANS2D_example.py:67 | a key takes the value of its last entry |
| Sans2d.FoldMapKeys | examples/sans2d/SANS2D_example.py:67 | the keys are exactly those of some entry |
| Sans2d.RowsStart | examples/sans2d/SANS2D_example.py:63-65 | at most three header lines are skipped, fewer only when the file ends |
| Sans2d.HeaderIgnored | examples/sans2d/SANS2D_example.py:63-65 | the content of the three header lines does not matter |
| Sans2d.EntryMapLastWins | examples/sans2d/SANS2D_example.py:67 | a spectrum maps to the detector of its last row |
| Sans2d.EntryMapKeys | examples/sans2d/SANS2D_example.py:67 | a spectrum is a key exactly when some row names it |
| Sans2d.SpectrumMapLastRowWins | examples/sans2d/SANS2D_example.py:58-68 | in the file's map, a repeated spectrum keeps its last row's detector |
| Sans2d.SpectrumMapHasRowKey | examples/sans2d/SANS2D_example.py:58-68 | every row after the header contributes its spectrum |
| Sans2d.SpectrumMapKeyFromRow | examples/sans2d/SANS2D_example.py:58-68 | every key of the map comes from a row after the header |
| Sans2d.SpectrumMap | examples/sans2d/SANS2D_example.py:58-68 | a file of at most three lines gives the empty dict; a failure names a line after the header whose row fails with that error |
| Sans2d.SpectrumMapOkExactly | examples/sans2d/SANS2D_example.py:58-68 | the map is built exactly when every row after the header parses; a failure is at the first bad row |
| Sans2d.CollectOkExactly | examples/sans2d/SANS2D_example.py:67 | collecting succeeds exactly when every row parses |
| Sans2d.MapFile.ReadLine | examples/sans2d/SANS2D_example.py:65 | `readline` returns the next line and advances, or "" at the end of the file |
| Sans2d.ReadSpectrumMap | examples/sans2d/SANS2D_example.py:58-68 | reading the file gives exactly the map specified by its lines |
| Sans2d.FirstUnknown | examples/sans2d/SANS2D_example.py:79-80 | the first position whose spectrum is missing from the map (or the length) |
| Sans2d.Converted | examples/sans2d/SANS2D_example.py:79-80 | each element replaced by its mapped value; length and order unchanged |
| Sans2d.ConvertSpectrumNumbers | examples/sans2d/SANS2D_example.py:71-80 | in place: with all spectra known, the array becomes its conversion; otherwise KeyError at the first unknown spectrum, with the elements before it converted and the rest untouched |
| Sans2d.CopyLog | examples/sans2d/SANS2D_example.py:83-93 | fails exactly for a class with a destination without '/'; without a class, only the time and value copies are made |
| Sans2d.CopyLogSegments | examples/sans2d/SANS2D_example.py:84-90 | with a class: the component is the second-last segment under segments 1..len-3 joined with '/', and the NXlog is the last segment |
| Sans2d.GuidePressureLog | examples/sans2d/SANS2D_example.py:123-124 | the script's guide pressure log: NXguide guide_1 under instrument and NXlog pressure inside it |
| Sans2d.TargetPath | examples/sans2d/SANS2D_example.py:16-17 | `target[0:]` leaves the path unchanged, so a leading '/' stays |
| Sans2d.ParentAsWritten | examples/sans2d/SANS2D_example.py:18 | the parent as written never contains '/', so it names one group below the root |
| Sans2d.LastSegment | examples/sans2d/SANS2D_example.py:19 | the dataset name contains no '/' and ends the path |
| Sans2d.CopyAndTruncate | examples/sans2d/SANS2D_example.py:14-20 | as written: fails exactly for an empty target; the data is the first truncate_to_size items |
| Sans2d.TruncatedData | examples/sans2d/SANS2D_example.py:14 | the copied data is the first truncate_to_size items of the source, or all of them if there are fewer |
| Sans2d.ParentOfSegments | examples/sans2d/SANS2D_example.py:18-19 | as written, the parent is the middle segments concatenated without separator |
| Sans2d.CopyAndTruncateSegments | examples/sans2d/SANS2D_example.py:14-20 | as written, for a path of segments: that parent, the last segment as name, and the truncated data |
| Sans2d.CopyAndTruncateMergesGroups | examples/sans2d/SANS2D_example.py:18 | as written, two or more middle groups run together into one name that no longer splits into them |
| Sans2d.CopyAndTruncateThreeSegments | examples/sans2d/SANS2D_example.py:14-20 | for a target root/group/name without a leading '/', the copy as written and the corrected copy both add `name` under `group` |
| Sans2d.CopyAndTruncateDetectorEvents | examples/sans2d/SANS2D_example.py:112-119 | the script's commented-out copies of raw_data_1/detector_1_events/... add each dataset under detector_1_events, as the corrected copy does |
| Sans2d.CopyAndTruncateKeepsLeadingSlash | examples/sans2d/SANS2D_example.py:16-18 | as written, a leading '/' puts the entry name into the parent, unlike the same path without '/' |
| Sans2d.ParentGainsFirstSegment | examples/sans2d/SANS2D_example.py:16-18 | with a leading '/', the parent starts with the first segment |
| Sans2d.CopyAndTruncateFixed | examples/sans2d/SANS2D_example.py:14-20 | corrected: a leading '/' is dropped and the middle groups are joined with '/' |
| Sans2d.CopyAndTruncateFixedPaths | examples/sans2d/SANS2D_example.py:14-20 | corrected: with or without a leading '/', the parent is the middle groups as a '/'-path that splits back into them |
| Amor.OutputFilename | examples/amor/supplement_old_files.py:30 | the output name always ends with `_tweaked.nxs` |
| Amor.LastDot | examples/amor/supplement_old_files.py:30 | the position of the last '.' of the name |
| Amor.OutputFilenameStem | examples/amor/supplement_old_files.py:30 | the name up to its last '.', with its other dots removed, plus the suffix; a name without '.' gives the bare suffix |
| Amor.OutputFilenameDotFree | examples/amor/supplement_old_files.py:30 | no '.' remains before the suffix |
| Amor.ParseStartTime | examples/amor/supplement_old_files.py:58 | an accepted start time has the `YYYY-MM-DD HH:MM:SS` shape and is a valid date and time |
| Amor.Render | examples/amor/supplement_old_files.py:58-59 | a date and time is printed as 19 characters (RenderShaped, ParseRender and RenderParse state the shape and the round trips) |
| Amor.RenderShaped | examples/amor/supplement_old_files.py:58-59 | the printed form has the `YYYY-MM-DD?HH:MM:SS` shape with the given separator |
| Amor.IsoFormat | examples/amor/supplement_old_files.py:59 | `isoformat()` gives the same shape with 'T' between date and time |
| Amor.StartTimeIso | examples/amor/supplement_old_files.py:57-59 | the start time written, when strptime accepts the input, has the `YYYY-MM-DDTHH:MM:SS` shape |
| Amor.StartTimeIsoReplacesSpace | examples/amor/supplement_old_files.py:57-59 | the ISO form exists exactly when the input parses, and it is the input with its space replaced by 'T' |
| Amor.ParseRender | examples/amor/supplement_old_files.py:58 | every valid date and time, printed in the input format, parses back to itself |
| Amor.RenderParse | examples/amor/supplement_old_files.py:58 | every accepted string is the printed form of what it parses to |
| Amor.IsoFormatRoundTrip | examples/amor/supplement_old_files.py:59 | the ISO form with 'T' put back to a space parses to the same date and time |
| Amor.LeapDay | examples/amor/supplement_old_files.py:58 | 29 February is accepted exactly in leap years |
| Amor.CenturyLeapYears | examples/amor/supplement_old_files.py:58 | 1900 is not a leap year and 2000 is |
| Amor.DaysInMonth | examples/amor/supplement_old_files.py:58 | every month has 28 to 31 days |

## Left out

- Real HDF5 access is not modelled: h5py calls in `NexusFileBuilder`, `NexusFileLoader` and the scripts. The file is an in-memory map from paths to stored groups and datasets.
- The data that `add_dataset` gets for a leaf is not modelled. The stored entry records only that a dataset (with its attributes) was written; `_add_attributes` type conversions are not modelled.
- The calls into the `NexusBuilder`, `DetectorPlotter`, `nxloghelper` and `examples.amor.amor` libraries are not modelled, because their source is not part of this model. The scripts' calls into them are recorded as `BuilderCalls.Call` values. Parent groups are assumed to exist, and nothing checks the library's path lookup.
- Floating-point numerics are not modelled. Norms (`np.linalg.norm`), sine and cosine in `set_straw_offsets`, and `round(..., 2)` in the spacing check are parameters. Only the properties the proofs need (`NormOf`, `RoundsToHundredths`) are assumed of them. The V20 `single_axis_offsets` are left out.
- The names `LOKI_geometry.py` imports that `detector_banks_geo.py` does not define are model parameters: `SCALE_FACTOR`, `LENGTH_UNIT`, `det_pixel_id_start`, `bank_offset` and `det_banks_data`. The LARMOR import branch (lines 14-42) is not modelled.
- The plotting, CSV and debug paths are not modelled: `plot_all`, `write_csv_file`, and `compound_data_in_dict`/`compound_data_in_list`. They only produce output.
- The LoKI `__main__` block (lines 1051 on) is not modelled. Neither are the `compound_geometry_extended` extras of choppers and slits (lines 898-917, 953-970).
- The subpulse `__main__` event loop, `write_event_data`, `_wfm_psc_*` and `_tof_shifts` are not modelled. They are script I/O and floating-point tables.
- The V20 script's choppers, users and monitors are not modelled, nor its `__main__` block. Only the detector id grid and the path logic of `__copy_log` and `__copy_existing_data` are modelled.
- The SANS2D `__copy_existing_data` (lines 24-55) is not modelled. It is a fixed list of builder calls with no path arithmetic.
- The source attributes copied by `__copy_and_truncate` (line 15) are not modelled. The `nditer` write-back of numpy integer types is not modelled either.
- Sans2d.ParseInt: accepts an optional sign and ASCII digits only. Python's `int()` also strips surrounding whitespace other than the space, such as a tab left inside a field (the reader splits only at spaces, so the row `1 3\t` gives the field `3\t`, which `int()` reads as 3). It also accepts underscores between digits and non-ASCII decimal digits. The model rejects all of these, so such a row is reported as NotAnInteger where the source reads it.
- Sans2d.Fields: models the space-delimited csv reader with `skipinitialspace`. Quoting (`"`) and line terminators inside a line are not modelled.
- Amor.ParseStartTime: accepts only the zero-padded `YYYY-MM-DD HH:MM:SS` form with exactly one space and ASCII digits. `strptime` also accepts unpadded fields such as `2020-1-5 3:4:5`, any run of whitespace between date and time (two spaces, a tab), and non-ASCII decimal digits; all of these are rejected here.
- The AMOR NXlog relabelling (lines 52-55) and the copying of input groups (lines 44-50) are not modelled. They are in-place HDF5 edits.
- `examples/loki/nurf_data.py` is not part of this model. It is file-writing code depending on numpy shape semantics.
- numpy's fixed-width integer arrays and dtype promotion are not modelled in `convert_id`. Ids are a `uint32` newtype, and the results are unbounded integers.
- Banks.CheckBank: for 4 to 7 tubes the tube width is 1, and line 661 divides base_vec_2 by zero. numpy does not raise there: it warns and goes on with an infinite or nan base_vec_2, so the source builds the bank. The model reports SingleTubeColumn instead and does not model the non-finite vector.
- Banks.Bank.New: inherits the SingleTubeColumn stand-in from CheckBank. For 4 to 7 tubes it returns an error where the source returns a bank with a non-finite base_vec_2.
- Banks.Bank.BuildDetectorBank: where the norm of base_vec_1 (line 461) or of base_vec_1 + base_vec_2 (line 567) is zero, numpy divides by zero and the source goes on with nan offsets. The model stops with UndefinedDirection before the straw is made.
- The spacing check of the bank checks takes the rounded distance from the `round2` parameter. The lemmas about the LoKI banks assume that it rounds to within half a hundredth (`RoundsToHundredths`).

## Findings

| source | as written | input that shows it | evidently intended | confidence | as-written member | corrected member |
|---|---|---|---|---|---|---|
| examples/v20/subpulse_aggregator.py:26-40 | `position_to_index` steps by `65535 // 300 = 218`, so positions 65400..65535 give index 300, one past the last pixel; the id then spills into the next row | event ids with (x, y) = (65400, 0) and (0, 218) both give detector id 300 | indices clamped to 0..299, so each id names one pixel and ids stay below 90000 | not executed | Subpulse.ConvertIdCollides | Subpulse.ConvertIdClampedInjective |
| examples/sans2d/SANS2D_example.py:18 | the parent path is built with `"".join`, so the middle groups run together | `raw_data_1/instrument/detector_1/event_id` gives parent `instrumentdetector_1` | the middle groups joined with '/' | not executed | Sans2d.CopyAndTruncateMergesGroups | Sans2d.CopyAndTruncateFixedPaths |
| examples/sans2d/SANS2D_example.py:16-17 | `target[0:]` keeps the leading '/', so splitting yields an empty first segment and the entry name becomes part of the parent | `/raw_data_1/detector_1_events/event_id` gives parent `raw_data_1detector_1_events` | the leading '/' stripped (`target[1:]`) | not executed | Sans2d.CopyAndTruncateKeepsLeadingSlash | Sans2d.CopyAndTruncateFixedPaths |
