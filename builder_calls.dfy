/** The NexusBuilder calls the example scripts make, recorded as values.
    NexusBuilder itself is not part of this model: what the scripts decide
    is which calls they make, with which paths, names and data. */
module BuilderCalls {

  /** Where add_nx_group puts a new group: a '/'-path below the entry, or
      the group handle the previous add_nx_group returned. */
  datatype Parent = AtPath(path: string) | PreviousGroup

  datatype Call =
    | AddNxGroup(parent: Parent, name: string, nxClass: string)
    | AddDataset(parentPath: string, name: string, data: seq<int>)
    | CopyItems(pairs: seq<(string, string)>)

  /** Why a script's path arithmetic raises IndexError. */
  datatype PathError =
    | EmptyPath          // path[0] on ""
    | NoComponentSegment // split('/')[-2] on a path without '/'

  /** The copies every __copy_log ends with: the time and value datasets of
      the source log into the destination group, in that order. */
  function LogCopies(source: string, destination: string): seq<(string, string)>
  {
    [(source + "/time", destination + "/time"), (source + "/value", destination + "/value")]
  }
}
