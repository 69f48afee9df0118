/** How the graph runtime folds a node's partial update into the state.
    A field declared `Annotated[list, operator.add]` is appended to; every other
    field is replaced. `ClearOnEmpty` is the behaviour the aggregators' comment
    ("reset to avoid accumulation") asks for but `operator.add` does not give. */
module Reducers {

  datatype Reducer =
    | Overwrite     // plain field: the update replaces the old value
    | Concat        // `operator.add`: the update is appended
    | ClearOnEmpty  // appends, except that an empty update clears the list

  function MergeList<T>(r: Reducer, current: seq<T>, update: seq<T>): seq<T>
  {
    match r
    case Overwrite => update
    case Concat => current + update
    case ClearOnEmpty => if update == [] then [] else current + update
  }

  /** With `operator.add`, returning `[]` as an update leaves the list as it was. */
  lemma {:induction false} ConcatEmptyKeeps<T>(current: seq<T>)
    ensures MergeList(Concat, current, []) == current
  {
  }

  /** With the intended reducer, returning `[]` clears the list, and any other
      update appends exactly as `operator.add` does. */
  lemma {:induction false} ClearOnEmptyResets<T>(current: seq<T>, update: seq<T>)
    ensures MergeList(ClearOnEmpty, current, []) == []
    ensures update != [] ==> MergeList(ClearOnEmpty, current, update) == MergeList(Concat, current, update)
  {
  }
}
