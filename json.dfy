/**
  JSON documents as Python's `json` module builds and serializes them from
  dictionaries and lists: an object keeps its members in insertion order.
 */
module Json {
  import opened Wrappers

  datatype Json =
    | Null
    | Bool(b: bool)
    | Int(n: int)
    | Str(s: string)
    | Arr(items: seq<Json>)
    | Obj(members: seq<(string, Json)>)

  /**
    A path into a document: stop here, or go on from the member at position
    `pos` of an object, which must carry the key `key`, or from the item at
    position `pos` of an array.
   */
  datatype Path = Here | Key(key: string, pos: nat, next: Path) | Index(pos: nat, next: Path)

  /** The sub-document a path leads to, if the path exists in `j`. */
  function At(j: Json, path: Path): Option<Json>
    decreases path
  {
    match path
    case Here => Some(j)
    case Key(k, i, next) =>
      if j.Obj? && i < |j.members| && j.members[i].0 == k then At(j.members[i].1, next) else None
    case Index(i, next) =>
      if j.Arr? && i < |j.items| then At(j.items[i], next) else None
  }

  /** The keys of an object, in order; nothing for any other document. */
  function Keys(j: Json): (ks: seq<string>)
    ensures j.Obj? ==> |ks| == |j.members| && forall i :: 0 <= i < |ks| ==> ks[i] == j.members[i].0
    ensures !j.Obj? ==> ks == []
  {
    if j.Obj? then seq(|j.members|, i requires 0 <= i < |j.members| => j.members[i].0) else []
  }

  /** The keys of the object a path leads to. */
  function KeysAt(j: Json, path: Path): seq<string>
  {
    match At(j, path)
    case Some(o) => Keys(o)
    case None => []
  }

  /** `j` with the sub-document at `path` replaced by `v`; `j` itself when the path does not exist. */
  function Put(j: Json, path: Path, v: Json): Json
    decreases path
  {
    match path
    case Here => v
    case Key(k, i, next) =>
      if j.Obj? && i < |j.members| && j.members[i].0 == k
      then Obj(j.members[i := (k, Put(j.members[i].1, next, v))])
      else j
    case Index(i, next) =>
      if j.Arr? && i < |j.items| then Arr(j.items[i := Put(j.items[i], next, v)]) else j
  }
}
