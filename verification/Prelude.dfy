/** Failure-aware results and the abstract file-system names the other modules share. */
module Prelude {

  datatype Option<+T> = None | Some(value: T)

  datatype Result<+T, +E> = Ok(value: T) | Err(error: E)
}

/** Paths are component sequences, so "lies under" is the prefix relation. */
module Paths {
  type Path = seq<string>

  /** A document URL: a `file://` URL names a path, any other scheme names none. */
  datatype Url = FileUrl(path: Path) | OtherUrl(name: string)

  predicate Under(path: Path, root: Path) {
    root <= path
  }

  /** Whether the last component carries the `mw` extension after a non-empty stem. */
  predicate IsMarrowSource(path: Path) {
    path != [] &&
    var name := path[|path| - 1];
    3 < |name| && name[|name| - 3..] == ".mw"
  }
}
