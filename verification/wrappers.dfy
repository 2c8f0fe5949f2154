/** The optional-value datatype used for Python's `Optional[...]` fields
    (`None` is the unset sentinel). */
module Wrappers {

  datatype Option<+T> = None | Some(value: T)

  /** Collapses a nested option: `Some(None)` and `None` both become `None`. */
  function Flatten<T>(o: Option<Option<T>>): Option<T>
  {
    match o
    case None => None
    case Some(inner) => inner
  }
}
