/** The optional value used wherever the source reads a property that may be
    missing (`card.tags`, `card.explanation`) or an operation that may fail
    (a fetch whose result may not arrive). */
module Wrappers {

  datatype Option<+T> = None | Some(value: T) {

    /** The wrapped value, or `default` when there is none. */
    function GetOr(default: T): T {
      match this
      case Some(v) => v
      case None => default
    }
  }
}
