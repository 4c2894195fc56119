/** Small value wrappers shared by the whole model. */
module Wrappers {

  /** The conventional optional value. Supports `:-` for early exit on `None`. */
  datatype Option<+T> = None | Some(value: T) {
    predicate IsFailure() { None? }

    function PropagateFailure<U>(): Option<U>
      requires None?
    {
      None
    }

    function Extract(): T
      requires Some?
    {
      value
    }

    function GetOr(default: T): T {
      match this
      case Some(v) => v
      case None => default
    }
  }

  /** The three states of one key of a Python dictionary whose code tells an
      absent key apart from a key explicitly set to `None`. */
  datatype Field<+T> = Missing | Null | Given(value: T) {

    /** What `d.get(key)` returns: `None` for an absent key and for an explicit `None`. */
    function Get(): Option<T> {
      match this
      case Given(v) => Some(v)
      case _ => None
    }

    /** What `d.get(key, default)` returns: the default only for an absent key. */
    function GetWithDefault(default: Option<T>): Option<T> {
      match this
      case Missing => default
      case Null => None
      case Given(v) => Some(v)
    }
  }
}
