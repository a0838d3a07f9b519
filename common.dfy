// Shared vocabulary of the CB2 server and headless client: roles, hex
// coordinates, optional values and the Python exceptions the model surfaces
// as results instead of letting them escape.
module Common {

  /** The `Some`/`None` wrapper used wherever the Python code returns `None`. */
  datatype Option<+T> = None | Some(value: T)

  /** The exceptions the modelled Python code can raise on a reachable path. */
  datatype PyError =
    | KeyError(key: int)
    | AttributeError(attribute: string)
    | TypeError(message: string)
    | AssertionError(message: string)
    | ValueError(message: string)
    | TimeoutError

  /** A value, or the exception that interrupted the computation of it. */
  datatype Result<+T> = Ok(value: T) | Err(error: PyError)

  /** `messages.rooms.Role`. */
  datatype Role = NoRole | Leader | Follower

  /**
   * `hex.HecsCoord`: a cell of the hexagonal map in HECS coordinates. Its
   * arithmetic (`HecsCoord.add`, `cartesian`) is not part of this model and
   * is passed in as a parameter wherever it is used.
   */
  datatype HecsCoord = HecsCoord(a: int, r: int, c: int)

  /** `HecsCoord(0, 0, 0)`: the spawn point used when none are left, and the zero displacement. */
  const Origin: HecsCoord := HecsCoord(0, 0, 0)

  /** No element of `s` appears twice (Python dictionaries keep each key once). */
  ghost predicate NoDuplicates<T>(s: seq<T>)
  {
    forall i, j :: 0 <= i < j < |s| ==> s[i] != s[j]
  }

  /** The elements of a sequence, as a set. */
  function Elems<T>(s: seq<T>): set<T>
  {
    set x | x in s
  }
}
