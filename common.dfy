/** Small shared definitions: optional values (a missing dictionary key) and clock readings. */
module Common {

  /** A dictionary key that may be missing (Python's `d.get(k)` returning None). */
  datatype Option<T> = None | Some(value: T) {
    /** `d.get(k, default)` */
    function GetOr(default: T): T {
      match this
      case Some(v) => v
      case None => default
    }
  }

  /** How an optional text renders inside an f-string: a missing value prints as "None". */
  function TextOf(s: Option<string>): string {
    match s
    case Some(text) => text
    case None => "None"
  }

  /** A clock reading; the model never reads a clock, callers pass the current time in. */
  type Timestamp = int

  /** `sep.join(parts)` */
  function Join(parts: seq<string>, sep: string): (r: string)
    ensures parts == [] ==> r == ""
    ensures |parts| == 1 ==> r == parts[0]
  {
    if parts == [] then ""
    else if |parts| == 1 then parts[0]
    else parts[0] + sep + Join(parts[1..], sep)
  }
}
