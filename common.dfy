/** Values shared by every page of the marketplace client. */
module Common {

  datatype Option<+T> = None | Some(value: T) {
    function GetOr(default: T): T {
      match this
      case Some(v) => v
      case None => default
    }
  }

  /** A JavaScript value read from a field that is normally a string:
      missing (`undefined`), `null`, or a string. */
  datatype Field = Absent | Null | Text(s: string)

  /** The JavaScript value of an order's or offer's `transporting` field:
      missing, a boolean, or some other value with its truthiness. */
  datatype Flag = Unset | Bool(b: bool) | Other(truthy: bool) {
    /** `if (x)`: JavaScript truthiness. */
    predicate Truthy() {
      match this
      case Unset => false
      case Bool(b) => b
      case Other(t) => t
    }
    /** `x === true`: strict equality with the boolean `true`. */
    predicate IsTrue() {
      this == Bool(true)
    }
  }

  /** The user record the server returns and the client keeps under the `user` key. */
  datatype Profile = Profile(id: string, name: string, role: string, location: Option<string>)
}
