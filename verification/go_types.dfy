/** Go's conventions for results, as the provisioning code uses them.

    Every Go function of the core returns a `(value, error)` pair. `Ret`
    keeps both halves, so that "an error comes with the zero value" is a
    property a contract can state rather than something the type hides. */
module GoTypes {

  /** The `net/http` status codes the program answers and expects. */
  const StatusOK := 200
  const StatusBadRequest := 400

  /** The scheme both address resolvers put in front of `IP:port`. */
  const UriScheme := "http://"

  datatype Option<+T> = None | Some(value: T)

  /** A Go `(value, error)` pair; `err == None` is a nil error. */
  datatype Ret<+T> = Ret(value: T, err: Option<string>) {
    predicate Ok() {
      err.None?
    }
  }

  /** How a call into the core ends. `StillPolling` stands for a loop without
      a bound that has used up every scheduler response the model was given;
      `Panics` is a nil-pointer dereference. */
  datatype Exit<+T> = Returns(ret: Ret<T>) | StillPolling | Panics

  /** The Go idiom `return zero, fmt.Errorf(msg)`. */
  function Fail<T>(zero: T, msg: string): (r: Ret<T>)
    ensures !r.Ok() && r.value == zero && r.err.value == msg
  {
    Ret(zero, Some(msg))
  }

  predicate StartsWith(s: string, prefix: string) {
    |prefix| <= |s| && s[..|prefix|] == prefix
  }

  lemma StartsWithConcat(prefix: string, rest: string)
    ensures StartsWith(prefix + rest, prefix)
  {
  }
}
