/** Values that stand for JavaScript's `undefined`-able fields and thrown errors. */
module Results {

  datatype Option<+T> = None | Some(value: T)

  /** A JavaScript `Error`: its `name` ("Error", "TypeError", "AxiosError", ...) and its `message`. */
  datatype Error = Error(name: string, message: string)

  /** An operation that either returns a value or throws an `Error`. */
  datatype Result<+T> = Ok(value: T) | Err(error: Error)

  /** `new Error(message)`. */
  function Fail(message: string): (e: Error)
    ensures e.name == "Error" && e.message == message
  {
    Error("Error", message)
  }

  /** `Error.prototype.toString`, which is what `${error}` and `String(error)` produce. */
  function ErrorText(e: Error): (s: string)
    ensures e.message == "" ==> s == e.name
    ensures e.name == "" ==> s == e.message
    ensures e.name != "" && e.message != "" ==> s == e.name + ": " + e.message
  {
    if e.message == "" then e.name
    else if e.name == "" then e.message
    else e.name + ": " + e.message
  }

  /** JavaScript truthiness of an optional string: defined and not empty. */
  predicate Present(o: Option<string>)
  {
    o.Some? && o.value != ""
  }

  /** `a || b` on optional strings. */
  function Or(a: Option<string>, b: Option<string>): (r: Option<string>)
    ensures Present(r) <==> Present(a) || Present(b)
    ensures Present(a) ==> r == a
    ensures !Present(a) ==> r == b
  {
    if Present(a) then a else b
  }

  /** `a || fallback` where the fallback is a string literal. */
  function OrElse(a: Option<string>, fallback: string): (r: string)
    ensures Present(a) ==> r == a.value
    ensures !Present(a) ==> r == fallback
  {
    if Present(a) then a.value else fallback
  }

  /** `process.env[name]`. */
  function EnvVar(env: map<string, string>, name: string): (r: Option<string>)
    ensures r.Some? <==> name in env
    ensures r.Some? ==> r.value == env[name]
  {
    if name in env then Some(env[name]) else None
  }
}
