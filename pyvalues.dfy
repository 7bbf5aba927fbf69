/** The fragment of Python's run-time behaviour the demo script relies on:
    the exceptions it can raise, the dynamically typed values passed to the
    marshaling functions, and left-to-right evaluation in which the first
    exception raised ends the whole evaluation. */
module PyValues {

  /** Exceptions the script can raise and never catches. */
  datatype PyError =
    | IndexError   // subscript past the end of a list
    | TypeError    // subscript of a float, or a list stored where a float is expected
    | ValueError   // float() of a token that is not a number

  datatype Option<T> = None | Some(value: T)

  /** The outcome of evaluating something that may raise. */
  datatype Result<T> = Ok(value: T) | Err(error: PyError)

  /** A Python value as seen by the marshaling code: a float, or a list of values. */
  datatype PyVal<T> = Float(v: T) | PyList(items: seq<PyVal<T>>)

  /** The Python list of floats holding `row`. */
  function Row<T>(row: seq<T>): (r: PyVal<T>)
    ensures r.PyList? && |r.items| == |row|
    ensures forall i :: 0 <= i < |row| ==> r.items[i] == Float(row[i])
  {
    PyList(seq(|row|, i requires 0 <= i < |row| => Float(row[i])))
  }

  /** Storing a value into a float field: a list is refused with TypeError. */
  function AsFloat<T>(x: PyVal<T>): (r: Result<T>)
    ensures r.Ok? <==> x.Float?
    ensures r.Ok? ==> r.value == x.v
    ensures r.Err? ==> r.error == TypeError
  {
    match x
    case Float(v) => Ok(v)
    case PyList(_) => Err(TypeError)
  }

  /** Applies `f` to each element of `xs` from left to right, as a Python loop or
      comprehension does; the first element on which `f` raises ends the
      evaluation with that exception. */
  function MapAll<A, B>(xs: seq<A>, f: A -> Result<B>): (r: Result<seq<B>>)
    ensures r.Ok? <==> forall i :: 0 <= i < |xs| ==> f(xs[i]).Ok?
    ensures r.Ok? ==> |r.value| == |xs|
    ensures r.Ok? ==> forall i :: 0 <= i < |xs| ==> f(xs[i]) == Ok(r.value[i])
    ensures r.Err? ==> exists i :: 0 <= i < |xs| && f(xs[i]) == Err(r.error)
  {
    if xs == [] then Ok([])
    else
      match f(xs[0])
      case Err(e) => Err(e)
      case Ok(y) =>
        match MapAll(xs[1..], f)
        case Err(e) => Err(e)
        case Ok(ys) => Ok([y] + ys)
  }

  /** The exception `MapAll` raises is the one raised on the first failing element. */
  lemma {:induction false} MapAllFirstError<A, B>(xs: seq<A>, f: A -> Result<B>, i: nat)
    requires i < |xs| && f(xs[i]).Err?
    requires forall j :: 0 <= j < i ==> f(xs[j]).Ok?
    ensures MapAll(xs, f) == Err(f(xs[i]).error)
  {
    if i > 0 {
      assert f(xs[0]).Ok?;
      assert forall j :: 0 <= j < i - 1 ==> f(xs[1..][j]).Ok? by {
        forall j | 0 <= j < i - 1 ensures f(xs[1..][j]).Ok? {
          assert xs[1..][j] == xs[j + 1];
        }
      }
      MapAllFirstError(xs[1..], f, i - 1);
    }
  }
}
