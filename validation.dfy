/** The declarative form checks the pages run before a record is accepted. Each
    page lists its schema's fields, when each field's check fails (a string shorter
    than its minimum, a number below its minimum, a value outside an enum) and its
    message. The result is the error object the form displays: every failing field
    at once, each with the schema's message. */
module Validation {
  import opened Lists

  /** Failing field to message, one entry per failing field. Each page names its
      form's fields with a datatype `F`. */
  type Errors<F> = map<F, string>

  /** Either the accepted, fully-typed form data or the failing fields. */
  datatype Checked<F, T> = Accepted(value: T) | Rejected(errors: Errors<F>)

  /** The message zod gives a value outside a `z.enum`. */
  const InvalidEnum := "Invalid enum value"

  /** The message zod gives a required key whose value is missing (`undefined`). */
  const Required := "Required"

  /** The error object of one parse: every field of `fields` whose check fails, with
      its message. */
  function Report<F(!new)>(fields: set<F>, fails: F -> bool, message: F -> string): (r: Errors<F>)
    ensures forall k :: k in r <==> k in fields && fails(k)
    ensures forall k :: k in r ==> r[k] == message(k)
    ensures r == map[] <==> forall k :: k in fields ==> !fails(k)
  {
    var r := map k | k in fields && fails(k) :: message(k);
    assert r == map[] <== forall k :: k in fields ==> !fails(k) by {
      if forall k :: k in fields ==> !fails(k) {
        assert r.Keys == {};
      }
    }
    r
  }

  /** `.default(d)`: an absent optional value reads as `d`. */
  function Default<T>(value: Option<T>, d: T): T
  {
    match value
    case Some(v) => v
    case None => d
  }

  /** Accept when no field failed. This is glue: its contract only spells out the
      choice, and each page's `Validate` states what acceptance means for its form. */
  function Decide<F, T>(errors: Errors<F>, value: T): (r: Checked<F, T>)
    ensures r.Accepted? <==> errors == map[]
    ensures r.Accepted? ==> r.value == value
    ensures r.Rejected? ==> r.errors == errors
  {
    if errors == map[] then Accepted(value) else Rejected(errors)
  }
}
