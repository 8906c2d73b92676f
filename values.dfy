/**
 * Table cells as the application sees them, how Python prints them, and
 * the arithmetic mean used by every aggregate.
 */
module Values {
  import opened Strings

  /** One cell of an uploaded table: pandas reads integers, floats, text, or an empty cell (NaN). */
  datatype Value = Int(i: int) | Num(r: real) | Text(s: string) | Missing

  /**
   * The two float renderings the application uses and that this model does
   * not compute: `f"{x:.3f}"` and Python's `str(x)` for a float.
   */
  datatype Formats = Formats(fixed3: real -> string, repr: real -> string)

  /** `f"{v}"` for a cell. */
  function Show(v: Value, fmt: Formats): string
  {
    match v
    case Int(i) => IntToString(i)
    case Num(r) => fmt.repr(r)
    case Text(s) => s
    case Missing => "nan"
  }

  function Sum(xs: seq<real>): real
  {
    if xs == [] then 0.0 else Sum(xs[..|xs| - 1]) + xs[|xs| - 1]
  }

  /** `Series.mean()` over a non-empty column without NaN. */
  function Mean(xs: seq<real>): real
    requires |xs| > 0
  {
    Sum(xs) / |xs| as real
  }
}
