/**
 * The few pieces of Java's string behaviour that the steps rely on: a nullable
 * String reference, Guava's `Strings.isNullOrEmpty`, how `+` renders a null
 * reference, and how a `List<String>` renders itself when concatenated into a
 * message.
 */
module JavaText {
  import opened Wrappers

  /** A Java `String` reference; `None` is `null`. */
  type JString = Option<string>

  /** Guava's `Strings.isNullOrEmpty`: `null` and `""` are treated alike. */
  predicate IsNullOrEmpty(s: JString)
  {
    s == None || s == Some("")
  }

  /** What string concatenation appends for a nullable reference. */
  function Render(s: JString): string
  {
    match s
    case None => "null"
    case Some(v) => v
  }

  /** The elements of a list rendered one by one, separated by ", ". */
  function Join(xs: seq<JString>): string
  {
    if |xs| == 0 then ""
    else if |xs| == 1 then Render(xs[0])
    else Render(xs[0]) + ", " + Join(xs[1..])
  }

  /** `String.valueOf` of a `List<String>` reference: "null", or "[a, b, c]". */
  function ListToString(xs: Option<seq<JString>>): string
  {
    match xs
    case None => "null"
    case Some(l) => "[" + Join(l) + "]"
  }
}
