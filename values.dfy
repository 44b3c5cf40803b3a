/** The dynamically typed values that flow through the job worker and the
    connector mock: the JSON data model of job variables and response bodies.
    Objects keep their keys in insertion order, as Python dicts do. */
module Values {
  import opened Text

  datatype Value =
    | Null
    | Bool(b: bool)
    | Int(i: int)
    | Str(s: string)
    | List(items: seq<Value>)
    | Object(fields: seq<(string, Value)>)

  /** Python truthiness (`if value:`): None, False, 0, "", [] and {} are false. */
  predicate Truthy(v: Value) {
    match v
    case Null => false
    case Bool(b) => b
    case Int(i) => i != 0
    case Str(s) => s != ""
    case List(xs) => xs != []
    case Object(m) => m != []
  }

  function Width(v: Value): nat {
    match v
    case List(xs) => |xs| + 1
    case Object(fs) => |fs| + 1
    case _ => 0
  }

  /** Python's `repr` of a value. Strings are put in single quotes as they are. */
  function Repr(v: Value): string
    decreases v, Width(v)
  {
    match v
    case Null => "None"
    case Bool(b) => if b then "True" else "False"
    case Int(i) => IntToString(i)
    case Str(s) => "'" + s + "'"
    case List(xs) => "[" + ReprItems(v, xs) + "]"
    case Object(fs) => "{" + ReprFields(v, fs) + "}"
  }

  function ReprItems(parent: Value, xs: seq<Value>): string
    requires forall i :: 0 <= i < |xs| ==> xs[i] < parent
    decreases parent, |xs|
  {
    if xs == [] then ""
    else Repr(xs[0]) + (if |xs| == 1 then "" else ", " + ReprItems(parent, xs[1..]))
  }

  function ReprFields(parent: Value, fs: seq<(string, Value)>): string
    requires forall i :: 0 <= i < |fs| ==> fs[i].1 < parent
    decreases parent, |fs|
  {
    if fs == [] then ""
    else "'" + fs[0].0 + "': " + Repr(fs[0].1) + (if |fs| == 1 then "" else ", " + ReprFields(parent, fs[1..]))
  }

  /** Python's `str` of a value, which is what an f-string interpolates: a string is
      itself, anything else its `repr`. */
  function StrOf(v: Value): (r: string)
    ensures v.Str? ==> r == v.s
    ensures v.Int? ==> r == IntToString(v.i)
    ensures v.Null? ==> r == "None"
  {
    if v.Str? then v.s else Repr(v)
  }
}
