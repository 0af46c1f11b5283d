/** The dynamically typed Python values that flow through directive options:
    `None`, integers, strings, tuples and lists. */
module PyValues {
  import opened Wrappers

  datatype PyValue =
    | PyNone
    | PyInt(i: int)
    | PyStr(s: string)
    | PyTuple(items: seq<PyValue>)
    | PyList(items: seq<PyValue>)

  /** What `for x in v` iterates over: the items of a tuple or a list, the
      one-character strings of a string; `None` for a value that is not
      iterable (Python raises `TypeError`). */
  function Items(v: PyValue): (r: Option<seq<PyValue>>)
    ensures r.Some? <==> v.PyTuple? || v.PyList? || v.PyStr?
    ensures v.PyTuple? || v.PyList? ==> r == Some(v.items)
    ensures v.PyStr? ==> r == Some(Chars(v.s))
  {
    match v
    case PyTuple(items) => Some(items)
    case PyList(items) => Some(items)
    case PyStr(s) => Some(Chars(s))
    case _ => None
  }

  /** The one-character strings of a string, in order. */
  function Chars(s: string): (r: seq<PyValue>)
    ensures |r| == |s|
    decreases |s|
  {
    if s == [] then [] else [PyStr([s[0]])] + Chars(s[1..])
  }

  /** Item `i` of a string's iteration is the one-character string of its
      character `i`. */
  lemma {:induction false} CharsAt(s: string, i: nat)
    requires i < |s|
    ensures Chars(s)[i] == PyStr([s[i]])
    decreases i
  {
    if i > 0 {
      CharsAt(s[1..], i - 1);
    }
  }
}
