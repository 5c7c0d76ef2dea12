/**
 * Enum.valueOf, shared by the two type tables: the constants are listed in
 * declaration order and found by their exact name.
 */
module Enums {
  import opened Wrappers

  /** valueOf over values(): the first constant whose name is exactly n, None for the exception. */
  function ValueOf<T>(n: string, values: seq<T>, name: T -> string): (r: Option<T>)
    ensures r.Some? ==> name(r.value) == n && r.value in values
    ensures r.None? ==> forall i :: 0 <= i < |values| ==> name(values[i]) != n
  {
    if values == [] then None
    else if name(values[0]) == n then Some(values[0])
    else ValueOf(n, values[1..], name)
  }

  /** When every constant is listed, valueOf fails only for a name no constant has. */
  lemma ValueOfComplete<T>(n: string, values: seq<T>, name: T -> string)
    requires forall t :: t in values
    ensures ValueOf(n, values, name).None? ==> forall t :: name(t) != n
  {
    if ValueOf(n, values, name).None? {
      forall t ensures name(t) != n {
        assert t in values;
        var i :| 0 <= i < |values| && values[i] == t;
      }
    }
  }

  /** When no two constants share a name, valueOf(t.name()) is t for every listed t. */
  lemma ValueOfName<T>(t: T, values: seq<T>, name: T -> string)
    requires t in values
    requires forall a, b :: name(a) == name(b) ==> a == b
    ensures ValueOf(name(t), values, name) == Some(t)
  {
    var i :| 0 <= i < |values| && values[i] == t;
  }
}
