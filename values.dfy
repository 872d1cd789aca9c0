/**
  The loosely typed values a YAML document parses into (`None`, booleans,
  integers, strings, lists and mappings), Python's `str()` of them, and
  mappings with the behaviour of a Python `dict` built by successive
  assignment: the value of a key is the last one assigned, and keys keep the
  order of their first assignment.
*/
module Values {
  import opened Text

  datatype Raw =
    | RNone
    | RBool(b: bool)
    | RInt(i: int)
    | RStr(s: string)
    | RList(items: seq<Raw>)
    | RMap(entries: seq<(string, Raw)>)

  /** A Python dict as the list of its assignments. */
  type Dict = seq<(string, Raw)>

  /** `d.get(k)`: the value last assigned to `k`. */
  function Get(d: Dict, k: string): Option<Raw>
    decreases |d|
  {
    if d == [] then None
    else if d[|d| - 1].0 == k then Some(d[|d| - 1].1)
    else Get(d[..|d| - 1], k)
  }

  /** The keys of `d` in the order of their first assignment. */
  function Keys(d: Dict): (r: seq<string>)
    decreases |d|
  {
    if d == [] then []
    else
      var ks := Keys(d[..|d| - 1]);
      if d[|d| - 1].0 in ks then ks else ks + [d[|d| - 1].0]
  }

  /** `{**base, **over}`: every pair of `over` is assigned after those of `base`,
      so a key of `over` takes its value from `over` and any other key keeps
      the value it has in `base`. */
  lemma {:induction false} MergeGet(base: Dict, over: Dict, k: string)
    ensures Get(base + over, k) == if Get(over, k).Some? then Get(over, k) else Get(base, k)
    decreases |over|
  {
    if over == [] {
      assert base + over == base;
    } else {
      var m := base + over;
      assert m[|m| - 1] == over[|over| - 1];
      assert m[..|m| - 1] == base + over[..|over| - 1];
      MergeGet(base, over[..|over| - 1], k);
    }
  }

  /** The keys of a dict are exactly the keys assigned in it, each once. */
  lemma {:induction false} KeysAreAssigned(d: Dict, k: string)
    ensures k in Keys(d) <==> Get(d, k).Some?
    decreases |d|
  {
    if d != [] {
      KeysAreAssigned(d[..|d| - 1], k);
    }
  }

  lemma {:induction false} GetUnassigned(d: Dict, k: string)
    requires forall i :: 0 <= i < |d| ==> d[i].0 != k
    ensures Get(d, k) == None
    decreases |d|
  {
    if d != [] {
      GetUnassigned(d[..|d| - 1], k);
    }
  }

  /** A key assigned at position `i` and never again keeps the value assigned there. */
  lemma {:induction false} GetLastAssignment(d: Dict, i: nat)
    requires i < |d|
    requires forall j :: i < j < |d| ==> d[j].0 != d[i].0
    ensures Get(d, d[i].0) == Some(d[i].1)
    decreases |d|
  {
    if i < |d| - 1 {
      GetLastAssignment(d[..|d| - 1], i);
    }
  }

  function BoolText(b: bool): string {
    if b then "True" else "False"
  }

  /** Python's `repr()`; a string is shown between single quotes and its
      characters are not escaped. */
  function Repr(r: Raw): string

  {
    match r
    case RNone => "None"
    case RBool(b) => BoolText(b)
    case RInt(i) => Decimal(i)
    case RStr(s) => "'" + s + "'"
    case RList(items) =>
      "[" + Join(", ", seq(|items|, k requires 0 <= k < |items| => Repr(items[k]))) + "]"
    case RMap(entries) =>
      "{" + Join(", ", seq(|entries|, k requires 0 <= k < |entries| =>
                             "'" + entries[k].0 + "': " + Repr(entries[k].1))) + "}"
  }

  /** Python's `str()`: a string is itself, everything else is its `repr()`. */
  function Str(r: Raw): string {
    if r.RStr? then r.s else Repr(r)
  }

  /** `type(value).__name__`. */
  function TypeName(r: Raw): string {
    match r
    case RNone => "NoneType"
    case RBool(_) => "bool"
    case RInt(_) => "int"
    case RStr(_) => "str"
    case RList(_) => "list"
    case RMap(_) => "dict"
  }

  /** Python's `int(value)`: `None`, lists and dicts raise TypeError, a string
      that is not an integer literal raises ValueError. */
  function IntOf(r: Raw): Option<int> {
    match r
    case RBool(b) => Some(if b then 1 else 0)
    case RInt(i) => Some(i)
    case RStr(s) => ParseInt(s)
    case _ => None
  }
}
