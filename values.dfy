/** Decoded YAML/JSON data as the scripts see it: Python values with Python's truthiness,
    ordered dictionaries and `str()`. */
module PyValues {
  import opened PyText

  datatype Option<T> = None | Some(value: T)

  /** A Python value as produced by `yaml.safe_load` or `json.loads` (floats are not modelled). */
  datatype Value =
    | PyNone
    | PyBool(b: bool)
    | PyInt(i: int)
    | PyStr(s: string)
    | PyList(items: seq<Value>)
    | PyDict(entries: Dict)

  /** One key/value pair of a dictionary. */
  datatype Entry = Entry(key: string, val: Value)

  /** A Python dict: its entries in insertion order. */
  type Dict = seq<Entry>

  /** No key occurs twice, as in every Python dict. */
  predicate DistinctKeys(d: Dict) {
    forall i, j :: 0 <= i < j < |d| ==> d[i].key != d[j].key
  }

  /** `d.get(k)`: the value stored under `k`, None when `k` is absent. */
  function Get(d: Dict, k: string): (r: Option<Value>)
    ensures r.Some? <==> exists i :: 0 <= i < |d| && d[i].key == k
  {
    if d == [] then None
    else if d[0].key == k then Some(d[0].val)
    else
      var r := Get(d[1..], k);
      assert forall i :: 0 < i < |d| ==> d[i] == d[1..][i - 1];
      r
  }

  /** `k in d` */
  predicate HasKey(d: Dict, k: string) {
    Get(d, k).Some?
  }

  /** `d.get(k, default)` */
  function GetOr(d: Dict, k: string, default: Value): Value {
    match Get(d, k)
    case Some(v) => v
    case None => default
  }

  /** `d[k] = v`: an existing key keeps its place, a new key goes last. */
  function Set(d: Dict, k: string, v: Value): (r: Dict)
    ensures |r| == if HasKey(d, k) then |d| else |d| + 1
  {
    if d == [] then [Entry(k, v)]
    else if d[0].key == k then [Entry(k, v)] + d[1..]
    else [d[0]] + Set(d[1..], k, v)
  }

  /** `d.update(u)`: the entries of `u`, in order, each stored into `d`. */
  function Update(d: Dict, u: Dict): Dict
    decreases |u|
  {
    if u == [] then d else Update(Set(d, u[0].key, u[0].val), u[1..])
  }

  /** After `d[k] = v`, `k` holds `v` and every other key what it held before. */
  lemma {:induction false} GetSet(d: Dict, k: string, v: Value, k': string)
    ensures Get(Set(d, k, v), k') == if k' == k then Some(v) else Get(d, k')
  {
    if d != [] && d[0].key != k {
      GetSet(d[1..], k, v, k');
    }
  }

  /** Assignment keeps the keys of a dict distinct. */
  lemma {:induction false} SetDistinct(d: Dict, k: string, v: Value)
    requires DistinctKeys(d)
    ensures DistinctKeys(Set(d, k, v))
  {
    if d != [] && d[0].key != k {
      SetDistinct(d[1..], k, v);
      var r := Set(d, k, v);
      forall j | 0 < j < |r| ensures r[j].key != d[0].key {
        GetSet(d[1..], k, v, d[0].key);
        assert Get(d[1..], d[0].key) == None;
        assert Get(Set(d[1..], k, v), d[0].key) == None;
        assert r[j] == Set(d[1..], k, v)[j - 1];
      }
    }
  }

  /** After `d.update(u)`, the keys of `u` hold their values from `u` and every other key keeps its
      value. */
  lemma {:induction false} GetUpdate(d: Dict, u: Dict, k: string)
    requires DistinctKeys(u)
    ensures Get(Update(d, u), k) == if HasKey(u, k) then Get(u, k) else Get(d, k)
    decreases |u|
  {
    if u != [] {
      assert DistinctKeys(u[1..]) by {
        forall i, j | 0 <= i < j < |u[1..]| ensures u[1..][i].key != u[1..][j].key {
          assert u[1..][i] == u[i + 1] && u[1..][j] == u[j + 1];
        }
      }
      GetUpdate(Set(d, u[0].key, u[0].val), u[1..], k);
      GetSet(d, u[0].key, u[0].val, k);
      if k == u[0].key {
        assert forall i :: 0 <= i < |u[1..]| ==> u[1..][i].key != k by {
          forall i | 0 <= i < |u[1..]| ensures u[1..][i].key != k {
            assert u[1..][i] == u[i + 1];
          }
        }
      }
    }
  }

  /** `d.update(u)` keeps the keys distinct. */
  lemma {:induction false} UpdateDistinct(d: Dict, u: Dict)
    requires DistinctKeys(d)
    ensures DistinctKeys(Update(d, u))
    decreases |u|
  {
    if u != [] {
      SetDistinct(d, u[0].key, u[0].val);
      UpdateDistinct(Set(d, u[0].key, u[0].val), u[1..]);
    }
  }

  /** Python's `bool(v)`. */
  predicate Truthy(v: Value) {
    match v
    case PyNone => false
    case PyBool(b) => b
    case PyInt(i) => i != 0
    case PyStr(s) => s != []
    case PyList(items) => items != []
    case PyDict(entries) => entries != []
  }

  /** Python's `a or b`: `a` when it is truthy, otherwise `b`. */
  function Or(a: Value, b: Value): (r: Value)
    ensures Truthy(r) <==> Truthy(a) || Truthy(b)
    ensures Truthy(a) ==> r == a
  {
    if Truthy(a) then a else b
  }

  /** A missing key reads as Python's None. */
  function OrNone(v: Option<Value>): Value {
    match v
    case Some(x) => x
    case None => PyNone
  }

  /** The name Python gives the type of `v`, as it appears in error messages. */
  function TypeName(v: Value): string {
    match v
    case PyNone => "NoneType"
    case PyBool(_) => "bool"
    case PyInt(_) => "int"
    case PyStr(_) => "str"
    case PyList(_) => "list"
    case PyDict(_) => "dict"
  }

  /** Python's `str(v)`, which is what an f-string interpolates. */
  function Text(v: Value): string
    decreases v, 1
  {
    match v
    case PyStr(s) => s
    case PyList(items) => "[" + ReprItems(v, items) + "]"
    case PyDict(entries) => "{" + ReprEntries(v, entries) + "}"
    case _ => Repr(v)
  }

  /** Python's `repr(v)`; strings are quoted with `'` and not escaped (see README). */
  function Repr(v: Value): string
    decreases v, 0
  {
    match v
    case PyNone => "None"
    case PyBool(b) => if b then "True" else "False"
    case PyInt(i) => Decimal(i)
    case PyStr(s) => "'" + s + "'"
    case PyList(items) => "[" + ReprItems(v, items) + "]"
    case PyDict(entries) => "{" + ReprEntries(v, entries) + "}"
  }

  function ReprItems(ghost parent: Value, items: seq<Value>): string
    requires forall x :: x in items ==> x < parent
    decreases parent, 0, |items|
  {
    if items == [] then []
    else
      assert items[0] in items;
      assert forall x :: x in items[1..] ==> x in items;
      if |items| == 1 then Repr(items[0])
      else Repr(items[0]) + ", " + ReprItems(parent, items[1..])
  }

  function ReprEntries(ghost parent: Value, entries: Dict): string
    requires forall e :: e in entries ==> e.val < parent
    decreases parent, 0, |entries|
  {
    if entries == [] then []
    else
      var e := entries[0];
      var one := "'" + e.key + "': " + Repr(e.val);
      if |entries| == 1 then one else one + ", " + ReprEntries(parent, entries[1..])
  }

  /** What a `for` loop over `v` visits: list items, the characters of a string, the keys of a
      dict; None when `v` is not iterable (Python raises TypeError). */
  function Iterate(v: Value): (r: Option<seq<Value>>)
    ensures r.Some? <==> v.PyList? || v.PyStr? || v.PyDict?
    ensures v.PyList? ==> r == Some(v.items)
  {
    match v
    case PyList(items) => Some(items)
    case PyStr(s) => Some(seq(|s|, i requires 0 <= i < |s| => PyStr([s[i]])))
    case PyDict(entries) => Some(seq(|entries|, i requires 0 <= i < |entries| => PyStr(entries[i].key)))
    case _ => None
  }

  /** A Python list of strings. */
  function StrList(xs: seq<string>): (r: Value)
    ensures r.PyList? && |r.items| == |xs|
    ensures forall i :: 0 <= i < |xs| ==> r.items[i] == PyStr(xs[i])
  {
    PyList(seq(|xs|, i requires 0 <= i < |xs| => PyStr(xs[i])))
  }
}
