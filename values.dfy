/**
 * Dynamic values as the application handles them: decoded JSON from the
 * language model, rows read back from SQLite, and the Python dictionaries
 * passed between functions.
 */
module Values {
  import opened Wrappers
  import opened StringUtil

  /**
   * One Python value. `Num` keeps the text `str()` gives for the number;
   * `Obj` keeps a JSON object's members in their textual order.
   */
  datatype Value =
    | Null
    | Bool(b: bool)
    | Num(x: real, text: string)
    | Str(s: string)
    | List(items: seq<Value>)
    | Obj(entries: seq<(string, Value)>)

  /** A Python `dict` with string keys. */
  type Dict = map<string, Value>

  /** `d.get(k)`. */
  function Get(d: Dict, k: string): Value {
    if k in d then d[k] else Null
  }

  /** `d.get(k, default)`. */
  function GetOr(d: Dict, k: string, default: Value): Value {
    if k in d then d[k] else default
  }

  /** `a or b`. */
  function Or(a: Value, b: Value): Value {
    if Truthy(a) then a else b
  }

  /** `(v or default)` used as a string: a truthy non-string raises `AttributeError`. */
  function TextOr(v: Value, default: string): Result<string> {
    if !Truthy(v) then Ok(default)
    else if v.Str? then Ok(v.s)
    else Err("AttributeError: object has no attribute 'strip'")
  }

  /**
   * `float(v)`, `None` where it raises. Parsing a numeric string is left to
   * `parse`, which stands for CPython's float literal reader.
   */
  function ToFloat(v: Value, parse: string -> Option<real>): Option<real> {
    match v
    case Null => None
    case Bool(b) => Some(if b then 1.0 else 0.0)
    case Num(x, _) => Some(x)
    case Str(s) => parse(s)
    case _ => None
  }

  /** Python truthiness. */
  predicate Truthy(v: Value) {
    match v
    case Null => false
    case Bool(b) => b
    case Num(x, _) => x != 0.0
    case Str(s) => s != ""
    case List(items) => items != []
    case Obj(entries) => entries != []
  }

  /** `has_meaningful_value` / `has_text`: not None, and not a blank string. */
  predicate HasMeaningfulValue(v: Value) {
    match v
    case Null => false
    case Str(s) => Strip(s) != ""
    case _ => true
  }

  /**
   * Only `None` and blank strings lack a meaningful value: `False`, zero and
   * empty lists and objects have one, unlike their truthiness.
   */
  lemma MeaningfulValueIff(v: Value)
    ensures HasMeaningfulValue(v) <==> !v.Null? && (v.Str? ==> Strip(v.s) != "")
    ensures !v.Str? && !v.Null? ==> HasMeaningfulValue(v)
    ensures HasMeaningfulValue(Bool(false)) && HasMeaningfulValue(List([])) && HasMeaningfulValue(Obj([]))
  {
  }

  /** A JSON object read as a `dict`: a later duplicate key wins, as in `json.loads`. */
  function EntriesToMap(entries: seq<(string, Value)>): (m: Dict)
    ensures forall k :: k in m <==> exists i :: 0 <= i < |entries| && entries[i].0 == k
  {
    if entries == [] then map[]
    else
      var last := entries[|entries| - 1];
      var m := EntriesToMap(entries[..|entries| - 1])[last.0 := last.1];
      assert forall k :: k in m <==> exists i :: 0 <= i < |entries| && entries[i].0 == k by {
        forall k
          ensures k in m <==> exists i :: 0 <= i < |entries| && entries[i].0 == k
        {
          if k in m && k != last.0 {
            var i :| 0 <= i < |entries| - 1 && entries[..|entries| - 1][i].0 == k;
            assert entries[i].0 == k;
          }
          if exists i :: 0 <= i < |entries| && entries[i].0 == k {
            var i :| 0 <= i < |entries| && entries[i].0 == k;
            if i < |entries| - 1 { assert entries[..|entries| - 1][i].0 == k; }
          }
        }
      }
      m
  }

  /** The `dict` behind a value, when it is one (`AttributeError` otherwise). */
  function AsDict(v: Value): Option<Dict> {
    if v.Obj? then Some(EntriesToMap(v.entries)) else None
  }

  /** `key in v` for a dict, a string or a list; other values raise `TypeError`. */
  function KeyIn(key: string, v: Value): Result<bool> {
    match v
    case Obj(entries) => Ok(key in EntriesToMap(entries))
    case Str(s) => Ok(Contains(s, key))
    case List(items) => Ok(Str(key) in items)
    case _ => Err("TypeError: argument of type is not iterable")
  }

  /** `repr()` of a value nested inside a list or dict. */
  function Repr(v: Value): string
    decreases v, 1
  {
    match v
    case Str(s) => "'" + s + "'"
    case _ => PyStr(v)
  }

  function ReprItems(items: seq<Value>): string
    decreases items
  {
    if items == [] then ""
    else if |items| == 1 then Repr(items[0])
    else Repr(items[0]) + ", " + ReprItems(items[1..])
  }

  function ReprEntries(entries: seq<(string, Value)>): string
    decreases entries
  {
    if entries == [] then ""
    else
      var e := entries[0];
      assert e in entries;
      assert e.1 < e;
      var head := "'" + e.0 + "': " + Repr(e.1);
      if |entries| == 1 then head else head + ", " + ReprEntries(entries[1..])
  }

  /** `str(v)`. */
  function PyStr(v: Value): string
    decreases v, 0
  {
    match v
    case Null => "None"
    case Bool(b) => if b then "True" else "False"
    case Num(_, text) => text
    case Str(s) => s
    case List(items) => "[" + ReprItems(items) + "]"
    case Obj(entries) => "{" + ReprEntries(entries) + "}"
  }

  /** All items are strings (so `', '.join(items)` succeeds). */
  predicate AllStr(items: seq<Value>) {
    forall i :: 0 <= i < |items| ==> items[i].Str?
  }

  function StrItems(items: seq<Value>): (r: seq<string>)
    requires AllStr(items)
    ensures |r| == |items| && forall i :: 0 <= i < |items| ==> r[i] == items[i].s
  {
    if items == [] then [] else [items[0].s] + StrItems(items[1..])
  }

  /** `sep.join(items)`: a `TypeError` when an item is not a string. */
  function JoinValues(sep: string, items: seq<Value>): Result<string> {
    if AllStr(items) then Ok(Join(sep, StrItems(items)))
    else Err("TypeError: sequence item: expected str instance")
  }

  /** `x += s` on a value found in a dict: strings concatenate, lists extend by characters. */
  function AppendText(v: Value, s: string): Result<Value> {
    match v
    case Str(t) => Ok(Str(t + s))
    case List(items) => Ok(List(items + seq(|s|, i requires 0 <= i < |s| => Str([s[i]]))))
    case _ => Err("TypeError: unsupported operand type(s) for +=")
  }
}
