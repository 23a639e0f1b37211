/**
 * Values that Python code in the core gets from `json.loads` and passes around
 * as dictionaries and lists, with the dictionary and iteration operations the
 * core applies to them and the exceptions those operations raise.
 */
module Json {
  import opened Wrappers
  import opened Strings

  /**
   * A decoded JSON value. An object keeps its members in insertion order, as a
   * Python dict does; a float is carried as the text `str()` gives for it.
   */
  datatype Json =
    | Null
    | Bool(b: bool)
    | Int(i: int)
    | Float(text: string)
    | Str(s: string)
    | Array(items: seq<Json>)
    | Object(members: Members)

  type Members = seq<(string, Json)>

  /**
   * `json.loads` applied to a text that starts with '{' and ends with '}':
   * when it does not raise, such a text can only decode to an object.
   * `None` stands for `json.JSONDecodeError`.
   */
  type Decoder = string -> Option<Members>

  /** The Python exceptions the modelled code can raise. */
  datatype PyError =
    | KeyError(key: string)
    | AttributeError(typeName: string, attribute: string)
    | NotIterable(typeName: string)
    | IndexError
    | ValueError(text: string)
    | OverflowError(text: string)
    | Exception(text: string)
  {
    /** `str(e)`. */
    function Message(): string
    {
      match this
      case KeyError(k) => "'" + k + "'"
      case AttributeError(t, a) => "'" + t + "' object has no attribute '" + a + "'"
      case NotIterable(t) => "'" + t + "' object is not iterable"
      case IndexError => "list index out of range"
      case ValueError(m) => m
      case OverflowError(m) => m
      case Exception(m) => m
    }
  }

  /** `type(v).__name__`. */
  function TypeName(v: Json): string
  {
    match v
    case Null => "NoneType"
    case Bool(_) => "bool"
    case Int(_) => "int"
    case Float(_) => "float"
    case Str(_) => "str"
    case Array(_) => "list"
    case Object(_) => "dict"
  }

  /** A list of strings. */
  function Strs(ss: seq<string>): (j: Json)
    ensures j.Array? && |j.items| == |ss|
    ensures forall k | 0 <= k < |ss| :: j.items[k] == Str(ss[k])
  {
    Array(seq(|ss|, k requires 0 <= k < |ss| => Str(ss[k])))
  }

  /** `k in d`. */
  predicate Has(m: Members, k: string)
  {
    exists j | 0 <= j < |m| :: m[j].0 == k
  }

  /** `d.get(k, default)`. */
  function Get(m: Members, k: string, default: Json): (v: Json)
    ensures !Has(m, k) ==> v == default
    ensures Has(m, k) ==> exists j | 0 <= j < |m| :: m[j].0 == k && v == m[j].1
  {
    if m == [] then default
    else if m[0].0 == k then m[0].1
    else Get(m[1..], k, default)
  }

  /** `list(d)`: the keys in insertion order. */
  function Keys(m: Members): (ks: seq<string>)
    ensures |ks| == |m|
  {
    seq(|m|, j requires 0 <= j < |m| => m[j].0)
  }

  /** The keys of a dict with one member put in front. */
  lemma KeysCons(k: string, v: Json, m: Members)
    ensures Keys([(k, v)] + m) == [k] + Keys(m)
  {
  }

  /** Looking a key up in a dict extended at the end. */
  lemma {:induction false} GetAppend(m: Members, k: string, v: Json, key: string, default: Json)
    ensures Get(m + [(k, v)], key, default) == if Has(m, key) then Get(m, key, default) else if key == k then v else default
  {
    if m != [] {
      assert (m + [(k, v)])[1..] == m[1..] + [(k, v)];
      GetAppend(m[1..], k, v, key, default);
      assert Has(m, key) <==> m[0].0 == key || Has(m[1..], key) by {
        if Has(m[1..], key) {
          var j :| 0 <= j < |m[1..]| && m[1..][j].0 == key;
          assert m[j + 1].0 == key;
        }
      }
    }
  }

  /**
   * What `for x in v` visits: the items of a list, the one-character strings
   * of a str, the keys of a dict; anything else raises TypeError.
   */
  function Iterate(v: Json): (r: Result<seq<Json>, PyError>)
    ensures r.Failure? <==> !(v.Array? || v.Str? || v.Object?)
    ensures r.Success? ==> |r.value| == if v.Array? then |v.items| else if v.Str? then |v.s| else |v.members|
  {
    match v
    case Array(items) => Success(items)
    case Str(s) => Success(seq(|s|, k requires 0 <= k < |s| => Str([s[k]])))
    case Object(m) => Success(seq(|m|, k requires 0 <= k < |m| => Str(m[k].0)))
    case _ => Failure(NotIterable(TypeName(v)))
  }

  /**
   * `str(v)` as an f-string renders it. The text of a list or a dict is its
   * Python repr, which `show` supplies.
   */
  function Render(v: Json, show: Json -> string): string
  {
    match v
    case Null => "None"
    case Bool(b) => if b then "True" else "False"
    case Int(i) => IntToString(i)
    case Float(t) => t
    case Str(s) => s
    case _ => show(v)
  }
}
