/** Shared vocabulary of the model: optional values, the JSON values that
    tool arguments and service payloads are made of, Python's insertion-ordered
    dictionaries, and numpy's `argmax` over a score vector. */
module Common {

  datatype Option<+T> = None | Some(value: T)

  /** A JSON scalar as it appears in tool arguments, cached arguments and
      service payloads (`null`, booleans, integers and strings). */
  datatype Value = VNull | VBool(b: bool) | VInt(i: int) | VStr(s: string)

  /** Keyword arguments of a tool call, and the payload of a service call. */
  type Args = map<string, Value>

  /** Python truthiness of a JSON scalar. */
  predicate Truthy(v: Value) {
    match v
    case VNull => false
    case VBool(b) => b
    case VInt(i) => i != 0
    case VStr(s) => s != ""
  }

  function DigitChar(d: nat): (c: char)
    requires d < 10
    ensures '0' <= c <= '9'
  {
    "0123456789"[d]
  }

  function NatToString(n: nat): (r: string)
    ensures |r| >= 1
    ensures forall k :: 0 <= k < |r| ==> '0' <= r[k] <= '9'
    decreases n
  {
    if n < 10 then [DigitChar(n)] else NatToString(n / 10) + [DigitChar(n % 10)]
  }

  /** Python's `str()` of an integer. */
  function IntToString(n: int): string {
    if n < 0 then "-" + NatToString(-n) else NatToString(n)
  }

  /** Python's `str()` of a JSON scalar, as an f-string interpolates it. */
  function Show(v: Value): string {
    match v
    case VNull => "None"
    case VBool(b) => if b then "True" else "False"
    case VInt(i) => IntToString(i)
    case VStr(s) => s
  }

  /** `d.get(key, default)`. */
  function Get(d: Args, key: string, default: Value): Value {
    if key in d then d[key] else default
  }

  /** A Python `dict` with string keys: the values, and the keys in insertion order. */
  datatype Dict<V> = Dict(keys: seq<string>, values: map<string, V>) {

    ghost predicate Valid() {
      && (forall k :: k in values <==> k in keys)
      && (forall i, j :: 0 <= i < j < |keys| ==> keys[i] != keys[j])
    }

    /** `d[key] = value`: a new key goes to the end, an existing key keeps its place. */
    function Put(key: string, value: V): (d: Dict<V>)
      requires Valid()
      ensures d.Valid()
      ensures d.values == values[key := value]
      ensures key in values ==> d.keys == keys
      ensures key !in values ==> d.keys == keys + [key]
    {
      if key in values then Dict(keys, values[key := value]) else Dict(keys + [key], values[key := value])
    }
  }

  function EmptyDict<V>(): (d: Dict<V>)
    ensures d.Valid() && d.keys == [] && d.values == map[]
  {
    Dict([], map[])
  }

  /** The scores of a query against a matrix whose rows encode `rows`. */
  function Scores(rows: seq<string>, sim: string -> real): (s: seq<real>)
    ensures |s| == |rows|
    ensures forall k :: 0 <= k < |rows| ==> s[k] == sim(rows[k])
  {
    seq(|rows|, k requires 0 <= k < |rows| => sim(rows[k]))
  }

  /** Entry `k` has the highest score of all, and every earlier entry scores strictly less. */
  ghost predicate FirstMaximum(scores: seq<real>, k: int) {
    && 0 <= k < |scores|
    && (forall j :: 0 <= j < |scores| ==> scores[j] <= scores[k])
    && (forall j :: 0 <= j < k ==> scores[j] < scores[k])
  }

  /** At most one entry is the first maximum. */
  lemma FirstMaximumUnique(scores: seq<real>, k: int, k': int)
    requires FirstMaximum(scores, k) && FirstMaximum(scores, k')
    ensures k == k'
  {
    assert scores[k] == scores[k'];
  }

  /** `np.argmax`: the first index at which the maximum is reached. */
  function ArgMax(s: seq<real>): (k: nat)
    requires |s| > 0
    ensures k < |s|
    ensures FirstMaximum(s, k)
    decreases |s|
  {
    if |s| == 1 then 0
    else
      var k := ArgMax(s[..|s| - 1]);
      if s[|s| - 1] > s[k] then |s| - 1 else k
  }

  /** The embedding matrix over a list of texts, as the list of texts its rows encode:
      none for an empty list. */
  function MatrixOf(texts: seq<string>): (m: Option<seq<string>>)
    ensures m.None? <==> texts == []
    ensures m.Some? ==> m.value == texts
  {
    if texts == [] then None else Some(texts)
  }
}
