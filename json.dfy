/**
 * Decoded JSON values as Python's `json.loads` and the KV client return
 * them.  A decoded object is a Python dict; it is kept as its items in the
 * dict's iteration order, and a key bound more than once (which only
 * happens after keys are folded to lower case) reads as its last binding,
 * as `dict((k, v) for ...)` keeps the last value it is given.
 */
module Json {
  import opened Wrappers
  import Text

  datatype Json =
    | JNull
    | JBool(b: bool)
    | JNum(n: int)
    | JStr(s: string)
    | JArr(items: seq<Json>)
    | JObj(fields: seq<(string, Json)>)

  type Dict = seq<(string, Json)>

  /** `set(d.keys())`. */
  function Keys(d: Dict): set<string>
  {
    set i | 0 <= i < |d| :: d[i].0
  }

  /** `d[k]`, or None where Python raises KeyError. */
  function Get(d: Dict, k: string): (r: Option<Json>)
    ensures r.Some? <==> k in Keys(d)
    ensures r.Some? ==> exists i :: 0 <= i < |d| && d[i] == (k, r.value)
    decreases |d|
  {
    if d == [] then None
    else if d[|d| - 1].0 == k then Some(d[|d| - 1].1)
    else
      var r := Get(d[..|d| - 1], k);
      assert Keys(d) == Keys(d[..|d| - 1]) + {d[|d| - 1].0} by {
        forall x | x in Keys(d) ensures x in Keys(d[..|d| - 1]) + {d[|d| - 1].0} {
          var i :| 0 <= i < |d| && d[i].0 == x;
          if i < |d| - 1 { assert d[..|d| - 1][i] == d[i]; }
        }
      }
      r
  }

  /** Python truthiness of a decoded value. */
  predicate JsonTruthy(j: Json)
  {
    match j
    case JNull => false
    case JBool(b) => b
    case JNum(n) => n != 0
    case JStr(s) => s != ""
    case JArr(items) => items != []
    case JObj(fields) => fields != []
  }

  /**
   * `str(j)` as `str.format` and `%s` use it, for scalar values; None for
   * an array or object.
   */
  function Render(j: Json): (r: Option<string>)
    ensures r.None? <==> j.JArr? || j.JObj?
    ensures j.JStr? ==> r == Some(j.s)
  {
    match j
    case JNull => Some("None")
    case JBool(b) => Some(if b then "True" else "False")
    case JNum(n) => Some(Text.IntToString(n))
    case JStr(s) => Some(s)
    case _ => None
  }

  /**
   * `dict((key.lower(), value) for key, value in d.iteritems())`: every key
   * folded to lower case, values untouched, in the same order.
   */
  function LowerKeys(d: Dict): (r: Dict)
    ensures |r| == |d|
    ensures forall k :: k in Keys(r) ==> Text.IsLower(k)
    ensures Keys(r) == set k | k in Keys(d) :: Text.Lower(k)
  {
    var r := seq(|d|, i requires 0 <= i < |d| => (Text.Lower(d[i].0), d[i].1));
    assert forall k :: k in Keys(r) ==> Text.IsLower(k) by {
      forall k | k in Keys(r) ensures Text.IsLower(k) {
        var i :| 0 <= i < |r| && r[i].0 == k;
      }
    }
    assert Keys(r) == set k | k in Keys(d) :: Text.Lower(k) by {
      forall k | k in Keys(d) ensures Text.Lower(k) in Keys(r) {
        var i :| 0 <= i < |d| && d[i].0 == k;
        assert r[i].0 == Text.Lower(k);
      }
      forall k | k in Keys(r) ensures k in set k | k in Keys(d) :: Text.Lower(k) {
        var i :| 0 <= i < |r| && r[i].0 == k;
        assert d[i].0 in Keys(d);
      }
    }
    r
  }

  /** Folding keys leaves every value where it was. */
  lemma LowerKeysValues(d: Dict)
    ensures forall i :: 0 <= i < |d| ==> LowerKeys(d)[i] == (Text.Lower(d[i].0), d[i].1)
  {
  }

  /** Folding the keys twice is the same as folding them once. */
  lemma LowerKeysIdempotent(d: Dict)
    ensures LowerKeys(LowerKeys(d)) == LowerKeys(d)
  {
    var r := LowerKeys(d);
    forall i | 0 <= i < |d| ensures LowerKeys(r)[i] == r[i] {
      Text.LowerIdempotent(d[i].0);
    }
  }

  /**
   * A key that no other key collides with after folding keeps its value
   * under its lower-case spelling.
   */
  lemma {:induction false} LowerKeysLookup(d: Dict, k: string)
    requires forall i :: 0 <= i < |d| && Text.Lower(d[i].0) == Text.Lower(k) ==> d[i].0 == k
    ensures Get(LowerKeys(d), Text.Lower(k)) == Get(d, k)
    decreases |d|
  {
    if d != [] {
      var n := |d| - 1;
      var r := LowerKeys(d);
      LowerKeysValues(d);
      assert r[n] == (Text.Lower(d[n].0), d[n].1);
      if d[n].0 != k {
        assert Text.Lower(d[n].0) != Text.Lower(k);
        assert r[..n] == LowerKeys(d[..n]);
        LowerKeysLookup(d[..n], k);
        assert Get(r, Text.Lower(k)) == Get(r[..n], Text.Lower(k));
      }
    }
  }

  /** `d[k]` on a dict: its value, or KeyError. */
  function Lookup(d: Dict, k: string): (r: Result<Json>)
    ensures r.Ok? <==> k in Keys(d)
    ensures r.Err? ==> r.error == KeyError
    ensures r.Ok? ==> Get(d, k) == Some(r.value)
  {
    match Get(d, k)
    case Some(v) => Ok(v)
    case None => Err(KeyError)
  }

  /** `j[k]` with a string key: only a dict accepts one. */
  function Index(j: Json, k: string): (r: Result<Json>)
    ensures !j.JObj? ==> r == Err(TypeError)
    ensures j.JObj? ==> r == Lookup(j.fields, k)
  {
    match j
    case JObj(fields) => Lookup(fields, k)
    case _ => Err(TypeError)
  }

  /**
   * `int(j)`: a number as is, a boolean as 0 or 1, decimal text parsed,
   * anything else TypeError.
   */
  function PyInt(j: Json): (r: Result<int>)
    ensures j.JNum? ==> r == Ok(j.n)
    ensures j.JStr? ==> r == Text.ParseInt(j.s)
    ensures j.JNull? || j.JArr? || j.JObj? ==> r == Err(TypeError)
  {
    match j
    case JNum(n) => Ok(n)
    case JBool(b) => Ok(if b then 1 else 0)
    case JStr(s) => Text.ParseInt(s)
    case _ => Err(TypeError)
  }

  /** A room id stored as the decimal text of a number reads back as that number. */
  lemma PyIntOfDecimalText(n: int)
    ensures PyInt(JStr(Text.IntToString(n))) == Ok(n)
  {
    Text.ParseIntRoundTrip(n);
  }

  /** The items of a list that are all strings. */
  predicate AllStrings(items: seq<Json>)
  {
    forall i :: 0 <= i < |items| ==> items[i].JStr?
  }

  /**
   * `sep.join(j)`: a list of strings joined, the characters of a string
   * joined, TypeError otherwise.
   */
  function JoinJson(j: Json, sep: string): (r: Result<string>)
    ensures j.JArr? && AllStrings(j.items) ==> r == Ok(Text.Join(seq(|j.items|, i requires 0 <= i < |j.items| => j.items[i].s), sep))
    ensures j.JStr? ==> r == Ok(Text.Join(seq(|j.s|, i requires 0 <= i < |j.s| => [j.s[i]]), sep))
    ensures r.Ok? <==> j.JStr? || (j.JArr? && AllStrings(j.items))
  {
    match j
    case JArr(items) =>
      if AllStrings(items) then Ok(Text.Join(seq(|items|, i requires 0 <= i < |items| => items[i].s), sep))
      else Err(TypeError)
    case JStr(s) => Ok(Text.Join(seq(|s|, i requires 0 <= i < |s| => [s[i]]), sep))
    case _ => Err(TypeError)
  }
}
