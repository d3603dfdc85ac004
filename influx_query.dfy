/**
 * The InfluxDB 0.8 select statement that both threshold checks send,
 * `select FN(value) from SERIES where time > now() - Ns`
 * (utils/influxdb.go `queryBuilder`, utils/consul_check_influxdb.py
 * `_buildInfluxDBQuery`), and a reader that recovers the function, the
 * series and the window from it.
 */
module InfluxQuery {
  import opened Wrappers
  import Text

  const SELECT_PREFIX: string := "select "
  const VALUE_FROM: string := "(value) from "
  const WINDOW: string := " where time > now() - "

  /** The statement for aggregate `fn` over `from` in the last `seconds` seconds. */
  function Select(fn: string, from: string, seconds: int): string
  {
    SELECT_PREFIX + (fn + (VALUE_FROM + (from + Tail(seconds))))
  }

  /** The text before the series. */
  function Head(fn: string): string
  {
    SELECT_PREFIX + (fn + VALUE_FROM)
  }

  /** The text after the series. */
  function Tail(seconds: int): string
  {
    WINDOW + (Text.IntToString(seconds) + "s")
  }

  /** The text before the first `c` (all of `s` when there is none). */
  function UpTo(s: string, c: char): (r: string)
    ensures |r| <= |s| && r == s[..|r|] && c !in r
    decreases |s|
  {
    if s == [] || s[0] == c then [] else [s[0]] + UpTo(s[1..], c)
  }

  /** The text after the last `c` (all of `s` when there is none). */
  function AfterLast(s: string, c: char): (r: string)
    ensures c !in r
    decreases |s|
  {
    if s == [] || s[|s| - 1] == c then [] else AfterLast(s[..|s| - 1], c) + [s[|s| - 1]]
  }

  /** The text before the first `c` of `a + b` is `a` when `b` starts with `c` and `a` has none. */
  lemma {:induction false} UpToPrefix(a: string, b: string, c: char)
    requires c !in a && b != [] && b[0] == c
    ensures UpTo(a + b, c) == a
    decreases |a|
  {
    if a != [] {
      assert (a + b)[1..] == a[1..] + b;
      UpToPrefix(a[1..], b, c);
    }
  }

  /** The text after the last `c` of `a + b` is that of `b` when `b` has a `c`. */
  lemma {:induction false} AfterLastIn(a: string, b: string, c: char)
    requires c in b
    ensures AfterLast(a + b, c) == AfterLast(b, c)
    decreases |b|
  {
    var s := a + b;
    var n := |b| - 1;
    assert s[|s| - 1] == b[n];
    if b[n] != c {
      assert s[..|s| - 1] == a + b[..n];
      var i :| 0 <= i < |b| && b[i] == c;
      assert b[..n][i] == c;
      AfterLastIn(a, b[..n], c);
      assert b[..n] == b[..|b|][..n];
    }
  }

  /** The text after the last `c` of `a + b` is `b` when `a` ends with `c` and `b` has none. */
  lemma {:induction false} AfterLastSuffix(a: string, b: string, c: char)
    requires c !in b && a != [] && a[|a| - 1] == c
    ensures AfterLast(a + b, c) == b
    decreases |b|
  {
    var s := a + b;
    if b != [] {
      var n := |b| - 1;
      assert s[|s| - 1] == b[n];
      assert s[..|s| - 1] == a + b[..n];
      AfterLastSuffix(a, b[..n], c);
      assert b == b[..n] + [b[n]];
    } else {
      assert s == a;
    }
  }

  /** The decimal rendering of an integer has no blank. */
  lemma IntToStringHasNoBlank(n: int)
    ensures ' ' !in Text.IntToString(n)
  {
    var t := Text.NatToString(if n < 0 then -n else n);
    assert forall i :: 0 <= i < |t| ==> Text.IsDigit(t[i]);
    if n < 0 {
      assert Text.IntToString(n) == "-" + t;
    }
  }

  /** The function name of a statement: the text between "select " and the first '('. */
  function FunctionOf(q: string): Option<string>
  {
    if |q| < |SELECT_PREFIX| || q[..|SELECT_PREFIX|] != SELECT_PREFIX then None
    else Some(UpTo(q[|SELECT_PREFIX|..], '('))
  }

  /** The window of a statement: the number between the last blank and the final 's'. */
  function SecondsOf(q: string): Option<int>
  {
    var last := AfterLast(q, ' ');
    if last == [] || last[|last| - 1] != 's' then None
    else
      match Text.ParseInt(last[..|last| - 1])
      case Err(_) => None
      case Ok(seconds) => Some(seconds)
  }

  /** The series of a statement whose function and window are known: what lies between. */
  function SeriesOf(q: string, fn: string, seconds: int): (r: Option<string>)
    ensures r.Some? ==> q == Select(fn, r.value, seconds)
  {
    var head := Head(fn);
    var tail := Tail(seconds);
    if |head| + |tail| <= |q| && q[..|head|] == head && q[|q| - |tail|..] == tail then
      var from := q[|head|..|q| - |tail|];
      assert q == q[..|head|] + from + q[|q| - |tail|..];
      assert q == SELECT_PREFIX + (fn + VALUE_FROM) + from + tail;
      Some(from)
    else None
  }

  /** Reads a statement back into its function, series and window. */
  function ParseSelect(q: string): (r: Option<(string, string, int)>)
    ensures r.Some? ==> q == Select(r.value.0, r.value.1, r.value.2)
  {
    match (FunctionOf(q), SecondsOf(q))
    case (Some(fn), Some(seconds)) =>
      (match SeriesOf(q, fn, seconds)
       case Some(from) => Some((fn, from, seconds))
       case None => None)
    case _ => None
  }

  lemma FunctionOfSelect(fn: string, from: string, seconds: int)
    requires '(' !in fn
    ensures FunctionOf(Select(fn, from, seconds)) == Some(fn)
  {
    var rest := fn + (VALUE_FROM + (from + Tail(seconds)));
    assert (SELECT_PREFIX + rest)[|SELECT_PREFIX|..] == rest;
    UpToPrefix(fn, VALUE_FROM + (from + Tail(seconds)), '(');
  }

  lemma SecondsOfSelect(fn: string, from: string, seconds: int)
    ensures SecondsOf(Select(fn, from, seconds)) == Some(seconds)
  {
    var n := Text.IntToString(seconds);
    var t := n + "s";
    IntToStringHasNoBlank(seconds);
    assert ' ' !in t;
    AfterLastSuffix(WINDOW, t, ' ');
    var w := Tail(seconds);
    assert ' ' in w;
    AfterLastIn(from, w, ' ');
    AfterLastIn(VALUE_FROM, from + w, ' ');
    AfterLastIn(fn, VALUE_FROM + (from + w), ' ');
    AfterLastIn(SELECT_PREFIX, fn + (VALUE_FROM + (from + w)), ' ');
    assert t[..|t| - 1] == n;
    Text.ParseIntRoundTrip(seconds);
  }

  lemma SeriesOfSelect(fn: string, from: string, seconds: int)
    ensures SeriesOf(Select(fn, from, seconds), fn, seconds) == Some(from)
  {
    var q := Select(fn, from, seconds);
    var head := Head(fn);
    var tail := Tail(seconds);
    assert q == head + from + tail;
    assert q[..|head|] == head;
    assert q[|q| - |tail|..] == tail;
    assert q[|head|..|q| - |tail|] == from;
  }

  /**
   * A statement reads back as the function, series and window it was
   * built from, provided the function name has no '('.
   */
  lemma ParseSelectRoundTrip(fn: string, from: string, seconds: int)
    requires '(' !in fn
    ensures ParseSelect(Select(fn, from, seconds)) == Some((fn, from, seconds))
  {
    FunctionOfSelect(fn, from, seconds);
    SecondsOfSelect(fn, from, seconds);
    SeriesOfSelect(fn, from, seconds);
  }
}
