/**
 * utils/influxdb.go: a command-line check that queries InfluxDB 0.8 and
 * turns the first point's value into a Nagios-style exit code (0 passing,
 * 1 warning, 2 critical).  Thresholds are reals compared exactly; a
 * threshold the user did not give holds a random sentinel, which is a
 * parameter here.
 */
module Influxdb {
  import opened Wrappers
  import Seqs
  import InfluxQuery

  /** The status a Go program ends with after an unrecovered panic. */
  const PANIC_EXIT: int := 2

  /** Index of the point in a series and of the value in a point. */
  const TIME: nat := 0
  const VALUE: nat := 1

  /** One series of the decoded JSON answer. */
  datatype InfluxResponse = InfluxResponse(columns: seq<string>, name: string, points: seq<seq<real>>)

  /** `exceeded`: strictly below the threshold in less-than mode, strictly above it otherwise. */
  function Exceeded(threshold: real, current: real, lessThan: bool): (r: bool)
    ensures lessThan ==> (r <==> current < threshold)
    ensures !lessThan ==> (r <==> threshold < current)
  {
    if lessThan then !(threshold <= current) else !(threshold >= current)
  }

  /** Less-than mode is greater-than mode on negated values. */
  lemma ExceededMirror(threshold: real, current: real)
    ensures Exceeded(threshold, current, true) == Exceeded(-threshold, -current, false)
  {
  }

  /** `ir[0].Points[TIME][VALUE]`, which panics on a short answer. */
  function CurrentValue(ir: seq<InfluxResponse>): (r: Result<real>)
    ensures r.Ok? <==> |ir| > 0 && |ir[0].points| > TIME && |ir[0].points[TIME]| > VALUE
    ensures r.Ok? ==> r.value == ir[0].points[TIME][VALUE]
  {
    if |ir| == 0 || |ir[0].points| <= TIME || |ir[0].points[TIME]| <= VALUE then Err(IndexError)
    else Ok(ir[0].points[TIME][VALUE])
  }

  /** The code for a value: the decision `thresholdChecker` takes once it has the value. */
  function Classify(current: real, lessThan: bool, warning: real, critical: real, random: real): (r: int)
    ensures 0 <= r <= 2
    ensures warning == random && critical == random ==> r == 1
    ensures !(warning == random && critical == random) ==>
              && (r == 2 <==> Exceeded(critical, current, lessThan))
              && (r == 1 <==> warning != random && !Exceeded(critical, current, lessThan) && Exceeded(warning, current, lessThan))
  {
    if warning == random && critical == random then 1
    else if Exceeded(critical, current, lessThan) then 2
    else if warning != random && Exceeded(critical, current, lessThan) == false && Exceeded(warning, current, lessThan) == true then 1
    else 0
  }

  /**
   * `thresholdChecker`: the value is read before the thresholds are
   * looked at, so a short answer panics even without thresholds.
   */
  function ThresholdChecker(ir: seq<InfluxResponse>, lessThan: bool, warning: real, critical: real, random: real)
    : (r: Result<int>)
    ensures r.Err? <==> CurrentValue(ir).Err?
    ensures r.Err? ==> r.error == IndexError
    ensures r.Ok? ==> r.value == Classify(CurrentValue(ir).value, lessThan, warning, critical, random)
  {
    var current :- CurrentValue(ir);
    Ok(Classify(current, lessThan, warning, critical, random))
  }

  /**
   * In greater-than mode with both thresholds given and warning below
   * critical, the codes split the line at the two thresholds, each
   * threshold itself still counting as the lower band.
   */
  lemma ClassifyBands(current: real, warning: real, critical: real, random: real)
    requires warning != random && critical != random && warning <= critical
    ensures Classify(current, false, warning, critical, random) == 2 <==> critical < current
    ensures Classify(current, false, warning, critical, random) == 1 <==> warning < current <= critical
    ensures Classify(current, false, warning, critical, random) == 0 <==> current <= warning
  {
  }

  /** Without a warning threshold the check is critical or passing. */
  lemma ClassifyWithoutWarning(current: real, lessThan: bool, critical: real, random: real)
    requires critical != random
    ensures Classify(current, lessThan, random, critical, random) == (if Exceeded(critical, current, lessThan) then 2 else 0)
  {
  }

  /** The aggregate flags of the command line. */
  datatype Aggregates = Aggregates(count: bool, min: bool, max: bool, mean: bool, mode: bool, median: bool,
                                   derivative: bool, sum: bool, stddev: bool, first: bool)

  /** The aggregates `createQuery` tries, in its order; median is not among them. */
  const FUNCTIONS: seq<string> := ["COUNT", "MIN", "MAX", "MEAN", "MODE", "DERIVATIVE", "SUM", "STDDEV", "FIRST"]

  /** The flags passed to `createQuery`, in the order of `FUNCTIONS`. */
  function Passed(a: Aggregates): (r: seq<bool>)
    ensures |r| == |FUNCTIONS|
  {
    [a.count, a.min, a.max, a.mean, a.mode, a.derivative, a.sum, a.stddev, a.first]
  }

  function IsSet(b: bool): bool { b }

  /** `queryBuilder`: the select statement with the series in double quotes. */
  function QueryBuilder(fn: string, series: string, delta: int): string
  {
    InfluxQuery.Select(fn, "\"" + series + "\"", delta)
  }

  /** The statement reads back as the function, the quoted series and the window. */
  lemma QueryBuilderReadsBack(fn: string, series: string, delta: int)
    requires '(' !in fn
    ensures InfluxQuery.ParseSelect(QueryBuilder(fn, series, delta)) == Some((fn, "\"" + series + "\"", delta))
  {
    InfluxQuery.ParseSelectRoundTrip(fn, "\"" + series + "\"", delta);
  }

  /**
   * `createQuery`: a non-empty custom query verbatim; otherwise, for a
   * non-empty series, the statement for the first flag set.
   */
  function CreateQuery(series: string, custom: string, delta: int, a: Aggregates): (r: Result<string>)
  {
    if |custom| > 0 then Ok(custom)
    else if |series| > 0 then
      if a.count then Ok(QueryBuilder("COUNT", series, delta))
      else if a.min then Ok(QueryBuilder("MIN", series, delta))
      else if a.max then Ok(QueryBuilder("MAX", series, delta))
      else if a.mean then Ok(QueryBuilder("MEAN", series, delta))
      else if a.mode then Ok(QueryBuilder("MODE", series, delta))
      else if a.derivative then Ok(QueryBuilder("DERIVATIVE", series, delta))
      else if a.sum then Ok(QueryBuilder("SUM", series, delta))
      else if a.stddev then Ok(QueryBuilder("STDDEV", series, delta))
      else if a.first then Ok(QueryBuilder("FIRST", series, delta))
      else Err(QueryError("If using Series function type required"))
    else Err(QueryError("Series or Custom not given, required"))
  }

  /**
   * The if/else chain of `createQuery` is "the first flag set, in the
   * order of `FUNCTIONS`": a custom query wins, a series without any flag
   * and a call without series or custom are errors.
   */
  lemma CreateQueryPicksFirstFlag(series: string, custom: string, delta: int, a: Aggregates)
    ensures |custom| > 0 ==> CreateQuery(series, custom, delta, a) == Ok(custom)
    ensures |custom| == 0 && |series| == 0 ==> CreateQuery(series, custom, delta, a).Err?
    ensures |custom| == 0 && |series| > 0 ==>
              match Seqs.FirstWhere(Passed(a), IsSet)
              case None => CreateQuery(series, custom, delta, a).Err?
              case Some(k) => k < |FUNCTIONS| && CreateQuery(series, custom, delta, a) == Ok(QueryBuilder(FUNCTIONS[k], series, delta))
  {
    if |custom| == 0 && |series| > 0 {
      var flags := Passed(a);
      match Seqs.FirstWhere(flags, IsSet)
      case None =>
        assert !IsSet(flags[0]) && !IsSet(flags[1]) && !IsSet(flags[2]) && !IsSet(flags[3]) && !IsSet(flags[4]);
        assert !IsSet(flags[5]) && !IsSet(flags[6]) && !IsSet(flags[7]) && !IsSet(flags[8]);
      case Some(k) => FirstFlagQuery(series, delta, a, k);
    }
  }

  /** The statement for the first flag set, at index `k`. */
  lemma FirstFlagQuery(series: string, delta: int, a: Aggregates, k: nat)
    requires |series| > 0 && Seqs.FirstWhere(Passed(a), IsSet) == Some(k)
    ensures k < |FUNCTIONS| && CreateQuery(series, "", delta, a) == Ok(QueryBuilder(FUNCTIONS[k], series, delta))
  {
    var flags := Passed(a);
    assert IsSet(flags[k]);
    if k == 0 {
    } else if k == 1 {
      assert !IsSet(flags[0]);
    } else if k == 2 {
      assert !IsSet(flags[0]) && !IsSet(flags[1]);
    } else if k == 3 {
      assert !IsSet(flags[0]) && !IsSet(flags[1]) && !IsSet(flags[2]);
    } else {
      assert !IsSet(flags[0]) && !IsSet(flags[1]) && !IsSet(flags[2]) && !IsSet(flags[3]);
      FirstFlagQueryLate(series, delta, a, k);
    }
  }

  /** `FirstFlagQuery` for the flags after mean. */
  lemma FirstFlagQueryLate(series: string, delta: int, a: Aggregates, k: nat)
    requires |series| > 0 && Seqs.FirstWhere(Passed(a), IsSet) == Some(k) && k >= 4
    requires !a.count && !a.min && !a.max && !a.mean
    ensures k < |FUNCTIONS| && CreateQuery(series, "", delta, a) == Ok(QueryBuilder(FUNCTIONS[k], series, delta))
  {
    var flags := Passed(a);
    assert IsSet(flags[k]);
    if k == 4 {
    } else if k == 5 {
      assert !IsSet(flags[4]);
    } else if k == 6 {
      assert !IsSet(flags[4]) && !IsSet(flags[5]);
    } else if k == 7 {
      assert !IsSet(flags[4]) && !IsSet(flags[5]) && !IsSet(flags[6]);
    } else {
      assert !IsSet(flags[4]) && !IsSet(flags[5]) && !IsSet(flags[6]) && !IsSet(flags[7]);
    }
  }

  /** The median flag is parsed but never passed on: it changes no query. */
  lemma MedianIgnored(series: string, custom: string, delta: int, a: Aggregates)
    ensures CreateQuery(series, custom, delta, a) == CreateQuery(series, custom, delta, a.(median := !a.median))
  {
  }

  /** A query that names a function reads back as that function over the quoted series. */
  lemma CreateQueryReadsBack(series: string, delta: int, a: Aggregates)
    requires |series| > 0 && CreateQuery(series, "", delta, a).Ok?
    ensures var q := InfluxQuery.ParseSelect(CreateQuery(series, "", delta, a).value);
            q.Some? && q.value.0 in FUNCTIONS && q.value.1 == "\"" + series + "\"" && q.value.2 == delta
  {
    CreateQueryPicksFirstFlag(series, "", delta, a);
    var k := Seqs.FirstWhere(Passed(a), IsSet).value;
    FunctionNamesPlain(k);
    QueryBuilderReadsBack(FUNCTIONS[k], series, delta);
  }

  /** No function name holds an opening parenthesis. */
  lemma FunctionNamesPlain(k: nat)
    requires k < |FUNCTIONS|
    ensures '(' !in FUNCTIONS[k]
  {
    if k == 0 {} else if k == 1 {} else if k == 2 {} else if k == 3 {} else if k == 4 {}
    else if k == 5 {} else if k == 6 {} else if k == 7 {} else {}
  }

  /**
   * `influxdbmain` after flag parsing: an unusable query or a failed
   * request exits 1, a short answer panics (status 2), otherwise the
   * threshold code.  `queryDB` is the request, a parameter here.
   */
  function InfluxdbMain(series: string, custom: string, delta: int, a: Aggregates,
                        queryDB: string -> Result<seq<InfluxResponse>>,
                        lessThan: bool, warning: real, critical: real, random: real): (r: int)
    ensures 0 <= r <= 2
    ensures CreateQuery(series, custom, delta, a).Err? ==> r == 1
    ensures CreateQuery(series, custom, delta, a).Ok? && queryDB(CreateQuery(series, custom, delta, a).value).Err? ==> r == 1
    ensures CreateQuery(series, custom, delta, a).Ok? && queryDB(CreateQuery(series, custom, delta, a).value).Ok? ==>
              var ir := queryDB(CreateQuery(series, custom, delta, a).value).value;
              r == (if CurrentValue(ir).Err? then PANIC_EXIT
                    else Classify(CurrentValue(ir).value, lessThan, warning, critical, random))
  {
    match CreateQuery(series, custom, delta, a)
    case Err(_) => 1
    case Ok(query) =>
      match queryDB(query)
      case Err(_) => 1
      case Ok(ir) =>
        match ThresholdChecker(ir, lessThan, warning, critical, random)
        case Err(_) => PANIC_EXIT
        case Ok(code) => code
  }
}
