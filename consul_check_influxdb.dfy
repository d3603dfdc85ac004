/**
 * utils/consul_check_influxdb.py: a Consul check script that builds an
 * InfluxDB series name and query from its command-line options, runs the
 * query and exits 0, 1 or 2 by comparing the first value to the
 * thresholds.  `sys.exit` and optparse's `parser.error` are the
 * `SystemExit` exception; the InfluxDB client is a parameter.
 */
module ConsulCheckInfluxdb {
  import opened Wrappers
  import opened Health
  import Seqs
  import Text
  import InfluxQuery
  import Influxdb

  const EXIT_OK: int := 0
  const EXIT_WARNING: int := 1
  const EXIT_CRITICAL: int := 2

  /** optparse's `parser.error` prints the usage and exits with status 2. */
  const USAGE_EXIT: int := 2

  /** The status of a Python process that ends with an uncaught exception. */
  const UNCAUGHT_EXIT: int := 1

  /** The parsed command line; an option without value or default is None. */
  datatype Options = Options(
    influxdbIp: Attr, influxdbPort: Option<int>, influxdbUser: Attr, influxdbPass: Attr, influxdbDatabase: Attr,
    queryFull: Attr, queryPrefix: Attr, queryCustom: Attr, queryFqdn: Attr,
    queryHostname: Attr, queryDomain: Attr, querySeries: Attr,
    queryCount: Option<int>, queryMin: Option<int>, queryMax: Option<int>, queryMean: Option<int>,
    queryMode: Option<int>, queryMedian: Option<int>, queryDerivative: Option<int>, querySum: Option<int>,
    queryStddev: Option<int>, queryFirst: Option<int>,
    queryReplace: string,
    thresholdLessThan: bool, thresholdWarning: Option<real>, thresholdCritical: Option<real>)

  /** Python truthiness of an optional number: given and non-zero. */
  predicate IntTruthy(a: Option<int>) { a.Some? && a.value != 0 }

  predicate RealTruthy(a: Option<real>) { a.Some? && a.value != 0.0 }

  /** `a <= b` in Python 2, where None orders below every number. */
  predicate PyLe(a: Option<real>, b: real) { a.None? || a.value <= b }

  /** `a >= b` in Python 2, where None orders below every number. */
  predicate PyGe(a: Option<real>, b: real) { a.Some? && a.value >= b }

  /** The aggregate functions of the if/elif chain of `_buildInfluxDBQuery`, in its order. */
  const AGGREGATES: seq<string> :=
    ["COUNT", "MIN", "MAX", "MEAN", "MODE", "MEDIAN", "DERIVATIVE", "SUM", "STDDEV", "FIRST"]

  /** The seconds options, in the order of `AGGREGATES`. */
  function Seconds(o: Options): (r: seq<Option<int>>)
    ensures |r| == |AGGREGATES|
  {
    [o.queryCount, o.queryMin, o.queryMax, o.queryMean, o.queryMode,
     o.queryMedian, o.queryDerivative, o.querySum, o.queryStddev, o.queryFirst]
  }

  /** The fqdn series name: prefix, the fqdn with each '.' replaced, series, joined by '.'. */
  function FqdnSeries(prefix: Attr, fqdn: string, replace: string, series: Attr): string
  {
    Str(prefix) + ("." + (Text.ReplaceChar(fqdn, '.', replace) + ("." + Str(series))))
  }

  /** The fqdn part is the fqdn split at its dots and joined with the delimiter. */
  lemma FqdnSeriesJoinsLabels(prefix: Attr, fqdn: string, replace: string, series: Attr)
    ensures FqdnSeries(prefix, fqdn, replace, series)
         == Str(prefix) + ("." + (Text.Join(Text.Split(fqdn, '.'), replace) + ("." + Str(series))))
  {
    Text.ReplaceIsSplitJoin(fqdn, '.', replace);
  }

  /**
   * With a delimiter, prefix and series free of dots, the name has exactly
   * three dot-separated parts: the prefix, the rewritten fqdn, the series.
   */
  lemma FqdnSeriesSplits(prefix: Attr, fqdn: string, replace: string, series: Attr)
    requires '.' !in Str(prefix) && '.' !in replace && '.' !in Str(series)
    ensures Text.Split(FqdnSeries(prefix, fqdn, replace, series), '.')
         == [Str(prefix), Text.ReplaceChar(fqdn, '.', replace), Str(series)]
  {
    var host := Text.ReplaceChar(fqdn, '.', replace);
    Text.SplitConcat(host, Str(series), '.');
    Text.SplitConcat(Str(prefix), host + ("." + Str(series)), '.');
    Text.SplitWithout(Str(prefix), '.');
    Text.SplitWithout(host, '.');
    Text.SplitWithout(Str(series), '.');
  }

  /**
   * The series name `_createSeries` leaves behind, from the one before
   * (None: never assigned).  A custom query keeps it; the hostname branch
   * formats fields it does not supply and raises KeyError.
   */
  function SeriesAfterCreate(o: Options, prior: Attr): (r: Result<Attr>)
    ensures r.Err? <==> !Truthy(o.queryCustom) && !Truthy(o.queryFull) && !Truthy(o.queryFqdn)
    ensures r.Err? ==> r.error == KeyError
    ensures Truthy(o.queryCustom) ==> r == Ok(prior)
    ensures r.Ok? && !Truthy(o.queryCustom) ==> r.value.Some?
  {
    if Truthy(o.queryCustom) then Ok(prior)
    else if Truthy(o.queryFull) then Ok(o.queryFull)
    else if Truthy(o.queryFqdn) then Ok(Some(FqdnSeries(o.queryPrefix, o.queryFqdn.value, o.queryReplace, o.querySeries)))
    else Err(KeyError)
  }

  /** The position the if/elif chain of `_buildInfluxDBQuery` stops at, among the seconds options. */
  function ChosenAggregate(o: Options): (r: Option<nat>)
    ensures r.Some? ==> r.value < |AGGREGATES| && IntTruthy(Seconds(o)[r.value])
  {
    if IntTruthy(o.queryCount) then Some(0)
    else if IntTruthy(o.queryMin) then Some(1)
    else if IntTruthy(o.queryMax) then Some(2)
    else if IntTruthy(o.queryMean) then Some(3)
    else if IntTruthy(o.queryMode) then Some(4)
    else if IntTruthy(o.queryMedian) then Some(5)
    else if IntTruthy(o.queryDerivative) then Some(6)
    else if IntTruthy(o.querySum) then Some(7)
    else if IntTruthy(o.queryStddev) then Some(8)
    else if IntTruthy(o.queryFirst) then Some(9)
    else None
  }

  /** The chain stops at the first truthy seconds option, and at none when none is truthy. */
  lemma ChosenIsFirstTruthy(o: Options)
    ensures ChosenAggregate(o) == Seqs.FirstWhere(Seconds(o), IntTruthy)
  {
    var s := Seconds(o);
    match Seqs.FirstWhere(s, IntTruthy)
    case None =>
      assert !IntTruthy(s[0]) && !IntTruthy(s[1]) && !IntTruthy(s[2]) && !IntTruthy(s[3]) && !IntTruthy(s[4]);
      assert !IntTruthy(s[5]) && !IntTruthy(s[6]) && !IntTruthy(s[7]) && !IntTruthy(s[8]) && !IntTruthy(s[9]);
    case Some(m) => FirstTruthyChosen(o, m);
  }

  /** `ChosenIsFirstTruthy` when some option is truthy, the first at `m`. */
  lemma FirstTruthyChosen(o: Options, m: nat)
    requires Seqs.FirstWhere(Seconds(o), IntTruthy) == Some(m)
    ensures ChosenAggregate(o) == Some(m)
  {
    var s := Seconds(o);
    assert IntTruthy(s[m]);
    if m == 0 {
    } else if m == 1 {
      assert !IntTruthy(s[0]);
    } else if m == 2 {
      assert !IntTruthy(s[0]) && !IntTruthy(s[1]);
    } else if m == 3 {
      assert !IntTruthy(s[0]) && !IntTruthy(s[1]) && !IntTruthy(s[2]);
    } else if m == 4 {
      assert !IntTruthy(s[0]) && !IntTruthy(s[1]) && !IntTruthy(s[2]) && !IntTruthy(s[3]);
    } else {
      assert !IntTruthy(s[0]) && !IntTruthy(s[1]) && !IntTruthy(s[2]) && !IntTruthy(s[3]) && !IntTruthy(s[4]);
      FirstTruthyChosenLate(o, m);
    }
  }

  /** `FirstTruthyChosen` past the mode option. */
  lemma FirstTruthyChosenLate(o: Options, m: nat)
    requires Seqs.FirstWhere(Seconds(o), IntTruthy) == Some(m) && m >= 5
    requires !IntTruthy(o.queryCount) && !IntTruthy(o.queryMin) && !IntTruthy(o.queryMax)
    requires !IntTruthy(o.queryMean) && !IntTruthy(o.queryMode)
    ensures ChosenAggregate(o) == Some(m)
  {
    var s := Seconds(o);
    assert IntTruthy(s[m]);
    if m == 5 {
    } else if m == 6 {
      assert !IntTruthy(s[5]);
    } else if m == 7 {
      assert !IntTruthy(s[5]) && !IntTruthy(s[6]);
    } else if m == 8 {
      assert !IntTruthy(s[5]) && !IntTruthy(s[6]) && !IntTruthy(s[7]);
    } else {
      assert !IntTruthy(s[5]) && !IntTruthy(s[6]) && !IntTruthy(s[7]) && !IntTruthy(s[8]);
    }
  }

  /**
   * The query `_buildInfluxDBQuery` leaves in `query_string`: the custom
   * query, else the select statement for the first truthy seconds option,
   * else None.  Formatting the series raises AttributeError when it was
   * never assigned.
   */
  function SelectedQuery(o: Options, series: Attr): (r: Result<Attr>)
    ensures Truthy(o.queryCustom) ==> r == Ok(o.queryCustom)
    ensures r == Ok(None) <==> !Truthy(o.queryCustom) && forall k :: 0 <= k < |Seconds(o)| ==> !IntTruthy(Seconds(o)[k])
    ensures r.Err? ==> r.error == AttributeError && series.None? && !Truthy(o.queryCustom)
  {
    ChosenIsFirstTruthy(o);
    if Truthy(o.queryCustom) then Ok(o.queryCustom)
    else
      match ChosenAggregate(o)
      case None => Ok(None)
      case Some(k) =>
        if series.None? then Err(AttributeError)
        else Ok(Some(InfluxQuery.Select(AGGREGATES[k], series.value, Seconds(o)[k].value)))
  }

  /** No aggregate name contains the parenthesis that ends it in a statement. */
  lemma AggregateNamesPlain(k: nat)
    requires k < |AGGREGATES|
    ensures '(' !in AGGREGATES[k]
  {
    if k < 5 {
      assert k == 0 || k == 1 || k == 2 || k == 3 || k == 4;
    } else {
      assert k == 5 || k == 6 || k == 7 || k == 8 || k == 9;
    }
  }

  /** An aggregate query reads back as the first truthy aggregate, the series and its seconds. */
  lemma SelectedQueryReadsBack(o: Options, series: string, k: nat)
    requires !Truthy(o.queryCustom) && Seqs.FirstWhere(Seconds(o), IntTruthy) == Some(k)
    ensures k < |AGGREGATES| && Seconds(o)[k].Some?
    ensures SelectedQuery(o, Some(series)).Ok? && SelectedQuery(o, Some(series)).value.Some?
    ensures InfluxQuery.ParseSelect(SelectedQuery(o, Some(series)).value.value)
         == Some((AGGREGATES[k], series, Seconds(o)[k].value))
  {
    ChosenIsFirstTruthy(o);
    AggregateNamesPlain(k);
    InfluxQuery.ParseSelectRoundTrip(AGGREGATES[k], series, Seconds(o)[k].value);
  }

  /**
   * The exit code of `_compareQueryToThresholds` for the value read.
   * Comparisons include the threshold itself, and a warning of 0.0 counts
   * as no warning.
   */
  function ThresholdCode(lessThan: bool, warning: Option<real>, critical: Option<real>, current: real): (code: int)
    ensures code in {EXIT_OK, EXIT_WARNING, EXIT_CRITICAL}
  {
    if !lessThan then
      if RealTruthy(warning) then
        if PyLe(critical, current) then EXIT_CRITICAL
        else if warning.value < current && PyGe(critical, current) then EXIT_WARNING
        else EXIT_OK
      else if PyLe(critical, current) then EXIT_CRITICAL
      else EXIT_OK
    else
      if RealTruthy(warning) then
        if PyGe(critical, current) then EXIT_CRITICAL
        else if warning.value > current && PyLe(critical, current) then EXIT_WARNING
        else EXIT_OK
      else if PyGe(critical, current) then EXIT_CRITICAL
      else EXIT_OK
  }

  /** Greater-than mode with a warning: critical at or below the value, warning below it, else passing. */
  lemma GreaterBands(warning: real, critical: real, current: real)
    requires warning != 0.0
    ensures ThresholdCode(false, Some(warning), Some(critical), current) == EXIT_CRITICAL <==> critical <= current
    ensures ThresholdCode(false, Some(warning), Some(critical), current) == EXIT_WARNING <==> warning < current < critical
    ensures ThresholdCode(false, Some(warning), Some(critical), current) == EXIT_OK <==> current < critical && current <= warning
  {
  }

  /**
   * The exit code the `--threshold-warning` help text describes: a value
   * equal to the warning threshold already warns in greater-than mode.
   * This differs from `ThresholdCode` only in that one comparison; the
   * help text says nothing of equality in less-than mode, which is kept.
   */
  function ThresholdCodeDocumented(lessThan: bool, warning: Option<real>, critical: Option<real>, current: real): (code: int)
    ensures code in {EXIT_OK, EXIT_WARNING, EXIT_CRITICAL}
    ensures code != ThresholdCode(lessThan, warning, critical, current) ==>
              !lessThan && RealTruthy(warning) && current == warning.value && code == EXIT_WARNING
  {
    if !lessThan then
      if RealTruthy(warning) then
        if PyLe(critical, current) then EXIT_CRITICAL
        else if warning.value <= current && PyGe(critical, current) then EXIT_WARNING
        else EXIT_OK
      else if PyLe(critical, current) then EXIT_CRITICAL
      else EXIT_OK
    else
      if RealTruthy(warning) then
        if PyGe(critical, current) then EXIT_CRITICAL
        else if warning.value > current && PyLe(critical, current) then EXIT_WARNING
        else EXIT_OK
      else if PyGe(critical, current) then EXIT_CRITICAL
      else EXIT_OK
  }

  /** As documented, the warning band includes the warning threshold. */
  lemma DocumentedGreaterBands(warning: real, critical: real, current: real)
    requires warning != 0.0
    ensures ThresholdCodeDocumented(false, Some(warning), Some(critical), current) == EXIT_CRITICAL <==> critical <= current
    ensures ThresholdCodeDocumented(false, Some(warning), Some(critical), current) == EXIT_WARNING <==> warning <= current < critical
    ensures ThresholdCodeDocumented(false, Some(warning), Some(critical), current) == EXIT_OK <==> current < critical && current < warning
  {
  }

  /**
   * As written, a value equal to a warning threshold below the critical one
   * passes, where the help text promises exit code 1.
   */
  lemma WarningThresholdPasses(warning: real, critical: real)
    requires warning != 0.0 && warning < critical
    ensures ThresholdCode(false, Some(warning), Some(critical), warning) == EXIT_OK
    ensures ThresholdCodeDocumented(false, Some(warning), Some(critical), warning) == EXIT_WARNING
  {
    GreaterBands(warning, critical, warning);
    DocumentedGreaterBands(warning, critical, warning);
  }

  /** Less-than mode with a warning is the mirror image. */
  lemma LessBands(warning: real, critical: real, current: real)
    requires warning != 0.0
    ensures ThresholdCode(true, Some(warning), Some(critical), current) == EXIT_CRITICAL <==> critical >= current
    ensures ThresholdCode(true, Some(warning), Some(critical), current) == EXIT_WARNING <==> critical < current < warning
    ensures ThresholdCode(true, Some(warning), Some(critical), current) == EXIT_OK <==> critical < current && warning <= current
  {
  }

  /** Without a truthy warning only critical and passing remain. */
  lemma WithoutWarning(lessThan: bool, warning: Option<real>, critical: real, current: real)
    requires !RealTruthy(warning)
    ensures ThresholdCode(lessThan, warning, Some(critical), current)
         == if (if lessThan then critical >= current else critical <= current) then EXIT_CRITICAL else EXIT_OK
  {
  }

  function Negated(a: Option<real>): Option<real>
  {
    match a
    case None => None
    case Some(x) => Some(-x)
  }

  /** Less-than mode is greater-than mode on negated thresholds and value. */
  lemma ThresholdMirror(warning: Option<real>, critical: real, current: real)
    ensures ThresholdCode(true, warning, Some(critical), current)
         == ThresholdCode(false, Negated(warning), Some(-critical), -current)
  {
  }

  /**
   * Away from the critical threshold the script and `influxdb.go` agree:
   * a truthy warning is a given Go warning, a falsy one is the sentinel.
   */
  lemma AgreesWithInfluxdb(lessThan: bool, warning: Option<real>, critical: real, current: real, random: real)
    requires critical != random && current != critical
    requires RealTruthy(warning) ==> warning.value != random
    ensures ThresholdCode(lessThan, warning, Some(critical), current)
         == Influxdb.Classify(current, lessThan, if RealTruthy(warning) then warning.value else random, critical, random)
  {
  }

  /** One series of the query answer; `points` is None when the key is missing. */
  datatype SeriesResult = SeriesResult(points: Option<seq<seq<real>>>)

  /** `json_dict[0]["points"][0][1]` on a non-empty answer. */
  function CurrentValue(answer: seq<SeriesResult>): (r: Result<real>)
    requires |answer| > 0
    ensures answer[0].points.None? ==> r == Err(KeyError)
    ensures answer[0].points.Some? ==>
              (r.Ok? <==> |answer[0].points.value| > 0 && |answer[0].points.value[0]| > 1)
    ensures r.Ok? ==> r.value == answer[0].points.value[0][1]
    ensures r.Err? ==> r.error in {KeyError, IndexError}
  {
    match answer[0].points
    case None => Err(KeyError)
    case Some(values) =>
      if |values| == 0 || |values[0]| <= 1 then Err(IndexError) else Ok(values[0][1])
  }

  /** `_messageGenerator` then `sys.exit(code)`: the message reads the series name. */
  function Alert(series: Attr, code: int): (r: Result<()>)
    ensures r.Err?
    ensures r.error == AttributeError <==> series.None?
  {
    if series.None? then Err(AttributeError) else Err(SystemExit(code))
  }

  /** How `_compareQueryToThresholds` ends: it always exits or raises. */
  function Compare(o: Options, series: Attr, answer: seq<SeriesResult>): (r: Result<()>)
    ensures r.Err?
  {
    if |answer| == 0 then Alert(series, EXIT_WARNING)
    else
      match CurrentValue(answer)
      case Err(e) => Err(e)
      case Ok(current) =>
        var code := ThresholdCode(o.thresholdLessThan, o.thresholdWarning, o.thresholdCritical, current);
        if code == EXIT_OK then Err(SystemExit(EXIT_OK)) else Alert(series, code)
  }

  /** `_compareQueryToThresholds` with the series name rendered as "None" when never assigned. */
  function CompareCorrected(o: Options, series: Attr, answer: seq<SeriesResult>): (r: Result<()>)
  {
    if |answer| == 0 then Err(SystemExit(EXIT_WARNING))
    else
      match CurrentValue(answer)
      case Err(e) => Err(e)
      case Ok(current) => Err(SystemExit(ThresholdCode(o.thresholdLessThan, o.thresholdWarning, o.thresholdCritical, current)))
  }

  /** The process status for how the script ended. */
  function ExitStatus(r: Result<()>): int
  {
    match r
    case Ok(_) => 0
    case Err(SystemExit(code)) => code
    case Err(_) => UNCAUGHT_EXIT
  }

  /** Corrected, a value read always ends with its threshold code, and no values with the warning code. */
  lemma CompareCorrectedExits(o: Options, series: Attr, answer: seq<SeriesResult>)
    ensures |answer| == 0 ==> ExitStatus(CompareCorrected(o, series, answer)) == EXIT_WARNING
    ensures |answer| > 0 && CurrentValue(answer).Ok? ==>
              (ExitStatus(CompareCorrected(o, series, answer))
               == ThresholdCode(o.thresholdLessThan, o.thresholdWarning, o.thresholdCritical, CurrentValue(answer).value))
    ensures series.Some? ==> CompareCorrected(o, series, answer) == Compare(o, series, answer)
  {
  }

  /** `InfluxDBQuery.Run` on a fresh object: series, query, request, comparison. */
  function Outcome(o: Options, prior: Attr, client: Attr -> Result<seq<SeriesResult>>): (r: Result<()>)
    ensures r.Err?
  {
    match SeriesAfterCreate(o, prior)
    case Err(e) => Err(e)
    case Ok(series) =>
      match SelectedQuery(o, series)
      case Err(e) => Err(e)
      case Ok(query) =>
        match client(query)
        case Err(_) => Err(SystemExit(EXIT_CRITICAL))
        case Ok(answer) => Compare(o, series, answer)
  }

  /** Some seconds option is truthy. */
  predicate AnyAggregate(o: Options)
  {
    exists k :: 0 <= k < |Seconds(o)| && IntTruthy(Seconds(o)[k])
  }

  /** The checks at the end of `set_cli_parameters`; each failure is `parser.error`. */
  function Validate(o: Options): (r: Result<()>)
    ensures r.Ok? <==>
              && Truthy(o.influxdbIp) && IntTruthy(o.influxdbPort) && Truthy(o.influxdbUser)
              && Truthy(o.influxdbPass) && Truthy(o.influxdbDatabase)
              && (|| Truthy(o.queryFull) || Truthy(o.queryCustom)
                  || (Truthy(o.queryFqdn) && Truthy(o.querySeries))
                  || (Truthy(o.queryHostname) && Truthy(o.queryDomain) && Truthy(o.querySeries)))
              && RealTruthy(o.thresholdCritical)
              && (AnyAggregate(o) || Truthy(o.queryCustom))
    ensures r.Err? ==> r.error == SystemExit(USAGE_EXIT)
  {
    if !(Truthy(o.influxdbIp) && IntTruthy(o.influxdbPort) && Truthy(o.influxdbUser)
         && Truthy(o.influxdbPass) && Truthy(o.influxdbDatabase)) then Err(SystemExit(USAGE_EXIT))
    else if !(Truthy(o.queryFull) || Truthy(o.queryCustom)) && !(Truthy(o.queryFqdn) && Truthy(o.querySeries))
            && !(Truthy(o.queryHostname) && Truthy(o.queryDomain) && Truthy(o.querySeries)) then Err(SystemExit(USAGE_EXIT))
    else if !RealTruthy(o.thresholdCritical) then Err(SystemExit(USAGE_EXIT))
    else if !(AnyAggregate(o) || Truthy(o.queryCustom)) then Err(SystemExit(USAGE_EXIT))
    else Ok(())
  }

  /** The script: validate the options, then run a fresh `InfluxDBQuery`. */
  function Main(o: Options, client: Attr -> Result<seq<SeriesResult>>): (r: Result<()>)
    ensures r.Err?
    ensures Validate(o).Err? ==> r == Validate(o)
    ensures Validate(o).Ok? ==> r == Outcome(o, None, client)
  {
    if Validate(o).Err? then Validate(o) else Outcome(o, None, client)
  }

  /**
   * Validated options that get past `_createSeries` always produce a
   * query: `query_string` is never left None.
   */
  lemma ValidatedQueryIsBuilt(o: Options)
    requires Validate(o).Ok? && SeriesAfterCreate(o, None).Ok?
    ensures SelectedQuery(o, SeriesAfterCreate(o, None).value).Ok?
    ensures SelectedQuery(o, SeriesAfterCreate(o, None).value).value.Some?
  {
    if !Truthy(o.queryCustom) {
      var k :| 0 <= k < |Seconds(o)| && IntTruthy(Seconds(o)[k]);
      assert Seqs.FirstWhere(Seconds(o), IntTruthy).Some?;
    }
  }

  /** The hostname/domain options pass validation but the script then raises KeyError. */
  lemma HostnameOptionsRaise(o: Options, client: Attr -> Result<seq<SeriesResult>>)
    requires Validate(o).Ok?
    requires !Truthy(o.queryFull) && !Truthy(o.queryCustom) && !Truthy(o.queryFqdn)
    ensures Truthy(o.queryHostname) && Truthy(o.queryDomain) && Truthy(o.querySeries)
    ensures Main(o, client) == Err(KeyError)
  {
  }

  /**
   * With a custom query the series name is never assigned, so a check
   * whose value crosses a threshold raises AttributeError while writing
   * its message, and the process exits 1 whatever the threshold code.
   */
  lemma CustomQueryAlertRaises(o: Options, client: Attr -> Result<seq<SeriesResult>>, answer: seq<SeriesResult>)
    requires Validate(o).Ok? && Truthy(o.queryCustom) && client(o.queryCustom) == Ok(answer)
    requires |answer| > 0 && CurrentValue(answer).Ok?
    requires ThresholdCode(o.thresholdLessThan, o.thresholdWarning, o.thresholdCritical, CurrentValue(answer).value) != EXIT_OK
    ensures Main(o, client) == Err(AttributeError)
    ensures ExitStatus(Main(o, client)) == UNCAUGHT_EXIT
  {
    assert SeriesAfterCreate(o, None) == Ok(None);
    assert SelectedQuery(o, None) == Ok(o.queryCustom);
  }

  /** The script's object: options, and the attributes its steps assign. */
  class InfluxDBQuery {
    const options: Options
    /** `self.influx_hostname_series`; None while never assigned. */
    var influxHostnameSeries: Attr
    /** `self.query_string`. */
    var queryString: Attr
    /** `self.query_result`. */
    var queryResult: seq<SeriesResult>

    constructor(options: Options)
      ensures this.options == options
      ensures influxHostnameSeries == None && queryString == None && queryResult == []
    {
      this.options := options;
      influxHostnameSeries := None;
      queryString := None;
      queryResult := [];
    }

    /** `_createSeries`. */
    method CreateSeries() returns (r: Result<()>)
      modifies this`influxHostnameSeries
      ensures SeriesAfterCreate(options, old(influxHostnameSeries)) == (if r.Ok? then Ok(influxHostnameSeries) else Err(r.error))
      ensures r.Err? ==> influxHostnameSeries == old(influxHostnameSeries)
    {
      if Truthy(options.queryCustom) {
      } else if Truthy(options.queryFull) {
        influxHostnameSeries := options.queryFull;
      } else if Truthy(options.queryFqdn) {
        var fqdn := Text.ReplaceChar(options.queryFqdn.value, '.', options.queryReplace);
        influxHostnameSeries := Some(Str(options.queryPrefix) + ("." + (fqdn + ("." + Str(options.querySeries)))));
      } else {
        return Err(KeyError);
      }
      return Ok(());
    }

    /** One aggregate branch of `_buildInfluxDBQuery`. */
    method SelectAggregate(fn: string, seconds: int) returns (r: Result<()>)
      modifies this`queryString
      ensures influxHostnameSeries.None? ==> r == Err(AttributeError) && queryString == old(queryString)
      ensures influxHostnameSeries.Some? ==>
                r == Ok(()) && queryString == Some(InfluxQuery.Select(fn, influxHostnameSeries.value, seconds))
    {
      if influxHostnameSeries.None? {
        return Err(AttributeError);
      }
      queryString := Some(InfluxQuery.Select(fn, influxHostnameSeries.value, seconds));
      return Ok(());
    }

    /** `_buildInfluxDBQuery`: its if/elif chain, which picks the first truthy option. */
    method BuildQuery() returns (r: Result<()>)
      modifies this`queryString
      ensures SelectedQuery(options, influxHostnameSeries) == (if r.Ok? then Ok(queryString) else Err(r.error))
      ensures r.Err? ==> queryString == None
    {
      queryString := None;
      r := Ok(());
      if Truthy(options.queryCustom) {
        queryString := options.queryCustom;
      } else if IntTruthy(options.queryCount) {
        r := SelectAggregate("COUNT", options.queryCount.value);
      } else if IntTruthy(options.queryMin) {
        r := SelectAggregate("MIN", options.queryMin.value);
      } else if IntTruthy(options.queryMax) {
        r := SelectAggregate("MAX", options.queryMax.value);
      } else if IntTruthy(options.queryMean) {
        r := SelectAggregate("MEAN", options.queryMean.value);
      } else if IntTruthy(options.queryMode) {
        r := SelectAggregate("MODE", options.queryMode.value);
      } else if IntTruthy(options.queryMedian) {
        r := SelectAggregate("MEDIAN", options.queryMedian.value);
      } else if IntTruthy(options.queryDerivative) {
        r := SelectAggregate("DERIVATIVE", options.queryDerivative.value);
      } else if IntTruthy(options.querySum) {
        r := SelectAggregate("SUM", options.querySum.value);
      } else if IntTruthy(options.queryStddev) {
        r := SelectAggregate("STDDEV", options.queryStddev.value);
      } else if IntTruthy(options.queryFirst) {
        r := SelectAggregate("FIRST", options.queryFirst.value);
      }
    }

    /** `_runQuery`: a failed request exits critical. */
    method RunQuery(client: Attr -> Result<seq<SeriesResult>>) returns (r: Result<()>)
      modifies this`queryResult
      ensures client(queryString).Err? ==> r == Err(SystemExit(EXIT_CRITICAL)) && queryResult == old(queryResult)
      ensures client(queryString).Ok? ==> r == Ok(()) && queryResult == client(queryString).value
    {
      var answer := client(queryString);
      if answer.Err? {
        return Err(SystemExit(EXIT_CRITICAL));
      }
      queryResult := answer.value;
      return Ok(());
    }

    /** `_messageGenerator` followed by `sys.exit(code)`. */
    method MessageThenExit(code: int) returns (r: Result<()>)
      ensures r == Alert(influxHostnameSeries, code)
    {
      if influxHostnameSeries.None? {
        return Err(AttributeError);
      }
      return Err(SystemExit(code));
    }

    /** `_returnInfluxDBQueryValuesList` and `_compareQueryToThresholds`. */
    method CompareQueryToThresholds() returns (r: Result<()>)
      ensures r == Compare(options, influxHostnameSeries, queryResult)
    {
      if |queryResult| == 0 {
        r := MessageThenExit(EXIT_WARNING);
        return;
      }
      var values := queryResult[0].points;
      if values.None? {
        return Err(KeyError);
      }
      if |values.value| == 0 || |values.value[0]| <= 1 {
        return Err(IndexError);
      }
      var current := values.value[0][1];
      var warning, critical := options.thresholdWarning, options.thresholdCritical;
      if !options.thresholdLessThan {
        if RealTruthy(warning) {
          if PyLe(critical, current) {
            r := MessageThenExit(EXIT_CRITICAL);
            return;
          }
          if warning.value < current && PyGe(critical, current) {
            r := MessageThenExit(EXIT_WARNING);
            return;
          }
          return Err(SystemExit(EXIT_OK));
        } else {
          if PyLe(critical, current) {
            r := MessageThenExit(EXIT_CRITICAL);
            return;
          }
          return Err(SystemExit(EXIT_OK));
        }
      } else {
        if RealTruthy(warning) {
          if PyGe(critical, current) {
            r := MessageThenExit(EXIT_CRITICAL);
            return;
          }
          if warning.value > current && PyLe(critical, current) {
            r := MessageThenExit(EXIT_WARNING);
            return;
          }
          return Err(SystemExit(EXIT_OK));
        } else {
          if PyGe(critical, current) {
            r := MessageThenExit(EXIT_CRITICAL);
            return;
          }
          return Err(SystemExit(EXIT_OK));
        }
      }
    }

    /** `Run`: the four steps, stopping at the first exception or exit. */
    method Run(client: Attr -> Result<seq<SeriesResult>>) returns (r: Result<()>)
      modifies this`influxHostnameSeries, this`queryString, this`queryResult
      ensures r == Outcome(options, old(influxHostnameSeries), client)
    {
      r := CreateSeries();
      if r.Err? {
        return;
      }
      r := BuildQuery();
      if r.Err? {
        return;
      }
      r := RunQuery(client);
      if r.Err? {
        return;
      }
      r := CompareQueryToThresholds();
    }
  }
}
