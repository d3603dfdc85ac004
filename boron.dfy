/**
 * utils/boron/boron.go: a command-line check that writes a Telegraf
 * plugin configuration, runs Telegraphite once over it, reads one series
 * value from its output and turns it into an exit code (0 passing,
 * 1 warning or not found, 2 critical or unwritable configuration).
 * Writing the file and running the subprocess are parameters here.
 */
module Boron {
  import opened Wrappers
  import Text
  import Influxdb

  /** `math.MaxFloat64`, the value `executeTeleGraphite` returns with every error. */
  const MAX_FLOAT64: real := 179769313486231570814527423731704356798070567525844996598917476803157260780028538760589558632766878171540458953514382464234321326889464182768467546703537516986049910576551282076245490090389328944075868508455133942304583236903222948165808559332123348274797826204144723168738177180919299881250404026184124858368.0

  const PARAMETER_SEPARATOR: char := '|'

  const CONFIG_EXTENSION: string := ".conf"

  /** `splitParameters`: the plugin parameters, one per '|'-separated piece. */
  function SplitParameters(parameters: string): (r: seq<string>)
    ensures |r| >= 1
    ensures forall i :: 0 <= i < |r| ==> PARAMETER_SEPARATOR !in r[i]
    ensures Text.Join(r, [PARAMETER_SEPARATOR]) == parameters
  {
    Text.JoinSplit(parameters, PARAMETER_SEPARATOR);
    Text.Split(parameters, PARAMETER_SEPARATOR)
  }

  /** A parameter string without a separator is a single parameter. */
  lemma SplitParametersSingle(parameters: string)
    requires PARAMETER_SEPARATOR !in parameters
    ensures SplitParameters(parameters) == [parameters]
  {
    Text.SplitWithout(parameters, PARAMETER_SEPARATOR);
  }

  /** Two parameter strings joined by a separator split into the pieces of each. */
  lemma SplitParametersConcat(first: string, second: string)
    ensures SplitParameters(first + ([PARAMETER_SEPARATOR] + second)) == SplitParameters(first) + SplitParameters(second)
  {
    Text.SplitConcat(first, second, PARAMETER_SEPARATOR);
  }

  /** The temporary configuration file `writeTemplate` creates: the working location, the plugin, ".conf". */
  function ConfigPath(workingLocation: string, plugin: string): string
  {
    workingLocation + (plugin + CONFIG_EXTENSION)
  }

  /** Within one working location, distinct plugins get distinct files. */
  lemma ConfigPathInjective(workingLocation: string, plugin1: string, plugin2: string)
    requires ConfigPath(workingLocation, plugin1) == ConfigPath(workingLocation, plugin2)
    ensures plugin1 == plugin2
  {
    var path := ConfigPath(workingLocation, plugin1);
    assert plugin1 == path[|workingLocation|..|path| - |CONFIG_EXTENSION|];
    assert ConfigPath(workingLocation, plugin2)[|workingLocation|..|path| - |CONFIG_EXTENSION|] == plugin2;
  }

  /** What `thresholdChecker` prints: the missing-threshold error, or a `messageGenerator` line. */
  datatype Report =
    | ThresholdMissing
    | Event(kind: string, threshold: real, current: real, series: string)

  /**
   * `thresholdChecker`: the code and what it reports.  The code is the
   * one `influxdb.go` computes; a passing check reports the warning
   * threshold, which is the sentinel when no warning was given.
   */
  function ThresholdChecker(current: real, series: string, lessThan: bool, warning: real, critical: real, random: real)
    : (r: (int, Report))
    ensures r.0 == Influxdb.Classify(current, lessThan, warning, critical, random)
    ensures r.1 == ThresholdMissing <==> warning == random && critical == random
    ensures r.0 == 2 ==> r.1 == Event("CRITICAL", critical, current, series)
    ensures r.0 == 1 && r.1.Event? ==> r.1 == Event("WARNING", warning, current, series)
    ensures r.0 == 0 ==> r.1 == Event("PASSING", warning, current, series)
  {
    if warning == random && critical == random then (1, ThresholdMissing)
    else if Influxdb.Exceeded(critical, current, lessThan) then (2, Event("CRITICAL", critical, current, series))
    else if warning != random && !Influxdb.Exceeded(critical, current, lessThan) && Influxdb.Exceeded(warning, current, lessThan)
    then (1, Event("WARNING", warning, current, series))
    else (0, Event("PASSING", warning, current, series))
  }

  /** The "not found" rule of `boronMain`: an error, or the MaxFloat64 marker as the value. */
  predicate NotFound(seriesResult: Result<real>)
  {
    seriesResult.Err? || seriesResult.value == MAX_FLOAT64
  }

  /**
   * `boronMain` after flag parsing.  `writeTemplate` says whether the
   * configuration could be written at the given path; `executeTeleGraphite`
   * is the run of Telegraphite over that file.
   */
  function BoronMain(workingLocation: string, plugin: string, series: string,
                     writeTemplate: string -> bool, executeTeleGraphite: string -> Result<real>,
                     lessThan: bool, warning: real, critical: real, random: real): (code: int)
    ensures 0 <= code <= 2
    ensures !writeTemplate(ConfigPath(workingLocation, plugin)) ==> code == 2
    ensures writeTemplate(ConfigPath(workingLocation, plugin)) && NotFound(executeTeleGraphite(ConfigPath(workingLocation, plugin)))
            ==> code == 1
    ensures writeTemplate(ConfigPath(workingLocation, plugin)) && !NotFound(executeTeleGraphite(ConfigPath(workingLocation, plugin)))
            ==> code == Influxdb.Classify(executeTeleGraphite(ConfigPath(workingLocation, plugin)).value,
                                          lessThan, warning, critical, random)
  {
    var config := ConfigPath(workingLocation, plugin);
    if !writeTemplate(config) then 2
    else
      var seriesResult := executeTeleGraphite(config);
      if NotFound(seriesResult) then 1
      else ThresholdChecker(seriesResult.value, series, lessThan, warning, critical, random).0
  }
}
