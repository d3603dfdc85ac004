/**
 * consulalerting/NotificationEngine.py: routes the records an alert run
 * produced to the notification channels their tags name.
 *
 * The engine reads the available plugins and the channel configurations
 * from the KV store, which the model takes as a map from key to the value
 * the KV client returns.  Starting a notifier process is recorded as a
 * `Dispatch` holding the arguments the process is given.  The notifier
 * functions at the end of the file post to every destination; the network
 * is the `send` parameter of the plugins.
 */
module NotificationEngine {
  import opened Wrappers
  import opened Health
  import opened Json
  import Seqs
  import opened ConsulHealthStruct
  import Utilities
  import Plugins

  const KV_ALERTING_AVAILABLE_PLUGINS: string := "alerting/notify/plugins"
  const KV_ALERTING_NOTIFY_HIPCHAT: string := "alerting/notify/hipchat"
  const KV_ALERTING_NOTIFY_SLACK: string := "alerting/notify/slack"
  const KV_ALERTING_NOTIFY_MAILGUN: string := "alerting/notify/mailgun"
  const KV_ALERTING_NOTIFY_EMAIL: string := "alerting/notify/email"
  const KV_ALERTING_NOTIFY_PAGERDUTY: string := "alerting/notify/pagerduty"

  // ---- channels ---------------------------------------------------------------

  datatype Channel = Hipchat | Slack | Mailgun | Email | Pagerduty

  /** The order in which the engine loads and dispatches the channels. */
  const CHANNELS: seq<Channel> := [Hipchat, Slack, Mailgun, Email, Pagerduty]

  /** The tag and plugin name of a channel. */
  function ChannelName(c: Channel): string
  {
    match c
    case Hipchat => "hipchat"
    case Slack => "slack"
    case Mailgun => "mailgun"
    case Email => "email"
    case Pagerduty => "pagerduty"
  }

  /** The KV key holding a channel's configuration. */
  function ChannelKey(c: Channel): string
  {
    match c
    case Hipchat => KV_ALERTING_NOTIFY_HIPCHAT
    case Slack => KV_ALERTING_NOTIFY_SLACK
    case Mailgun => KV_ALERTING_NOTIFY_MAILGUN
    case Email => KV_ALERTING_NOTIFY_EMAIL
    case Pagerduty => KV_ALERTING_NOTIFY_PAGERDUTY
  }

  /** The configuration entry naming a channel's destinations. */
  function DestinationsKey(c: Channel): string
  {
    if c == Hipchat || c == Slack then "rooms" else "teams"
  }

  /** A channel's position in `CHANNELS`. */
  function ChannelIndex(c: Channel): (r: nat)
    ensures r < |CHANNELS| && CHANNELS[r] == c
  {
    match c
    case Hipchat => 0
    case Slack => 1
    case Mailgun => 2
    case Email => 3
    case Pagerduty => 4
  }

  /** Each channel has a name of its own. */
  lemma ChannelNamesDistinct(c: Channel, d: Channel)
    ensures ChannelName(c) == ChannelName(d) <==> c == d
  {
    assert ChannelName(c)[0] == ChannelName(d)[0] ==> c == d;
  }

  // ---- plugins and tags -------------------------------------------------------------

  /**
   * The channel names `set(value)` yields: the strings of a list, the
   * one-character strings of a string, the keys of an object.  A value that
   * is not iterable, or a list holding a list or an object (unhashable),
   * raises TypeError.  Numbers and booleans in a list are dropped: no
   * channel name equals them.
   */
  function PluginSet(j: Json): (r: Result<set<string>>)
    ensures j.JArr? ==> (r.Ok? <==> forall i :: 0 <= i < |j.items| ==> !j.items[i].JArr? && !j.items[i].JObj?)
    ensures j.JArr? && r.Ok? ==> forall s :: s in r.value <==> JStr(s) in j.items
    ensures j.JObj? ==> r == Ok(Keys(j.fields))
    ensures j.JNull? || j.JBool? || j.JNum? ==> r == Err(TypeError)
  {
    match j
    case JArr(items) =>
      if exists i :: 0 <= i < |items| && (items[i].JArr? || items[i].JObj?) then Err(TypeError)
      else
        var names := set i | 0 <= i < |items| && items[i].JStr? :: items[i].s;
        assert forall s :: s in names <==> JStr(s) in items by {
          forall s | JStr(s) in items ensures s in names {
            var i :| 0 <= i < |items| && items[i] == JStr(s);
          }
        }
        Ok(names)
    case JStr(s) => Ok(set i | 0 <= i < |s| :: [s[i]])
    case JObj(fields) => Ok(Keys(fields))
    case _ => Err(TypeError)
  }

  /** `set(kv[KV_ALERTING_AVAILABLE_PLUGINS])`: a missing key raises KeyError. */
  function AvailablePlugins(kv: map<string, Json>): (r: Result<set<string>>)
    ensures KV_ALERTING_AVAILABLE_PLUGINS !in kv ==> r == Err(KeyError)
    ensures KV_ALERTING_AVAILABLE_PLUGINS in kv ==> r == PluginSet(kv[KV_ALERTING_AVAILABLE_PLUGINS])
  {
    if KV_ALERTING_AVAILABLE_PLUGINS in kv then PluginSet(kv[KV_ALERTING_AVAILABLE_PLUGINS]) else Err(KeyError)
  }

  /**
   * `set(tag for obj in alert_list for tag in obj.Tags)`: the union of the
   * records' tags; a record whose Tags is None raises TypeError.
   */
  function UniqueTags(os: seq<HealthStruct>): (r: Result<set<string>>)
    reads os
    ensures r.Ok? <==> forall i :: 0 <= i < |os| ==> os[i].tags.Some?
    ensures r.Ok? ==> forall t :: t in r.value <==> exists i :: 0 <= i < |os| && t in os[i].tags.value
    decreases |os|
  {
    if os == [] then Ok({})
    else
      var n := |os| - 1;
      var front :- UniqueTags(os[..n]);
      match os[n].tags
      case None => Err(TypeError)
      case Some(ts) =>
        var r := front + set t | t in ts;
        assert forall t :: t in r <==> exists i :: 0 <= i < |os| && t in os[i].tags.value by {
          forall t | t in r ensures exists i :: 0 <= i < |os| && t in os[i].tags.value {
            if t !in ts {
              var i :| 0 <= i < n && t in os[..n][i].tags.value;
              assert os[i] == os[..n][i];
            }
          }
          forall t | (exists i :: 0 <= i < |os| && t in os[i].tags.value) ensures t in r {
            var i :| 0 <= i < |os| && t in os[i].tags.value;
            if i < n { assert os[..n][i] == os[i]; }
          }
        }
        Ok(r)
  }

  // ---- loading configurations -----------------------------------------------------------

  /** `load_plugin(ChannelKey(c), DestinationsKey(c))`: the client's value with keys folded. */
  function ChannelLoad(c: Channel, kv: map<string, Json>): Result<Dict>
  {
    Utilities.LoadPlugin(if ChannelKey(c) in kv then Some(kv[ChannelKey(c)]) else None, DestinationsKey(c))
  }

  /** A channel the engine must load whose configuration raises on loading. */
  predicate Fails(c: Channel, toLoad: set<string>, kv: map<string, Json>)
  {
    ChannelName(c) in toLoad && ChannelLoad(c, kv).Err?
  }

  /** The position in `CHANNELS` of the first failing load, or 5 when none fails. */
  function FirstFailing(toLoad: set<string>, kv: map<string, Json>): (r: nat)
    ensures r <= |CHANNELS|
    ensures forall c :: ChannelIndex(c) < r ==> !Fails(c, toLoad, kv)
    ensures r < |CHANNELS| ==> Fails(CHANNELS[r], toLoad, kv)
  {
    if Fails(Hipchat, toLoad, kv) then 0
    else if Fails(Slack, toLoad, kv) then 1
    else if Fails(Mailgun, toLoad, kv) then 2
    else if Fails(Email, toLoad, kv) then 3
    else if Fails(Pagerduty, toLoad, kv) then 4
    else 5
  }

  /**
   * Every loaded configuration has its destinations as an object, as
   * `load_plugin` leaves it; this is what makes `common_notifiers` total.
   */
  predicate WellLoaded(loaded: map<Channel, Dict>)
  {
    forall c :: c in loaded ==> Get(loaded[c], DestinationsKey(c)).Some? && Get(loaded[c], DestinationsKey(c)).value.JObj?
  }

  /**
   * `loaded` is `prior` with the configurations of the channels before
   * position `stop` that the engine must load, and otherwise unchanged.
   */
  predicate LoadedUpTo(prior: map<Channel, Dict>, loaded: map<Channel, Dict>, toLoad: set<string>,
                       kv: map<string, Json>, stop: nat)
  {
    forall c :: if ChannelIndex(c) < stop && ChannelName(c) in toLoad
                then c in loaded && ChannelLoad(c, kv) == Ok(loaded[c])
                else (c in loaded <==> c in prior) && (c in loaded ==> loaded[c] == prior[c])
  }

  /** One more block of `load_plugins_from_tags` extends the loaded prefix by one channel. */
  lemma LoadedStep(prior: map<Channel, Dict>, before: map<Channel, Dict>, after: map<Channel, Dict>,
                   toLoad: set<string>, kv: map<string, Json>, c: Channel)
    requires LoadedUpTo(prior, before, toLoad, kv, ChannelIndex(c))
    requires ChannelName(c) !in toLoad ==> after == before
    requires ChannelName(c) in toLoad ==> ChannelLoad(c, kv).Ok? && after == before[c := ChannelLoad(c, kv).value]
    ensures LoadedUpTo(prior, after, toLoad, kv, ChannelIndex(c) + 1)
  {
    forall d ensures if ChannelIndex(d) < ChannelIndex(c) + 1 && ChannelName(d) in toLoad
                     then d in after && ChannelLoad(d, kv) == Ok(after[d])
                     else (d in after <==> d in prior) && (d in after ==> after[d] == prior[d])
    {
      if d != c {
        assert ChannelIndex(d) != ChannelIndex(c) by { assert CHANNELS[ChannelIndex(d)] == d; }
      }
    }
  }

  /** One `if "<channel>" in configurations_files_to_load` block that does not raise. */
  function LoadStep(c: Channel, toLoad: set<string>, kv: map<string, Json>, before: map<Channel, Dict>): map<Channel, Dict>
  {
    if ChannelName(c) in toLoad && ChannelLoad(c, kv).Ok? then before[c := ChannelLoad(c, kv).value] else before
  }

  /** One block of `load_plugins_from_tags`: it raises, or it loads as `LoadStep` says. */
  function LoadBlock(c: Channel, toLoad: set<string>, kv: map<string, Json>, before: map<Channel, Dict>)
    : (Result<()>, map<Channel, Dict>)
  {
    if Fails(c, toLoad, kv) then (Err(ChannelLoad(c, kv).error), before) else (Ok(()), LoadStep(c, toLoad, kv, before))
  }

  /** The configurations after the blocks of the first `stop` channels of `CHANNELS`. */
  function LoadedPrefix(prior: map<Channel, Dict>, toLoad: set<string>, kv: map<string, Json>, stop: nat): map<Channel, Dict>
    requires stop <= |CHANNELS|
    decreases stop
  {
    if stop == 0 then prior
    else LoadStep(CHANNELS[stop - 1], toLoad, kv, LoadedPrefix(prior, toLoad, kv, stop - 1))
  }

  /**
   * While no block has raised, the blocks load exactly the configurations
   * of the channels to be loaded and leave every other channel as it was.
   */
  lemma {:induction false} LoadedPrefixMeaning(prior: map<Channel, Dict>, toLoad: set<string>, kv: map<string, Json>, stop: nat)
    requires stop <= |CHANNELS|
    requires forall c :: ChannelIndex(c) < stop ==> !Fails(c, toLoad, kv)
    ensures LoadedUpTo(prior, LoadedPrefix(prior, toLoad, kv, stop), toLoad, kv, stop)
    decreases stop
  {
    if stop > 0 {
      var c := CHANNELS[stop - 1];
      assert ChannelIndex(c) == stop - 1;
      LoadedPrefixMeaning(prior, toLoad, kv, stop - 1);
      LoadedStep(prior, LoadedPrefix(prior, toLoad, kv, stop - 1), LoadedPrefix(prior, toLoad, kv, stop), toLoad, kv, c);
    }
  }

  /** Loading keeps every configuration's destinations an object. */
  lemma {:induction false} LoadedPrefixWellLoaded(prior: map<Channel, Dict>, toLoad: set<string>, kv: map<string, Json>, stop: nat)
    requires stop <= |CHANNELS|
    requires WellLoaded(prior)
    ensures WellLoaded(LoadedPrefix(prior, toLoad, kv, stop))
    decreases stop
  {
    if stop > 0 {
      LoadedPrefixWellLoaded(prior, toLoad, kv, stop - 1);
    }
  }

  /**
   * The blocks of `load_plugins_from_tags` from channel `k` on: each loads
   * its configuration when its channel is to be loaded, and the first one
   * that raises ends the run with its error.
   */
  function LoadFrom(k: nat, toLoad: set<string>, kv: map<string, Json>, before: map<Channel, Dict>)
    : (Result<()>, map<Channel, Dict>)
    requires k <= |CHANNELS|
    decreases |CHANNELS| - k
  {
    if k == |CHANNELS| then (Ok(()), before)
    else if Fails(CHANNELS[k], toLoad, kv) then (Err(ChannelLoad(CHANNELS[k], kv).error), before)
    else LoadFrom(k + 1, toLoad, kv, LoadStep(CHANNELS[k], toLoad, kv, before))
  }

  /**
   * What the blocks of `load_plugins_from_tags` are meant to do: stop at
   * the first channel whose configuration raises, with its error, having
   * loaded the configurations of the channels before it.
   */
  function LoadOutcome(toLoad: set<string>, kv: map<string, Json>, prior: map<Channel, Dict>): (Result<()>, map<Channel, Dict>)
  {
    var stop := FirstFailing(toLoad, kv);
    (if stop == |CHANNELS| then Ok(()) else Err(ChannelLoad(CHANNELS[stop], kv).error),
     LoadedPrefix(prior, toLoad, kv, stop))
  }

  /** Running the blocks from any channel before the first failing one gives `LoadOutcome`. */
  lemma {:induction false} LoadFromMeaning(k: nat, toLoad: set<string>, kv: map<string, Json>, prior: map<Channel, Dict>)
    requires k <= |CHANNELS|
    requires forall c :: ChannelIndex(c) < k ==> !Fails(c, toLoad, kv)
    ensures LoadFrom(k, toLoad, kv, LoadedPrefix(prior, toLoad, kv, k)) == LoadOutcome(toLoad, kv, prior)
    decreases |CHANNELS| - k
  {
    var stop := FirstFailing(toLoad, kv);
    assert stop < |CHANNELS| ==> ChannelIndex(CHANNELS[stop]) == stop;
    assert k <= stop;
    if k < |CHANNELS| {
      var c := CHANNELS[k];
      assert ChannelIndex(c) == k;
      if Fails(c, toLoad, kv) {
        assert stop == k;
      } else {
        forall d | ChannelIndex(d) < k + 1 ensures !Fails(d, toLoad, kv) {
          if ChannelIndex(d) == k {
            assert d == CHANNELS[k];
          }
        }
        assert LoadStep(c, toLoad, kv, LoadedPrefix(prior, toLoad, kv, k)) == LoadedPrefix(prior, toLoad, kv, k + 1);
        LoadFromMeaning(k + 1, toLoad, kv, prior);
      }
    }
  }

  /**
   * The blocks of `load_plugins_from_tags` as written.  The pagerduty block
   * reads `NotificationEngine.KV_ALERTING_NOTIFY_PAGERDUTY`, a constant the
   * `Settings` class (consulalerting/Settings.py) does not define, so that
   * block raises AttributeError whenever pagerduty is to be loaded.
   */
  function LoadFromAsWritten(k: nat, toLoad: set<string>, kv: map<string, Json>, before: map<Channel, Dict>)
    : (Result<()>, map<Channel, Dict>)
    requires k <= |CHANNELS|
    decreases |CHANNELS| - k
  {
    if k == |CHANNELS| then (Ok(()), before)
    else if CHANNELS[k] == Pagerduty && ChannelName(Pagerduty) in toLoad then (Err(AttributeError), before)
    else if Fails(CHANNELS[k], toLoad, kv) then (Err(ChannelLoad(CHANNELS[k], kv).error), before)
    else LoadFromAsWritten(k + 1, toLoad, kv, LoadStep(CHANNELS[k], toLoad, kv, before))
  }

  /**
   * As written, the blocks behave as intended except that a run that gets
   * as far as the pagerduty block with pagerduty to be loaded raises
   * AttributeError there, keeping the four configurations before it.
   */
  lemma PagerdutyBlockAsWritten(toLoad: set<string>, kv: map<string, Json>, prior: map<Channel, Dict>)
    ensures LoadFromAsWritten(0, toLoad, kv, prior)
         == if ChannelName(Pagerduty) in toLoad && FirstFailing(toLoad, kv) >= ChannelIndex(Pagerduty)
            then (Err(AttributeError), LoadedPrefix(prior, toLoad, kv, ChannelIndex(Pagerduty)))
            else LoadOutcome(toLoad, kv, prior)
  {
    LoadFromAsWrittenMeaning(0, toLoad, kv, prior);
  }

  lemma {:induction false} LoadFromAsWrittenMeaning(k: nat, toLoad: set<string>, kv: map<string, Json>, prior: map<Channel, Dict>)
    requires k <= ChannelIndex(Pagerduty)
    requires forall c :: ChannelIndex(c) < k ==> !Fails(c, toLoad, kv)
    ensures LoadFromAsWritten(k, toLoad, kv, LoadedPrefix(prior, toLoad, kv, k))
         == if ChannelName(Pagerduty) in toLoad && FirstFailing(toLoad, kv) >= ChannelIndex(Pagerduty)
            then (Err(AttributeError), LoadedPrefix(prior, toLoad, kv, ChannelIndex(Pagerduty)))
            else LoadOutcome(toLoad, kv, prior)
    decreases |CHANNELS| - k
  {
    if k == ChannelIndex(Pagerduty) {
      PagerdutyBlockReached(toLoad, kv, prior);
    } else {
      var c := CHANNELS[k];
      assert ChannelIndex(c) == k;
      if Fails(c, toLoad, kv) {
        assert FirstFailing(toLoad, kv) == k;
      } else {
        forall d | ChannelIndex(d) < k + 1 ensures !Fails(d, toLoad, kv) {
          if ChannelIndex(d) == k {
            assert d == CHANNELS[k];
          }
        }
        assert LoadStep(c, toLoad, kv, LoadedPrefix(prior, toLoad, kv, k)) == LoadedPrefix(prior, toLoad, kv, k + 1);
        LoadFromAsWrittenMeaning(k + 1, toLoad, kv, prior);
      }
    }
  }

  /** The pagerduty block as written, once the four blocks before it have succeeded. */
  lemma PagerdutyBlockReached(toLoad: set<string>, kv: map<string, Json>, prior: map<Channel, Dict>)
    requires forall c :: ChannelIndex(c) < ChannelIndex(Pagerduty) ==> !Fails(c, toLoad, kv)
    ensures LoadFromAsWritten(ChannelIndex(Pagerduty), toLoad, kv, LoadedPrefix(prior, toLoad, kv, ChannelIndex(Pagerduty)))
         == if ChannelName(Pagerduty) in toLoad && FirstFailing(toLoad, kv) >= ChannelIndex(Pagerduty)
            then (Err(AttributeError), LoadedPrefix(prior, toLoad, kv, ChannelIndex(Pagerduty)))
            else LoadOutcome(toLoad, kv, prior)
  {
    var k := ChannelIndex(Pagerduty);
    assert FirstFailing(toLoad, kv) >= k;
    if ChannelName(Pagerduty) !in toLoad {
      assert FirstFailing(toLoad, kv) == |CHANNELS|;
      assert LoadStep(Pagerduty, toLoad, kv, LoadedPrefix(prior, toLoad, kv, k)) == LoadedPrefix(prior, toLoad, kv, k + 1);
    }
  }

  /**
   * The intended outcome of the blocks: success iff no configuration to be
   * loaded raises, otherwise the first failing one's error; the channels
   * before the failing one (all of them on success) are loaded, and every
   * loaded configuration keeps its destinations an object.
   */
  lemma LoadOutcomeMeaning(toLoad: set<string>, kv: map<string, Json>, prior: map<Channel, Dict>)
    ensures var (r, loaded) := LoadOutcome(toLoad, kv, prior);
            var stop := FirstFailing(toLoad, kv);
            && (r.Ok? <==> stop == |CHANNELS|)
            && (stop < |CHANNELS| ==> r == Err(ChannelLoad(CHANNELS[stop], kv).error))
            && LoadedUpTo(prior, loaded, toLoad, kv, stop)
            && (WellLoaded(prior) ==> WellLoaded(loaded))
  {
    var stop := FirstFailing(toLoad, kv);
    LoadedPrefixMeaning(prior, toLoad, kv, stop);
    if WellLoaded(prior) {
      LoadedPrefixWellLoaded(prior, toLoad, kv, stop);
    }
  }

  // ---- routing -----------------------------------------------------------------

  /** The arguments of one notifier process the engine starts. */
  datatype Dispatch = Dispatch(channel: Channel, record: HealthStruct, message: string,
                               destinations: set<string>, config: Dict)

  /**
   * `message_pattern`: a service check names its ServiceName, a system
   * check its CheckID; both give the status, the node and the output.
   */
  function MessagePattern(e: Entry): string
  {
    MessageHead(e) + ": is in a " + Str(GetAttr(e, "Status")) + " state on " + Str(GetAttr(e, "Node"))
    + ". Output from test: " + Str(GetAttr(e, "Output"))
  }

  /** The test `message_pattern` branches on: ServiceName or ServiceID set. */
  predicate IsServiceCheck(e: Entry)
  {
    Truthy(GetAttr(e, "ServiceName")) || Truthy(GetAttr(e, "ServiceID"))
  }

  /** The part of the message that names the check. */
  function MessageHead(e: Entry): string
  {
    if IsServiceCheck(e) then "Service " + Str(GetAttr(e, "ServiceName"))
    else "System Check " + Str(GetAttr(e, "CheckID"))
  }

  /**
   * The variant is chosen by ServiceName or ServiceID being set: the message
   * opens with "Service " and the ServiceName exactly then, otherwise with
   * "System Check " and the CheckID.  The status and the node occur in it,
   * and it ends with the test's output.
   */
  lemma MessagePatternVariants(e: Entry)
    ensures var m := MessagePattern(e);
            var service := Truthy(GetAttr(e, "ServiceName")) || Truthy(GetAttr(e, "ServiceID"));
            var tail := ". Output from test: " + Str(GetAttr(e, "Output"));
            && |m| >= 8 && (m[..8] == "Service " <==> service)
            && (service ==> Text.StartsWith(m, "Service " + Str(GetAttr(e, "ServiceName"))))
            && (!service ==> Text.StartsWith(m, "System Check " + Str(GetAttr(e, "CheckID"))))
            && Text.EndsWith(m, tail)
            && Text.Occurs(Str(GetAttr(e, "Status")), m)
            && Text.Occurs(Str(GetAttr(e, "Node")), m)
  {
    var m := MessagePattern(e);
    var head := MessageHead(e);
    MessageFrame(head, Str(GetAttr(e, "Status")), Str(GetAttr(e, "Node")), Str(GetAttr(e, "Output")));
    MessageHeadVariant(e);
    assert m[..8] == head[..8];
  }

  /** Only the service variant of the head opens with "Service ". */
  lemma MessageHeadVariant(e: Entry)
    ensures |MessageHead(e)| >= 8 && (MessageHead(e)[..8] == "Service " <==> IsServiceCheck(e))
  {
    var head := MessageHead(e);
    if IsServiceCheck(e) {
      assert head[..8] == "Service ";
    } else {
      assert head[1] == 'y' && "Service "[1] == 'e';
    }
  }

  /** The frame of every message: the head first, the output last, status and node inside. */
  lemma MessageFrame(head: string, status: string, node: string, output: string)
    ensures var m := head + ": is in a " + status + " state on " + node + ". Output from test: " + output;
            && Text.StartsWith(m, head) && Text.EndsWith(m, ". Output from test: " + output)
            && Text.Occurs(status, m) && Text.Occurs(node, m)
  {
    var m := head + ": is in a " + status + " state on " + node + ". Output from test: " + output;
    var tail := ". Output from test: " + output;
    assert m == head + (": is in a " + status + " state on " + node + tail);
    assert m == (head + ": is in a " + status + " state on " + node) + tail;
    assert m == (head + ": is in a ") + status + (" state on " + node + tail);
    Text.OccursBetween(head + ": is in a ", status, " state on " + node + tail);
    assert m == (head + ": is in a " + status + " state on ") + node + tail;
    Text.OccursBetween(head + ": is in a " + status + " state on ", node, tail);
  }

  /** The message reads only the six attributes it renders. */
  lemma MessagePatternIgnoresOtherAttributes(e: Entry, k: string, v: string)
    requires k !in {"ServiceName", "ServiceID", "CheckID", "Status", "Node", "Output"}
    ensures MessagePattern(e[k := v]) == MessagePattern(e)
  {
    var f := e[k := v];
    assert GetAttr(f, "ServiceName") == GetAttr(e, "ServiceName");
    assert GetAttr(f, "ServiceID") == GetAttr(e, "ServiceID");
    assert GetAttr(f, "CheckID") == GetAttr(e, "CheckID");
    assert GetAttr(f, "Status") == GetAttr(e, "Status");
    assert GetAttr(f, "Node") == GetAttr(e, "Node");
    assert GetAttr(f, "Output") == GetAttr(e, "Output");
  }

  /**
   * One `if "<channel>" in obj.Tags and self.<channel>` block of
   * `run_notifiers`: a process for a tagged, loaded channel, given the
   * destinations the record shares with the configuration.
   */
  function Route(c: Channel, o: HealthStruct, message: string, tags: seq<string>, loaded: map<Channel, Dict>): seq<Dispatch>
    requires WellLoaded(loaded)
  {
    if ChannelName(c) in tags && c in loaded then
      [Dispatch(c, o, message, Utilities.CommonNotifiers(Some(tags), DestinationsKey(c), loaded[c]).value, loaded[c])]
    else []
  }

  /** The blocks for the channels of `cs`, in that order. */
  function RoutesOver(cs: seq<Channel>, o: HealthStruct, message: string, tags: seq<string>, loaded: map<Channel, Dict>)
    : seq<Dispatch>
    requires WellLoaded(loaded)
  {
    if cs == [] then [] else Route(cs[0], o, message, tags, loaded) + RoutesOver(cs[1..], o, message, tags, loaded)
  }

  /** The processes `run_notifiers` starts for a record with these tags and this message. */
  function Routes(o: HealthStruct, message: string, tags: seq<string>, loaded: map<Channel, Dict>): seq<Dispatch>
    requires WellLoaded(loaded)
  {
    RoutesOver(CHANNELS, o, message, tags, loaded)
  }

  /** `Routes` is the five blocks of `run_notifiers`, one after the other. */
  lemma RoutesUnfold(o: HealthStruct, message: string, tags: seq<string>, loaded: map<Channel, Dict>)
    requires WellLoaded(loaded)
    ensures Routes(o, message, tags, loaded)
         == Route(Hipchat, o, message, tags, loaded) + (Route(Slack, o, message, tags, loaded)
            + (Route(Mailgun, o, message, tags, loaded) + (Route(Email, o, message, tags, loaded)
            + Route(Pagerduty, o, message, tags, loaded))))
  {
    RoutesOverCons(Pagerduty, [], o, message, tags, loaded);
    assert Route(Pagerduty, o, message, tags, loaded) + [] == Route(Pagerduty, o, message, tags, loaded);
    RoutesOverCons(Email, [Pagerduty], o, message, tags, loaded);
    RoutesOverCons(Mailgun, [Email, Pagerduty], o, message, tags, loaded);
    RoutesOverCons(Slack, [Mailgun, Email, Pagerduty], o, message, tags, loaded);
    RoutesOverCons(Hipchat, [Slack, Mailgun, Email, Pagerduty], o, message, tags, loaded);
  }

  /** The blocks for one more channel in front. */
  lemma RoutesOverCons(c: Channel, cs: seq<Channel>, o: HealthStruct, message: string, tags: seq<string>,
                       loaded: map<Channel, Dict>)
    requires WellLoaded(loaded)
    ensures RoutesOver([c] + cs, o, message, tags, loaded) == Route(c, o, message, tags, loaded) + RoutesOver(cs, o, message, tags, loaded)
  {
    assert ([c] + cs)[1..] == cs;
  }

  /** Regrouping the five blocks' processes. */
  lemma DispatchesRegroup(a: seq<Dispatch>, b: seq<Dispatch>, c: seq<Dispatch>, d: seq<Dispatch>, e: seq<Dispatch>)
    ensures (((a + b) + c) + d) + e == a + (b + (c + (d + e)))
  {
    DispatchesAssociate(a, b, c);
    DispatchesAssociate(a + b + c, d, e);
    DispatchesAssociate(a, b, c + (d + e));
    DispatchesAssociate(b, c, d + e);
    DispatchesAssociate(c, d, e);
    DispatchesAssociate(a + b, c, d + e);
  }

  lemma DispatchesAssociate(a: seq<Dispatch>, b: seq<Dispatch>, c: seq<Dispatch>)
    ensures (a + b) + c == a + (b + c)
  {
  }

  /** `d` is the process the block for its channel starts. */
  ghost predicate IsRouted(d: Dispatch, o: HealthStruct, message: string, tags: seq<string>, loaded: map<Channel, Dict>)
    requires WellLoaded(loaded)
  {
    ChannelName(d.channel) in tags && d.channel in loaded && Route(d.channel, o, message, tags, loaded) == [d]
  }

  /** Every process the blocks for `cs` start is one channel's block of `cs`. */
  lemma {:induction false} RoutesOverElements(cs: seq<Channel>, o: HealthStruct, message: string, tags: seq<string>,
                                             loaded: map<Channel, Dict>)
    requires WellLoaded(loaded)
    ensures forall d :: d in RoutesOver(cs, o, message, tags, loaded) ==>
              d.channel in cs && IsRouted(d, o, message, tags, loaded)
    decreases |cs|
  {
    if cs != [] {
      var head := Route(cs[0], o, message, tags, loaded);
      var rest := RoutesOver(cs[1..], o, message, tags, loaded);
      RoutesOverElements(cs[1..], o, message, tags, loaded);
      forall d: Dispatch | d in head + rest ensures d.channel in cs && IsRouted(d, o, message, tags, loaded) {
        if d in rest {
          assert d.channel in cs[1..];
        }
      }
    }
  }

  /** Every tagged and loaded channel of `cs` gets a process. */
  lemma {:induction false} RoutesOverCovers(cs: seq<Channel>, o: HealthStruct, message: string, tags: seq<string>,
                                           loaded: map<Channel, Dict>, c: Channel)
    requires WellLoaded(loaded)
    requires c in cs && ChannelName(c) in tags && c in loaded
    ensures exists d :: d in RoutesOver(cs, o, message, tags, loaded) && d.channel == c
    decreases |cs|
  {
    var head := Route(cs[0], o, message, tags, loaded);
    var rest := RoutesOver(cs[1..], o, message, tags, loaded);
    if c == cs[0] {
      assert head[0] in head + rest;
    } else {
      assert c in cs[1..];
      RoutesOverCovers(cs[1..], o, message, tags, loaded, c);
      var d :| d in rest && d.channel == c;
      assert d in head + rest;
    }
  }

  /** The processes of `rs` come in strictly increasing channel order. */
  predicate ChannelsIncrease(rs: seq<Dispatch>)
  {
    forall i, j :: 0 <= i < j < |rs| ==> ChannelIndex(rs[i].channel) < ChannelIndex(rs[j].channel)
  }

  /** Over channels in increasing order, the processes come in increasing channel order. */
  lemma {:induction false} RoutesOverOrdered(cs: seq<Channel>, o: HealthStruct, message: string, tags: seq<string>,
                                            loaded: map<Channel, Dict>)
    requires WellLoaded(loaded)
    requires forall p, q :: 0 <= p < q < |cs| ==> ChannelIndex(cs[p]) < ChannelIndex(cs[q])
    ensures ChannelsIncrease(RoutesOver(cs, o, message, tags, loaded))
    decreases |cs|
  {
    if cs != [] {
      var head := Route(cs[0], o, message, tags, loaded);
      var rest := RoutesOver(cs[1..], o, message, tags, loaded);
      RoutesOverOrdered(cs[1..], o, message, tags, loaded);
      if head != [] {
        RoutesOverElements(cs[1..], o, message, tags, loaded);
        forall d | d in rest ensures ChannelIndex(cs[0]) < ChannelIndex(d.channel) {
          var q :| 0 <= q < |cs[1..]| && cs[1..][q] == d.channel;
          assert cs[q + 1] == cs[1..][q];
        }
        ConsIncreases(head[0], rest);
        assert head == [head[0]];
      }
    }
  }

  /** A process whose channel precedes all of an increasing sequence's extends it. */
  lemma ConsIncreases(d: Dispatch, rs: seq<Dispatch>)
    requires ChannelsIncrease(rs)
    requires forall e :: e in rs ==> ChannelIndex(d.channel) < ChannelIndex(e.channel)
    ensures ChannelsIncrease([d] + rs)
  {
    var ds := [d] + rs;
    forall i, j | 0 <= i < j < |ds| ensures ChannelIndex(ds[i].channel) < ChannelIndex(ds[j].channel) {
      assert ds[j] == rs[j - 1];
      if i > 0 {
        assert ds[i] == rs[i - 1];
      }
    }
  }

  /**
   * A record is dispatched to a channel iff the channel is among its tags
   * and its configuration is loaded; each process gets the message and
   * exactly the destinations the record shares with the configuration,
   * and the channels come in the engine's order, each at most once.
   */
  lemma RoutesMeaning(o: HealthStruct, message: string, tags: seq<string>, loaded: map<Channel, Dict>)
    requires WellLoaded(loaded)
    ensures var rs := Routes(o, message, tags, loaded);
            && (forall c :: (exists i :: 0 <= i < |rs| && rs[i].channel == c) <==> ChannelName(c) in tags && c in loaded)
            && (forall i :: 0 <= i < |rs| ==>
                  && rs[i].record == o && rs[i].message == message
                  && rs[i].channel in loaded && rs[i].config == loaded[rs[i].channel]
                  && (forall x :: x in rs[i].destinations <==>
                        x in Keys(Get(loaded[rs[i].channel], DestinationsKey(rs[i].channel)).value.fields) && x in tags))
            && (forall i, j :: 0 <= i < j < |rs| ==> ChannelIndex(rs[i].channel) < ChannelIndex(rs[j].channel))
  {
    RoutesChannels(o, message, tags, loaded);
    RoutesFields(o, message, tags, loaded);
    RoutesOverOrdered(CHANNELS, o, message, tags, loaded);
  }

  /** The channels `Routes` dispatches to are the tagged, loaded ones. */
  lemma RoutesChannels(o: HealthStruct, message: string, tags: seq<string>, loaded: map<Channel, Dict>)
    requires WellLoaded(loaded)
    ensures var rs := Routes(o, message, tags, loaded);
            forall c :: (exists i :: 0 <= i < |rs| && rs[i].channel == c) <==> ChannelName(c) in tags && c in loaded
  {
    var rs := Routes(o, message, tags, loaded);
    RoutesOverElements(CHANNELS, o, message, tags, loaded);
    forall c ensures (exists i :: 0 <= i < |rs| && rs[i].channel == c) <==> ChannelName(c) in tags && c in loaded {
      if ChannelName(c) in tags && c in loaded {
        assert CHANNELS[ChannelIndex(c)] == c;
        RoutesOverCovers(CHANNELS, o, message, tags, loaded, c);
      }
      if i :| 0 <= i < |rs| && rs[i].channel == c {
        assert IsRouted(rs[i], o, message, tags, loaded);
      }
    }
  }

  /** Every process `Routes` starts carries the record, the message and its channel's destinations. */
  lemma RoutesFields(o: HealthStruct, message: string, tags: seq<string>, loaded: map<Channel, Dict>)
    requires WellLoaded(loaded)
    ensures var rs := Routes(o, message, tags, loaded);
            forall i :: 0 <= i < |rs| ==>
              && rs[i].record == o && rs[i].message == message
              && rs[i].channel in loaded && rs[i].config == loaded[rs[i].channel]
              && (forall x :: x in rs[i].destinations <==>
                    x in Keys(Get(loaded[rs[i].channel], DestinationsKey(rs[i].channel)).value.fields) && x in tags)
  {
    var rs := Routes(o, message, tags, loaded);
    RoutesOverElements(CHANNELS, o, message, tags, loaded);
    forall i | 0 <= i < |rs|
      ensures && rs[i].record == o && rs[i].message == message
              && rs[i].channel in loaded && rs[i].config == loaded[rs[i].channel]
              && (forall x :: x in rs[i].destinations <==>
                    x in Keys(Get(loaded[rs[i].channel], DestinationsKey(rs[i].channel)).value.fields) && x in tags)
    {
      assert IsRouted(rs[i], o, message, tags, loaded);
    }
  }

  /** The Tags of every record of `os`, once all of them are set. */
  function TagLists(os: seq<HealthStruct>): (ts: seq<seq<string>>)
    reads os
    requires forall i :: 0 <= i < |os| ==> os[i].tags.Some?
    ensures |ts| == |os| && forall i :: 0 <= i < |os| ==> ts[i] == os[i].tags.value
  {
    seq(|os|, i reads os requires 0 <= i < |os| && os[i].tags.Some? => os[i].tags.value)
  }

  /** The processes `Run` starts for the records of `os`, tagged `ts`, record by record. */
  function AllRoutes(os: seq<HealthStruct>, ts: seq<seq<string>>, loaded: map<Channel, Dict>): seq<Dispatch>
    requires |ts| == |os|
    requires WellLoaded(loaded)
    decreases |os|
  {
    if os == [] then []
    else
      var n := |os| - 1;
      AllRoutes(os[..n], ts[..n], loaded) + Routes(os[n], MessagePattern(os[n].entry), ts[n], loaded)
  }

  /** `AllRoutes` over one more record of the list. */
  lemma AllRoutesStep(os: seq<HealthStruct>, ts: seq<seq<string>>, i: nat, loaded: map<Channel, Dict>)
    requires i < |os| == |ts|
    requires WellLoaded(loaded)
    ensures AllRoutes(os[..i + 1], ts[..i + 1], loaded)
         == AllRoutes(os[..i], ts[..i], loaded) + Routes(os[i], MessagePattern(os[i].entry), ts[i], loaded)
  {
    assert os[..i + 1][..i] == os[..i];
    assert ts[..i + 1][..i] == ts[..i];
  }

  /** Every process `Run` starts is one some record's routing asks for. */
  lemma {:induction false} AllRoutesFromRecords(os: seq<HealthStruct>, ts: seq<seq<string>>, loaded: map<Channel, Dict>, k: nat)
    requires |ts| == |os|
    requires WellLoaded(loaded)
    requires k < |AllRoutes(os, ts, loaded)|
    ensures exists i :: 0 <= i < |os| && AllRoutes(os, ts, loaded)[k] in Routes(os[i], MessagePattern(os[i].entry), ts[i], loaded)
    decreases |os|
  {
    var n := |os| - 1;
    var front, fts := os[..n], ts[..n];
    assert forall i :: 0 <= i < |front| ==> front[i] == os[i] && fts[i] == ts[i];
    if k < |AllRoutes(front, fts, loaded)| {
      AllRoutesFromRecords(front, fts, loaded, k);
      var i :| 0 <= i < |front| && AllRoutes(front, fts, loaded)[k] in Routes(front[i], MessagePattern(front[i].entry), fts[i], loaded);
      assert AllRoutes(os, ts, loaded)[k] == AllRoutes(front, fts, loaded)[k];
    } else {
      assert AllRoutes(os, ts, loaded)[k] in Routes(os[n], MessagePattern(os[n].entry), ts[n], loaded);
    }
  }

  // ---- the engine -------------------------------------------------------------------

  class Engine {
    const alertList: seq<HealthStruct>
    /** The KV store, by key, as the KV client returns values. */
    const kv: map<string, Json>
    var availablePlugins: Option<set<string>>
    var uniqueTags: Option<set<string>>
    /** The channel configurations loaded so far; a channel outside the map reads as None. */
    var loaded: map<Channel, Dict>
    /** The notifier processes started so far, in order. */
    var dispatched: seq<Dispatch>

    /** `__init__`; every other attribute reads as None through `__getattr__`. */
    constructor (alertList: seq<HealthStruct>, kv: map<string, Json>)
      ensures this.alertList == alertList && this.kv == kv
      ensures availablePlugins == None && uniqueTags == None && loaded == map[] && dispatched == []
    {
      this.alertList := alertList;
      this.kv := kv;
      availablePlugins := None;
      uniqueTags := None;
      loaded := map[];
      dispatched := [];
    }

    /** `get_available_plugins`: stores and returns the plugin set; errors propagate. */
    method GetAvailablePlugins() returns (r: Result<set<string>>)
      modifies this`availablePlugins
      ensures r == AvailablePlugins(kv)
      ensures r.Ok? ==> availablePlugins == Some(r.value)
      ensures r.Err? ==> availablePlugins == old(availablePlugins)
    {
      r := AvailablePlugins(kv);
      if r.Ok? {
        availablePlugins := Some(r.value);
      }
    }

    /** `get_unique_tags_keys`: stores and returns the union of the records' tags. */
    method GetUniqueTagsKeys() returns (r: Result<set<string>>)
      modifies this`uniqueTags
      ensures r == UniqueTags(alertList)
      ensures r.Ok? ==> uniqueTags == Some(r.value)
      ensures r.Err? ==> uniqueTags == old(uniqueTags)
    {
      r := UniqueTags(alertList);
      if r.Ok? {
        uniqueTags := Some(r.value);
      }
    }

    /**
     * One `if "<channel>" in configurations_files_to_load` block: it loads
     * the channel's configuration when the channel is to be loaded, and
     * raises what `load_plugin` raises.
     */
    method LoadChannel(c: Channel, toLoad: set<string>) returns (r: Result<()>)
      modifies this`loaded
      ensures (r, loaded) == LoadBlock(c, toLoad, kv, old(loaded))
    {
      if ChannelName(c) in toLoad {
        var config := ChannelLoad(c, kv);
        if config.Err? {
          return Err(config.error);
        }
        loaded := loaded[c := config.value];
      }
      return Ok(());
    }

    /**
     * `load_plugins_from_tags`: loads the channels named in both the unique
     * tags and the available plugins, in the engine's channel order, and
     * stops at the first configuration that raises.  Unset unique tags raise
     * AttributeError (`None.intersection`), unset plugins TypeError.
     */
    method LoadPluginsFromTags() returns (r: Result<()>)
      modifies this`loaded
      ensures uniqueTags.None? ==> r == Err(AttributeError) && loaded == old(loaded)
      ensures uniqueTags.Some? && availablePlugins.None? ==> r == Err(TypeError) && loaded == old(loaded)
      ensures uniqueTags.Some? && availablePlugins.Some? ==>
                var toLoad := uniqueTags.value * availablePlugins.value;
                (r, loaded) == LoadOutcome(toLoad, kv, old(loaded))
      ensures uniqueTags.Some? && availablePlugins.Some? ==>
                var toLoad := uniqueTags.value * availablePlugins.value;
                var stop := FirstFailing(toLoad, kv);
                && (r.Ok? <==> stop == |CHANNELS|)
                && (stop < |CHANNELS| ==> r == Err(ChannelLoad(CHANNELS[stop], kv).error))
                && LoadedUpTo(old(loaded), loaded, toLoad, kv, stop)
                && (WellLoaded(old(loaded)) ==> WellLoaded(loaded))
    {
      if uniqueTags.None? {
        return Err(AttributeError);
      }
      if availablePlugins.None? {
        return Err(TypeError);
      }
      var toLoad := uniqueTags.value * availablePlugins.value;
      r := LoadAll(toLoad);
      LoadFromMeaning(0, toLoad, kv, old(loaded));
      LoadOutcomeMeaning(toLoad, kv, old(loaded));
    }

    /** The five blocks of `load_plugins_from_tags`, in the engine's channel order. */
    method LoadAll(toLoad: set<string>) returns (r: Result<()>)
      modifies this`loaded
      ensures (r, loaded) == LoadFrom(0, toLoad, kv, old(loaded))
    {
      ghost var prior := loaded;
      r := LoadChannel(Hipchat, toLoad);
      if r.Err? { return; }
      assert LoadFrom(0, toLoad, kv, prior) == LoadFrom(1, toLoad, kv, loaded);
      r := LoadChannel(Slack, toLoad);
      if r.Err? { return; }
      assert LoadFrom(0, toLoad, kv, prior) == LoadFrom(2, toLoad, kv, loaded);
      r := LoadChannel(Mailgun, toLoad);
      if r.Err? { return; }
      assert LoadFrom(0, toLoad, kv, prior) == LoadFrom(3, toLoad, kv, loaded);
      r := LoadChannel(Email, toLoad);
      if r.Err? { return; }
      assert LoadFrom(0, toLoad, kv, prior) == LoadFrom(4, toLoad, kv, loaded);
      r := LoadChannel(Pagerduty, toLoad);
      if r.Err? { return; }
      assert LoadFrom(0, toLoad, kv, prior) == LoadFrom(5, toLoad, kv, loaded);
    }

    /**
     * `run_notifiers`: starts the record's processes; a record whose Tags
     * is None raises TypeError at the first membership test.
     */
    method RunNotifiers(o: HealthStruct) returns (r: Result<()>)
      requires WellLoaded(loaded)
      modifies this`dispatched
      ensures o.tags.None? ==> r == Err(TypeError) && dispatched == old(dispatched)
      ensures o.tags.Some? ==> r == Ok(()) && dispatched == old(dispatched) + Routes(o, MessagePattern(o.entry), o.tags.value, loaded)
    {
      var message := MessagePattern(o.entry);
      if o.tags.None? {
        return Err(TypeError);
      }
      var tags := o.tags.value;
      var configs := loaded;
      // The five blocks, in order; none of them can raise once the configurations are loaded.
      var started := Route(Hipchat, o, message, tags, configs);
      started := started + Route(Slack, o, message, tags, configs);
      started := started + Route(Mailgun, o, message, tags, configs);
      started := started + Route(Email, o, message, tags, configs);
      started := started + Route(Pagerduty, o, message, tags, configs);
      RoutesUnfold(o, message, tags, configs);
      DispatchesRegroup(Route(Hipchat, o, message, tags, configs), Route(Slack, o, message, tags, configs),
                        Route(Mailgun, o, message, tags, configs), Route(Email, o, message, tags, configs),
                        Route(Pagerduty, o, message, tags, configs));
      dispatched := dispatched + started;
      return Ok(());
    }

    /**
     * The three set-up steps of `run`: plugins, unique tags, configurations.
     * Each error is the first failing step's, and a failed load leaves the
     * prefix of channels before the failing one loaded.
     */
    method SetUp() returns (r: Result<()>)
      modifies this`availablePlugins, this`uniqueTags, this`loaded
      ensures AvailablePlugins(kv).Err? ==> r == Err(AvailablePlugins(kv).error) && loaded == old(loaded)
      ensures AvailablePlugins(kv).Ok? && UniqueTags(alertList).Err? ==>
                r == Err(UniqueTags(alertList).error) && loaded == old(loaded)
      ensures AvailablePlugins(kv).Ok? && UniqueTags(alertList).Ok? ==>
                var toLoad := UniqueTags(alertList).value * AvailablePlugins(kv).value;
                var stop := FirstFailing(toLoad, kv);
                && (r.Ok? <==> stop == |CHANNELS|)
                && (stop < |CHANNELS| ==> r == Err(ChannelLoad(CHANNELS[stop], kv).error))
                && LoadedUpTo(old(loaded), loaded, toLoad, kv, stop)
                && (WellLoaded(old(loaded)) ==> WellLoaded(loaded))
    {
      var plugins := GetAvailablePlugins();
      if plugins.Err? {
        return Err(plugins.error);
      }
      var tags := GetUniqueTagsKeys();
      if tags.Err? {
        return Err(tags.error);
      }
      r := LoadPluginsFromTags();
    }

    /**
     * `Run`: plugins, unique tags, configurations, then every record in
     * turn.  It succeeds iff the three set-up steps do, and then starts
     * exactly the processes the records' routings ask for.
     */
    method Run() returns (r: Result<()>)
      requires WellLoaded(loaded)
      modifies this`availablePlugins, this`uniqueTags, this`loaded, this`dispatched
      ensures r.Ok? <==> AvailablePlugins(kv).Ok? && UniqueTags(alertList).Ok?
                         && FirstFailing(UniqueTags(alertList).value * AvailablePlugins(kv).value, kv) == |CHANNELS|
      ensures r.Err? ==> dispatched == old(dispatched)
      ensures AvailablePlugins(kv).Err? ==> r == Err(AvailablePlugins(kv).error) && loaded == old(loaded)
      ensures AvailablePlugins(kv).Ok? && UniqueTags(alertList).Err? ==>
                r == Err(UniqueTags(alertList).error) && loaded == old(loaded)
      ensures AvailablePlugins(kv).Ok? && UniqueTags(alertList).Ok? ==>
                var toLoad := UniqueTags(alertList).value * AvailablePlugins(kv).value;
                var stop := FirstFailing(toLoad, kv);
                stop < |CHANNELS| ==>
                  r == Err(ChannelLoad(CHANNELS[stop], kv).error) && LoadedUpTo(old(loaded), loaded, toLoad, kv, stop)
      ensures r.Ok? ==>
                var toLoad := UniqueTags(alertList).value * AvailablePlugins(kv).value;
                && WellLoaded(loaded)
                && LoadedUpTo(old(loaded), loaded, toLoad, kv, |CHANNELS|)
                && dispatched == old(dispatched) + AllRoutes(alertList, TagLists(alertList), loaded)
    {
      r := SetUp();
      if r.Err? {
        return;
      }
      ghost var configs := loaded;
      RunAll();
      assert loaded == configs;
    }

    /**
     * `get_available_plugins` as written: both logger calls read
     * `NotificationEngine.logger`, which the `Settings` class does not
     * define, so the method never returns normally.  It stores the plugin
     * set and then raises AttributeError; a TypeError from `set()` becomes
     * AttributeError in its handler; only a missing key raises its own
     * KeyError.
     */
    method GetAvailablePluginsAsWritten() returns (r: Result<set<string>>)
      modifies this`availablePlugins
      ensures r == if AvailablePlugins(kv) == Err(KeyError) then Err(KeyError) else Err(AttributeError)
      ensures AvailablePlugins(kv).Ok? ==> availablePlugins == Some(AvailablePlugins(kv).value)
      ensures AvailablePlugins(kv).Err? ==> availablePlugins == old(availablePlugins)
    {
      var plugins := AvailablePlugins(kv);
      if plugins.Err? {
        if plugins.error == TypeError {
          return Err(AttributeError);
        }
        return Err(plugins.error);
      }
      availablePlugins := Some(plugins.value);
      return Err(AttributeError);
    }

    /**
     * `Run` as written: its first step raises, so no configuration is
     * loaded and no notifier process is started, whatever the KV store and
     * the alert list hold.
     */
    method RunAsWritten() returns (r: Result<()>)
      modifies this`availablePlugins, this`uniqueTags, this`loaded, this`dispatched
      ensures r == if AvailablePlugins(kv) == Err(KeyError) then Err(KeyError) else Err(AttributeError)
      ensures uniqueTags == old(uniqueTags) && loaded == old(loaded) && dispatched == old(dispatched)
    {
      var plugins := GetAvailablePluginsAsWritten();
      return Err(plugins.error);
    }

    /** The loop of `run`: `run_notifiers` for every record of the alert list, in order. */
    method RunAll()
      requires WellLoaded(loaded)
      requires forall i :: 0 <= i < |alertList| ==> alertList[i].tags.Some?
      modifies this`dispatched
      ensures dispatched == old(dispatched) + AllRoutes(alertList, TagLists(alertList), loaded)
    {
      ghost var ts := TagLists(alertList);
      var i := 0;
      while i < |alertList|
        invariant 0 <= i <= |alertList|
        invariant dispatched == old(dispatched) + AllRoutes(alertList[..i], ts[..i], loaded)
      {
        ghost var before := dispatched;
        var _ := RunNotifiers(alertList[i]);
        ghost var step := Routes(alertList[i], MessagePattern(alertList[i].entry), ts[i], loaded);
        assert dispatched == before + step;
        AllRoutesStep(alertList, ts, i, loaded);
        DispatchesAssociate(old(dispatched), AllRoutes(alertList[..i], ts[..i], loaded), step);
        i := i + 1;
      }
      assert alertList[..i] == alertList && ts[..i] == ts;
    }
  }

  /**
   * Where the intended `Run` succeeds and starts a process, the written one
   * raises: with an empty plugin list and one record tagged nothing, every
   * step succeeds.
   */
  lemma RunAsWrittenDiffers(o: HealthStruct)
    requires o.tags == Some([])
    ensures var kv := map[KV_ALERTING_AVAILABLE_PLUGINS := JArr([])];
            && AvailablePlugins(kv) == Ok({}) && UniqueTags([o]) == Ok({})
            && FirstFailing(UniqueTags([o]).value * AvailablePlugins(kv).value, kv) == |CHANNELS|
            && AvailablePlugins(kv) != Err(KeyError)
  {
    var kv := map[KV_ALERTING_AVAILABLE_PLUGINS := JArr([])];
    var plugins := PluginSet(JArr([]));
    assert plugins.Ok?;
    assert forall s :: s !in plugins.value;
    assert plugins.value == {};
    assert AvailablePlugins(kv) == plugins;
    var tags := UniqueTags([o]);
    assert tags.Ok?;
    assert forall t :: t !in tags.value by {
      forall t ensures t !in tags.value {
        assert forall i :: 0 <= i < |[o]| ==> [o][i] == o;
      }
    }
    assert tags.value == {};
    assert forall c :: !Fails(c, {}, kv);
  }

  // ---- the notifiers the processes run ------------------------------------------------------

  /**
   * The loop of the engine's slack, mailgun and pagerduty notifiers: every
   * destination is posted to, in the order the set yields; a non-200
   * status is only logged, a raised error ends the loop.  `sent[i]` holds
   * the requests made for `order[i]`.
   */
  method PostToAll(destinations: set<string>, outcome: string -> (Result<Option<int>>, seq<Plugins.Request>))
    returns (r: Result<()>, sent: seq<seq<Plugins.Request>>, ghost order: seq<string>)
    ensures |sent| == |order|
    ensures forall i :: 0 <= i < |order| ==> order[i] in destinations && sent[i] == outcome(order[i]).1
    ensures forall i, j :: 0 <= i < j < |order| ==> order[i] != order[j]
    ensures r.Ok? ==> Seqs.Enumerates(order, destinations) && forall i :: 0 <= i < |order| ==> outcome(order[i]).0.Ok?
    ensures r.Err? ==>
              && order != [] && outcome(order[|order| - 1]).0 == Err(r.error)
              && forall i :: 0 <= i < |order| - 1 ==> outcome(order[i]).0.Ok?
  {
    order := [];
    sent := [];
    var remaining := destinations;
    while remaining != {}
      invariant remaining <= destinations
      invariant |sent| == |order|
      invariant forall i :: 0 <= i < |order| ==> order[i] in destinations && order[i] !in remaining
      invariant forall i :: 0 <= i < |order| ==> sent[i] == outcome(order[i]).1 && outcome(order[i]).0.Ok?
      invariant forall x :: x in destinations ==> x in remaining || x in order
      invariant forall i, j :: 0 <= i < j < |order| ==> order[i] != order[j]
      decreases |remaining|
    {
      var d :| d in remaining;
      var (result, requests) := outcome(d);
      order := order + [d];
      sent := sent + [requests];
      if result.Err? {
        return Err(result.error), sent, order;
      }
      remaining := remaining - {d};
    }
    return Ok(()), sent, order;
  }

  /**
   * The loop of the engine's notifiers as written: after the first post,
   * both branches of the status check read `NotificationEngine.logger`,
   * which does not exist, so the notifier process ends with AttributeError
   * after at most one destination.
   */
  method PostFirstThenRaise(destinations: set<string>, outcome: string -> (Result<Option<int>>, seq<Plugins.Request>))
    returns (r: Result<()>, sent: seq<seq<Plugins.Request>>, ghost order: seq<string>)
    ensures |sent| == |order| <= 1
    ensures order == [] <==> destinations == {}
    ensures r.Ok? <==> destinations == {}
    ensures order != [] ==>
              && order[0] in destinations && sent[0] == outcome(order[0]).1
              && r == Err(if outcome(order[0]).0.Err? then outcome(order[0]).0.error else AttributeError)
  {
    order := [];
    sent := [];
    if destinations == {} {
      return Ok(()), sent, order;
    }
    var d :| d in destinations;
    var (result, requests) := outcome(d);
    order := [d];
    sent := [requests];
    if result.Err? {
      return Err(result.error), sent, order;
    }
    return Err(AttributeError), sent, order;
  }

  /**
   * The engine's `notify_hipchat`: the style is reassigned in every
   * iteration, and every room gets the request of the record's style (with
   * the retry without verification after an SSL failure).
   */
  method NotifyHipchat(o: HealthStruct, message: string, commonNotifiers: set<string>, config: Dict,
                       send: Plugins.Request -> Plugins.Response)
    returns (r: Result<()>, sent: seq<seq<Plugins.Request>>, ghost order: seq<string>)
    ensures |sent| == |order|
    ensures forall i :: 0 <= i < |order| ==>
              && order[i] in commonNotifiers
              && (var outcome := Plugins.HipchatOutcome(
                    Plugins.HipchatRequest(Plugins.HipchatStyle(o.Status(), Plugins.INITIAL_STYLE), message, order[i], config), send);
                  sent[i] == outcome.1 && (i < |order| - 1 || r.Ok? ==> outcome.0.Ok?))
    ensures forall i, j :: 0 <= i < j < |order| ==> order[i] != order[j]
    ensures r.Ok? ==> Seqs.Enumerates(order, commonNotifiers)
    ensures r.Err? ==>
              && order != []
              && Plugins.HipchatOutcome(Plugins.HipchatRequest(Plugins.HipchatStyle(o.Status(), Plugins.INITIAL_STYLE),
                                                               message, order[|order| - 1], config), send).0 == Err(r.error)
  {
    var style := Plugins.INITIAL_STYLE;
    ghost var target := Plugins.HipchatStyle(o.Status(), Plugins.INITIAL_STYLE);
    order := [];
    sent := [];
    var remaining := commonNotifiers;
    while remaining != {}
      invariant remaining <= commonNotifiers
      invariant style == Plugins.INITIAL_STYLE || style == target
      invariant |sent| == |order|
      invariant forall i :: 0 <= i < |order| ==> order[i] in commonNotifiers && order[i] !in remaining
      invariant forall i :: 0 <= i < |order| ==>
                  var outcome := Plugins.HipchatOutcome(Plugins.HipchatRequest(target, message, order[i], config), send);
                  sent[i] == outcome.1 && outcome.0.Ok?
      invariant forall x :: x in commonNotifiers ==> x in remaining || x in order
      invariant forall i, j :: 0 <= i < j < |order| ==> order[i] != order[j]
      decreases |remaining|
    {
      var room :| room in remaining;
      Plugins.HipchatStyleStable(o.Status(), Plugins.INITIAL_STYLE);
      style := Plugins.HipchatStyle(o.Status(), style);
      var (result, requests) := Plugins.HipchatOutcome(Plugins.HipchatRequest(style, message, room, config), send);
      order := order + [room];
      sent := sent + [requests];
      if result.Err? {
        return Err(result.error), sent, order;
      }
      remaining := remaining - {room};
    }
    return Ok(()), sent, order;
  }

  /** The engine's `notify_slack`: every room is posted to. */
  method NotifySlack(message: string, commonNotifiers: set<string>, config: Dict,
                     send: Plugins.Request -> Plugins.Response)
    returns (r: Result<()>, sent: seq<seq<Plugins.Request>>, ghost order: seq<string>)
    ensures |sent| == |order|
    ensures forall i :: 0 <= i < |order| ==>
              order[i] in commonNotifiers && sent[i] == Plugins.Outcome(Plugins.SlackRequest(message, order[i], config), send).1
    ensures r.Ok? ==> Seqs.Enumerates(order, commonNotifiers)
                      && forall i :: 0 <= i < |order| ==> Plugins.Outcome(Plugins.SlackRequest(message, order[i], config), send).0.Ok?
    ensures r.Err? ==> order != [] && Plugins.Outcome(Plugins.SlackRequest(message, order[|order| - 1], config), send).0 == Err(r.error)
  {
    r, sent, order := PostToAll(commonNotifiers, (room: string) => Plugins.Outcome(Plugins.SlackRequest(message, room, config), send));
  }

  /** The engine's `notify_mailgun`: endpoint and credentials first, then every team. */
  method NotifyMailgun(message: string, commonNotifiers: set<string>, config: Dict,
                       send: Plugins.Request -> Plugins.Response)
    returns (r: Result<()>, sent: seq<seq<Plugins.Request>>, ghost order: seq<string>)
    ensures Plugins.MailgunSetup(config).Err? ==> r == Err(Plugins.MailgunSetup(config).error) && sent == []
    ensures |sent| == |order|
    ensures Plugins.MailgunSetup(config).Ok? ==>
              var (endpoint, token) := Plugins.MailgunSetup(config).value;
              && (forall i :: 0 <= i < |order| ==>
                    order[i] in commonNotifiers
                    && sent[i] == Plugins.Outcome(Plugins.MailgunRequest(endpoint, token, message, order[i], config), send).1)
              && (r.Ok? ==> Seqs.Enumerates(order, commonNotifiers))
              && (r.Err? ==> order != []
                             && Plugins.Outcome(Plugins.MailgunRequest(endpoint, token, message, order[|order| - 1], config), send).0
                                == Err(r.error))
  {
    order := [];
    var setup := Plugins.MailgunSetup(config);
    if setup.Err? {
      return Err(setup.error), [], order;
    }
    var (endpoint, token) := setup.value;
    r, sent, order := PostToAll(commonNotifiers,
                                (team: string) => Plugins.Outcome(Plugins.MailgunRequest(endpoint, token, message, team, config), send));
  }

  /** The engine's `notify_pagerduty`: one event per team. */
  method NotifyPagerduty(o: HealthStruct, message: string, commonNotifiers: set<string>, config: Dict,
                         send: Plugins.Request -> Plugins.Response)
    returns (r: Result<()>, sent: seq<seq<Plugins.Request>>, ghost order: seq<string>)
    ensures |sent| == |order|
    ensures forall i :: 0 <= i < |order| ==>
              order[i] in commonNotifiers && sent[i] == Plugins.Outcome(Plugins.PagerdutyRequest(o, message, order[i], config), send).1
    ensures r.Ok? ==> Seqs.Enumerates(order, commonNotifiers)
    ensures r.Err? ==> order != [] && Plugins.Outcome(Plugins.PagerdutyRequest(o, message, order[|order| - 1], config), send).0 == Err(r.error)
  {
    r, sent, order := PostToAll(commonNotifiers, (team: string) => Plugins.Outcome(Plugins.PagerdutyRequest(o, message, team, config), send));
  }
}
