/**
 * consul-alerting/WatchCheckHandler.py: the legacy change detector.  Its
 * blacklist filter compares the check blacklist against ServiceName and
 * knows no wildcard; its steady-state alert set intersects the current
 * passing set with the prior warning set twice, so a recovery from
 * critical goes unreported; and it writes the prior-state key on every
 * path out of `checkForAlertChanges`.
 */
module LegacyWatchCheckHandler {
  import opened Wrappers
  import opened Health
  import opened ConsulHealthNodeStruct
  import Seqs

  // ---- selection by state ----------------------------------------------

  /** `getHashStateSet`: the identities of the records in the given state. */
  function GetHashStateSet(os: seq<NodeStruct>, state: string): (r: set<Identity>)
    ensures forall x :: x in r <==> exists i :: 0 <= i < |os| && os[i].Status() == Some(state) && os[i].Id() == x
  {
    set o | o in os && o.Status() == Some(state) :: o.Id()
  }

  function StateIs(state: string): NodeStruct -> bool
  {
    (o: NodeStruct) => o.Status() == Some(state)
  }

  /** `getObjectListByState`: the records in the given state, order kept. */
  function GetObjectListByState(os: seq<NodeStruct>, state: string): (r: seq<NodeStruct>)
    ensures forall i :: 0 <= i < |r| ==> r[i].Status() == Some(state) && r[i] in os
    ensures forall o :: o in os && o.Status() == Some(state) ==> o in r
    ensures Seqs.IsSubseq(r, os)
  {
    var r := Seqs.Filter(os, StateIs(state));
    Seqs.FilterIsSubseq(os, StateIs(state));
    assert forall o :: o in os && o.Status() == Some(state) ==> o in r by {
      forall o | o in os && o.Status() == Some(state) ensures o in r {
        Seqs.FilterMembers(os, StateIs(state), o);
      }
    }
    r
  }

  // ---- blacklist filter ------------------------------------------------

  /** `a not in blacklist`: an unset attribute (None) is in no list of strings. */
  predicate NotIn(a: Attr, blacklist: seq<string>)
  {
    a.None? || a.value !in blacklist
  }

  function ServiceNameNotIn(blacklist: seq<string>): NodeStruct -> bool
  {
    (o: NodeStruct) => NotIn(o.Field("ServiceName"), blacklist)
  }

  function NodeNotIn(blacklist: seq<string>): NodeStruct -> bool
  {
    (o: NodeStruct) => NotIn(o.Field("Node"), blacklist)
  }

  /** `filterByBlacklists`: three comprehensions, one after the other. */
  function FilterByBlacklists(os: seq<NodeStruct>, services: seq<string>, checks: seq<string>,
                              nodes: seq<string>): seq<NodeStruct>
  {
    var byServices := Seqs.Filter(os, ServiceNameNotIn(services));
    var byChecks := Seqs.Filter(byServices, ServiceNameNotIn(checks));
    Seqs.Filter(byChecks, NodeNotIn(nodes))
  }

  /** The legacy survival rule: ServiceName against two lists, Node against one. */
  predicate Survives(o: NodeStruct, services: seq<string>, checks: seq<string>, nodes: seq<string>)
  {
    NotIn(o.Field("ServiceName"), services) && NotIn(o.Field("ServiceName"), checks) && NotIn(o.Field("Node"), nodes)
  }

  /** A record is kept iff it survives the three tests; the result keeps input order. */
  lemma FilterByBlacklistsIff(os: seq<NodeStruct>, services: seq<string>, checks: seq<string>,
                              nodes: seq<string>, o: NodeStruct)
    ensures o in FilterByBlacklists(os, services, checks, nodes) <==> o in os && Survives(o, services, checks, nodes)
    ensures Seqs.IsSubseq(FilterByBlacklists(os, services, checks, nodes), os)
  {
    var byServices := Seqs.Filter(os, ServiceNameNotIn(services));
    var byChecks := Seqs.Filter(byServices, ServiceNameNotIn(checks));
    Seqs.FilterMembers(os, ServiceNameNotIn(services), o);
    Seqs.FilterMembers(byServices, ServiceNameNotIn(checks), o);
    Seqs.FilterMembers(byChecks, NodeNotIn(nodes), o);
    Seqs.FilterIsSubseq(os, ServiceNameNotIn(services));
    Seqs.FilterIsSubseq(byServices, ServiceNameNotIn(checks));
    Seqs.FilterIsSubseq(byChecks, NodeNotIn(nodes));
    Seqs.SubseqTransitive(FilterByBlacklists(os, services, checks, nodes), byChecks, byServices);
    Seqs.SubseqTransitive(FilterByBlacklists(os, services, checks, nodes), byServices, os);
  }

  /** The CheckID of a record is never consulted. */
  lemma CheckIdIgnored(o: NodeStruct, services: seq<string>, checks: seq<string>, nodes: seq<string>)
    requires o.Field("CheckID").Some? && o.Field("CheckID").value in checks
    requires o.Field("ServiceName").None? && NotIn(o.Field("Node"), nodes)
    ensures FilterByBlacklists([o], services, checks, nodes) == [o]
  {
    FilterByBlacklistsIff([o], services, checks, nodes, o);
    assert Seqs.Filter([o], ServiceNameNotIn(services)) == [o];
    assert Seqs.Filter([o], ServiceNameNotIn(checks)) == [o];
  }

  /** "*" is an ordinary entry: a blacklist holding only "*" drops no named service. */
  lemma NoWildcard(os: seq<NodeStruct>)
    requires forall i :: 0 <= i < |os| ==> os[i].Field("ServiceName") != Some("*") && os[i].Field("Node") != Some("*")
    ensures FilterByBlacklists(os, ["*"], ["*"], ["*"]) == os
  {
    forall i | 0 <= i < |os| ensures Survives(os[i], ["*"], ["*"], ["*"]) {
    }
    Seqs.FilterAll(os, ServiceNameNotIn(["*"]));
    Seqs.FilterAll(os, NodeNotIn(["*"]));
  }

  // ---- alert detection -------------------------------------------------

  /** The steady-state alert set as written, with the repeated prior-warning operand. */
  function AlertHashSet(current: seq<NodeStruct>, prior: seq<NodeStruct>): set<Identity>
  {
    var curPass := GetHashStateSet(current, PASSING_STATE);
    var curWarn := GetHashStateSet(current, WARNING_STATE);
    var curCrit := GetHashStateSet(current, CRITICAL_STATE);
    var curUnknown := GetHashStateSet(current, UNKNOWN_STATE);
    var priorWarn := GetHashStateSet(prior, WARNING_STATE);
    var priorCrit := GetHashStateSet(prior, CRITICAL_STATE);
    var fromWarningOrCriticalToPass := curPass * priorWarn * priorWarn;
    curUnknown + fromWarningOrCriticalToPass + (curWarn - priorWarn) + (curWarn * priorCrit) + (curCrit - priorCrit)
  }

  function IdIn(s: set<Identity>): NodeStruct -> bool
  {
    (o: NodeStruct) => o.Id() in s
  }

  /** Python truthiness of the raw prior payload `self.health_prior`. */
  predicate PriorPresent(healthPrior: Option<seq<Entry>>)
  {
    healthPrior.Some? && healthPrior.value != []
  }

  /**
   * What `checkForAlertChanges` returns.  The branch is chosen by the raw
   * prior payload, not by the filtered prior list it is given.
   */
  function AlertChanges(current: seq<NodeStruct>, prior: seq<NodeStruct>, healthPrior: Option<seq<Entry>>)
    : Option<seq<NodeStruct>>
  {
    if !PriorPresent(healthPrior) then
      var alerts := GetObjectListByState(current, WARNING_STATE) + GetObjectListByState(current, CRITICAL_STATE);
      if alerts == [] then None else Some(alerts)
    else
      var s := AlertHashSet(current, prior);
      if s == {} then None else Some(Seqs.Filter(current, IdIn(s)))
  }

  /** The legacy reporting rule for one current record. */
  predicate Reportable(o: NodeStruct, prior: seq<NodeStruct>)
  {
    var priorWarn := GetHashStateSet(prior, WARNING_STATE);
    var priorCrit := GetHashStateSet(prior, CRITICAL_STATE);
    || o.Status() == Some(UNKNOWN_STATE)
    || (o.Status() == Some(PASSING_STATE) && o.Id() in priorWarn)
    || (o.Status() == Some(WARNING_STATE) && (o.Id() !in priorWarn || o.Id() in priorCrit))
    || (o.Status() == Some(CRITICAL_STATE) && o.Id() !in priorCrit)
  }

  /** An identity is in the alert set iff some current record with it is reportable. */
  lemma AlertHashSetIff(current: seq<NodeStruct>, prior: seq<NodeStruct>, x: Identity)
    ensures x in AlertHashSet(current, prior) <==> exists i :: 0 <= i < |current| && current[i].Id() == x && Reportable(current[i], prior)
  {
    if x in AlertHashSet(current, prior) {
      AlertHashSetSound(current, prior, x);
    }
  }

  /** Each identity of the alert set comes from a reportable current record. */
  lemma AlertHashSetSound(current: seq<NodeStruct>, prior: seq<NodeStruct>, x: Identity)
    requires x in AlertHashSet(current, prior)
    ensures exists i :: 0 <= i < |current| && current[i].Id() == x && Reportable(current[i], prior)
  {
    var curPass := GetHashStateSet(current, PASSING_STATE);
    var curWarn := GetHashStateSet(current, WARNING_STATE);
    var curCrit := GetHashStateSet(current, CRITICAL_STATE);
    var curUnknown := GetHashStateSet(current, UNKNOWN_STATE);
    var priorWarn := GetHashStateSet(prior, WARNING_STATE);
    var priorCrit := GetHashStateSet(prior, CRITICAL_STATE);
    var state;
    if x in curUnknown {
      state := UNKNOWN_STATE;
    } else if x in curPass * priorWarn * priorWarn {
      state := PASSING_STATE;
    } else if x in curWarn - priorWarn || x in curWarn * priorCrit {
      state := WARNING_STATE;
    } else {
      assert x in curCrit - priorCrit;
      state := CRITICAL_STATE;
    }
    var i :| 0 <= i < |current| && current[i].Status() == Some(state) && current[i].Id() == x;
    assert Reportable(current[i], prior);
  }

  /**
   * Steady state: a current record is reported iff some current record
   * with its identity is reportable; the list keeps current order.
   */
  lemma SteadyStateReported(current: seq<NodeStruct>, prior: seq<NodeStruct>, healthPrior: Option<seq<Entry>>,
                            o: NodeStruct)
    requires PriorPresent(healthPrior) && o in current
    ensures (AlertChanges(current, prior, healthPrior).Some? && o in AlertChanges(current, prior, healthPrior).value)
        <==> exists i :: 0 <= i < |current| && current[i].Id() == o.Id() && Reportable(current[i], prior)
    ensures AlertChanges(current, prior, healthPrior).Some? ==>
              Seqs.IsSubseq(AlertChanges(current, prior, healthPrior).value, current)
  {
    var s := AlertHashSet(current, prior);
    AlertHashSetIff(current, prior, o.Id());
    Seqs.FilterMembers(current, IdIn(s), o);
    Seqs.FilterIsSubseq(current, IdIn(s));
  }

  /**
   * One record seen in two snapshots: reported iff it is unknown now, it
   * recovered from warning, it became warning from anything but warning,
   * or it became critical from anything but critical.
   */
  lemma SingleRecordTransition(now: NodeStruct, before: NodeStruct, healthPrior: Option<seq<Entry>>)
    requires now.Id() == before.Id() && PriorPresent(healthPrior)
    ensures AlertChanges([now], [before], healthPrior).Some? <==>
      || now.Status() == Some(UNKNOWN_STATE)
      || (now.Status() == Some(PASSING_STATE) && before.Status() == Some(WARNING_STATE))
      || (now.Status() == Some(WARNING_STATE) && before.Status() != Some(WARNING_STATE))
      || (now.Status() == Some(CRITICAL_STATE) && before.Status() != Some(CRITICAL_STATE))
    ensures AlertChanges([now], [before], healthPrior).Some? ==> AlertChanges([now], [before], healthPrior).value == [now]
  {
    var priorWarn := GetHashStateSet([before], WARNING_STATE);
    var priorCrit := GetHashStateSet([before], CRITICAL_STATE);
    assert now.Id() in priorWarn <==> before.Status() == Some(WARNING_STATE);
    assert now.Id() in priorCrit <==> before.Status() == Some(CRITICAL_STATE);
    AlertHashSetIff([now], [before], now.Id());
    var s := AlertHashSet([now], [before]);
    if s != {} {
      var x :| x in s;
      AlertHashSetIff([now], [before], x);
    }
  }

  /** A record that was critical and is passing now is not reported. */
  lemma CriticalToPassingSilent(now: NodeStruct, before: NodeStruct, healthPrior: Option<seq<Entry>>)
    requires now.Id() == before.Id() && PriorPresent(healthPrior)
    requires now.Status() == Some(PASSING_STATE) && before.Status() == Some(CRITICAL_STATE)
    ensures AlertChanges([now], [before], healthPrior) == None
  {
    SingleRecordTransition(now, before, healthPrior);
  }

  /** Against an empty prior list, exactly the warning, critical and unknown records are reportable. */
  lemma ReportableAgainstEmpty(o: NodeStruct)
    ensures Reportable(o, []) <==> o.Status() in {Some(WARNING_STATE), Some(CRITICAL_STATE), Some(UNKNOWN_STATE)}
  {
    assert GetHashStateSet([], WARNING_STATE) == {} && GetHashStateSet([], CRITICAL_STATE) == {};
  }

  /**
   * The bootstrap branch follows the raw prior payload: when that payload is
   * present but every prior record was blacklisted away, the steady-state
   * branch reports every current warning, critical and unknown record
   * instead of bootstrapping.
   */
  lemma FilteredAwayPriorReportsProblems(current: seq<NodeStruct>, healthPrior: Option<seq<Entry>>, o: NodeStruct)
    requires PriorPresent(healthPrior) && o in current
    ensures (AlertChanges(current, [], healthPrior).Some? && o in AlertChanges(current, [], healthPrior).value)
        <==> exists i :: 0 <= i < |current| && current[i].Id() == o.Id()
                         && current[i].Status() in {Some(WARNING_STATE), Some(CRITICAL_STATE), Some(UNKNOWN_STATE)}
  {
    SteadyStateReported(current, [], healthPrior, o);
    forall i | 0 <= i < |current|
      ensures Reportable(current[i], []) <==> current[i].Status() in {Some(WARNING_STATE), Some(CRITICAL_STATE), Some(UNKNOWN_STATE)}
    {
      ReportableAgainstEmpty(current[i]);
    }
  }

  /** The bootstrap result: the current warnings followed by the current criticals. */
  lemma BootstrapReportsProblems(current: seq<NodeStruct>, prior: seq<NodeStruct>, healthPrior: Option<seq<Entry>>)
    requires !PriorPresent(healthPrior)
    ensures AlertChanges(current, prior, healthPrior).Some? ==>
      forall o :: o in AlertChanges(current, prior, healthPrior).value <==>
        o in current && o.Status() in {Some(WARNING_STATE), Some(CRITICAL_STATE)}
    ensures AlertChanges(current, prior, healthPrior) != Some([])
  {
  }

  // ---- the handler -----------------------------------------------------

  /** The keys of the KV store the legacy handler reads, each possibly absent. */
  datatype LegacyKv = LegacyKv(
    prior: Option<seq<Entry>>,
    checkTags: Option<TagSource>,
    nodeBlacklist: Option<seq<string>>,
    serviceBlacklist: Option<seq<string>>,
    checkBlacklist: Option<seq<string>>)

  class LegacyHandler {
    var kv: LegacyKv
    var healthCurrent: Option<seq<Entry>>
    var healthCheckTags: Option<TagSource>
    var healthPrior: Option<seq<Entry>>
    var nodeBlacklist: Option<seq<string>>
    var serviceBlacklist: Option<seq<string>>
    var checkBlacklist: Option<seq<string>>

    /** Every field `__getattr__` would read as None starts unset. */
    constructor (kv: LegacyKv)
      ensures this.kv == kv && healthCurrent == None && healthCheckTags == None && healthPrior == None
      ensures nodeBlacklist == None && serviceBlacklist == None && checkBlacklist == None
    {
      this.kv := kv;
      healthCurrent, healthCheckTags, healthPrior := None, None, None;
      nodeBlacklist, serviceBlacklist, checkBlacklist := None, None, None;
    }

    /**
     * `consulAPILookups`: the current health, then the check tags (whose
     * absence raises KeyError), then the prior payload ([] when absent).
     */
    method ConsulAPILookups(state: seq<Entry>) returns (r: Result<()>)
      modifies this`healthCurrent, this`healthCheckTags, this`healthPrior
      ensures healthCurrent == Some(state)
      ensures r.Ok? <==> kv.checkTags.Some?
      ensures r.Err? ==> r.error == KeyError && healthCheckTags == old(healthCheckTags) && healthPrior == old(healthPrior)
      ensures r.Ok? ==> healthCheckTags == kv.checkTags
                        && healthPrior == Some(if kv.prior.Some? then kv.prior.value else [])
    {
      healthCurrent := Some(state);
      if kv.checkTags.None? {
        return Err(KeyError);
      }
      healthCheckTags := kv.checkTags;
      if kv.prior.Some? {
        healthPrior := kv.prior;
      } else {
        healthPrior := Some([]);
      }
      return Ok(());
    }

    /**
     * `alertsBlacklist`: node, service and check blacklists in that order;
     * the first absent key raises KeyError and the later ones are not read.
     */
    method AlertsBlacklist() returns (r: Result<()>)
      modifies this`nodeBlacklist, this`serviceBlacklist, this`checkBlacklist
      ensures r.Ok? <==> kv.nodeBlacklist.Some? && kv.serviceBlacklist.Some? && kv.checkBlacklist.Some?
      ensures r.Err? ==> r.error == KeyError
      ensures kv.nodeBlacklist.Some? ==> nodeBlacklist == kv.nodeBlacklist
      ensures kv.nodeBlacklist.None? ==> nodeBlacklist == old(nodeBlacklist)
      ensures kv.nodeBlacklist.Some? && kv.serviceBlacklist.Some? ==> serviceBlacklist == kv.serviceBlacklist
      ensures !(kv.nodeBlacklist.Some? && kv.serviceBlacklist.Some?) ==> serviceBlacklist == old(serviceBlacklist)
      ensures r.Ok? ==> checkBlacklist == kv.checkBlacklist
      ensures r.Err? ==> checkBlacklist == old(checkBlacklist)
    {
      if kv.nodeBlacklist.None? {
        return Err(KeyError);
      }
      nodeBlacklist := kv.nodeBlacklist;
      if kv.serviceBlacklist.None? {
        return Err(KeyError);
      }
      serviceBlacklist := kv.serviceBlacklist;
      if kv.checkBlacklist.None? {
        return Err(KeyError);
      }
      checkBlacklist := kv.checkBlacklist;
      return Ok(());
    }

    /**
     * `checkForAlertChanges`.  Both branches store the current payload
     * under the prior key, in the body and again in `finally`; the model
     * records the resulting state.
     */
    method CheckForAlertChanges(current: seq<NodeStruct>, prior: seq<NodeStruct>)
      returns (alerts: Option<seq<NodeStruct>>)
      requires healthCurrent.Some?
      modifies this`kv
      ensures alerts == AlertChanges(current, prior, healthPrior)
      ensures kv == old(kv).(prior := healthCurrent)
    {
      if !PriorPresent(healthPrior) {
        var warnings := GetObjectListByState(current, WARNING_STATE);
        var criticals := GetObjectListByState(current, CRITICAL_STATE);
        kv := kv.(prior := healthCurrent);
        var alertList := warnings + criticals;
        if alertList != [] {
          alerts := Some(alertList);
        } else {
          alerts := None;
        }
        kv := kv.(prior := healthCurrent);
        return;
      }
      var alertHashSet := AlertHashSet(current, prior);
      kv := kv.(prior := healthCurrent);
      if alertHashSet != {} {
        alerts := Some(Seqs.Filter(current, IdIn(alertHashSet)));
      } else {
        alerts := None;
      }
      kv := kv.(prior := healthCurrent);
    }
  }
}
