/**
 * consulalerting/WatchCheckHandler.py: blacklist filtering, detection of
 * status changes between the prior and the current snapshot, tagging of the
 * alerts, and the `Run` sequence that ties them to the KV store.
 */
module WatchCheckHandler {
  import opened Wrappers
  import opened Health
  import Seqs
  import opened ConsulHealthStruct
  import opened Utilities

  /**
   * One blacklist test of `filterByBlacklists`: is the attribute listed, or
   * does the list hold "*"?  An unset blacklist raises TypeError.
   */
  function Listed(a: Attr, blacklist: Option<seq<string>>): (r: Result<bool>)
    ensures r.Err? <==> blacklist.None?
    ensures blacklist.Some? && "*" in blacklist.value ==> r == Ok(true)
    ensures blacklist.Some? && !Truthy(a) ==> r == Ok("*" in blacklist.value)
  {
    match blacklist
    case None => Err(TypeError)
    case Some(bl) => Ok((Truthy(a) && a.value in bl) || "*" in bl)
  }

  /** Whether the loop keeps one record (true), skips it (false), or raises. */
  function Keep(o: HealthStruct, services: Option<seq<string>>, checks: Option<seq<string>>,
                nodes: Option<seq<string>>): Result<bool>
  {
    var byService :- Listed(o.Field("ServiceName"), services);
    if byService then Ok(false)
    else
      var byCheck :- Listed(o.Field("CheckID"), checks);
      if byCheck then Ok(false)
      else
        var byNode :- Listed(o.Field("Node"), nodes);
        Ok(!byNode)
  }

  /** The list `filterByBlacklists` returns, or the TypeError it raises. */
  function Filtered(os: seq<HealthStruct>, services: Option<seq<string>>, checks: Option<seq<string>>,
                    nodes: Option<seq<string>>): Result<seq<HealthStruct>>
  {
    if os == [] then Ok([])
    else
      var keep :- Keep(os[0], services, checks, nodes);
      var rest :- Filtered(os[1..], services, checks, nodes);
      Ok(if keep then [os[0]] + rest else rest)
  }

  /** `acc` followed by the result, or the error. */
  function Prefixed(acc: seq<HealthStruct>, r: Result<seq<HealthStruct>>): Result<seq<HealthStruct>>
  {
    match r
    case Ok(v) => Ok(acc + v)
    case Err(e) => Err(e)
  }

  /** One step of `Filtered` at position `i`. */
  lemma FilteredStep(os: seq<HealthStruct>, i: nat, services: Option<seq<string>>, checks: Option<seq<string>>,
                     nodes: Option<seq<string>>)
    requires i < |os|
    ensures Filtered(os[i..], services, checks, nodes) ==
      match Keep(os[i], services, checks, nodes)
      case Err(e) => Err(e)
      case Ok(keep) =>
        if keep then Prefixed([os[i]], Filtered(os[i + 1..], services, checks, nodes))
        else Filtered(os[i + 1..], services, checks, nodes)
  {
    assert os[i..][0] == os[i] && os[i..][1..] == os[i + 1..];
  }

  lemma PrefixedNil(r: Result<seq<HealthStruct>>)
    ensures Prefixed([], r) == r
  {
    if r.Ok? {
      assert [] + r.value == r.value;
    }
  }

  lemma PrefixedAppend(acc: seq<HealthStruct>, o: HealthStruct, r: Result<seq<HealthStruct>>)
    ensures Prefixed(acc, Prefixed([o], r)) == Prefixed(acc + [o], r)
  {
    if r.Ok? {
      assert acc + ([o] + r.value) == (acc + [o]) + r.value;
    }
  }

  /** The survival condition when all three blacklists are set, on the health-API object. */
  predicate EntrySurvives(e: Entry, services: seq<string>, checks: seq<string>, nodes: seq<string>)
  {
    && !(Truthy(GetAttr(e, "ServiceName")) && GetAttr(e, "ServiceName").value in services)
    && !(Truthy(GetAttr(e, "CheckID")) && GetAttr(e, "CheckID").value in checks)
    && !(Truthy(GetAttr(e, "Node")) && GetAttr(e, "Node").value in nodes)
    && "*" !in services && "*" !in checks && "*" !in nodes
  }

  /** The same condition on a record. */
  predicate Survives(o: HealthStruct, services: seq<string>, checks: seq<string>, nodes: seq<string>)
  {
    EntrySurvives(o.entry, services, checks, nodes)
  }

  function SurvivesAll(services: seq<string>, checks: seq<string>, nodes: seq<string>): HealthStruct -> bool
  {
    (o: HealthStruct) => Survives(o, services, checks, nodes)
  }

  /** With every blacklist set, the filter keeps exactly the surviving records, in order. */
  lemma {:induction false} FilteredSelectsSurvivors(os: seq<HealthStruct>, services: seq<string>,
                                                    checks: seq<string>, nodes: seq<string>)
    ensures Filtered(os, Some(services), Some(checks), Some(nodes))
         == Ok(Seqs.Filter(os, SurvivesAll(services, checks, nodes)))
  {
    if os != [] {
      FilteredSelectsSurvivors(os[1..], services, checks, nodes);
      assert Keep(os[0], Some(services), Some(checks), Some(nodes)) == Ok(Survives(os[0], services, checks, nodes));
      var rest := Seqs.Filter(os[1..], SurvivesAll(services, checks, nodes));
      if !Survives(os[0], services, checks, nodes) {
        assert [] + rest == rest;
      }
    }
  }

  /** The health-API objects the records were built from, in order. */
  function Entries(os: seq<HealthStruct>): (es: seq<Entry>)
    ensures |es| == |os| && forall i :: 0 <= i < |os| ==> es[i] == os[i].entry
  {
    seq(|os|, i requires 0 <= i < |os| => os[i].entry)
  }

  /** The objects of a snapshot that no blacklist removes, in snapshot order. */
  function SurvivingEntries(es: seq<Entry>, services: seq<string>, checks: seq<string>, nodes: seq<string>): seq<Entry>
  {
    Seqs.Filter(es, (e: Entry) => EntrySurvives(e, services, checks, nodes))
  }

  /** Filtering records keeps exactly the records of the surviving objects, in order. */
  lemma {:induction false} EntriesOfSurvivors(os: seq<HealthStruct>, services: seq<string>,
                                              checks: seq<string>, nodes: seq<string>)
    ensures Entries(Seqs.Filter(os, SurvivesAll(services, checks, nodes)))
         == SurvivingEntries(Entries(os), services, checks, nodes)
  {
    if os != [] {
      var head := if Survives(os[0], services, checks, nodes) then [os[0]] else [];
      var rest := Seqs.Filter(os[1..], SurvivesAll(services, checks, nodes));
      var es := Entries(os);
      assert es[0] == os[0].entry && es[1..] == Entries(os[1..]);
      calc {
        Entries(Seqs.Filter(os, SurvivesAll(services, checks, nodes)));
        Entries(head + rest);
        { EntriesAppend(head, rest); }
        Entries(head) + Entries(rest);
        { EntriesOfSurvivors(os[1..], services, checks, nodes); }
        Entries(head) + SurvivingEntries(es[1..], services, checks, nodes);
        { assert Entries(head) == if EntrySurvives(es[0], services, checks, nodes) then [es[0]] else []; }
        SurvivingEntries(es, services, checks, nodes);
      }
    }
  }

  lemma EntriesAppend(a: seq<HealthStruct>, b: seq<HealthStruct>)
    ensures Entries(a + b) == Entries(a) + Entries(b)
  {
  }

  /** Whatever the blacklists, a filtered list is a subsequence of the input's objects. */
  lemma {:induction false} FilteredIsSubseq(os: seq<HealthStruct>, services: Option<seq<string>>,
                                            checks: Option<seq<string>>, nodes: Option<seq<string>>)
    requires Filtered(os, services, checks, nodes).Ok?
    ensures Seqs.IsSubseq(Filtered(os, services, checks, nodes).value, os)
  {
    if os != [] {
      FilteredIsSubseq(os[1..], services, checks, nodes);
      var r := Filtered(os, services, checks, nodes).value;
      var rest := Filtered(os[1..], services, checks, nodes).value;
      if Keep(os[0], services, checks, nodes).value {
        assert r == [os[0]] + rest;
        assert r[0] == os[0] && r[1..] == rest;
      }
    }
  }

  /** A "*" service entry empties the list, whether or not the other lists are set. */
  lemma {:induction false} ServiceWildcardEmpties(os: seq<HealthStruct>, services: seq<string>,
                                                  checks: Option<seq<string>>, nodes: Option<seq<string>>)
    requires "*" in services
    ensures Filtered(os, Some(services), checks, nodes) == Ok([])
  {
    if os != [] {
      ServiceWildcardEmpties(os[1..], services, checks, nodes);
    }
  }

  /** A "*" in any one of the three set blacklists empties the list. */
  lemma WildcardEmpties(os: seq<HealthStruct>, services: seq<string>, checks: seq<string>, nodes: seq<string>)
    requires "*" in services || "*" in checks || "*" in nodes
    ensures Filtered(os, Some(services), Some(checks), Some(nodes)) == Ok([])
  {
    FilteredSelectsSurvivors(os, services, checks, nodes);
    Seqs.FilterNone(os, SurvivesAll(services, checks, nodes));
  }

  /** On a non-empty list an unset service blacklist raises TypeError. */
  lemma UnsetServiceBlacklistRaises(os: seq<HealthStruct>, checks: Option<seq<string>>, nodes: Option<seq<string>>)
    requires os != []
    ensures Filtered(os, None, checks, nodes) == Err(TypeError)
  {
  }

  // ---- alert detection -------------------------------------------------

  /** The bootstrap result: warnings followed by criticals, or None. */
  function BootstrapAlerts(current: seq<HealthStruct>): Option<seq<HealthStruct>>
  {
    var alerts := GetObjectListByState(current, WARNING_STATE) + GetObjectListByState(current, CRITICAL_STATE);
    if alerts == [] then None else Some(alerts)
  }

  /** The identities the steady-state branch reports (`alert_hash_set`). */
  function AlertHashSet(current: seq<HealthStruct>, prior: seq<HealthStruct>): set<Identity>
  {
    var curPass := GetHashStateSet(current, PASSING_STATE);
    var curWarn := GetHashStateSet(current, WARNING_STATE);
    var curCrit := GetHashStateSet(current, CRITICAL_STATE);
    var curUnknown := GetHashStateSet(current, UNKNOWN_STATE);
    var priorWarn := GetHashStateSet(prior, WARNING_STATE);
    var priorCrit := GetHashStateSet(prior, CRITICAL_STATE);
    curUnknown + (curPass * priorCrit) + (curPass * priorWarn) + (curWarn - priorWarn)
      + (curWarn * priorCrit) + (curCrit - priorCrit)
  }

  function IdIn(s: set<Identity>): HealthStruct -> bool
  {
    (o: HealthStruct) => o.Id() in s
  }

  /** What `checkForAlertChanges` returns. */
  function AlertChanges(current: seq<HealthStruct>, prior: seq<HealthStruct>): Option<seq<HealthStruct>>
  {
    if prior == [] then BootstrapAlerts(current)
    else
      var s := AlertHashSet(current, prior);
      if s == {} then None else Some(Seqs.Filter(current, IdIn(s)))
  }

  /** The reporting rule for one current record against the prior snapshot. */
  predicate Reportable(o: HealthStruct, prior: seq<HealthStruct>)
  {
    var priorWarn := GetHashStateSet(prior, WARNING_STATE);
    var priorCrit := GetHashStateSet(prior, CRITICAL_STATE);
    || o.Status() == Some(UNKNOWN_STATE)
    || (o.Status() == Some(PASSING_STATE) && (o.Id() in priorCrit || o.Id() in priorWarn))
    || (o.Status() == Some(WARNING_STATE) && (o.Id() !in priorWarn || o.Id() in priorCrit))
    || (o.Status() == Some(CRITICAL_STATE) && o.Id() !in priorCrit)
  }

  /** No two records of the list share an identity. */
  predicate UniqueIds(os: seq<HealthStruct>)
  {
    forall i, j :: 0 <= i < |os| && 0 <= j < |os| && os[i].Id() == os[j].Id() ==> i == j
  }

  /** An identity is in the alert set iff some current record with it is reportable. */
  lemma AlertHashSetIff(current: seq<HealthStruct>, prior: seq<HealthStruct>, x: Identity)
    ensures x in AlertHashSet(current, prior) <==> exists i :: 0 <= i < |current| && current[i].Id() == x && Reportable(current[i], prior)
  {
    if x in AlertHashSet(current, prior) {
      AlertHashSetSound(current, prior, x);
    }
  }

  /** Each identity of the alert set comes from a reportable current record. */
  lemma AlertHashSetSound(current: seq<HealthStruct>, prior: seq<HealthStruct>, x: Identity)
    requires x in AlertHashSet(current, prior)
    ensures exists i :: 0 <= i < |current| && current[i].Id() == x && Reportable(current[i], prior)
  {
    var curPass := GetHashStateSet(current, PASSING_STATE);
    var curWarn := GetHashStateSet(current, WARNING_STATE);
    var curCrit := GetHashStateSet(current, CRITICAL_STATE);
    var curUnknown := GetHashStateSet(current, UNKNOWN_STATE);
    var priorWarn := GetHashStateSet(prior, WARNING_STATE);
    var priorCrit := GetHashStateSet(prior, CRITICAL_STATE);
    var state;
    if x in curUnknown {
      state := UNKNOWN_STATE;
    } else if x in curPass * priorCrit || x in curPass * priorWarn {
      state := PASSING_STATE;
    } else if x in curWarn - priorWarn || x in curWarn * priorCrit {
      state := WARNING_STATE;
    } else {
      assert x in curCrit - priorCrit;
      state := CRITICAL_STATE;
    }
    var i :| 0 <= i < |current| && current[i].Status() == Some(state) && current[i].Id() == x;
    assert Reportable(current[i], prior);
  }

  /**
   * Steady state: a current record is reported iff some current record with
   * its identity (itself, when identities are unique) is reportable.
   */
  lemma SteadyStateReported(current: seq<HealthStruct>, prior: seq<HealthStruct>, o: HealthStruct)
    requires prior != [] && o in current
    ensures (AlertChanges(current, prior).Some? && o in AlertChanges(current, prior).value)
        <==> exists i :: 0 <= i < |current| && current[i].Id() == o.Id() && Reportable(current[i], prior)
  {
    var s := AlertHashSet(current, prior);
    AlertHashSetIff(current, prior, o.Id());
    Seqs.FilterMembers(current, IdIn(s), o);
  }

  lemma SteadyStateReportedUnique(current: seq<HealthStruct>, prior: seq<HealthStruct>, k: nat)
    requires prior != [] && k < |current| && UniqueIds(current)
    ensures (AlertChanges(current, prior).Some? && current[k] in AlertChanges(current, prior).value)
        <==> Reportable(current[k], prior)
  {
    SteadyStateReported(current, prior, current[k]);
  }

  /** Steady state: the alerts are current records, in current order. */
  lemma SteadyStateKeepsOrder(current: seq<HealthStruct>, prior: seq<HealthStruct>)
    requires prior != [] && AlertChanges(current, prior).Some?
    ensures Seqs.IsSubseq(AlertChanges(current, prior).value, current)
  {
    Seqs.FilterIsSubseq(current, IdIn(AlertHashSet(current, prior)));
  }

  /** Every reported record is one of the current records. */
  lemma AlertsDrawnFromCurrent(current: seq<HealthStruct>, prior: seq<HealthStruct>)
    ensures AlertChanges(current, prior).Some? ==> forall o :: o in AlertChanges(current, prior).value ==> o in current
  {
  }

  /** Either no alert, or a non-empty list: never an empty list. */
  lemma AlertsNeverEmptyList(current: seq<HealthStruct>, prior: seq<HealthStruct>)
    ensures AlertChanges(current, prior) != Some([])
  {
    if prior != [] {
      var s := AlertHashSet(current, prior);
      if s != {} {
        var x :| x in s;
        AlertHashSetIff(current, prior, x);
        var i :| 0 <= i < |current| && current[i].Id() == x && Reportable(current[i], prior);
        Seqs.FilterMembers(current, IdIn(s), current[i]);
      }
    }
  }

  /**
   * Bootstrap: warnings then criticals, or None; passing and unknown
   * records are never returned.
   */
  lemma BootstrapReportsProblems(current: seq<HealthStruct>)
    ensures AlertChanges(current, []).Some? <==>
      exists i :: 0 <= i < |current| && current[i].Status() in {Some(WARNING_STATE), Some(CRITICAL_STATE)}
    ensures AlertChanges(current, []).Some? ==>
      AlertChanges(current, []).value
        == GetObjectListByState(current, WARNING_STATE) + GetObjectListByState(current, CRITICAL_STATE)
    ensures AlertChanges(current, []).Some? ==>
      forall o :: o in AlertChanges(current, []).value <==> o in current && o.Status() in {Some(WARNING_STATE), Some(CRITICAL_STATE)}
  {
    var w := GetObjectListByState(current, WARNING_STATE);
    var c := GetObjectListByState(current, CRITICAL_STATE);
    forall o | o in w + c ensures o in current && o.Status() in {Some(WARNING_STATE), Some(CRITICAL_STATE)} {
      Seqs.FilterMembers(current, StateIs(WARNING_STATE), o);
      Seqs.FilterMembers(current, StateIs(CRITICAL_STATE), o);
    }
  }

  /**
   * Detection over an unchanged snapshot: when the prior snapshot has the
   * same warning and critical identities as the current one, only unknown
   * records are reported.
   */
  lemma UnchangedReportsOnlyUnknown(current: seq<HealthStruct>, prior: seq<HealthStruct>)
    requires prior != [] && UniqueIds(current)
    requires GetHashStateSet(prior, WARNING_STATE) == GetHashStateSet(current, WARNING_STATE)
    requires GetHashStateSet(prior, CRITICAL_STATE) == GetHashStateSet(current, CRITICAL_STATE)
    ensures AlertChanges(current, prior) ==
      var unknown := GetObjectListByState(current, UNKNOWN_STATE);
      if unknown == [] then None else Some(unknown)
  {
    var s := AlertHashSet(current, prior);
    var unknown := GetObjectListByState(current, UNKNOWN_STATE);
    forall i | 0 <= i < |current| ensures IdIn(s)(current[i]) == StateIs(UNKNOWN_STATE)(current[i]) {
      UnchangedRecordReported(current, prior, i);
    }
    Seqs.FilterCongruent(current, IdIn(s), StateIs(UNKNOWN_STATE));
    assert Seqs.Filter(current, IdIn(s)) == unknown;
    if s == {} {
      Seqs.FilterNone(current, IdIn(s));
    } else {
      var x :| x in s;
      AlertHashSetIff(current, prior, x);
      var i :| 0 <= i < |current| && current[i].Id() == x && Reportable(current[i], prior);
      assert IdIn(s)(current[i]);
      assert current[i] in unknown;
    }
  }

  /** `UnchangedReportsOnlyUnknown` for the record at `i`. */
  lemma UnchangedRecordReported(current: seq<HealthStruct>, prior: seq<HealthStruct>, i: nat)
    requires i < |current| && UniqueIds(current)
    requires GetHashStateSet(prior, WARNING_STATE) == GetHashStateSet(current, WARNING_STATE)
    requires GetHashStateSet(prior, CRITICAL_STATE) == GetHashStateSet(current, CRITICAL_STATE)
    ensures current[i].Id() in AlertHashSet(current, prior) <==> current[i].Status() == Some(UNKNOWN_STATE)
  {
    var x := current[i].Id();
    AlertHashSetIff(current, prior, x);
    if current[i].Status() == Some(UNKNOWN_STATE) {
      assert Reportable(current[i], prior);
    } else if x in AlertHashSet(current, prior) {
      var j :| 0 <= j < |current| && current[j].Id() == x && Reportable(current[j], prior);
      assert j == i;
      UnchangedRecordNotReportable(current, prior, i);
    }
  }

  /** Against an unchanged snapshot a record that is not unknown is not reportable. */
  lemma UnchangedRecordNotReportable(current: seq<HealthStruct>, prior: seq<HealthStruct>, i: nat)
    requires i < |current| && UniqueIds(current) && current[i].Status() != Some(UNKNOWN_STATE)
    requires GetHashStateSet(prior, WARNING_STATE) == GetHashStateSet(current, WARNING_STATE)
    requires GetHashStateSet(prior, CRITICAL_STATE) == GetHashStateSet(current, CRITICAL_STATE)
    ensures !Reportable(current[i], prior)
  {
    var x := current[i].Id();
    var priorWarn := GetHashStateSet(prior, WARNING_STATE);
    var priorCrit := GetHashStateSet(prior, CRITICAL_STATE);
    if current[i].Status() == Some(PASSING_STATE) {
      assert x !in priorCrit && x !in priorWarn;
    } else if current[i].Status() == Some(WARNING_STATE) {
      assert x in priorWarn && x !in priorCrit;
    } else if current[i].Status() == Some(CRITICAL_STATE) {
      assert x in priorCrit;
    }
  }

  /** Comparing a snapshot with itself reports only its unknown records. */
  lemma SameSnapshotReportsOnlyUnknown(cs: seq<HealthStruct>)
    requires cs != [] && UniqueIds(cs)
    ensures AlertChanges(cs, cs) ==
      var unknown := GetObjectListByState(cs, UNKNOWN_STATE);
      if unknown == [] then None else Some(unknown)
  {
    UnchangedReportsOnlyUnknown(cs, cs);
  }

  /**
   * One record seen in two snapshots: reported iff it is unknown now, it
   * recovered from warning or critical, it became warning from anything but
   * warning, or it became critical from anything but critical.
   */
  lemma SingleRecordTransition(now: HealthStruct, before: HealthStruct)
    requires now.Id() == before.Id()
    ensures AlertChanges([now], [before]).Some? <==>
      || now.Status() == Some(UNKNOWN_STATE)
      || (now.Status() == Some(PASSING_STATE) && before.Status() in {Some(WARNING_STATE), Some(CRITICAL_STATE)})
      || (now.Status() == Some(WARNING_STATE) && before.Status() != Some(WARNING_STATE))
      || (now.Status() == Some(CRITICAL_STATE) && before.Status() != Some(CRITICAL_STATE))
    ensures AlertChanges([now], [before]).Some? ==> AlertChanges([now], [before]).value == [now]
  {
    var priorWarn := GetHashStateSet([before], WARNING_STATE);
    var priorCrit := GetHashStateSet([before], CRITICAL_STATE);
    assert now.Id() in priorWarn <==> before.Status() == Some(WARNING_STATE);
    assert now.Id() in priorCrit <==> before.Status() == Some(CRITICAL_STATE);
    AlertHashSetIff([now], [before], now.Id());
    var s := AlertHashSet([now], [before]);
    if s != {} {
      var x :| x in s;
      AlertHashSetIff([now], [before], x);
    }
  }

  /**
   * The transition table over passing, warning and critical: a record is
   * reported iff its status changed.
   */
  lemma TransitionTable(now: HealthStruct, before: HealthStruct)
    requires now.Id() == before.Id()
    requires now.Status() in {Some(PASSING_STATE), Some(WARNING_STATE), Some(CRITICAL_STATE)}
    requires before.Status() in {Some(PASSING_STATE), Some(WARNING_STATE), Some(CRITICAL_STATE)}
    ensures AlertChanges([now], [before]) == if now.Status() != before.Status() then Some([now]) else None
  {
    SingleRecordTransition(now, before);
  }

  /** A recovery from unknown is not reported. */
  lemma UnknownToPassingSilent(now: HealthStruct, before: HealthStruct)
    requires now.Id() == before.Id()
    requires now.Status() == Some(PASSING_STATE) && before.Status() == Some(UNKNOWN_STATE)
    ensures AlertChanges([now], [before]) == None
  {
    SingleRecordTransition(now, before);
  }

  /** A critical record that turns passing is reported (contrast with the legacy package). */
  lemma CriticalToPassingReported(now: HealthStruct, before: HealthStruct)
    requires now.Id() == before.Id()
    requires now.Status() == Some(PASSING_STATE) && before.Status() == Some(CRITICAL_STATE)
    ensures AlertChanges([now], [before]) == Some([now])
  {
    SingleRecordTransition(now, before);
  }

  // ---- the handler -----------------------------------------------------

  /** All records of the list carry exactly the tags `addTags` derives for them. */
  predicate Tagged(os: seq<HealthStruct>, catalogs: map<string, NodeCatalog>, tags: TagSource)
    reads os
  {
    forall i :: 0 <= i < |os| ==>
      TagsFor(os[i].entry, CatalogOf(catalogs, os[i]), tags).Ok?
      && os[i].tags == Some(TagsFor(os[i].entry, CatalogOf(catalogs, os[i]), tags).value)
  }

  /** `consul.catalog.node(obj.Node)`: None for a node the catalog does not know. */
  function CatalogOf(catalogs: map<string, NodeCatalog>, o: HealthStruct): Option<NodeCatalog>
  {
    match o.Field("Node")
    case Some(n) => if n in catalogs then Some(catalogs[n]) else None
    case None => None
  }

  /** All three blacklists in the store decode. */
  predicate ConfigDecodes(kv: Kv)
  {
    GetBlacklist(kv.nodeBlacklist).Ok? && GetBlacklist(kv.serviceBlacklist).Ok? && GetBlacklist(kv.checkBlacklist).Ok?
  }

  function ServiceBlacklistOf(kv: Kv): seq<string>
    requires ConfigDecodes(kv)
  {
    GetBlacklist(kv.serviceBlacklist).value
  }

  function CheckBlacklistOf(kv: Kv): seq<string>
    requires ConfigDecodes(kv)
  {
    GetBlacklist(kv.checkBlacklist).value
  }

  function NodeBlacklistOf(kv: Kv): seq<string>
    requires ConfigDecodes(kv)
  {
    GetBlacklist(kv.nodeBlacklist).value
  }

  /** `addTags` succeeds on every alert, if there are any. */
  predicate Taggable(alerts: Option<seq<HealthStruct>>, catalogs: map<string, NodeCatalog>, tags: TagSource)
  {
    alerts.Some? ==> forall i :: 0 <= i < |alerts.value| ==>
      TagsFor(alerts.value[i].entry, CatalogOf(catalogs, alerts.value[i]), tags).Ok?
  }

  class Handler {
    /** The KV store behind `self.consul.kv`. */
    var kv: Kv
    /** The catalog behind `self.consul.catalog.node`. */
    const catalogs: map<string, NodeCatalog>
    var healthCurrent: Option<seq<Entry>>
    var healthPrior: Option<seq<Entry>>
    var healthCheckTags: Option<TagSource>
    var nodeBlacklist: Option<seq<string>>
    var serviceBlacklist: Option<seq<string>>
    var checkBlacklist: Option<seq<string>>

    /** Every field `__getattr__` would read as None starts unset. */
    constructor (kv: Kv, catalogs: map<string, NodeCatalog>)
      ensures this.kv == kv && this.catalogs == catalogs
      ensures healthCurrent == None && healthPrior == None && healthCheckTags == None
      ensures nodeBlacklist == None && serviceBlacklist == None && checkBlacklist == None
    {
      this.kv := kv;
      this.catalogs := catalogs;
      healthCurrent, healthPrior, healthCheckTags := None, None, None;
      nodeBlacklist, serviceBlacklist, checkBlacklist := None, None, None;
    }

    /** `filterByBlacklists`: the loop with its three `continue` tests. */
    method FilterByBlacklists(os: seq<HealthStruct>) returns (r: Result<seq<HealthStruct>>)
      ensures r == Filtered(os, serviceBlacklist, checkBlacklist, nodeBlacklist)
    {
      var filtered: seq<HealthStruct> := [];
      var i := 0;
      assert os[i..] == os;
      PrefixedNil(Filtered(os, serviceBlacklist, checkBlacklist, nodeBlacklist));
      while i < |os|
        invariant 0 <= i <= |os|
        invariant Filtered(os, serviceBlacklist, checkBlacklist, nodeBlacklist)
               == Prefixed(filtered, Filtered(os[i..], serviceBlacklist, checkBlacklist, nodeBlacklist))
      {
        var o := os[i];
        FilteredStep(os, i, serviceBlacklist, checkBlacklist, nodeBlacklist);
        var byService :- Listed(o.Field("ServiceName"), serviceBlacklist);
        if byService {
          i := i + 1;
          continue;
        }
        var byCheck :- Listed(o.Field("CheckID"), checkBlacklist);
        if byCheck {
          i := i + 1;
          continue;
        }
        var byNode :- Listed(o.Field("Node"), nodeBlacklist);
        if byNode {
          i := i + 1;
          continue;
        }
        PrefixedAppend(filtered, o, Filtered(os[i + 1..], serviceBlacklist, checkBlacklist, nodeBlacklist));
        filtered := filtered + [o];
        i := i + 1;
      }
      assert os[i..] == [];
      assert filtered + [] == filtered;
      return Ok(filtered);
    }

    /** The tag source `nodeCatalogTags` hands to `addTags`. */
    function NonServiceSource(arg: Option<TagSource>): TagSource
      reads this
    {
      if arg.Some? && TagSourceTruthy(arg.value) then arg.value
      else match healthCheckTags
        case None => Null
        case Some(t) => t
    }

    /**
     * `nodeCatalogTags`: `addTags` on every record in order; the first
     * failure propagates and leaves the failing record and the later ones
     * (those not also earlier in the list) untouched.
     */
    method NodeCatalogTags(os: seq<HealthStruct>, healthCheckTagsArg: Option<TagSource>)
      returns (r: Result<()>, ghost failing: nat)
      modifies set o | o in os
      ensures r.Ok? <==> forall i :: 0 <= i < |os| ==> TagsFor(os[i].entry, CatalogOf(catalogs, os[i]), NonServiceSource(healthCheckTagsArg)).Ok?
      ensures r.Ok? ==> Tagged(os, catalogs, NonServiceSource(healthCheckTagsArg))
      ensures r.Err? ==> && failing < |os|
                         && TagsFor(os[failing].entry, CatalogOf(catalogs, os[failing]), NonServiceSource(healthCheckTagsArg)) == Err(r.error)
                         && Tagged(os[..failing], catalogs, NonServiceSource(healthCheckTagsArg))
      ensures r.Err? ==> forall j :: failing <= j < |os| && os[j] !in os[..failing] ==> os[j].tags == old(os[j].tags)
    {
      var tags := NonServiceSource(healthCheckTagsArg);
      var i := 0;
      while i < |os|
        invariant 0 <= i <= |os|
        invariant Tagged(os[..i], catalogs, tags)
        invariant forall j :: i <= j < |os| && os[j] !in os[..i] ==> os[j].tags == old(os[j].tags)
      {
        var outcome := os[i].AddTags(CatalogOf(catalogs, os[i]), tags);
        if outcome.Err? {
          return Err(outcome.error), i;
        }
        assert os[..i + 1] == os[..i] + [os[i]];
        forall j | i + 1 <= j < |os| && os[j] !in os[..i + 1] ensures os[j].tags == old(os[j].tags) {
          assert os[j] != os[i] && os[j] !in os[..i];
        }
        i := i + 1;
      }
      assert os[..i] == os;
      return Ok(()), i;
    }

    /**
     * `checkForAlertChanges`.  The bootstrap branch also stores the current
     * payload under the prior key.
     */
    method CheckForAlertChanges(current: seq<HealthStruct>, prior: seq<HealthStruct>)
      returns (alerts: Option<seq<HealthStruct>>)
      requires healthCurrent.Some?
      modifies this`kv
      ensures alerts == AlertChanges(current, prior)
      ensures kv == if prior == [] then old(kv).(prior := Stored(healthCurrent.value)) else old(kv)
    {
      if prior == [] {
        var warnings := GetObjectListByState(current, WARNING_STATE);
        var criticals := GetObjectListByState(current, CRITICAL_STATE);
        kv := kv.(prior := Stored(healthCurrent.value));
        var alertList := warnings + criticals;
        if alertList != [] {
          return Some(alertList);
        }
        return None;
      }
      var alertHashSet := AlertHashSet(current, prior);
      if alertHashSet != {} {
        return Some(Seqs.Filter(current, IdIn(alertHashSet)));
      }
      return None;
    }

    /**
     * The configuration reads of `Run`: the prior snapshot, the check tags
     * and the three blacklists, in that order; a blacklist that does not
     * parse stops the sequence there.
     */
    method ReadConfiguration() returns (r: Result<()>)
      modifies this`healthPrior, this`healthCheckTags, this`nodeBlacklist, this`serviceBlacklist, this`checkBlacklist
      ensures healthPrior == Some(PriorState(kv.prior)) && healthCheckTags == Some(GetCheckTags(kv.checkTags))
      ensures r.Ok? <==> GetBlacklist(kv.nodeBlacklist).Ok? && GetBlacklist(kv.serviceBlacklist).Ok?
                         && GetBlacklist(kv.checkBlacklist).Ok?
      ensures r.Ok? ==> nodeBlacklist == Some(GetBlacklist(kv.nodeBlacklist).value)
                        && serviceBlacklist == Some(GetBlacklist(kv.serviceBlacklist).value)
                        && checkBlacklist == Some(GetBlacklist(kv.checkBlacklist).value)
    {
      healthPrior := Some(PriorState(kv.prior));
      healthCheckTags := Some(GetCheckTags(kv.checkTags));
      var nodes :- GetBlacklist(kv.nodeBlacklist);
      nodeBlacklist := Some(nodes);
      var services :- GetBlacklist(kv.serviceBlacklist);
      serviceBlacklist := Some(services);
      var checks :- GetBlacklist(kv.checkBlacklist);
      checkBlacklist := Some(checks);
      return Ok(());
    }

    /**
     * The detection half of `Run`: both snapshots become fresh records,
     * both lists are filtered against the blacklists, and the filtered
     * lists are compared.
     */
    method Detect() returns (alerts: Option<seq<HealthStruct>>, ghost currentFiltered: seq<HealthStruct>,
                             ghost priorFiltered: seq<HealthStruct>)
      requires healthCurrent.Some? && healthPrior.Some?
      requires nodeBlacklist.Some? && serviceBlacklist.Some? && checkBlacklist.Some?
      modifies this`kv
      ensures alerts == AlertChanges(currentFiltered, priorFiltered)
      ensures kv == if priorFiltered == [] then old(kv).(prior := Stored(healthCurrent.value)) else old(kv)
      ensures Entries(currentFiltered)
           == SurvivingEntries(healthCurrent.value, serviceBlacklist.value, checkBlacklist.value, nodeBlacklist.value)
      ensures Entries(priorFiltered)
           == SurvivingEntries(healthPrior.value, serviceBlacklist.value, checkBlacklist.value, nodeBlacklist.value)
      ensures forall o :: o in currentFiltered ==> fresh(o) && o.tags == None
      ensures forall o :: o in priorFiltered ==> fresh(o)
      ensures alerts.Some? ==> forall o :: o in alerts.value ==> o in currentFiltered
    {
      var services, checks, nodes := serviceBlacklist.value, checkBlacklist.value, nodeBlacklist.value;
      var priorObjects := CreateConsulHealthList(healthPrior.value);
      var currentObjects := CreateConsulHealthList(healthCurrent.value);
      FilteredSelectsSurvivors(priorObjects, services, checks, nodes);
      FilteredSelectsSurvivors(currentObjects, services, checks, nodes);
      var pf := FilterByBlacklists(priorObjects);
      var cf := FilterByBlacklists(currentObjects);
      currentFiltered, priorFiltered := cf.value, pf.value;
      assert Entries(priorObjects) == healthPrior.value;
      assert Entries(currentObjects) == healthCurrent.value;
      EntriesOfSurvivors(priorObjects, services, checks, nodes);
      EntriesOfSurvivors(currentObjects, services, checks, nodes);
      AlertsDrawnFromCurrent(currentFiltered, priorFiltered);
      alerts := CheckForAlertChanges(cf.value, pf.value);
    }

    /**
     * `Run` as written.  It stores the current payload under the prior key
     * before reading that key back, so the prior snapshot it compares
     * against is the current one; and it replaces a non-empty alert list by
     * the None that `nodeCatalogTags` returns.  The ghost results are the
     * two filtered lists it compares.
     */
    method Run(current: seq<Entry>, lockAcquired: bool)
      returns (r: Result<Option<seq<HealthStruct>>>, ghost currentFiltered: seq<HealthStruct>,
               ghost priorFiltered: seq<HealthStruct>)
      modifies this
      ensures healthCurrent == Some(current)
      ensures !lockAcquired ==>
                r == Ok(Some([])) && kv == old(kv) && healthPrior == old(healthPrior)
                && nodeBlacklist == old(nodeBlacklist) && serviceBlacklist == old(serviceBlacklist)
                && checkBlacklist == old(checkBlacklist) && healthCheckTags == old(healthCheckTags)
      ensures lockAcquired ==> kv.prior == Stored(current) && healthPrior == Some(current)
      ensures lockAcquired ==> kv.(prior := old(kv).prior) == old(kv)
      ensures lockAcquired && ConfigDecodes(old(kv)) ==>
                && Entries(currentFiltered) == SurvivingEntries(current, ServiceBlacklistOf(old(kv)),
                                                                CheckBlacklistOf(old(kv)), NodeBlacklistOf(old(kv)))
                && Entries(priorFiltered) == Entries(currentFiltered)
      ensures lockAcquired ==>
                (r.Ok? <==> ConfigDecodes(old(kv))
                            && Taggable(AlertChanges(currentFiltered, priorFiltered), catalogs, GetCheckTags(old(kv).checkTags)))
      ensures lockAcquired && r.Ok? ==> r.value == None
    {
      currentFiltered, priorFiltered := [], [];
      healthCurrent := Some(current);
      if !lockAcquired {
        return Ok(Some([])), currentFiltered, priorFiltered;
      }
      kv := kv.(prior := Stored(current));
      var read := ReadConfiguration();
      if read.Err? {
        return Err(read.error), currentFiltered, priorFiltered;
      }
      var alertList;
      alertList, currentFiltered, priorFiltered := Detect();
      AlertsNeverEmptyList(currentFiltered, priorFiltered);
      if alertList.Some? {
        var tagged;
        ghost var failing;
        tagged, failing := NodeCatalogTags(alertList.value, None);
        if tagged.Err? {
          return Err(tagged.error), currentFiltered, priorFiltered;
        }
        alertList := None;
      }
      return Ok(alertList), currentFiltered, priorFiltered;
    }

    /**
     * `Run` with the prior key read before it is overwritten, and with the
     * tagged alert list returned.
     */
    method RunCorrected(current: seq<Entry>, lockAcquired: bool)
      returns (r: Result<Option<seq<HealthStruct>>>, ghost currentFiltered: seq<HealthStruct>,
               ghost priorFiltered: seq<HealthStruct>)
      modifies this
      ensures healthCurrent == Some(current)
      ensures !lockAcquired ==> r == Ok(Some([])) && kv == old(kv) && healthPrior == old(healthPrior)
      ensures lockAcquired ==> healthPrior == Some(PriorState(old(kv).prior)) && kv.prior == Stored(current)
      ensures lockAcquired ==> kv.(prior := old(kv).prior) == old(kv)
      ensures lockAcquired && ConfigDecodes(old(kv)) ==>
                && Entries(currentFiltered) == SurvivingEntries(current, ServiceBlacklistOf(old(kv)),
                                                                CheckBlacklistOf(old(kv)), NodeBlacklistOf(old(kv)))
                && Entries(priorFiltered) == SurvivingEntries(PriorState(old(kv).prior), ServiceBlacklistOf(old(kv)),
                                                              CheckBlacklistOf(old(kv)), NodeBlacklistOf(old(kv)))
      ensures lockAcquired ==>
                (r.Ok? <==> ConfigDecodes(old(kv))
                            && Taggable(AlertChanges(currentFiltered, priorFiltered), catalogs, GetCheckTags(old(kv).checkTags)))
      ensures lockAcquired && r.Ok? ==>
                && r.value == AlertChanges(currentFiltered, priorFiltered)
                && (r.value.Some? ==> Tagged(r.value.value, catalogs, GetCheckTags(old(kv).checkTags)))
    {
      currentFiltered, priorFiltered := [], [];
      healthCurrent := Some(current);
      if !lockAcquired {
        return Ok(Some([])), currentFiltered, priorFiltered;
      }
      var read := ReadConfiguration();
      kv := kv.(prior := Stored(current));
      if read.Err? {
        return Err(read.error), currentFiltered, priorFiltered;
      }
      var alertList;
      alertList, currentFiltered, priorFiltered := Detect();
      if alertList.Some? {
        var tagged;
        ghost var failing;
        tagged, failing := NodeCatalogTags(alertList.value, None);
        if tagged.Err? {
          return Err(tagged.error), currentFiltered, priorFiltered;
        }
      }
      return Ok(alertList), currentFiltered, priorFiltered;
    }
  }
}
