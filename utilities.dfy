/**
 * consulalerting/utilities.py: the KV readers with their defaults, record
 * construction, selection of records by status, and the notification
 * helpers that read plugin configuration.
 */
module Utilities {
  import opened Wrappers
  import opened Health
  import opened Json
  import Text
  import Seqs
  import opened ConsulHealthStruct

  /**
   * One KV key as the readers see it: absent, holding text that
   * `json.loads` rejects, or holding a decoded value.
   */
  datatype Slot<T> = Missing | Unparsable | Stored(value: T)

  /** The KV keys WatchCheckHandler reads and writes. */
  datatype Kv = Kv(
    prior: Slot<seq<Entry>>,             // alerting/prior
    checkTags: Slot<TagSource>,          // alerting/healthchecktags
    nodeBlacklist: Slot<seq<string>>,    // alerting/blacklist/nodes
    serviceBlacklist: Slot<seq<string>>, // alerting/blacklist/services
    checkBlacklist: Slot<seq<string>>)   // alerting/blacklist/checks

  /** `priorState`: any failure reading or decoding yields []. */
  function PriorState(s: Slot<seq<Entry>>): (r: seq<Entry>)
    ensures s.Missing? || s.Unparsable? ==> r == []
    ensures s.Stored? ==> r == s.value
  {
    match s
    case Stored(es) => es
    case _ => []
  }

  /** `getCheckTags`: any failure reading or decoding yields []. */
  function GetCheckTags(s: Slot<TagSource>): (r: TagSource)
    ensures s.Missing? || s.Unparsable? ==> r == Items([])
    ensures s.Stored? ==> r == s.value
  {
    match s
    case Stored(t) => t
    case _ => Items([])
  }

  /**
   * `getBlacklist`: only a missing key yields []; text `json.loads`
   * rejects raises ValueError.
   */
  function GetBlacklist(s: Slot<seq<string>>): (r: Result<seq<string>>)
    ensures s.Missing? ==> r == Ok([])
    ensures s.Unparsable? ==> r == Err(ValueError)
    ensures s.Stored? ==> r == Ok(s.value)
  {
    match s
    case Missing => Ok([])
    case Unparsable => Err(ValueError)
    case Stored(bl) => Ok(bl)
  }

  /** `createConsulHealthList`: one new record per entry, in order. */
  method CreateConsulHealthList(entries: seq<Entry>) returns (os: seq<HealthStruct>)
    ensures |os| == |entries|
    ensures forall i :: 0 <= i < |os| ==> os[i].entry == entries[i] && os[i].tags == None && fresh(os[i])
  {
    os := [];
    var i := 0;
    while i < |entries|
      invariant 0 <= i <= |entries| && |os| == i
      invariant forall j :: 0 <= j < i ==> os[j].entry == entries[j] && os[j].tags == None && fresh(os[j])
    {
      var o := new HealthStruct(entries[i]);
      os := os + [o];
      i := i + 1;
    }
  }

  /** `getHashStateSet`: the identities of the records in the given state. */
  function GetHashStateSet(os: seq<HealthStruct>, state: string): (r: set<Identity>)
    ensures forall x :: x in r <==> exists i :: 0 <= i < |os| && os[i].Status() == Some(state) && os[i].Id() == x
  {
    set o | o in os && o.Status() == Some(state) :: o.Id()
  }

  /** A second record with an identity and state already present adds nothing. */
  lemma HashStateSetCollapses(os: seq<HealthStruct>, o: HealthStruct, state: string)
    requires exists i :: 0 <= i < |os| && os[i].Id() == o.Id() && os[i].Status() == o.Status()
    ensures GetHashStateSet(os + [o], state) == GetHashStateSet(os, state)
  {
    var i :| 0 <= i < |os| && os[i].Id() == o.Id() && os[i].Status() == o.Status();
    forall x | x in GetHashStateSet(os + [o], state) ensures x in GetHashStateSet(os, state) {
      var j :| 0 <= j < |os + [o]| && (os + [o])[j].Status() == Some(state) && (os + [o])[j].Id() == x;
      if j == |os| {
        assert os[i].Status() == Some(state) && os[i].Id() == x;
      } else {
        assert os[j] == (os + [o])[j];
      }
    }
    forall x | x in GetHashStateSet(os, state) ensures x in GetHashStateSet(os + [o], state) {
      var j :| 0 <= j < |os| && os[j].Status() == Some(state) && os[j].Id() == x;
      assert (os + [o])[j] == os[j];
    }
  }

  function StateIs(state: string): HealthStruct -> bool
  {
    (o: HealthStruct) => o.Status() == Some(state)
  }

  /** `getObjectListByState`: the records in the given state, order kept. */
  function GetObjectListByState(os: seq<HealthStruct>, state: string): (r: seq<HealthStruct>)
    ensures forall i :: 0 <= i < |r| ==> r[i].Status() == Some(state) && r[i] in os
    ensures forall o :: o in os && o.Status() == Some(state) ==> o in r
    ensures Seqs.IsSubseq(r, os)
  {
    var r := Seqs.Filter(os, StateIs(state));
    Seqs.FilterIsSubseq(os, StateIs(state));
    assert forall o :: o in os && o.Status() == Some(state) ==> o in r by {
      forall o | o in os && o.Status() == Some(state) ensures o in r {
        Seqs.FilterMembers(os, StateIs(state), o);
      }
    }
    r
  }

  /**
   * `common_notifiers`: the destination keys of the channel configuration
   * `kv_dict[kv_tags_dictname]` that are also tags of the record; `tags`
   * is the record's Tags attribute, which `set(None)` rejects.
   */
  function CommonNotifiers(tags: Option<seq<string>>, dictName: string, config: Dict): (r: Result<set<string>>)
    ensures r.Ok? <==> Get(config, dictName).Some? && Get(config, dictName).value.JObj? && tags.Some?
    ensures Get(config, dictName).None? ==> r == Err(KeyError)
    ensures r.Ok? ==> forall x :: x in r.value <==> x in Keys(Get(config, dictName).value.fields) && x in tags.value
  {
    match Get(config, dictName)
    case None => Err(KeyError)
    case Some(JObj(destinations)) =>
      (match tags
       case None => Err(TypeError)
       case Some(ts) => Ok(Keys(destinations) * set t | t in ts))
    case Some(_) => Err(AttributeError)
  }

  /**
   * `load_plugin`: the decoded configuration with every top-level key and
   * every key of its destination map folded to lower case.  A missing KV key
   * or destination map raises KeyError; a value without `iteritems` raises
   * AttributeError.
   */
  function LoadPlugin(stored: Option<Json>, dictName: string): (r: Result<Dict>)
    ensures stored.None? ==> r == Err(KeyError)
    ensures stored.Some? && !stored.value.JObj? ==> r == Err(AttributeError)
    ensures r.Ok? ==> stored.Some? && stored.value.JObj?
    ensures r.Ok? ==> forall k :: k in Keys(r.value) ==> Text.IsLower(k)
    ensures r.Ok? ==> Keys(r.value) == set k | k in Keys(stored.value.fields) :: Text.Lower(k)
    ensures r.Ok? ==> Get(r.value, dictName).Some? && Get(r.value, dictName).value.JObj?
    ensures r.Ok? ==> forall k :: k in Keys(Get(r.value, dictName).value.fields) ==> Text.IsLower(k)
    ensures r.Ok? ==> forall k :: k != dictName ==> Get(r.value, k) == Get(LowerKeys(stored.value.fields), k)
    ensures stored.Some? && stored.value.JObj? ==>
              (r.Ok? <==> Get(LowerKeys(stored.value.fields), dictName).Some?
                          && Get(LowerKeys(stored.value.fields), dictName).value.JObj?)
    ensures stored.Some? && stored.value.JObj? && Get(LowerKeys(stored.value.fields), dictName).None? ==> r == Err(KeyError)
    ensures r.Ok? ==> Get(r.value, dictName) == Some(JObj(LowerKeys(Get(LowerKeys(stored.value.fields), dictName).value.fields)))
  {
    match stored
    case None => Err(KeyError)
    case Some(JObj(fields)) =>
      var top := LowerKeys(fields);
      (match Get(top, dictName)
       case None => Err(KeyError)
       case Some(JObj(destinations)) =>
         var p := top + [(dictName, JObj(LowerKeys(destinations)))];
         assert p[..|top|] == top;
         assert Keys(p) == Keys(top) + {dictName} by {
           forall k | k in Keys(p) ensures k in Keys(top) + {dictName} {
             var i :| 0 <= i < |p| && p[i].0 == k;
             if i < |top| { assert top[i] == p[i]; }
           }
           forall k | k in Keys(top) ensures k in Keys(p) {
             var i :| 0 <= i < |top| && top[i].0 == k;
             assert p[i] == top[i];
           }
           assert p[|top|].0 == dictName;
         }
         Ok(p)
       case Some(_) => Err(AttributeError))
    case Some(_) => Err(AttributeError)
  }
}
