/**
 * consul-alerting/NotificationEngine.py: the legacy engine.  It knows one
 * channel, hipchat, whose configuration it loads from the KV store when
 * some record is tagged with it, and it posts one hipchat room message per
 * room that a record's tags share with that configuration.  The hipchat
 * client is replaced by the list of `message_room` calls it receives.
 */
module LegacyNotificationEngine {
  import opened Wrappers
  import opened Health
  import opened Json
  import opened ConsulHealthNodeStruct
  import Seqs
  import Utilities
  import Plugins
  import NotificationEngine

  const KV_ALERTING_NOTIFY_HIPCHAT: string := "alerting/notify/hipchat"

  /** The plugins the legacy engine can load: fixed when it is made. */
  const AVAILABLE_PLUGINS: set<string> := {"hipchat"}

  /** The sender name of every room message. */
  const MESSAGE_FROM: string := "Consul"

  /** One `message_room` call on a client made with `token` and `url`. */
  datatype RoomMessage = RoomMessage(token: Json, url: Json, roomId: int, sender: string, message: string,
                                     notify: int, color: string)

  /**
   * `set(tag for obj in alert_list for tag in obj.Tags)`: the union of the
   * records' tags; a record whose Tags is None raises TypeError.
   */
  function UniqueTags(os: seq<NodeStruct>): (r: Result<set<string>>)
    reads os
    ensures r.Ok? <==> forall i :: 0 <= i < |os| ==> os[i].tags.Some?
    ensures r.Ok? ==> forall t :: t in r.value <==> exists i :: 0 <= i < |os| && t in os[i].tags.value
    ensures r.Err? ==> r.error == TypeError
    decreases |os|
  {
    if os == [] then Ok({})
    else
      var n := |os| - 1;
      var front :- UniqueTags(os[..n]);
      match os[n].tags
      case None => Err(TypeError)
      case Some(ts) =>
        var r := front + set t | t in ts;
        assert forall t :: t in r <==> exists i :: 0 <= i < |os| && t in os[i].tags.value by {
          forall t | t in r ensures exists i :: 0 <= i < |os| && t in os[i].tags.value {
            if t !in ts {
              var i :| 0 <= i < n && t in os[..n][i].tags.value;
              assert os[i] == os[..n][i];
            }
          }
          forall t | (exists i :: 0 <= i < |os| && t in os[i].tags.value) ensures t in r {
            var i :| 0 <= i < |os| && t in os[i].tags.value;
            if i < n { assert os[..n][i] == os[i]; }
          }
        }
        Ok(r)
  }

  /**
   * The colour and notify flag the if/elif chain assigns, or None when no
   * branch matches and the two locals stay unbound.
   */
  function LegacyStyle(status: Attr): (r: Option<Plugins.Style>)
    ensures r.Some? <==> Plugins.Recognised(status)
    ensures r.Some? ==> r.value == Plugins.HipchatStyle(status, Plugins.INITIAL_STYLE)
  {
    if status == Some(LEGACY_PASSING_STATE) then Some(Plugins.Style("green", 0))
    else if status == Some(LEGACY_WARNING_STATE) then Some(Plugins.Style("yellow", 1))
    else if status == Some(LEGACY_CRITICAL_STATE) then Some(Plugins.Style("red", 1))
    else if status == Some(LEGACY_UNKNOWN_STATE) then Some(Plugins.Style("gray", 1))
    else None
  }

  /** The loaded configuration has a room map, as `load_from_tags_keys` leaves it. */
  predicate HasRooms(config: Dict)
  {
    Get(config, "rooms").Some? && Get(config, "rooms").value.JObj?
  }

  function Rooms(config: Dict): Dict
    requires HasRooms(config)
  {
    Get(config, "rooms").value.fields
  }

  /** The rooms a record is sent to: the configured rooms among its tags. */
  function CommonRooms(tags: seq<string>, config: Dict): (r: set<string>)
    requires HasRooms(config)
    ensures forall x :: x in r <==> x in Keys(Rooms(config)) && x in tags
  {
    Keys(Rooms(config)) * set t | t in tags
  }

  /**
   * The `message_room` call for one room: the room id is converted with
   * `int()` first, then reading the unbound style raises
   * UnboundLocalError when the status matched no branch.
   */
  function RoomCall(o: NodeStruct, token: Json, url: Json, room: string, config: Dict): (r: Result<RoomMessage>)
    requires HasRooms(config)
    ensures r.Ok? <==>
              Get(Rooms(config), room).Some? && PyInt(Get(Rooms(config), room).value).Ok? && Plugins.Recognised(o.Status())
    ensures r.Ok? ==>
              && r.value.token == token && r.value.url == url
              && r.value.roomId == PyInt(Get(Rooms(config), room).value).value
              && r.value.sender == MESSAGE_FROM
              && r.value.message == NotificationEngine.MessagePattern(o.entry)
              && Plugins.Style(r.value.color, r.value.notify) == Plugins.HipchatStyle(o.Status(), Plugins.INITIAL_STYLE)
    ensures Get(Rooms(config), room).Some? && PyInt(Get(Rooms(config), room).value).Ok? && !Plugins.Recognised(o.Status())
            ==> r == Err(UnboundLocalError)
  {
    var stored :- Lookup(Rooms(config), room);
    var id :- PyInt(stored);
    match LegacyStyle(o.Status())
    case None => Err(UnboundLocalError)
    case Some(style) =>
      Ok(RoomMessage(token, url, id, MESSAGE_FROM, NotificationEngine.MessagePattern(o.entry), style.notify, style.color))
  }

  /**
   * `batch` is what `notify_hipchat` sends for `o` when it completes: one
   * call per common room, in some iteration order of the rooms.
   */
  ghost predicate NotifiedAll(o: NodeStruct, config: Dict, batch: seq<RoomMessage>)
    reads o
    requires HasRooms(config)
  {
    o.tags.Some? && Lookup(config, "api_token").Ok? && Lookup(config, "url").Ok?
    && exists order: seq<string> ::
         && Seqs.Enumerates(order, CommonRooms(o.tags.value, config))
         && |order| == |batch|
         && forall i :: 0 <= i < |order| ==>
              RoomCall(o, Lookup(config, "api_token").value, Lookup(config, "url").value, order[i], config) == Ok(batch[i])
  }

  /**
   * What one record of the alert list sends: the calls of a completed
   * `notify_hipchat` when it is tagged hipchat and hipchat is loaded,
   * nothing otherwise.
   */
  ghost predicate Notified(o: NodeStruct, hipchat: Option<Dict>, batch: seq<RoomMessage>)
    reads o
  {
    if o.tags.Some? && "hipchat" in o.tags.value && hipchat.Some? && HasRooms(hipchat.value)
    then NotifiedAll(o, hipchat.value, batch)
    else batch == []
  }

  /** Every record of `os` notified as `Notified` says, with the batch of the same position. */
  ghost predicate EachNotified(os: seq<NodeStruct>, hipchat: Option<Dict>, batches: seq<seq<RoomMessage>>)
    reads os
    decreases |os|
  {
    && |batches| == |os|
    && (os != [] ==>
          && EachNotified(os[..|os| - 1], hipchat, batches[..|os| - 1])
          && Notified(os[|os| - 1], hipchat, batches[|os| - 1]))
  }

  /** One more record, notified, extends `EachNotified`. */
  lemma EachNotifiedSnoc(os: seq<NodeStruct>, hipchat: Option<Dict>, batches: seq<seq<RoomMessage>>, i: nat,
                         batch: seq<RoomMessage>)
    requires i < |os|
    requires EachNotified(os[..i], hipchat, batches)
    requires Notified(os[i], hipchat, batch)
    ensures EachNotified(os[..i + 1], hipchat, batches + [batch])
  {
    assert os[..i + 1][..i] == os[..i];
    assert (batches + [batch])[..i] == batches;
  }

  /** `EachNotified` holds record by record. */
  lemma {:induction false} EachNotifiedAt(os: seq<NodeStruct>, hipchat: Option<Dict>, batches: seq<seq<RoomMessage>>, j: nat)
    requires EachNotified(os, hipchat, batches)
    requires j < |os|
    ensures Notified(os[j], hipchat, batches[j])
    decreases |os|
  {
    var n := |os| - 1;
    if j < n {
      EachNotifiedAt(os[..n], hipchat, batches[..n], j);
      assert os[..n][j] == os[j] && batches[..n][j] == batches[j];
    }
  }

  /** The batches of several records, one after the other. */
  function Concat(batches: seq<seq<RoomMessage>>): seq<RoomMessage>
    decreases |batches|
  {
    if batches == [] then [] else Concat(batches[..|batches| - 1]) + batches[|batches| - 1]
  }

  /** The batches with one more at the end. */
  lemma ConcatSnoc(batches: seq<seq<RoomMessage>>, batch: seq<RoomMessage>)
    ensures Concat(batches + [batch]) == Concat(batches) + batch
  {
    assert (batches + [batch])[..|batches|] == batches;
  }

  /** What was sent before a run, then its batches, grows by the batch of one more record. */
  lemma SentSnoc(start: seq<RoomMessage>, batches: seq<seq<RoomMessage>>, batch: seq<RoomMessage>)
    ensures start + Concat(batches + [batch]) == (start + Concat(batches)) + batch
  {
    ConcatSnoc(batches, batch);
  }

  /** `load_plugin`'s reading of the stored hipchat configuration, with its room map. */
  function HipchatLoad(kv: map<string, Json>): Result<Dict>
  {
    Utilities.LoadPlugin(if KV_ALERTING_NOTIFY_HIPCHAT in kv then Some(kv[KV_ALERTING_NOTIFY_HIPCHAT]) else None, "rooms")
  }

  /**
   * How one `notify_hipchat` call ends: KeyError before any call when the
   * token or the url is missing, otherwise the room calls `Sends` describes.
   */
  ghost predicate HipchatRun(o: NodeStruct, config: Dict, r: Result<()>, batch: seq<RoomMessage>)
    reads o
    requires HasRooms(config) && o.tags.Some?
  {
    if Lookup(config, "api_token").Err? || Lookup(config, "url").Err? then r == Err(KeyError) && batch == []
    else exists order: seq<string> ::
           Sends(o, Lookup(config, "api_token").value, Lookup(config, "url").value,
                 CommonRooms(o.tags.value, config), config, r, batch, order)
  }

  /**
   * The record loop stopped at its last batch: the records before it were
   * notified, and that record is tagged hipchat with hipchat loaded and its
   * `notify_hipchat` ended with `r`.
   */
  ghost predicate StoppedAtLast(os: seq<NodeStruct>, hipchat: Option<Dict>, batches: seq<seq<RoomMessage>>, r: Result<()>)
    reads os
  {
    && 0 < |batches| <= |os|
    && EachNotified(os[..|batches| - 1], hipchat, batches[..|batches| - 1])
    && var o := os[|batches| - 1];
       && o.tags.Some? && "hipchat" in o.tags.value && hipchat.Some? && HasRooms(hipchat.value)
       && HipchatRun(o, hipchat.value, r, batches[|batches| - 1])
  }

  /** A record loop that stops at record `i` stops at its last batch. */
  lemma StoppedAtLastIntro(os: seq<NodeStruct>, hipchat: Option<Dict>, prev: seq<seq<RoomMessage>>, i: nat,
                           batch: seq<RoomMessage>, r: Result<()>)
    requires i < |os| && |prev| == i
    requires EachNotified(os[..i], hipchat, prev)
    requires os[i].tags.Some? && "hipchat" in os[i].tags.value && hipchat.Some? && HasRooms(hipchat.value)
    requires HipchatRun(os[i], hipchat.value, r, batch)
    ensures StoppedAtLast(os, hipchat, prev + [batch], r)
  {
    assert (prev + [batch])[..i] == prev;
    assert (prev + [batch])[i] == batch;
  }

  /** The legacy engine: the alert list, the KV store it reads, and the calls it makes. */
  class LegacyEngine {
    const alertList: seq<NodeStruct>
    /** The KV store, key to stored value. */
    const kv: map<string, Json>
    /** `self.unique_tags`; None until `get_unique_tags_keys` runs. */
    var uniqueTags: Option<set<string>>
    /** `self.hipchat`; None (through `__getattr__`) until it is loaded. */
    var hipchat: Option<Dict>
    /** Every `message_room` call made so far. */
    var sent: seq<RoomMessage>

    /** Loaded configurations have a room map. */
    predicate Valid()
      reads this
    {
      hipchat.Some? ==> HasRooms(hipchat.value)
    }

    constructor (alertList: seq<NodeStruct>, kv: map<string, Json>)
      ensures this.alertList == alertList && this.kv == kv
      ensures uniqueTags == None && hipchat == None && sent == []
      ensures Valid()
    {
      this.alertList := alertList;
      this.kv := kv;
      uniqueTags := None;
      hipchat := None;
      sent := [];
    }

    /** `get_unique_tags_keys`: assigns the union of the tags, or raises and assigns nothing. */
    method GetUniqueTagsKeys() returns (r: Result<()>)
      modifies this`uniqueTags
      ensures r.Ok? <==> UniqueTags(alertList).Ok?
      ensures r.Ok? ==> uniqueTags == Some(UniqueTags(alertList).value)
      ensures r.Err? ==> r.error == TypeError && uniqueTags == old(uniqueTags)
    {
      var u := UniqueTags(alertList);
      if u.Err? {
        return Err(u.error);
      }
      uniqueTags := Some(u.value);
      return Ok(());
    }

    /**
     * `load_from_tags_keys`: without unique tags the intersection raises
     * AttributeError; when hipchat is both tagged and available its
     * configuration is loaded with its keys and room names lower-cased.
     * The email branch assigns None, which `__getattr__` already answers.
     */
    method LoadFromTagsKeys() returns (r: Result<()>)
      requires Valid()
      modifies this`hipchat
      ensures Valid()
      ensures uniqueTags.None? ==> r == Err(AttributeError) && hipchat == old(hipchat)
      ensures uniqueTags.Some? && "hipchat" !in uniqueTags.value ==> r == Ok(()) && hipchat == old(hipchat)
      ensures uniqueTags.Some? && "hipchat" in uniqueTags.value ==>
                var loadedConfig := HipchatLoad(kv);
                && (r.Ok? <==> loadedConfig.Ok?)
                && (r.Ok? ==> hipchat == Some(loadedConfig.value))
                && (r.Err? ==> r.error == loadedConfig.error && hipchat == old(hipchat))
    {
      if uniqueTags.None? {
        return Err(AttributeError);
      }
      var toLoad := uniqueTags.value * AVAILABLE_PLUGINS;
      if "hipchat" in toLoad {
        var stored := if KV_ALERTING_NOTIFY_HIPCHAT in kv then Some(kv[KV_ALERTING_NOTIFY_HIPCHAT]) else None;
        var config := Utilities.LoadPlugin(stored, "rooms");
        if config.Err? {
          return Err(config.error);
        }
        hipchat := Some(config.value);
      }
      return Ok(());
    }

    /**
     * `Run`: the unique tags, the configuration, then one `notify_hipchat`
     * per record tagged hipchat while hipchat is loaded.  An exception ends
     * the run; what was sent before it stays sent.
     */
    method Run() returns (r: Result<()>, ghost batches: seq<seq<RoomMessage>>)
      requires Valid()
      modifies this`uniqueTags, this`hipchat, this`sent
      ensures Valid()
      ensures UniqueTags(alertList).Err? ==> r == Err(TypeError) && sent == old(sent)
      ensures r.Ok? ==> UniqueTags(alertList).Ok? && uniqueTags == Some(UniqueTags(alertList).value)
      ensures sent == old(sent) + Concat(batches)
      ensures UniqueTags(alertList).Ok? && "hipchat" in UniqueTags(alertList).value && HipchatLoad(kv).Err? ==>
                r == Err(HipchatLoad(kv).error) && sent == old(sent) && hipchat == old(hipchat)
      ensures UniqueTags(alertList).Ok? && "hipchat" in UniqueTags(alertList).value && HipchatLoad(kv).Ok? ==>
                hipchat == Some(HipchatLoad(kv).value)
      ensures UniqueTags(alertList).Ok? && "hipchat" !in UniqueTags(alertList).value ==> hipchat == old(hipchat)
      ensures r.Ok? ==> EachNotified(alertList, hipchat, batches)
      ensures r.Err? && UniqueTags(alertList).Ok? && !("hipchat" in UniqueTags(alertList).value && HipchatLoad(kv).Err?) ==>
                StoppedAtLast(alertList, hipchat, batches, r)
    {
      batches := [];
      r := GetUniqueTagsKeys();
      if r.Err? {
        return;
      }
      r := LoadFromTagsKeys();
      if r.Err? {
        return;
      }
      r, batches := NotifyRecords();
    }

    /** The loop of `Run` over the alert list. */
    method NotifyRecords() returns (r: Result<()>, ghost batches: seq<seq<RoomMessage>>)
      requires Valid()
      requires forall i :: 0 <= i < |alertList| ==> alertList[i].tags.Some?
      modifies this`sent
      ensures sent == old(sent) + Concat(batches)
      ensures r.Ok? ==> EachNotified(alertList, hipchat, batches)
      ensures r.Err? ==> StoppedAtLast(alertList, hipchat, batches, r)
    {
      batches := [];
      r := Ok(());
      var i := 0;
      while i < |alertList|
        invariant 0 <= i <= |alertList| && |batches| == i
        invariant sent == old(sent) + Concat(batches)
        invariant EachNotified(alertList[..i], hipchat, batches)
        invariant r.Ok?
      {
        var o := alertList[i];
        var batch: seq<RoomMessage> := [];
        ghost var prev := batches;
        r, batch := NotifyRecord(o);
        batches := prev + [batch];
        SentSnoc(old(sent), prev, batch);
        if r.Err? {
          StoppedAtLastIntro(alertList, hipchat, prev, i, batch, r);
          return;
        }
        EachNotifiedSnoc(alertList, hipchat, prev, i, batch);
        i := i + 1;
      }
      assert alertList[..i] == alertList;
      return Ok(()), batches;
    }

    /** One pass of the loop of `Run`: `notify_hipchat` when the record is tagged hipchat and hipchat is loaded. */
    method NotifyRecord(o: NodeStruct) returns (r: Result<()>, batch: seq<RoomMessage>)
      requires Valid() && o.tags.Some?
      modifies this`sent
      ensures sent == old(sent) + batch
      ensures r.Ok? ==> Notified(o, hipchat, batch)
      ensures !("hipchat" in o.tags.value && hipchat.Some?) ==> r == Ok(()) && batch == []
      ensures "hipchat" in o.tags.value && hipchat.Some? ==> HipchatRun(o, hipchat.value, r, batch)
    {
      r, batch := Ok(()), [];
      if "hipchat" in o.tags.value && hipchat.Some? {
        ghost var order;
        r, batch, order := NotifyHipchat(o);
        if Lookup(hipchat.value, "api_token").Ok? && Lookup(hipchat.value, "url").Ok? {
          assert Sends(o, Lookup(hipchat.value, "api_token").value, Lookup(hipchat.value, "url").value,
                       CommonRooms(o.tags.value, hipchat.value), hipchat.value, r, batch, order);
        }
      }
    }

    /**
     * `notify_hipchat`: reads the token and then the url (KeyError when
     * missing), then sends the calls for the common rooms as `SendRooms`
     * does.  `batch` is what was sent, and `order` the rooms visited.
     */
    method NotifyHipchat(o: NodeStruct) returns (r: Result<()>, batch: seq<RoomMessage>, ghost order: seq<string>)
      requires Valid() && hipchat.Some?
      modifies this`sent
      ensures sent == old(sent) + batch
      ensures o.tags.None? ==> r == Err(TypeError) && batch == []
      ensures o.tags.Some? && Lookup(hipchat.value, "api_token").Err? ==> r == Err(KeyError) && batch == []
      ensures o.tags.Some? && Lookup(hipchat.value, "api_token").Ok? && Lookup(hipchat.value, "url").Err?
              ==> r == Err(KeyError) && batch == []
      ensures o.tags.Some? && Lookup(hipchat.value, "api_token").Ok? && Lookup(hipchat.value, "url").Ok? ==>
                Sends(o, Lookup(hipchat.value, "api_token").value, Lookup(hipchat.value, "url").value,
                      CommonRooms(o.tags.value, hipchat.value), hipchat.value, r, batch, order)
      ensures r.Ok? ==> NotifiedAll(o, hipchat.value, batch)
    {
      var config := hipchat.value;
      order := [];
      batch := [];
      if o.tags.None? {
        return Err(TypeError), batch, order;
      }
      var token :- Lookup(config, "api_token");
      var url :- Lookup(config, "url");
      r, batch, order := SendRooms(o, token, url, CommonRooms(o.tags.value, config), config);
      sent := sent + batch;
    }
  }

  /**
   * `order` is a visit of distinct rooms of `rooms`, `batch` the calls
   * made for them, and `r` says whether every room was visited or which
   * room's call raised.
   */
  ghost predicate Sends(o: NodeStruct, token: Json, url: Json, rooms: set<string>, config: Dict,
                        r: Result<()>, batch: seq<RoomMessage>, order: seq<string>)
    requires HasRooms(config)
  {
    && (forall i :: 0 <= i < |order| ==> order[i] in rooms)
    && (forall i, j :: 0 <= i < j < |order| ==> order[i] != order[j])
    && (forall i :: 0 <= i < |batch| ==> i < |order| && RoomCall(o, token, url, order[i], config) == Ok(batch[i]))
    && (r.Ok? ==> Seqs.Enumerates(order, rooms) && |order| == |batch|)
    && (r.Err? ==> |order| == |batch| + 1 && RoomCall(o, token, url, order[|batch|], config) == Err(r.error))
  }

  /**
   * The loop of `notify_hipchat`: one call per room in some order,
   * stopping at the first call that raises.
   */
  method SendRooms(o: NodeStruct, token: Json, url: Json, rooms: set<string>, config: Dict)
    returns (r: Result<()>, batch: seq<RoomMessage>, ghost order: seq<string>)
    requires HasRooms(config)
    ensures Sends(o, token, url, rooms, config, r, batch, order)
  {
    r, batch, order := CallRooms(rooms, (room: string) => if HasRooms(config) then RoomCall(o, token, url, room, config) else Err(KeyError));
  }

  /** The loop of `notify_hipchat` for any per-room call. */
  method CallRooms(rooms: set<string>, call: string -> Result<RoomMessage>)
    returns (r: Result<()>, batch: seq<RoomMessage>, ghost order: seq<string>)
    ensures forall i :: 0 <= i < |order| ==> order[i] in rooms
    ensures forall i, j :: 0 <= i < j < |order| ==> order[i] != order[j]
    ensures forall i :: 0 <= i < |batch| ==> i < |order| && call(order[i]) == Ok(batch[i])
    ensures r.Ok? ==> Seqs.Enumerates(order, rooms) && |order| == |batch|
    ensures r.Err? ==> |order| == |batch| + 1 && call(order[|batch|]) == Err(r.error)
  {
    order := [];
    batch := [];
    var remaining := rooms;
    while remaining != {}
      invariant remaining <= rooms
      invariant |batch| == |order|
      invariant forall i :: 0 <= i < |order| ==> order[i] in rooms && order[i] !in remaining
      invariant forall i :: 0 <= i < |order| ==> call(order[i]) == Ok(batch[i])
      invariant forall x :: x in rooms ==> x in remaining || x in order
      invariant forall i, j :: 0 <= i < j < |order| ==> order[i] != order[j]
      decreases |remaining|
    {
      var room :| room in remaining;
      order := order + [room];
      var result := call(room);
      if result.Err? {
        return Err(result.error), batch, order;
      }
      batch := batch + [result.value];
      remaining := remaining - {room};
    }
    return Ok(()), batch, order;
  }

  /** With an unrecognised status the first call already raises, so no room gets a message. */
  lemma SendsUnrecognised(o: NodeStruct, token: Json, url: Json, rooms: set<string>, config: Dict,
                          r: Result<()>, batch: seq<RoomMessage>, order: seq<string>)
    requires HasRooms(config)
    requires Sends(o, token, url, rooms, config, r, batch, order)
    requires !Plugins.Recognised(o.Status())
    ensures batch == [] && (rooms != {} <==> r.Err?)
  {
    assert |batch| > 0 ==> RoomCall(o, token, url, order[0], config).Ok?;
    assert r.Err? ==> order[|batch|] in rooms;
  }
}
