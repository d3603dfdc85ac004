/**
 * consul-alerting/ConsulHealthNodeStruct.py: the legacy health record.  It
 * differs from the current one in how `addTags` finds the service's tags
 * (by ServiceName) and in having no guard for a null or empty tag source.
 */
module ConsulHealthNodeStruct {
  import opened Wrappers
  import opened Health
  import Text
  import ConsulHealthStruct

  // The class constants of the legacy record.
  const LEGACY_WARNING_STATE: string := "warning"
  const LEGACY_CRITICAL_STATE: string := "critical"
  const LEGACY_PASSING_STATE: string := "passing"
  const LEGACY_UNKNOWN_STATE: string := "unknown"
  const LEGACY_ANY_STATE: string := "any"

  /** The legacy vocabulary is exactly the current one. */
  function LegacyStates(): (r: set<string>)
    ensures r == States()
  {
    {LEGACY_WARNING_STATE, LEGACY_CRITICAL_STATE, LEGACY_PASSING_STATE, LEGACY_UNKNOWN_STATE, LEGACY_ANY_STATE}
  }

  /** A system check has neither a ServiceID nor a ServiceName. */
  predicate IsSystemCheck(e: Entry)
  {
    !Truthy(GetAttr(e, "ServiceID")) && !Truthy(GetAttr(e, "ServiceName"))
  }

  /**
   * The tag source: `non_service_checks` for a system check, otherwise
   * `node_catalog["Services"][ServiceName]["Tags"]`.  A missing catalog
   * raises TypeError, a service name that is not a key raises KeyError.
   */
  function TagSourceOf(e: Entry, catalog: Option<NodeCatalog>, nonServiceChecks: TagSource): Result<TagSource>
  {
    if IsSystemCheck(e) then Ok(nonServiceChecks)
    else match catalog
      case None => Err(TypeError)
      case Some(services) =>
        match GetAttr(e, "ServiceName")
        case None => Err(KeyError)
        case Some(name) => if name in services then Ok(services[name]) else Err(KeyError)
  }

  /**
   * The Tags value: the source lower-cased when it is a list; mapping over
   * null or over a scalar raises TypeError.
   */
  function TagsFor(e: Entry, catalog: Option<NodeCatalog>, nonServiceChecks: TagSource): (r: Result<seq<string>>)
    ensures r.Ok? <==> TagSourceOf(e, catalog, nonServiceChecks).Ok? && TagSourceOf(e, catalog, nonServiceChecks).value.Items?
    ensures r.Ok? ==> r.value == Text.LowerAll(TagSourceOf(e, catalog, nonServiceChecks).value.tags)
    ensures TagSourceOf(e, catalog, nonServiceChecks).Ok? && !TagSourceOf(e, catalog, nonServiceChecks).value.Items?
            ==> r == Err(TypeError)
    ensures r.Ok? ==> forall i :: 0 <= i < |r.value| ==> Text.IsLower(r.value[i])
  {
    var source :- TagSourceOf(e, catalog, nonServiceChecks);
    match source
    case Items(ts) => Ok(Text.LowerAll(ts))
    case _ => Err(TypeError)
  }

  /** A system check takes its tags from `non_service_checks`. */
  lemma SystemCheckTags(e: Entry, catalog: Option<NodeCatalog>, tags: seq<string>)
    requires IsSystemCheck(e)
    ensures TagsFor(e, catalog, Items(tags)) == Ok(Text.LowerAll(tags))
  {
  }

  /**
   * A service check takes its tags from the catalog entry of its
   * ServiceName; its ServiceID is never consulted.
   */
  lemma ServiceCheckKeyedByName(e: Entry, services: NodeCatalog, nonServiceChecks: TagSource, id: string)
    requires !IsSystemCheck(e) && "ServiceName" in e && e["ServiceName"] in services
    requires Truthy(Some(id))
    ensures TagSourceOf(e, Some(services), nonServiceChecks) == Ok(services[e["ServiceName"]])
    ensures TagsFor(e["ServiceID" := id], Some(services), nonServiceChecks) == TagsFor(e, Some(services), nonServiceChecks)
  {
  }

  /**
   * Without the empty-list guard, a null tag source raises TypeError where
   * the current record gets [].
   */
  lemma NullTagsRaise(e: Entry, catalog: Option<NodeCatalog>)
    requires IsSystemCheck(e)
    ensures TagsFor(e, catalog, Null) == Err(TypeError)
    ensures ConsulHealthStruct.TagsFor(e, catalog, Null) == Ok([])
  {
  }

  class NodeStruct {
    /** The keyword arguments copied into `__dict__`. */
    const entry: Entry
    /** Tags: None until `addTags` assigns it. */
    var tags: Option<seq<string>>

    /** The `__dict__.update(kwargs)` half of `__init__`. */
    constructor (entry: Entry)
      ensures this.entry == entry && tags == None
    {
      this.entry := entry;
      tags := None;
    }

    function Field(name: string): Attr
    {
      GetAttr(entry, name)
    }

    function Status(): Attr
    {
      Field("Status")
    }

    /** `__hash__`: the identity tuple. */
    function Id(): Identity
    {
      IdentityOf(entry)
    }

    /** `__eq__`: identity tuples compared. */
    predicate Equals(other: NodeStruct)
    {
      Id() == other.Id()
    }

    /** `addTags`: assigns Tags, or raises and leaves it as it was. */
    method AddTags(catalog: Option<NodeCatalog>, nonServiceChecks: TagSource) returns (r: Result<()>)
      modifies this`tags
      ensures r.Ok? <==> TagsFor(entry, catalog, nonServiceChecks).Ok?
      ensures r.Ok? ==> tags == Some(TagsFor(entry, catalog, nonServiceChecks).value)
      ensures r.Err? ==> r.error == TagsFor(entry, catalog, nonServiceChecks).error && tags == old(tags)
    {
      var t := TagsFor(entry, catalog, nonServiceChecks);
      if t.Err? {
        return Err(t.error);
      }
      tags := Some(t.value);
      return Ok(());
    }
  }

  /**
   * `ConsulHealthNodeStruct(node_catalog, non_service_checks, **kwargs)`:
   * the attributes are copied and `addTags` runs at once; its exception
   * escapes the constructor, so no record is made.
   */
  method Construct(catalog: Option<NodeCatalog>, nonServiceChecks: TagSource, entry: Entry)
    returns (r: Result<NodeStruct>)
    ensures r.Ok? <==> TagsFor(entry, catalog, nonServiceChecks).Ok?
    ensures r.Err? ==> r.error == TagsFor(entry, catalog, nonServiceChecks).error
    ensures r.Ok? ==> fresh(r.value) && r.value.entry == entry
                      && r.value.tags == Some(TagsFor(entry, catalog, nonServiceChecks).value)
  {
    var o := new NodeStruct(entry);
    var added := o.AddTags(catalog, nonServiceChecks);
    if added.Err? {
      return Err(added.error);
    }
    return Ok(o);
  }

  /** Two legacy records are equal iff their five identity attributes agree. */
  lemma EqualsIff(a: NodeStruct, b: NodeStruct)
    ensures a.Equals(b) <==> forall k :: k in IDENTITY_KEYS ==> a.Field(k) == b.Field(k)
  {
    IdentityIff(a.entry, b.entry);
  }
}
