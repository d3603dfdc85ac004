/**
 * consulalerting/ConsulHealthStruct.py: a health record built from one
 * health-API object.  Its attributes never change after construction; only
 * Tags is assigned later, by `addTags`.
 */
module ConsulHealthStruct {
  import opened Wrappers
  import opened Health
  import Text

  /** A system check has neither a ServiceID nor a ServiceName. */
  predicate IsSystemCheck(e: Entry)
  {
    !Truthy(GetAttr(e, "ServiceID")) && !Truthy(GetAttr(e, "ServiceName"))
  }

  /**
   * The tag source `addTags` reads: `non_service_checks` for a system check,
   * otherwise `node_catalog["Services"][ServiceID]["Tags"]`, where a missing
   * catalog raises TypeError and a missing service raises KeyError.
   */
  function TagSourceOf(e: Entry, catalog: Option<NodeCatalog>, nonServiceChecks: TagSource): Result<TagSource>
  {
    if IsSystemCheck(e) then Ok(nonServiceChecks)
    else match catalog
      case None => Err(TypeError)
      case Some(services) =>
        match GetAttr(e, "ServiceID")
        case None => Err(KeyError)
        case Some(id) => if id in services then Ok(services[id]) else Err(KeyError)
  }

  /** The Tags value `addTags` assigns, or the exception it raises. */
  function TagsFor(e: Entry, catalog: Option<NodeCatalog>, nonServiceChecks: TagSource): (r: Result<seq<string>>)
    ensures r.Ok? ==> forall i :: 0 <= i < |r.value| ==> Text.IsLower(r.value[i])
    ensures TagSourceOf(e, catalog, nonServiceChecks) == Ok(Null) ==> r == Ok([])
    ensures TagSourceOf(e, catalog, nonServiceChecks) == Ok(Items([])) ==> r == Ok([])
    ensures TagSourceOf(e, catalog, nonServiceChecks) == Ok(Scalar(true)) ==> r == Err(TypeError)
    ensures TagSourceOf(e, catalog, nonServiceChecks).Err? ==> r.Err?
  {
    var source :- TagSourceOf(e, catalog, nonServiceChecks);
    if TagSourceTruthy(source) then
      match source
      case Items(ts) => Ok(Text.LowerAll(ts))
      case _ => Err(TypeError)
    else Ok([])
  }

  /**
   * `addTags` as written: both handlers log through
   * `ConsulHealthStruct.logger`, which neither the class nor `Settings`
   * defines, so the TypeError handler raises AttributeError instead of
   * re-raising.  A failed source lookup happens before the `try`.
   */
  function TagsForAsWritten(e: Entry, catalog: Option<NodeCatalog>, nonServiceChecks: TagSource): (r: Result<seq<string>>)
    ensures r.Ok? <==> TagsFor(e, catalog, nonServiceChecks).Ok?
    ensures r.Ok? ==> r == TagsFor(e, catalog, nonServiceChecks)
    ensures TagSourceOf(e, catalog, nonServiceChecks).Err? ==> r == Err(TagSourceOf(e, catalog, nonServiceChecks).error)
    ensures TagSourceOf(e, catalog, nonServiceChecks).Ok? && r.Err? ==> r == Err(AttributeError)
  {
    var source :- TagSourceOf(e, catalog, nonServiceChecks);
    if TagSourceTruthy(source) then
      match source
      case Items(ts) => Ok(Text.LowerAll(ts))
      case _ => Err(AttributeError)
    else Ok([])
  }

  /**
   * Where the intended `addTags` re-raises TypeError for a truthy scalar
   * `non_service_checks`, the written one raises AttributeError.
   */
  lemma TagsForAsWrittenDiffers(e: Entry, catalog: Option<NodeCatalog>)
    requires IsSystemCheck(e)
    ensures TagsFor(e, catalog, Scalar(true)) == Err(TypeError)
    ensures TagsForAsWritten(e, catalog, Scalar(true)) == Err(AttributeError)
  {
  }

  /** A system check takes its tags from `non_service_checks`, whatever the catalog holds. */
  lemma SystemCheckTags(e: Entry, catalog: Option<NodeCatalog>, tags: seq<string>)
    requires IsSystemCheck(e)
    ensures TagsFor(e, catalog, Items(tags)) == Ok(Text.LowerAll(tags))
    ensures TagsFor(e, catalog, Items(tags)) == TagsFor(e, None, Items(tags))
  {
  }

  /** A service check takes its tags from the catalog entry of its ServiceID. */
  lemma ServiceCheckTags(e: Entry, services: NodeCatalog, nonServiceChecks: TagSource, tags: seq<string>)
    requires !IsSystemCheck(e)
    requires "ServiceID" in e && e["ServiceID"] in services && services[e["ServiceID"]] == Items(tags)
    ensures TagsFor(e, Some(services), nonServiceChecks) == Ok(Text.LowerAll(tags))
  {
  }

  /**
   * A service check whose ServiceID is not a catalog key fails with
   * KeyError, even when its ServiceName is.
   */
  lemma ServiceCheckKeyedById(e: Entry, services: NodeCatalog, nonServiceChecks: TagSource)
    requires !IsSystemCheck(e)
    requires "ServiceID" !in e || e["ServiceID"] !in services
    ensures TagsFor(e, Some(services), nonServiceChecks) == Err(KeyError)
  {
  }

  class HealthStruct {
    /** The keyword arguments `__init__` copied into `__dict__`. */
    const entry: Entry
    /** Tags: None until `addTags` assigns it. */
    var tags: Option<seq<string>>

    constructor (entry: Entry)
      ensures this.entry == entry && tags == None
    {
      this.entry := entry;
      tags := None;
    }

    /** Attribute access through `__getattr__`. */
    function Field(name: string): Attr
    {
      GetAttr(entry, name)
    }

    function Status(): Attr
    {
      Field("Status")
    }

    /** `__hash__`: the identity tuple. */
    function Id(): Identity
    {
      IdentityOf(entry)
    }

    /** `__eq__`: identity tuples compared. */
    predicate Equals(other: HealthStruct)
    {
      Id() == other.Id()
    }

    /** `addTags`: assigns Tags, or raises and leaves it as it was. */
    method AddTags(catalog: Option<NodeCatalog>, nonServiceChecks: TagSource) returns (r: Result<()>)
      modifies this`tags
      ensures r.Ok? <==> TagsFor(entry, catalog, nonServiceChecks).Ok?
      ensures r.Ok? ==> tags == Some(TagsFor(entry, catalog, nonServiceChecks).value)
      ensures r.Err? ==> r.error == TagsFor(entry, catalog, nonServiceChecks).error && tags == old(tags)
    {
      var t := TagsFor(entry, catalog, nonServiceChecks);
      if t.Err? {
        return Err(t.error);
      }
      tags := Some(t.value);
      return Ok(());
    }
  }

  /** Two records are equal iff their five identity attributes agree. */
  lemma EqualsIff(a: HealthStruct, b: HealthStruct)
    ensures a.Equals(b) <==> forall k :: k in IDENTITY_KEYS ==> a.Field(k) == b.Field(k)
  {
    IdentityIff(a.entry, b.entry);
  }

  /** An attribute that was never set reads as None instead of failing. */
  lemma AbsentReadsNone(o: HealthStruct, name: string)
    requires name !in o.entry
    ensures o.Field(name) == None
  {
  }
}
