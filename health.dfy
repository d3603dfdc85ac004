/**
 * What both packages share about one health check: the attribute map the
 * health API returns for it, the status vocabulary, the identity tuple that
 * `__hash__` and `__eq__` use, and the shape of the tag sources `addTags`
 * reads.
 */
module Health {
  import opened Wrappers
  import Text

  // The status vocabulary (consulalerting/settings.py, and the class
  // constants of consul-alerting/ConsulHealthNodeStruct.py).
  const WARNING_STATE: string := "warning"
  const CRITICAL_STATE: string := "critical"
  const PASSING_STATE: string := "passing"
  const UNKNOWN_STATE: string := "unknown"
  const ANY_STATE: string := "any"

  /** The status strings a check can report or be queried by. */
  function States(): (r: set<string>)
    ensures |r| == 5
  {
    var r := {WARNING_STATE, CRITICAL_STATE, PASSING_STATE, UNKNOWN_STATE, ANY_STATE};
    assert WARNING_STATE != CRITICAL_STATE && PASSING_STATE != UNKNOWN_STATE;
    assert WARNING_STATE[0] == 'w' && CRITICAL_STATE[0] == 'c' && PASSING_STATE[0] == 'p';
    assert UNKNOWN_STATE[0] == 'u' && ANY_STATE[0] == 'a';
    r
  }

  /** One object of the health API, attribute name to value. */
  type Entry = map<string, string>

  /** An attribute as Python reads it: None when it was never set. */
  type Attr = Option<string>

  /** `__getattr__` returns None for an attribute that was never set. */
  function GetAttr(e: Entry, name: string): Attr
  {
    if name in e then Some(e[name]) else None
  }

  /** Python truthiness of an attribute: set and non-empty. */
  predicate Truthy(a: Attr)
  {
    a.Some? && a.value != ""
  }

  /** `str(a)` as `str.format` renders it. */
  function Str(a: Attr): string
  {
    match a
    case None => "None"
    case Some(s) => s
  }

  /** The identity tuple (Node, CheckID, Name, ServiceID, ServiceName). */
  datatype Identity = Identity(node: Attr, checkId: Attr, name: Attr, serviceId: Attr, serviceName: Attr)

  const IDENTITY_KEYS: set<string> := {"Node", "CheckID", "Name", "ServiceID", "ServiceName"}

  function IdentityOf(e: Entry): Identity
  {
    Identity(GetAttr(e, "Node"), GetAttr(e, "CheckID"), GetAttr(e, "Name"),
             GetAttr(e, "ServiceID"), GetAttr(e, "ServiceName"))
  }

  /** Two entries have the same identity iff they agree on the five identity attributes. */
  lemma IdentityIff(a: Entry, b: Entry)
    ensures IdentityOf(a) == IdentityOf(b) <==> forall k :: k in IDENTITY_KEYS ==> GetAttr(a, k) == GetAttr(b, k)
  {
    if IdentityOf(a) == IdentityOf(b) {
      forall k | k in IDENTITY_KEYS ensures GetAttr(a, k) == GetAttr(b, k) {
      }
    }
  }

  /** Changing an attribute outside the identity (Status, Notes, Output, ...) keeps the identity. */
  lemma IdentityIgnoresOtherAttributes(e: Entry, k: string, v: string)
    requires k !in IDENTITY_KEYS
    ensures IdentityOf(e[k := v]) == IdentityOf(e)
  {
  }

  /**
   * A decoded tag source as `addTags` receives it: JSON null, a list of
   * tags, or a non-iterable scalar (a number or boolean) with its Python
   * truthiness.
   */
  datatype TagSource = Null | Items(tags: seq<string>) | Scalar(truthy: bool)

  predicate TagSourceTruthy(t: TagSource)
  {
    match t
    case Null => false
    case Items(ts) => ts != []
    case Scalar(b) => b
  }

  /** `node_catalog["Services"]` reduced to each service's "Tags" value. */
  type NodeCatalog = map<string, TagSource>
}
