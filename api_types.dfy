/** The typed API objects the helpers read, reduced to the fields they use,
    and the unstructured converter, which is a foreign library and so is
    modelled as a bundle of opaque partial functions. */
module ApiTypes {
  import opened Errors
  import opened Unstructured

  newtype byte = x: int | 0 <= x < 256

  /** metav1.ConditionTrue, the status string of a condition that holds. */
  const ConditionTrue: string := "True"

  /** time.Hour, in nanoseconds (the unit of Go's time.Duration). */
  const Hour: int := 60 * 60 * 1000000000

  datatype TypeMeta = TypeMeta(kind: string, apiVersion: string)

  datatype ObjectMeta = ObjectMeta(name: string, generateName: string, namespace: string)

  datatype Condition = Condition(condType: string, status: string)

  datatype ManagedCluster = ManagedCluster(meta: ObjectMeta)

  datatype ManagedClusterAddOn = ManagedClusterAddOn(
    typeMeta: TypeMeta,
    meta: ObjectMeta,
    installNamespace: string,       // spec.installNamespace
    conditions: seq<Condition>)     // status.conditions

  datatype Rotation = Rotation(enabled: bool, validity: int)

  datatype ManagedServiceAccount = ManagedServiceAccount(
    typeMeta: TypeMeta,
    meta: ObjectMeta,
    rotation: Rotation,             // spec.rotation
    tokenSecretRef: Option<string>, // status.tokenSecretRef (a pointer, nil until the token is reported), by its name
    conditions: seq<Condition>)     // status.conditions

  datatype Secret = Secret(meta: ObjectMeta, data: map<string, seq<byte>>)

  datatype TokenReview = TokenReview(
    typeMeta: TypeMeta,
    meta: ObjectMeta,
    token: string,                  // spec.token
    authenticated: bool,            // status.authenticated
    username: string)               // status.user.username

  /** The outcome of one conversion: the converted value, or the
      converter's complaint about the input's shape. */
  datatype Decoded<T> = Decoded(value: T) | Malformed(reason: string)

  /** runtime.DefaultUnstructuredConverter: FromUnstructured per kind the
      helpers read, and ToUnstructured per kind they send. */
  datatype Converter = Converter(
    toCluster: Object -> Decoded<ManagedCluster>,
    toAddon: Object -> Decoded<ManagedClusterAddOn>,
    toAccount: Object -> Decoded<ManagedServiceAccount>,
    toSecret: Object -> Decoded<Secret>,
    toTokenReview: Object -> Decoded<TokenReview>,
    fromAddon: ManagedClusterAddOn -> Decoded<Object>,
    fromAccount: ManagedServiceAccount -> Decoded<Object>,
    fromTokenReview: TokenReview -> Decoded<Object>)

  /** Turns a conversion failure into the error the helpers return. */
  function Decode<T>(d: Decoded<T>): (r: Result<T>)
    ensures r.Ok? <==> d.Decoded?
    ensures r.Ok? ==> r.value == d.value
    ensures r.Err? ==> r.error == ConversionFailed(d.reason)
  {
    match d
    case Decoded(v) => Ok(v)
    case Malformed(reason) => Err(ConversionFailed(reason))
  }

  /** The get-then-convert pattern of every typed getter: a failed lookup is
      returned as it is, and a conversion failure never reads as not-found. */
  function DecodeLookup<T>(lookup: Result<Object>, decode: Object -> Decoded<T>): (r: Result<T>)
    ensures IsNotFound(r) <==> IsNotFound(lookup)
    ensures lookup.Err? ==> r == Err(lookup.error)
    ensures r.Ok? <==> lookup.Ok? && decode(lookup.value).Decoded?
    ensures r.Ok? ==> decode(lookup.value) == Decoded(r.value)
  {
    match lookup
    case Err(e) => Err(e)
    case Ok(u) => Decode(decode(u))
  }

  /** Some condition of type `t` has status "True". */
  predicate HasTrueCondition(conditions: seq<Condition>, t: string) {
    exists i :: 0 <= i < |conditions| && conditions[i].condType == t && conditions[i].status == ConditionTrue
  }

  /** Whether a condition holds does not depend on where it stands in the
      list: any reordering of the same conditions gives the same answer. */
  lemma ConditionOrderIrrelevant(a: seq<Condition>, b: seq<Condition>, t: string)
    requires multiset(a) == multiset(b)
    ensures HasTrueCondition(a, t) <==> HasTrueCondition(b, t)
  {
    if HasTrueCondition(a, t) {
      var i :| 0 <= i < |a| && a[i].condType == t && a[i].status == ConditionTrue;
      assert a[i] in multiset(b);
      var j :| 0 <= j < |b| && b[j] == a[i];
    }
    if HasTrueCondition(b, t) {
      var j :| 0 <= j < |b| && b[j].condType == t && b[j].status == ConditionTrue;
      assert b[j] in multiset(a);
      var i :| 0 <= i < |a| && a[i] == b[j];
    }
  }

  /** Go's string(b): the token's bytes become the string's code units one
      for one. */
  function BytesToString(b: seq<byte>): (s: string)
    ensures |s| == |b|
    ensures forall i :: 0 <= i < |b| ==> s[i] as int == b[i] as int
  {
    seq(|b|, i requires 0 <= i < |b| => (b[i] as int) as char)
  }
}
