/** pkg/utils/managed_service_account.go: the ManagedServiceAccount in the
    managed cluster's namespace on the hub, its token secret, the username
    the token should authenticate as, and the token review that checks it. */
module ServiceAccounts {
  import opened Errors
  import opened Unstructured
  import opened ApiTypes
  import opened Dynamic
  import Addons

  const MsaGvr: Gvr := Gvr("authentication.open-cluster-management.io", "v1alpha1", "managedserviceaccounts")
  const SecretGvr: Gvr := Gvr("", "v1", "secrets")
  const TokenReviewGvr: Gvr := Gvr("authentication.k8s.io", "v1", "tokenreviews")

  /** msav1alpha1.ConditionTypeSecretCreated and ConditionTypeTokenReported */
  const ConditionSecretCreated: string := "SecretCreated"
  const ConditionTokenReported: string := "TokenReported"

  const TokenKey: string := "token"
  const UserNamePrefix: string := "system:serviceaccount:"
  const TokenReviewName: string := "token-review-request"

  // ---------------------------------------------------------------------
  // Reading and listing

  /** GetManagedServiceAccount: the account `name` in the cluster's
      namespace, converted to its typed form. */
  function GetManagedServiceAccount(hub: Client, conv: Converter, cluster: ManagedCluster, name: string): (r: Result<ManagedServiceAccount>)
    ensures IsNotFound(r) <==> IsNotFound(hub.get(MsaGvr, cluster.meta.name, name))
    ensures hub.get(MsaGvr, cluster.meta.name, name).Err? ==> r == Err(hub.get(MsaGvr, cluster.meta.name, name).error)
    ensures r.Ok? <==> hub.get(MsaGvr, cluster.meta.name, name).Ok? && conv.toAccount(hub.get(MsaGvr, cluster.meta.name, name).value).Decoded?
    ensures r.Ok? ==> conv.toAccount(hub.get(MsaGvr, cluster.meta.name, name).value) == Decoded(r.value)
  {
    DecodeLookup(hub.get(MsaGvr, cluster.meta.name, name), conv.toAccount)
  }

  /** unstructuredListToManagedServiceAccountList: converts the items one by
      one, in order, and gives up at the first item that fails to convert,
      returning that item's error. */
  method ConvertManagedServiceAccountList(conv: Converter, items: seq<Object>) returns (r: Result<seq<ManagedServiceAccount>>)
    ensures r.Ok? <==> forall i :: 0 <= i < |items| ==> conv.toAccount(items[i]).Decoded?
    ensures r.Ok? ==> |r.value| == |items| && forall i :: 0 <= i < |items| ==> conv.toAccount(items[i]) == Decoded(r.value[i])
    ensures r.Err? ==>
      exists k :: 0 <= k < |items| && conv.toAccount(items[k]).Malformed? &&
        r.error == ConversionFailed(conv.toAccount(items[k]).reason) &&
        forall j :: 0 <= j < k ==> conv.toAccount(items[j]).Decoded?
  {
    var accounts: seq<ManagedServiceAccount> := [];
    for i := 0 to |items|
      invariant |accounts| == i
      invariant forall j :: 0 <= j < i ==> conv.toAccount(items[j]) == Decoded(accounts[j])
    {
      match conv.toAccount(items[i]) {
        case Malformed(reason) =>
          return Err(ConversionFailed(reason));
        case Decoded(account) =>
          accounts := accounts + [account];
      }
    }
    return Ok(accounts);
  }

  /** ListManagedServiceAccount: the accounts in the cluster's namespace. */
  method ListManagedServiceAccount(hub: Client, conv: Converter, cluster: ManagedCluster) returns (r: Result<seq<ManagedServiceAccount>>)
    ensures hub.list(MsaGvr, cluster.meta.name).Err? ==> r == Err(hub.list(MsaGvr, cluster.meta.name).error)
    ensures r.Ok? ==>
      hub.list(MsaGvr, cluster.meta.name).Ok? &&
      var items := hub.list(MsaGvr, cluster.meta.name).value;
      |r.value| == |items| && forall i :: 0 <= i < |items| ==> conv.toAccount(items[i]) == Decoded(r.value[i])
    ensures hub.list(MsaGvr, cluster.meta.name).Ok? ==>
      (r.Ok? <==> forall i :: 0 <= i < |hub.list(MsaGvr, cluster.meta.name).value| ==>
                    conv.toAccount(hub.list(MsaGvr, cluster.meta.name).value[i]).Decoded?)
    ensures hub.list(MsaGvr, cluster.meta.name).Ok? && r.Err? ==>
      var items := hub.list(MsaGvr, cluster.meta.name).value;
      exists k :: 0 <= k < |items| && conv.toAccount(items[k]).Malformed? &&
        r.error == ConversionFailed(conv.toAccount(items[k]).reason) &&
        forall j :: 0 <= j < k ==> conv.toAccount(items[j]).Decoded?
  {
    var items := hub.list(MsaGvr, cluster.meta.name);
    if items.Err? {
      return Err(items.error);
    }
    r := ConvertManagedServiceAccountList(conv, items.value);
  }

  /** DoesManagedServiceAccountExist: false exactly when the server says
      not-found; a success and every other failure both read as true. */
  function DoesManagedServiceAccountExist(hub: Client, conv: Converter, cluster: ManagedCluster, name: string): (present: bool)
    ensures !present <==> IsNotFound(hub.get(MsaGvr, cluster.meta.name, name))
  {
    !IsNotFound(GetManagedServiceAccount(hub, conv, cluster, name))
  }

  /** Both SecretCreated=True and TokenReported=True are among the
      conditions, wherever they stand. */
  predicate ConditionsComplete(conditions: seq<Condition>) {
    HasTrueCondition(conditions, ConditionSecretCreated) && HasTrueCondition(conditions, ConditionTokenReported)
  }

  /** Completion does not depend on the order of the conditions. */
  lemma CompletionOrderIrrelevant(a: seq<Condition>, b: seq<Condition>)
    requires multiset(a) == multiset(b)
    ensures ConditionsComplete(a) <==> ConditionsComplete(b)
  {
    ConditionOrderIrrelevant(a, b, ConditionSecretCreated);
    ConditionOrderIrrelevant(a, b, ConditionTokenReported);
  }

  /** IsManagedServiceAccountComplete: a failed lookup reads as incomplete;
      otherwise one pass over the conditions raises a flag for each of the
      two conditions found true, and both flags must be up. */
  method IsManagedServiceAccountComplete(hub: Client, conv: Converter, cluster: ManagedCluster, name: string) returns (complete: bool)
    ensures complete <==>
      GetManagedServiceAccount(hub, conv, cluster, name).Ok? &&
      ConditionsComplete(GetManagedServiceAccount(hub, conv, cluster, name).value.conditions)
  {
    var tokenReported := false;
    var secretCreated := false;
    var account := GetManagedServiceAccount(hub, conv, cluster, name);
    if account.Err? {
      return false;
    }
    var conditions := account.value.conditions;
    for i := 0 to |conditions|
      invariant secretCreated <==>
        exists j :: 0 <= j < i && conditions[j].condType == ConditionSecretCreated && conditions[j].status == ConditionTrue
      invariant tokenReported <==>
        exists j :: 0 <= j < i && conditions[j].condType == ConditionTokenReported && conditions[j].status == ConditionTrue
    {
      var condition := conditions[i];
      if condition.condType == ConditionSecretCreated {
        if condition.status == ConditionTrue {
          secretCreated := true;
        }
      } else if condition.condType == ConditionTokenReported {
        if condition.status == ConditionTrue {
          tokenReported := true;
        }
      }
    }
    return secretCreated && tokenReported;
  }

  // ---------------------------------------------------------------------
  // Creating

  /** The account request CreateManagedServiceAccount sends: the server
      picks the name from the prefix; the token rotates every hour. */
  function NewManagedServiceAccount(cluster: ManagedCluster, namePrefix: string): (a: ManagedServiceAccount)
    ensures a.meta.generateName == namePrefix && a.meta.name == ""
    ensures a.meta.namespace == cluster.meta.name
    ensures a.rotation.enabled && a.rotation.validity == Hour
    ensures a.typeMeta == TypeMeta("ManagedServiceAccount", "authentication.open-cluster-management.io/v1alpha1")
    ensures a.tokenSecretRef.None? && a.conditions == []
  {
    ManagedServiceAccount(
      TypeMeta("ManagedServiceAccount", "authentication.open-cluster-management.io/v1alpha1"),
      ObjectMeta("", namePrefix, cluster.meta.name),
      Rotation(true, Hour),
      None,
      [])
  }

  /** CreateManagedServiceAccount: sends the request to the cluster's
      namespace and returns the account the server answered with, whose
      name the server generated. */
  function CreateManagedServiceAccount(hub: Client, conv: Converter, cluster: ManagedCluster, namePrefix: string): (r: Result<ManagedServiceAccount>)
    ensures var request := conv.fromAccount(NewManagedServiceAccount(cluster, namePrefix));
      && (request.Malformed? ==> r == Err(ConversionFailed(request.reason)))
      && (request.Decoded? && hub.create(MsaGvr, cluster.meta.name, request.value).Err? ==>
            r == Err(hub.create(MsaGvr, cluster.meta.name, request.value).error))
      && (r.Ok? <==>
            request.Decoded? && hub.create(MsaGvr, cluster.meta.name, request.value).Ok? &&
            conv.toAccount(hub.create(MsaGvr, cluster.meta.name, request.value).value).Decoded?)
      && (r.Ok? ==> conv.toAccount(hub.create(MsaGvr, cluster.meta.name, request.value).value) == Decoded(r.value))
  {
    CreateDecoded(hub, MsaGvr, cluster.meta.name, conv.fromAccount(NewManagedServiceAccount(cluster, namePrefix)), conv.toAccount)
  }

  // ---------------------------------------------------------------------
  // The token

  /** getSecret: the secret `name` in `namespace`, converted. */
  function GetSecret(hub: Client, conv: Converter, name: string, namespace: string): (r: Result<Secret>)
    ensures IsNotFound(r) <==> IsNotFound(hub.get(SecretGvr, namespace, name))
    ensures hub.get(SecretGvr, namespace, name).Err? ==> r == Err(hub.get(SecretGvr, namespace, name).error)
    ensures r.Ok? <==> hub.get(SecretGvr, namespace, name).Ok? && conv.toSecret(hub.get(SecretGvr, namespace, name).value).Decoded?
    ensures r.Ok? ==> conv.toSecret(hub.get(SecretGvr, namespace, name).value) == Decoded(r.value)
  {
    DecodeLookup(hub.get(SecretGvr, namespace, name), conv.toSecret)
  }

  /** The secret lookup an account's token reference leads to, in the
      cluster's namespace. */
  function TokenSecretLookup(hub: Client, cluster: ManagedCluster, account: ManagedServiceAccount): Result<Object>
    requires account.tokenSecretRef.Some?
  {
    hub.get(SecretGvr, cluster.meta.name, account.tokenSecretRef.value)
  }

  /** GetManagedServiceAccountSecret: the secret named by the account's
      status.tokenSecretRef.name, read from the cluster's namespace. An
      account whose reference is still nil stops at NilTokenSecretRef, where
      the Go code dereferences the nil pointer. */
  function GetManagedServiceAccountSecret(hub: Client, conv: Converter, cluster: ManagedCluster, name: string): (r: Result<Secret>)
    ensures var account := GetManagedServiceAccount(hub, conv, cluster, name);
      && (account.Err? ==> r == Err(account.error))
      && (account.Ok? && account.value.tokenSecretRef.None? ==> r == Err(NilTokenSecretRef))
      && (account.Ok? && account.value.tokenSecretRef.Some? && TokenSecretLookup(hub, cluster, account.value).Err? ==>
            r == Err(TokenSecretLookup(hub, cluster, account.value).error))
      && (r.Ok? <==>
            account.Ok? && account.value.tokenSecretRef.Some? &&
            TokenSecretLookup(hub, cluster, account.value).Ok? &&
            conv.toSecret(TokenSecretLookup(hub, cluster, account.value).value).Decoded?)
      && (r.Ok? ==> conv.toSecret(TokenSecretLookup(hub, cluster, account.value).value) == Decoded(r.value))
      && (IsNotFound(r) <==>
            IsNotFound(account) ||
            (account.Ok? && account.value.tokenSecretRef.Some? && IsNotFound(TokenSecretLookup(hub, cluster, account.value))))
  {
    match GetManagedServiceAccount(hub, conv, cluster, name)
    case Err(e) => Err(e)
    case Ok(account) =>
      match account.tokenSecretRef
      case None => Err(NilTokenSecretRef)
      case Some(secretName) => GetSecret(hub, conv, secretName, cluster.meta.name)
  }

  /** The bytes under the "token" key; a missing key reads as no bytes, as
      indexing a Go map does. */
  function TokenBytes(secret: Secret): seq<byte> {
    if TokenKey in secret.data then secret.data[TokenKey] else []
  }

  /** GetManagedServiceAccountToken: the secret's token as a string; a
      missing or empty token is the "empty token" error. */
  function GetManagedServiceAccountToken(hub: Client, conv: Converter, cluster: ManagedCluster, name: string): (r: Result<string>)
    ensures var secret := GetManagedServiceAccountSecret(hub, conv, cluster, name);
      && (secret.Err? ==> r == Err(secret.error))
      && (secret.Ok? ==> (r == Err(EmptyToken) <==> TokenKey !in secret.value.data || |secret.value.data[TokenKey]| == 0))
      && (secret.Ok? && TokenKey in secret.value.data && |secret.value.data[TokenKey]| > 0 ==>
            r == Ok(BytesToString(secret.value.data[TokenKey])))
      && (r.Ok? ==>
            secret.Ok? && TokenKey in secret.value.data &&
            |r.value| == |secret.value.data[TokenKey]| > 0 &&
            forall i :: 0 <= i < |r.value| ==> r.value[i] as int == secret.value.data[TokenKey][i] as int)
  {
    match GetManagedServiceAccountSecret(hub, conv, cluster, name)
    case Err(e) => Err(e)
    case Ok(secret) =>
      if |TokenBytes(secret)| == 0 then Err(EmptyToken)
      else Ok(BytesToString(TokenBytes(secret)))
  }

  // ---------------------------------------------------------------------
  // The username

  /** The username Kubernetes gives a service account. */
  function ServiceAccountUserName(namespace: string, account: string): string {
    UserNamePrefix + namespace + ":" + account
  }

  /** The position of the first ':' in s, or |s| when there is none. */
  function ColonIndex(s: string): (k: nat)
    ensures k <= |s|
    ensures k < |s| ==> s[k] == ':'
    ensures forall j :: 0 <= j < k ==> s[j] != ':'
    decreases |s|
  {
    if |s| == 0 then 0
    else if s[0] == ':' then 0
    else 1 + ColonIndex(s[1..])
  }

  /** Reads a service account's username back into namespace and account. */
  function SplitServiceAccountUserName(u: string): Option<(string, string)> {
    if |u| < |UserNamePrefix| || u[..|UserNamePrefix|] != UserNamePrefix then None
    else
      var rest := u[|UserNamePrefix|..];
      var k := ColonIndex(rest);
      if k == |rest| then None else Some((rest[..k], rest[k + 1..]))
  }

  /** A username built from a namespace without ':' reads back as the
      namespace and account it was built from (namespace names cannot hold
      ':'), so the username identifies the account. */
  lemma UserNameRoundTrip(namespace: string, account: string)
    requires ':' !in namespace
    ensures SplitServiceAccountUserName(ServiceAccountUserName(namespace, account)) == Some((namespace, account))
  {
    var u := ServiceAccountUserName(namespace, account);
    assert u[..|UserNamePrefix|] == UserNamePrefix;
    var rest := u[|UserNamePrefix|..];
    assert rest == namespace + ":" + account;
    var k := ColonIndex(rest);
    assert rest[|namespace|] == ':';
    assert k == |namespace|;
    assert rest[..k] == namespace;
    assert rest[k + 1..] == account;
  }

  /** Conversely, every username that splits was built from its parts. */
  lemma SplitUserNameSound(u: string)
    requires SplitServiceAccountUserName(u).Some?
    ensures var (namespace, account) := SplitServiceAccountUserName(u).value;
      ':' !in namespace && u == ServiceAccountUserName(namespace, account)
  {
  }

  /** Accounts in namespaces without ':' (which namespace names cannot hold)
      never share a username. */
  lemma UserNameInjective(n1: string, a1: string, n2: string, a2: string)
    requires ':' !in n1 && ':' !in n2
    requires ServiceAccountUserName(n1, a1) == ServiceAccountUserName(n2, a2)
    ensures n1 == n2 && a1 == a2
  {
    UserNameRoundTrip(n1, a1);
    UserNameRoundTrip(n2, a2);
  }

  /** GetManagedServiceAccountUserName: the username the account's token
      should authenticate as, from the add-on's install namespace. */
  function GetManagedServiceAccountUserName(hub: Client, conv: Converter, cluster: ManagedCluster, accountName: string): (r: Result<string>)
    ensures var addon := Addons.GetManagedServiceAccountAddon(hub, conv, cluster);
      && (addon.Err? ==> r == Err(addon.error))
      && (addon.Ok? ==> r == Ok(ServiceAccountUserName(addon.value.installNamespace, accountName)))
      && (addon.Ok? && ':' !in addon.value.installNamespace ==>
            SplitServiceAccountUserName(r.value) == Some((addon.value.installNamespace, accountName)))
  {
    match Addons.GetManagedServiceAccountAddon(hub, conv, cluster)
    case Err(e) => Err(e)
    case Ok(addon) =>
      var userName := ServiceAccountUserName(addon.installNamespace, accountName);
      assert ':' !in addon.installNamespace ==> SplitServiceAccountUserName(userName) == Some((addon.installNamespace, accountName)) by {
        if ':' !in addon.installNamespace {
          UserNameRoundTrip(addon.installNamespace, accountName);
        }
      }
      Ok(userName)
  }

  // ---------------------------------------------------------------------
  // The token review

  /** The token review request ValidateManagedServiceAccountToken sends. */
  function NewTokenReview(token: string): (review: TokenReview)
    ensures review.meta.name == TokenReviewName && review.token == token
    ensures review.typeMeta == TypeMeta("TokenReview", "authentication.k8s.io/v1")
  {
    TokenReview(TypeMeta("TokenReview", "authentication.k8s.io/v1"), ObjectMeta(TokenReviewName, "", ""), token, false, "")
  }

  /** The review the managed cluster returns for the token (cluster-scoped). */
  function ReviewToken(managed: Client, conv: Converter, token: string): Result<TokenReview> {
    CreateDecoded(managed, TokenReviewGvr, "", conv.fromTokenReview(NewTokenReview(token)), conv.toTokenReview)
  }

  /** ValidateManagedServiceAccountToken: (true, no error) only when the
      review is authenticated and names the expected user. The
      authentication check comes first, so an unauthenticated review is
      "fail to authenticate" whatever its username. */
  function ValidateManagedServiceAccountToken(managed: Client, conv: Converter, token: string, expectedUserName: string): (r: (bool, Option<Error>))
    ensures r.0 <==> r.1.None?
    ensures var review := ReviewToken(managed, conv, token);
      && (r.0 <==> review.Ok? && review.value.authenticated && review.value.username == expectedUserName)
      && (review.Err? ==> r == (false, Some(review.error)))
      && (review.Ok? && !review.value.authenticated ==> r == (false, Some(AuthenticationFailed)))
      && (review.Ok? && review.value.authenticated && review.value.username != expectedUserName ==>
            r == (false, Some(UserNameMismatch(expectedUserName))))
  {
    match ReviewToken(managed, conv, token)
    case Err(e) => (false, Some(e))
    case Ok(review) =>
      if !review.authenticated then (false, Some(AuthenticationFailed))
      else if review.username != expectedUserName then (false, Some(UserNameMismatch(expectedUserName)))
      else (true, None)
  }
}
