# managed-serviceaccount e2e helpers, modelled in Dafny

The repository is an end-to-end test suite for the ManagedServiceAccount
add-on of a multi-cluster management hub. Almost every helper in `pkg/utils`
is one Kubernetes API call. This project models the decision logic around
those calls:

- the component toggle that enables `managedserviceaccount` in the
  MultiClusterEngine's `spec.overrides.components` list;
- how a lookup outcome becomes an answer: the "exists" checks, the
  "available" and "complete" condition scans, the MultiClusterHub and
  MultiClusterEngine pickers and their different handling of not-found, and
  the create-if-not-found add-on routine;
- the credential checks: the token read from the account's secret, the
  service-account username format, and the token-review verdict;
- the first-match choice of the managed cluster to test against.

The API server is an oracle. `Dynamic.Client` holds four functions (get,
list, create and update), each answering with a `Result` that is an
object, `NotFound` or some other error. The unstructured converter is a
foreign library, so `ApiTypes.Converter` is a bundle of opaque partial
functions. A conversion failure becomes `ConversionFailed`, which can never
read as not-found. Untyped objects are `Unstructured.Json` trees. The
`Unstructured.Unstructured` class wraps an object map, as Go's
`*unstructured.Unstructured` does, and the toggle updates it in place.

Modules follow the source files:

- `managed_service_account_addon.dfy` is `Addons`.
- `managed_service_account.dfy` is `ServiceAccounts`.
- `helper.dfy` is `Helper`.
- `managed_cluster.dfy` is `ManagedClusters`.
- `errors.dfy`, `unstructured.dfy`, `api_types.dfy` and `dynamic.dfy` hold
  the error kinds, the JSON model with its nested-field accessors, the typed
  objects and the client oracle.

Two modelling notes:

- `Unstructured.NestedSlice` reports every failure with found = false. So the
  toggle's `!ok` check catches every failure, and its `err != nil` branch
  (pkg/utils/managed_service_account_addon.go:127-129) can never be taken.
  The model has a single `ComponentsMissing` error for that step.
- Writing the list back (line 152) happens only after the read succeeded
  through maps all the way down. `Unstructured.SetWhereFound` proves that
  this write cannot fail. The method therefore has no error branch there,
  and the spec function `ToggledObject` is proved never to yield `FieldNotMap`.

The source function's name is spelled `SetManagedServiceAcccount`, with
three c's. The model spells it `SetManagedServiceAccount`.

## Model

| member | source | states |
|---|---|---|
| `Addons.GetManagedServiceAccountAddon` | pkg/utils/managed_service_account_addon.go:159-181 | Looks up the add-on named managed-serviceaccount in the cluster's namespace. Every server error, not-found included, is returned unchanged, and not-found arises only from the server. The result is a success exactly when the lookup succeeds and converts, and then it is the converted server object. |
| `Addons.DoesManagedServiceAccountAddonExist` | pkg/utils/managed_service_account_addon.go:43-54 | False if and only if the lookup reported not-found. Success and every other error give true. |
| `Addons.IsManagedServiceAccountAddonAvailable` | pkg/utils/managed_service_account_addon.go:56-73 | True if and only if the lookup succeeds and some condition is Available with status "True". A lookup error gives false. |
| `ApiTypes.ConditionOrderIrrelevant` | pkg/utils/managed_service_account_addon.go:65-72 | Whether a condition type has status "True" does not depend on the order of the conditions. Any permutation gives the same answer. |
| `Addons.NewManagedServiceAccountAddon` | pkg/utils/managed_service_account_addon.go:195-207 | The add-on request is named managed-serviceaccount and lives in the cluster's namespace. Its install namespace is open-cluster-management-managed-serviceaccount, and it has the ManagedClusterAddOn kind and API version. |
| `Addons.CreateManagedServiceAccountAddon` | pkg/utils/managed_service_account_addon.go:183-236 | An existing add-on is returned as found. A lookup failing with anything but not-found gives no add-on and no error. Errors arise only on the not-found path. There, the result is exactly the outcome of the create. A conversion failure of the request, or the server's create error, is returned as the error. A create that succeeds and converts gives the converted server answer. |
| `Addons.CreateOnlyWhenNotFound` | pkg/utils/managed_service_account_addon.go:193-235 | Unless the lookup said not-found, the create call plays no part. Two hubs that answer the lookup alike give the same outcome. |
| `Addons.GetMultiClusterHub` | pkg/utils/managed_service_account_addon.go:75-89 | Propagates list errors other than not-found. Not-found or an empty list gives no object and no error, and nothing else does. A non-empty list always gives its first item. |
| `Addons.GetMultiClusterEngine` | pkg/utils/managed_service_account_addon.go:91-105 | Propagates every list error, not-found included. An empty list is the "MulticlusterEngine CR not found." error. Otherwise it returns the first item. |
| `Addons.PickersDifferOnlyOnAbsence` | pkg/utils/managed_service_account_addon.go:76-105 | Over the same server answer, the hub picker returns "none" exactly where the engine picker fails with not-found or engine-not-found. Otherwise the two pick the same object or report the same error. |
| `Addons.LastMatch` | pkg/utils/managed_service_account_addon.go:130-143 | The loop's final idx is the last position whose entry has name managedserviceaccount, or -1 exactly when no entry has that name. |
| `Addons.ToggleComponents` | pkg/utils/managed_service_account_addon.go:135-151 | Fails with the component-format error if and only if some entry is not a map. If some entry has the name, the entry at the last such index becomes exactly {enabled: state, name: managedserviceaccount}, so the length is unchanged and every other entry keeps its value and position. If no entry has the name, that entry is appended after an unchanged prefix. |
| `Addons.ToggleLastWriteWins` | pkg/utils/managed_service_account_addon.go:130-151 | Toggling the list twice gives what the second toggle alone gives. |
| `Addons.ToggledObjectErrors` | pkg/utils/managed_service_account_addon.go:122-139 | The toggle fails exactly when spec.overrides.components is absent or not a list (ComponentsMissing), or holds a non-map entry (ComponentNotMap). The write-back never fails. |
| `Addons.ToggledObjectWritesOnlyComponents` | pkg/utils/managed_service_account_addon.go:144-156 | On success the components path reads back as the toggled list. The top-level keys are kept, and every field on a path that diverges from spec.overrides.components is unchanged. |
| `Addons.ToggledObjectLastWriteWins` | pkg/utils/managed_service_account_addon.go:122-157 | Toggling the object twice leaves it as the second toggle alone would. |
| `Addons.ToggledObjectIdempotent` | pkg/utils/managed_service_account_addon.go:130-156 | Applying the toggle twice with the same state gives the same object, and so the same component list, as applying it once. |
| `Addons.SetManagedServiceAccount` | pkg/utils/managed_service_account_addon.go:122-157 | The loop method's new object is the toggled object. On every error it returns that error and leaves the object unchanged. |
| `Addons.EnableManagedServiceAccountFeature` | pkg/utils/managed_service_account_addon.go:107-120 | The engine lookup error or the toggle error is returned without any update call. Otherwise the result is the outcome of updating the engine with the toggled object. |
| `Unstructured.SetWhereFound` | pkg/utils/managed_service_account_addon.go:123-155 | Writing a nested field where a read succeeded cannot fail. The field then reads back as the written value, and the object keeps its keys. |
| `Dynamic.CreateDecoded` | pkg/utils/managed_service_account.go:132-155 | A request that fails to convert is a conversion error, and a failed create returns the server's error. A success is the conversion of the server's answer, not of the request. |
| `ApiTypes.DecodeLookup` | pkg/utils/managed_service_account.go:47-59 | A getter returns a failed lookup as it is. A conversion failure never reads as not-found, so the getter is not-found exactly when the server said so. |
| `ServiceAccounts.GetManagedServiceAccount` | pkg/utils/managed_service_account.go:36-60 | Looks up the account in the cluster's namespace. Every server error, not-found included, is returned unchanged, and not-found arises only from the server. The result is a success exactly when the lookup succeeds and converts, and then it is the converted server object. |
| `ServiceAccounts.ConvertManagedServiceAccountList` | pkg/utils/managed_service_account.go:88-100 | Succeeds if and only if every item converts, and then keeps length and order. Otherwise it returns the error of the first item that fails, after items that all converted. |
| `ServiceAccounts.ListManagedServiceAccount` | pkg/utils/managed_service_account.go:62-86 | A list error is returned as it is. After a successful list, the result is a success exactly when every item converts, and then it holds the converted items in order. Otherwise the error is that of the first item that fails to convert. |
| `ServiceAccounts.DoesManagedServiceAccountExist` | pkg/utils/managed_service_account.go:158-169 | False if and only if the lookup reported not-found. Every other outcome gives true. |
| `ServiceAccounts.CompletionOrderIrrelevant` | pkg/utils/managed_service_account.go:185-199 | Whether SecretCreated=True and TokenReported=True are both present does not depend on the order of the conditions. |
| `ServiceAccounts.IsManagedServiceAccountComplete` | pkg/utils/managed_service_account.go:171-200 | True if and only if the lookup succeeds and the conditions contain both a SecretCreated=True entry and a TokenReported=True entry, at any positions. A lookup error gives false. |
| `ServiceAccounts.NewManagedServiceAccount` | pkg/utils/managed_service_account.go:113-130 | The request has GenerateName equal to the prefix, an empty name and the cluster's namespace. Rotation is enabled with a validity of one hour. The status is empty: no token reference and no conditions. |
| `ServiceAccounts.CreateManagedServiceAccount` | pkg/utils/managed_service_account.go:102-156 | A request that fails to convert is a conversion error, and a failed create returns the server's error. The result is a success exactly when the create succeeds and its answer converts, and then it is the converted answer. |
| `ServiceAccounts.GetSecret` | pkg/utils/managed_service_account.go:213-239 | Reads the named secret in the given namespace. Every server error is returned unchanged. The result is a success exactly when the get succeeds and converts, and then it is the converted secret. |
| `ServiceAccounts.GetManagedServiceAccountSecret` | pkg/utils/managed_service_account.go:241-259 | The secret is read from the cluster's namespace under the account's status.tokenSecretRef.name. Errors from either lookup are returned unchanged. A nil reference gives the NilTokenSecretRef error. The result is a success exactly when the account lookup succeeds, the reference is set, and the secret is found and converts. |
| `ServiceAccounts.GetManagedServiceAccountToken` | pkg/utils/managed_service_account.go:261-276 | A missing or empty "token" key gives the "empty token" error. A non-empty token always gives success: the string with the token's bytes one for one. Secret errors pass through. |
| `ApiTypes.BytesToString` | pkg/utils/managed_service_account.go:275 | Go's string(bytes) keeps the length and every byte. |
| `ServiceAccounts.UserNameRoundTrip` | pkg/utils/managed_service_account.go:308 | A username "system:serviceaccount:" + namespace + ":" + account, with no ':' in the namespace, splits back into exactly that namespace and account. |
| `ServiceAccounts.SplitUserNameSound` | pkg/utils/managed_service_account.go:308 | Every username that splits was built in that format from its parts, with a namespace free of ':'. |
| `ServiceAccounts.UserNameInjective` | pkg/utils/managed_service_account.go:308 | Two accounts in namespaces free of ':' share a username only if they have the same namespace and the same name. So the username identifies the account. |
| `ServiceAccounts.GetManagedServiceAccountUserName` | pkg/utils/managed_service_account.go:298-311 | An add-on lookup error is returned as it is. Otherwise the result is always "system:serviceaccount:" + install namespace + ":" + account. When the install namespace has no ':', that name splits back into the namespace and the account. |
| `ServiceAccounts.NewTokenReview` | pkg/utils/managed_service_account.go:324-335 | The review request is named token-review-request, carries the token, and has the TokenReview kind and API version. |
| `ServiceAccounts.ValidateManagedServiceAccountToken` | pkg/utils/managed_service_account.go:313-362 | Returns (true, no error) only if the review is authenticated and its username equals the expected one. Every other outcome is false with an error. An unauthenticated review is "fail to authenticate" even when the name also mismatches. Review errors pass through. |
| `ManagedClusters.GetManagedCluster` | pkg/utils/managed_cluster.go:28-53 | Looks up the cluster-scoped managed cluster by name. Every server error is returned unchanged. The result is a success exactly when the lookup succeeds and converts, and then it is the converted object. |
| `Helper.FirstImported` | pkg/utils/helper.go:24-37 | Returns some cluster if and only if some configured lookup succeeds. It is the first configured cluster, in configuration order, whose lookup succeeds, after lookups that all failed. It is none, with no error, when no lookup succeeds. |
| `Helper.LaterClustersUnexamined` | pkg/utils/helper.go:33 | Once a lookup succeeds, clusters configured after it play no part. Appending names never changes the choice. |
| `Helper.GetImportedCluster` | pkg/utils/helper.go:24-38 | The loop, which skips failed lookups and returns at the first success, computes exactly the first-match choice. Lookup errors are never reported. |

## Left out

- ServiceAccounts.GetManagedServiceAccountSecret: an account whose status.tokenSecretRef is still nil makes the Go code dereference a nil pointer and panic (pkg/utils/managed_service_account.go:251). A panic is not a return value, so the model returns the NilTokenSecretRef error there instead.
- The Delete helpers (`DeleteManagedServiceAccountAddon`, `DeleteManagedServiceAccount`) are single client calls whose answer is returned unchanged. They hold no decision logic.
- Client construction from the suite's options (pkg/clients/clients.go) and the Ginkgo scenario with its `Eventually` polling (pkg/tests/e2e) are not modelled. They are configuration, wall-clock timing and a live cluster. The configured cluster names are a parameter of `Helper.GetImportedCluster`.
- Logging (`klog.Errorf`, `fmt.Println`) is a side effect only.
- The unstructured converter is opaque: its round trip is not modelled, and which inputs it rejects is left to the oracle.
- JSON floating-point numbers are not in `Unstructured.Json`. So component entries holding floats cannot be represented. The toggle would carry such entries over unchanged, as it does every other entry it does not rewrite.
- The error values stand for the source's messages by kind (for example `UserNameMismatch(expected)`), not by their exact text.
- Go strings are sequences of characters here. A token's bytes become characters one for one, which keeps the length and every byte.

