/** pkg/utils/managed_service_account_addon.go: the managed-serviceaccount
    add-on on the hub, the MultiClusterHub / MultiClusterEngine pickers and
    the component toggle that enables the feature on the engine. */
module Addons {
  import opened Errors
  import opened Unstructured
  import opened ApiTypes
  import opened Dynamic

  const AddonGvr: Gvr := Gvr("addon.open-cluster-management.io", "v1alpha1", "managedclusteraddons")
  const MchGvr: Gvr := Gvr("operator.open-cluster-management.io", "v1", "multiclusterhubs")
  const MceGvr: Gvr := Gvr("multicluster.openshift.io", "v1", "multiclusterengines")

  const AddonName: string := "managed-serviceaccount"
  const AddonInstallNamespace: string := "open-cluster-management-managed-serviceaccount"
  /** addonv1alpha1.ManagedClusterAddOnConditionAvailable */
  const ConditionAvailable: string := "Available"

  /** The engine's component toggles live at spec.overrides.components. */
  const ComponentsPath: seq<string> := ["spec", "overrides", "components"]
  const ComponentName: string := "managedserviceaccount"

  // ---------------------------------------------------------------------
  // The add-on record in the managed cluster's namespace

  /** The server's answer to the get of the add-on in the cluster's namespace. */
  function AddonLookup(hub: Client, cluster: ManagedCluster): Result<Object> {
    hub.get(AddonGvr, cluster.meta.name, AddonName)
  }

  /** GetManagedServiceAccountAddon: the add-on named managed-serviceaccount
      in the cluster's namespace, converted to its typed form. */
  function GetManagedServiceAccountAddon(hub: Client, conv: Converter, cluster: ManagedCluster): (r: Result<ManagedClusterAddOn>)
    ensures var lookup := AddonLookup(hub, cluster);
      && (IsNotFound(r) <==> IsNotFound(lookup))
      && (lookup.Err? ==> r == Err(lookup.error))
      && (r.Ok? <==> lookup.Ok? && conv.toAddon(lookup.value).Decoded?)
      && (r.Ok? ==> conv.toAddon(lookup.value) == Decoded(r.value))
  {
    DecodeLookup(AddonLookup(hub, cluster), conv.toAddon)
  }

  /** DoesManagedServiceAccountAddonExist: false exactly when the server
      says not-found; a success and every other failure both read as true. */
  function DoesManagedServiceAccountAddonExist(hub: Client, conv: Converter, cluster: ManagedCluster): (present: bool)
    ensures !present <==> IsNotFound(AddonLookup(hub, cluster))
  {
    !IsNotFound(GetManagedServiceAccountAddon(hub, conv, cluster))
  }

  /** IsManagedServiceAccountAddonAvailable: scans the add-on's conditions
      for Available=True; a failed lookup reads as not available. */
  method IsManagedServiceAccountAddonAvailable(hub: Client, conv: Converter, cluster: ManagedCluster) returns (available: bool)
    ensures available <==>
      GetManagedServiceAccountAddon(hub, conv, cluster).Ok? &&
      HasTrueCondition(GetManagedServiceAccountAddon(hub, conv, cluster).value.conditions, ConditionAvailable)
  {
    var addon := GetManagedServiceAccountAddon(hub, conv, cluster);
    if addon.Err? {
      return false;
    }
    var conditions := addon.value.conditions;
    for i := 0 to |conditions|
      invariant forall j :: 0 <= j < i ==> !(conditions[j].condType == ConditionAvailable && conditions[j].status == ConditionTrue)
    {
      if conditions[i].condType == ConditionAvailable {
        if conditions[i].status == ConditionTrue {
          return true;
        }
      }
    }
    return false;
  }

  /** The add-on request CreateManagedServiceAccountAddon sends. */
  function NewManagedServiceAccountAddon(cluster: ManagedCluster): (a: ManagedClusterAddOn)
    ensures a.meta.name == AddonName && a.meta.namespace == cluster.meta.name
    ensures a.installNamespace == AddonInstallNamespace
    ensures a.typeMeta == TypeMeta("ManagedClusterAddOn", "addon.open-cluster-management.io/v1alpha1")
    ensures a.conditions == []
  {
    ManagedClusterAddOn(
      TypeMeta("ManagedClusterAddOn", "addon.open-cluster-management.io/v1alpha1"),
      ObjectMeta(AddonName, "", cluster.meta.name),
      AddonInstallNamespace,
      [])
  }

  /** CreateManagedServiceAccountAddon: creates the add-on only when the
      lookup says not-found. An existing add-on is returned as found, and a
      lookup failing any other way gives neither an add-on nor an error. */
  function CreateManagedServiceAccountAddon(hub: Client, conv: Converter, cluster: ManagedCluster): (r: Result<Option<ManagedClusterAddOn>>)
    ensures var existing := GetManagedServiceAccountAddon(hub, conv, cluster);
      var request := conv.fromAddon(NewManagedServiceAccountAddon(cluster));
      var created := CreateDecoded(hub, AddonGvr, cluster.meta.name, request, conv.toAddon);
      && (existing.Ok? ==> r == Ok(Some(existing.value)))
      && (r == Ok(None) <==> existing.Err? && !IsNotFound(existing))
      && (r.Err? ==> IsNotFound(existing))
      && (IsNotFound(existing) && created.Ok? ==> r == Ok(Some(created.value)))
      && (IsNotFound(existing) && created.Err? ==> r == Err(created.error))
      && (IsNotFound(existing) && r.Ok? ==>
            request.Decoded? &&
            hub.create(AddonGvr, cluster.meta.name, request.value).Ok? &&
            r.value.Some? && conv.toAddon(hub.create(AddonGvr, cluster.meta.name, request.value).value) == Decoded(r.value.value))
  {
    var existing := GetManagedServiceAccountAddon(hub, conv, cluster);
    if IsNotFound(existing) then
      match CreateDecoded(hub, AddonGvr, cluster.meta.name, conv.fromAddon(NewManagedServiceAccountAddon(cluster)), conv.toAddon)
      case Err(e) => Err(e)
      case Ok(addon) => Ok(Some(addon))
    else if existing.Ok? then Ok(Some(existing.value))
    else Ok(None)
  }

  /** The create call plays no part unless the lookup said not-found: two
      hubs that answer the lookup alike, with anything but not-found, give
      the same outcome whatever their create calls would do. */
  lemma CreateOnlyWhenNotFound(hub: Client, other: Client, conv: Converter, cluster: ManagedCluster)
    requires AddonLookup(hub, cluster) == AddonLookup(other, cluster)
    requires !IsNotFound(AddonLookup(hub, cluster))
    ensures CreateManagedServiceAccountAddon(hub, conv, cluster) == CreateManagedServiceAccountAddon(other, conv, cluster)
  {
  }

  // ---------------------------------------------------------------------
  // MultiClusterHub and MultiClusterEngine

  /** GetMultiClusterHub: the first MultiClusterHub; not-found and an empty
      list both give no object and no error. */
  function GetMultiClusterHub(hub: Client): (r: Result<Option<Object>>)
    ensures hub.list(MchGvr, "").Err? && !IsNotFound(hub.list(MchGvr, "")) ==> r == Err(hub.list(MchGvr, "").error)
    ensures r == Ok(None) <==> IsNotFound(hub.list(MchGvr, "")) || hub.list(MchGvr, "") == Ok([])
    ensures hub.list(MchGvr, "").Ok? && |hub.list(MchGvr, "").value| > 0 ==> r == Ok(Some(hub.list(MchGvr, "").value[0]))
  {
    var mchs := hub.list(MchGvr, "");
    if mchs.Err? && !IsNotFound(mchs) then Err(mchs.error)
    else if IsNotFound(mchs) || |mchs.value| < 1 then Ok(None)
    else Ok(Some(mchs.value[0]))
  }

  /** GetMultiClusterEngine: the first MultiClusterEngine; every list error,
      not-found included, is returned, and an empty list is an error too. */
  function GetMultiClusterEngine(hub: Client): (r: Result<Object>)
    ensures hub.list(MceGvr, "").Err? ==> r == Err(hub.list(MceGvr, "").error)
    ensures hub.list(MceGvr, "") == Ok([]) ==> r == Err(EngineNotFound)
    ensures r.Ok? <==> hub.list(MceGvr, "").Ok? && |hub.list(MceGvr, "").value| > 0
    ensures r.Ok? ==> r.value == hub.list(MceGvr, "").value[0]
  {
    var mces := hub.list(MceGvr, "");
    if mces.Err? then Err(mces.error)
    else if |mces.value| < 1 then Err(EngineNotFound)
    else Ok(mces.value[0])
  }

  /** The two pickers differ only where nothing is found: over the same list
      outcome they pick the same object or report the same error, except that
      the hub picker answers "none" where the engine picker fails. */
  lemma PickersDifferOnlyOnAbsence(hub: Client)
    requires hub.list(MchGvr, "") == hub.list(MceGvr, "")
    requires FromServer(hub.list(MceGvr, ""))
    ensures GetMultiClusterHub(hub) == Ok(None) <==>
      GetMultiClusterEngine(hub) == Err(NotFound) || GetMultiClusterEngine(hub) == Err(EngineNotFound)
    ensures forall o :: GetMultiClusterHub(hub) == Ok(Some(o)) <==> GetMultiClusterEngine(hub) == Ok(o)
    ensures GetMultiClusterHub(hub).Err? ==> GetMultiClusterEngine(hub) == Err(GetMultiClusterHub(hub).error)
  {
  }

  // ---------------------------------------------------------------------
  // The component toggle on the engine

  /** The entry SetManagedServiceAcccount writes. */
  function ComponentEntry(state: bool): Json {
    JObj(map["enabled" := JBool(state), "name" := JStr(ComponentName)])
  }

  /** A component entry whose "name" is managedserviceaccount. */
  predicate IsManagedServiceAccountComponent(c: Json) {
    c.JObj? && "name" in c.fields && c.fields["name"] == JStr(ComponentName)
  }

  predicate AllMaps(components: seq<Json>) {
    forall j :: 0 <= j < |components| ==> components[j].JObj?
  }

  predicate NoneNamed(components: seq<Json>) {
    forall j :: 0 <= j < |components| ==> !IsManagedServiceAccountComponent(components[j])
  }

  /** k is the last position holding a managedserviceaccount entry. */
  predicate IsLastMatch(components: seq<Json>, k: int) {
    0 <= k < |components| && IsManagedServiceAccountComponent(components[k]) &&
    forall j :: k < j < |components| ==> !IsManagedServiceAccountComponent(components[j])
  }

  /** The index the toggle loop ends with: the last match, or -1. */
  function LastMatch(components: seq<Json>): (k: int)
    ensures k == -1 || IsLastMatch(components, k)
    ensures k == -1 <==> NoneNamed(components)
    decreases |components|
  {
    if |components| == 0 then -1
    else if IsManagedServiceAccountComponent(components[|components| - 1]) then |components| - 1
    else LastMatch(components[..|components| - 1])
  }

  /** The list the toggle writes back: every entry must be a map; the last
      managedserviceaccount entry is replaced, or a new entry appended. */
  function ToggleComponents(components: seq<Json>, state: bool): (r: Result<seq<Json>>)
    ensures r.Err? <==> !AllMaps(components)
    ensures r.Err? ==> r.error == ComponentNotMap
    ensures r.Ok? ==> forall k :: IsLastMatch(components, k) ==> r.value == components[k := ComponentEntry(state)]
    ensures r.Ok? && NoneNamed(components) ==> r.value == components + [ComponentEntry(state)]
  {
    if !AllMaps(components) then Err(ComponentNotMap)
    else
      var k := LastMatch(components);
      if k < 0 then Ok(components + [ComponentEntry(state)])
      else Ok(components[k := ComponentEntry(state)])
  }

  /** A second toggle undoes nothing but the first one's state: the list
      ends exactly as if only the second had been applied. */
  lemma {:induction false} ToggleLastWriteWins(components: seq<Json>, first: bool, second: bool)
    requires ToggleComponents(components, first).Ok?
    ensures ToggleComponents(ToggleComponents(components, first).value, second) == ToggleComponents(components, second)
  {
    var once := ToggleComponents(components, first).value;
    assert AllMaps(once);
    var k := LastMatch(components);
    if k < 0 {
      assert once == components + [ComponentEntry(first)];
      assert IsLastMatch(once, |components|);
      assert once[|components| := ComponentEntry(second)] == components + [ComponentEntry(second)];
    } else {
      assert once == components[k := ComponentEntry(first)];
      assert IsLastMatch(once, k);
      assert once[k := ComponentEntry(second)] == components[k := ComponentEntry(second)];
    }
  }

  /** The whole-object effect of SetManagedServiceAcccount. */
  function ToggledObject(obj: Object, state: bool): Result<Object> {
    match NestedSlice(obj, ComponentsPath)
    case None => Err(ComponentsMissing)
    case Some(components) =>
      match ToggleComponents(components, state)
      case Err(e) => Err(e)
      case Ok(toggled) => SetNestedSlice(obj, toggled, ComponentsPath)
  }

  /** The toggle fails exactly when spec.overrides.components is not a list
      or holds an entry that is not a map, and then with that error; the
      write-back itself never fails. */
  lemma ToggledObjectErrors(obj: Object, state: bool)
    ensures ToggledObject(obj, state).Err? <==>
      NestedSlice(obj, ComponentsPath).None? || !AllMaps(NestedSlice(obj, ComponentsPath).value)
    ensures NestedSlice(obj, ComponentsPath).None? ==> ToggledObject(obj, state) == Err(ComponentsMissing)
    ensures NestedSlice(obj, ComponentsPath).Some? && !AllMaps(NestedSlice(obj, ComponentsPath).value) ==>
      ToggledObject(obj, state) == Err(ComponentNotMap)
  {
    if NestedSlice(obj, ComponentsPath).Some? && AllMaps(NestedSlice(obj, ComponentsPath).value) {
      SetWhereFound(obj, JList(ToggleComponents(NestedSlice(obj, ComponentsPath).value, state).value), ComponentsPath);
    }
  }

  /** On success the components read back as the toggled list, the object
      keeps its top-level keys, and every field off the components path is
      unchanged. */
  lemma ToggledObjectWritesOnlyComponents(obj: Object, state: bool, other: seq<string>)
    requires ToggledObject(obj, state).Ok?
    requires |other| > 0 && Diverge(ComponentsPath, other)
    ensures NestedSlice(obj, ComponentsPath).Some?
    ensures NestedSlice(ToggledObject(obj, state).value, ComponentsPath) ==
      Some(ToggleComponents(NestedSlice(obj, ComponentsPath).value, state).value)
    ensures ToggledObject(obj, state).value.Keys == obj.Keys
    ensures NestedField(ToggledObject(obj, state).value, other) == NestedField(obj, other)
  {
    var toggled := ToggleComponents(NestedSlice(obj, ComponentsPath).value, state).value;
    SetWhereFound(obj, JList(toggled), ComponentsPath);
    SetKeepsOtherFields(obj, JList(toggled), ComponentsPath, other);
  }

  /** Toggling twice leaves the object as the second toggle alone would. */
  lemma ToggledObjectLastWriteWins(obj: Object, first: bool, second: bool)
    requires ToggledObject(obj, first).Ok?
    ensures ToggledObject(ToggledObject(obj, first).value, second) == ToggledObject(obj, second)
  {
    var components := NestedSlice(obj, ComponentsPath).value;
    var once := ToggleComponents(components, first).value;
    SetWhereFound(obj, JList(once), ComponentsPath);
    SetTwice(obj, JList(once), JList(ToggleComponents(components, second).value), ComponentsPath);
    ToggleLastWriteWins(components, first, second);
  }

  /** Applying the toggle twice with the same state equals applying it once. */
  lemma ToggledObjectIdempotent(obj: Object, state: bool)
    requires ToggledObject(obj, state).Ok?
    ensures ToggledObject(ToggledObject(obj, state).value, state) == ToggledObject(obj, state)
  {
    ToggledObjectLastWriteWins(obj, state, state);
  }

  /** SetManagedServiceAcccount: reads the component list, finds the last
      managedserviceaccount entry, overwrites or appends it, and writes the
      list back into the object. On every error the object is untouched. */
  method SetManagedServiceAccount(m: Unstructured, state: bool) returns (err: Option<Error>)
    modifies m
    ensures ToggledObject(old(m.obj), state).Ok? ==> err == None && m.obj == ToggledObject(old(m.obj), state).value
    ensures ToggledObject(old(m.obj), state).Err? ==> err == Some(ToggledObject(old(m.obj), state).error) && m.obj == old(m.obj)
  {
    var found := NestedSlice(m.obj, ComponentsPath);
    if found.None? {
      return Some(ComponentsMissing);
    }
    var components := found.value;
    var idx := -1;
    var elem := ComponentEntry(state);
    for i := 0 to |components|
      invariant idx == LastMatch(components[..i])
      invariant AllMaps(components[..i])
    {
      var c := components[i];
      if !c.JObj? {
        return Some(ComponentNotMap);
      }
      assert components[..i + 1][..i] == components[..i];
      if "name" in c.fields && c.fields["name"] == JStr(ComponentName) {
        idx := i;
      }
    }
    assert components[..|components|] == components;
    if idx < 0 {
      components := components + [elem];
    } else {
      components := components[idx := elem];
    }
    // The read above went through maps all the way down, so writing the list
    // back cannot fail and the source's check of SetNestedSlice's error never
    // fires.
    SetWhereFound(m.obj, JList(components), ComponentsPath);
    m.obj := SetNestedSlice(m.obj, components, ComponentsPath).value;
    return None;
  }

  /** EnableManagedServiceAccountFeature: toggles managedserviceaccount on in
      the first MultiClusterEngine and sends the engine back with an update.
      When the engine lookup or the toggle fails no update is sent: the
      outcome does not involve the update call at all. */
  method EnableManagedServiceAccountFeature(hub: Client) returns (err: Option<Error>)
    ensures match GetMultiClusterEngine(hub)
      case Err(e) => err == Some(e)
      case Ok(engine) =>
        match ToggledObject(engine, true)
        case Err(e) => err == Some(e)
        case Ok(toggled) => err == ErrorOf(hub.update(MceGvr, "", toggled))
  {
    var mce := GetMultiClusterEngine(hub);
    if mce.Err? {
      return Some(mce.error);
    }
    var m := new Unstructured(mce.value);
    err := SetManagedServiceAccount(m, true);
    if err.Some? {
      return err;
    }
    var updated := hub.update(MceGvr, "", m.obj);
    return ErrorOf(updated);
  }
}
