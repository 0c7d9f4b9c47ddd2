/** pkg/utils/helper.go: choosing the managed cluster to run against. The
    configured cluster names come from the suite's options file; here they
    are a parameter. */
module Helper {
  import opened Errors
  import opened ApiTypes
  import opened Dynamic
  import opened ManagedClusters

  /** The first configured cluster, in configuration order, that the hub
      knows; None when no lookup succeeds. Lookup errors are skipped and
      never reported. */
  function FirstImported(hub: Client, conv: Converter, names: seq<string>): (r: Option<ManagedCluster>)
    ensures r.Some? <==> exists i :: 0 <= i < |names| && GetManagedCluster(hub, conv, names[i]).Ok?
    ensures r.Some? ==>
      exists i :: 0 <= i < |names| && GetManagedCluster(hub, conv, names[i]) == Ok(r.value) &&
        forall j :: 0 <= j < i ==> GetManagedCluster(hub, conv, names[j]).Err?
    decreases |names|
  {
    if |names| == 0 then None
    else match GetManagedCluster(hub, conv, names[0])
      case Ok(c) => Some(c)
      case Err(_) =>
        var r := FirstImported(hub, conv, names[1..]);
        assert forall i :: 1 <= i < |names| ==> names[i] == names[1..][i - 1];
        r
  }

  /** Once a lookup succeeds, the clusters configured after it play no part:
      appending names to the configuration does not change the choice. */
  lemma {:induction false} LaterClustersUnexamined(hub: Client, conv: Converter, names: seq<string>, later: seq<string>)
    requires FirstImported(hub, conv, names).Some?
    ensures FirstImported(hub, conv, names + later) == FirstImported(hub, conv, names)
    decreases |names|
  {
    assert (names + later)[0] == names[0];
    if GetManagedCluster(hub, conv, names[0]).Err? {
      assert (names + later)[1..] == names[1..] + later;
      LaterClustersUnexamined(hub, conv, names[1..], later);
    }
  }

  /** GetImportedCluster: tries each configured cluster name in turn,
      skipping those whose lookup fails, and stops at the first success. */
  method GetImportedCluster(hub: Client, conv: Converter, configured: seq<string>) returns (r: Option<ManagedCluster>)
    ensures r == FirstImported(hub, conv, configured)
  {
    for i := 0 to |configured|
      invariant FirstImported(hub, conv, configured[i..]) == FirstImported(hub, conv, configured)
    {
      assert configured[i..][0] == configured[i] && configured[i..][1..] == configured[i + 1..];
      var managedCluster := GetManagedCluster(hub, conv, configured[i]);
      if managedCluster.Err? {
        continue;
      }
      return Some(managedCluster.value);
    }
    assert configured[|configured|..] == [];
    return None;
  }
}
