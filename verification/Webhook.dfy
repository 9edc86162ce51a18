/** The validating webhooks, proved to be the admission checks of the transition system. */
module Webhook {
  import opened Api
  import opened DeepCopy

  /** reflect.DeepEqual of two specs. */
  method MachineSpecsEqual(a: MachineSpecStruct, b: MachineSpecStruct) returns (eq: bool)
    ensures eq <==> MachineSpecValue(a) == MachineSpecValue(b)
  {
    eq := PointersEqual(a.providerID, b.providerID);
    eq := eq && a.flavor == b.flavor && a.image == b.image;
  }

  method ClusterSpecsEqual(a: ClusterSpecStruct, b: ClusterSpecStruct) returns (eq: bool)
    ensures eq <==> ClusterSpecValue(a) == ClusterSpecValue(b)
  {
    var sameSubnets := SlicesEqual(a.network.subnets, b.network.subnets);
    var sameCredentials := PointersEqual(a.credentials, b.credentials);
    eq := a.project == b.project && a.zone == b.zone && a.network.name == b.network.name && sameSubnets
      && a.sshKey == b.sshKey && a.endpoint == b.endpoint && sameCredentials;
  }

  /** A machine update is admitted exactly if the specs differ in the provider ID at most.
      Nothing that existed before is written: the override lands in a copy. */
  method ValidateMachineUpdate(oldMachine: MachineStruct, wxonemachine: MachineStruct) returns (ok: bool)
    ensures ok <==> MachineUpdateAdmitted(MachineSpecValue(oldMachine.spec), MachineSpecValue(wxonemachine.spec))
    ensures ok <==>
      oldMachine.spec.flavor == wxonemachine.spec.flavor && oldMachine.spec.image == wxonemachine.spec.image
  {
    var newMachineCopy := CopyMachine(wxonemachine);
    var oldMachineCopy := CopyMachine(oldMachine);
    newMachineCopy := newMachineCopy.(spec := newMachineCopy.spec.(providerID := oldMachineCopy.spec.providerID));
    ok := MachineSpecsEqual(newMachineCopy.spec, oldMachineCopy.spec);
  }

  /** A cluster update is admitted exactly if the specs differ in the endpoint at most. */
  method ValidateClusterUpdate(oldCluster: ClusterStruct, wxonecluster: ClusterStruct) returns (ok: bool)
    ensures ok <==> ClusterUpdateAdmitted(ClusterSpecValue(oldCluster.spec), ClusterSpecValue(wxonecluster.spec))
    ensures var o, n := oldCluster.spec, wxonecluster.spec;
      ok <==>
        && o.project == n.project && o.zone == n.zone && o.network.name == n.network.name && o.sshKey == n.sshKey
        && SliceValue(o.network.subnets) == SliceValue(n.network.subnets)
        && PointerValue(o.credentials) == PointerValue(n.credentials)
  {
    var newClusterCopy := CopyCluster(wxonecluster);
    var oldClusterCopy := CopyCluster(oldCluster);
    newClusterCopy := newClusterCopy.(spec := newClusterCopy.spec.(endpoint := oldClusterCopy.spec.endpoint));
    ok := ClusterSpecsEqual(newClusterCopy.spec, oldClusterCopy.spec);
  }

  /** A cluster is admitted on creation exactly if its project is the default one. */
  method ValidateClusterCreate(wxonecluster: ClusterStruct) returns (ok: bool)
    ensures ok <==> ClusterCreateAdmitted(ClusterSpecValue(wxonecluster.spec))
    ensures ok <==> wxonecluster.spec.project == "default"
  {
    ok := wxonecluster.spec.project == "default";
  }

  /** Admitted edits compose and can be undone: the frozen part is an equivalence, so no sequence
      of them gets around it. */
  lemma AdmissionIsEquivalence(a: MachineSpec, b: MachineSpec, c: MachineSpec,
                               x: ClusterSpec, y: ClusterSpec, z: ClusterSpec)
    ensures MachineUpdateAdmitted(a, b) && MachineUpdateAdmitted(b, c) ==> MachineUpdateAdmitted(c, a)
    ensures MachineUpdateAdmitted(a, b) <==> a.flavor == b.flavor && a.image == b.image
    ensures ClusterUpdateAdmitted(x, y) && ClusterUpdateAdmitted(y, z) ==> ClusterUpdateAdmitted(z, x)
    ensures ClusterUpdateAdmitted(x, y) <==> y == x.(endpoint := y.endpoint)
  {
    assert EraseEndpoint(x).(endpoint := y.endpoint) == x.(endpoint := y.endpoint);
    assert EraseEndpoint(y).(endpoint := y.endpoint) == y;
  }
}
