/** Values of the two API kinds, as the API server stores them, and the merge
    patch that the patch helper sends. Pointer and slice structure is in DeepCopy. */
module Api {
  datatype Option<+T> = None | Some(value: T)

  /** A cloud ID as kept in a status field; `Unset` is Go's empty string. */
  datatype Id = Unset | Uuid(text: string)

  /** The name of a machine object, unique in its namespace. */
  type Key = string

  datatype Subnet = Subnet(name: string, ipVersion: string, cidr: string)
  datatype Endpoint = Endpoint(host: string, port: int)
  datatype SSHKey = SSHKey(name: string, publicKey: string, projectWide: bool)

  /** `subnets` distinguishes a nil slice from an empty one, as reflect.DeepEqual does. */
  datatype ClusterSpec = ClusterSpec(
    project: string, zone: string, networkName: string, subnets: Option<seq<Subnet>>,
    sshKey: SSHKey, endpoint: Endpoint, credentials: Option<string>)

  datatype ClusterStatus = ClusterStatus(
    ready: bool, project: Id, network: Id, subnet: Id, floatingIP: Id, ip: string, sshKey: Id)

  datatype ClusterObj = ClusterObj(finalizer: bool, spec: ClusterSpec, status: ClusterStatus)

  datatype MachineSpec = MachineSpec(flavor: string, image: string, providerID: Option<string>)

  datatype MachineStatus = MachineStatus(
    ready: bool, addresses: seq<string>, flavor: Id, image: Id, instance: Id, attachment: Id)

  datatype MachineObj = MachineObj(finalizer: bool, spec: MachineSpec, status: MachineStatus)

  /** The port of kube-apiserver, wxonecluster_controller.go:222. */
  const API_PORT := 6443

  function ProviderID(id: Id): string
  {
    "wxone://" + if id.Uuid? then id.text else ""
  }

  /** One field of a merge patch: sent only if it differs from the object the helper was made from. */
  function MergeField<T(==)>(before: T, after: T, stored: T): T
  {
    if after != before then after else stored
  }

  /** A nested object is merged leaf by leaf. */
  function MergeEndpoint(before: Endpoint, after: Endpoint, stored: Endpoint): Endpoint
  {
    Endpoint(MergeField(before.host, after.host, stored.host), MergeField(before.port, after.port, stored.port))
  }

  function MergeKey(before: SSHKey, after: SSHKey, stored: SSHKey): SSHKey
  {
    SSHKey(
      MergeField(before.name, after.name, stored.name),
      MergeField(before.publicKey, after.publicKey, stored.publicKey),
      MergeField(before.projectWide, after.projectWide, stored.projectWide))
  }

  function MergeMachine(before: MachineObj, after: MachineObj, stored: MachineObj): MachineObj
  {
    var b, a, o := before.status, after.status, stored.status;
    MachineObj(
      MergeField(before.finalizer, after.finalizer, stored.finalizer),
      MachineSpec(
        MergeField(before.spec.flavor, after.spec.flavor, stored.spec.flavor),
        MergeField(before.spec.image, after.spec.image, stored.spec.image),
        MergeField(before.spec.providerID, after.spec.providerID, stored.spec.providerID)),
      MachineStatus(
        MergeField(b.ready, a.ready, o.ready),
        MergeField(b.addresses, a.addresses, o.addresses),
        MergeField(b.flavor, a.flavor, o.flavor),
        MergeField(b.image, a.image, o.image),
        MergeField(b.instance, a.instance, o.instance),
        MergeField(b.attachment, a.attachment, o.attachment)))
  }

  function MergeCluster(before: ClusterObj, after: ClusterObj, stored: ClusterObj): ClusterObj
  {
    var b, a, o := before.status, after.status, stored.status;
    var bs, as', os := before.spec, after.spec, stored.spec;
    ClusterObj(
      MergeField(before.finalizer, after.finalizer, stored.finalizer),
      ClusterSpec(
        MergeField(bs.project, as'.project, os.project),
        MergeField(bs.zone, as'.zone, os.zone),
        MergeField(bs.networkName, as'.networkName, os.networkName),
        MergeField(bs.subnets, as'.subnets, os.subnets),
        MergeKey(bs.sshKey, as'.sshKey, os.sshKey),
        MergeEndpoint(bs.endpoint, as'.endpoint, os.endpoint),
        MergeField(bs.credentials, as'.credentials, os.credentials)),
      ClusterStatus(
        MergeField(b.ready, a.ready, o.ready),
        MergeField(b.project, a.project, o.project),
        MergeField(b.network, a.network, o.network),
        MergeField(b.subnet, a.subnet, o.subnet),
        MergeField(b.floatingIP, a.floatingIP, o.floatingIP),
        MergeField(b.ip, a.ip, o.ip),
        MergeField(b.sshKey, a.sshKey, o.sshKey)))
  }

  /** A patch whose snapshot is what is stored leaves what was in memory, and one that changes nothing
      leaves what is stored. */
  lemma PatchesMeet(b: MachineObj, a: MachineObj, o: MachineObj, x: ClusterObj, y: ClusterObj, z: ClusterObj)
    ensures MergeMachine(o, a, o) == a && MergeMachine(b, b, o) == o
    ensures MergeCluster(z, y, z) == y && MergeCluster(x, x, z) == z
  {
  }

  /** The specification of ValidateCreate for clusters. */
  predicate ClusterCreateAdmitted(spec: ClusterSpec)
  {
    spec.project == "default"
  }

  /** The specification of ValidateUpdate for clusters: equal once the endpoint is erased. */
  function EraseEndpoint(spec: ClusterSpec): ClusterSpec
  {
    spec.(endpoint := Endpoint("", 0))
  }

  predicate ClusterUpdateAdmitted(old_: ClusterSpec, new_: ClusterSpec)
  {
    EraseEndpoint(old_) == EraseEndpoint(new_)
  }

  /** The specification of ValidateUpdate for machines: equal once the provider ID is erased. */
  function EraseProviderID(spec: MachineSpec): MachineSpec
  {
    spec.(providerID := None)
  }

  predicate MachineUpdateAdmitted(old_: MachineSpec, new_: MachineSpec)
  {
    EraseProviderID(old_) == EraseProviderID(new_)
  }
}
