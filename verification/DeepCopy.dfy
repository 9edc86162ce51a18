/** The generated deep copies. A Go struct is a value that may hold slices and pointers, so it
    is a datatype here whose slices are arrays and whose pointers are cells; copying the
    datatype is what `*out = *in` does, and it shares every array and cell. */
module DeepCopy {
  import opened Api

  class Cell<T> {
    var value: T

    constructor (value: T)
      ensures this.value == value
    {
      this.value := value;
    }
  }

  /** The backing array of a slice, if the slice is not nil. */
  function SliceCells<T>(a: array?<T>): set<object>
  { if a == null then {} else {a} }

  function PointerCells<T>(p: Cell?<T>): set<object>
  { if p == null then {} else {p} }

  ghost function SliceValue<T>(a: array?<T>): Option<seq<T>>
    reads SliceCells(a)
  { if a == null then None else Some(a[..]) }

  ghost function PointerValue<T>(p: Cell?<T>): Option<T>
    reads PointerCells(p)
  { if p == null then None else Some(p.value) }

  /** The sets are pairwise disjoint, and `all` contains them. */
  ghost predicate Apart(cells: seq<set<object>>, all: set<object>)
  {
    && (forall j :: 0 <= j < |cells| ==> cells[j] <= all)
    && forall h, j :: 0 <= h < j < |cells| ==> cells[h] !! cells[j]
  }

  lemma ApartFrom(cells: seq<set<object>>, all: set<object>, more: set<object>)
    requires Apart(cells, all) && all !! more
    ensures Apart(cells + [more], all + more)
  {
  }

  /** `make` followed by `copy`, unless the slice is nil. */
  method CopySlice<T>(a: array?<T>) returns (b: array?<T>)
    ensures SliceValue(b) == SliceValue(a) && fresh(SliceCells(b))
    ensures if a == null then b == null else b != null && fresh(b) && b[..] == a[..]
  {
    if a == null {
      return null;
    }
    b := new T[a.Length](i requires 0 <= i < a.Length reads a => a[i]);
    assert b[..] == a[..];
  }

  method CopyPointer<T>(p: Cell?<T>) returns (q: Cell?<T>)
    ensures PointerValue(q) == PointerValue(p) && fresh(PointerCells(q))
    ensures if p == null then q == null else q != null && fresh(q) && q.value == p.value
  {
    if p == null {
      return null;
    }
    q := new Cell(p.value);
  }

  // ---------- WXOneCluster ----------

  datatype NetworkStruct = NetworkStruct(name: string, subnets: array?<Subnet>)

  datatype ClusterSpecStruct = ClusterSpecStruct(
    project: string, zone: string, network: NetworkStruct, sshKey: SSHKey, endpoint: Endpoint,
    credentials: Cell?<string>)

  datatype ResourceReference = ResourceReference(id: Id, status: string)

  datatype ClusterStatusStruct = ClusterStatusStruct(
    ready: bool, project: ResourceReference, network: Id, subnet: ResourceReference, sshKey: ResourceReference,
    floatingIP: Id, ip: string)

  datatype ClusterStruct = ClusterStruct(spec: ClusterSpecStruct, status: ClusterStatusStruct)

  ghost function ClusterSpecValue(s: ClusterSpecStruct): ClusterSpec
    reads SliceCells(s.network.subnets), PointerCells(s.credentials)
  {
    ClusterSpec(s.project, s.zone, s.network.name, SliceValue(s.network.subnets), s.sshKey, s.endpoint,
                PointerValue(s.credentials))
  }

  function ClusterCells(c: ClusterStruct): set<object>
  { SliceCells(c.spec.network.subnets) + PointerCells(c.spec.credentials) }

  method CopyNetwork(n: NetworkStruct) returns (out: NetworkStruct)
    ensures out.name == n.name && SliceValue(out.subnets) == SliceValue(n.subnets)
    ensures fresh(SliceCells(out.subnets))
    ensures if n.subnets == null then out.subnets == null
            else out.subnets != null && fresh(out.subnets) && out.subnets[..] == n.subnets[..]
  {
    out := n;
    var subnets := CopySlice(n.subnets);
    out := out.(subnets := subnets);
  }

  method CopyClusterSpec(s: ClusterSpecStruct) returns (out: ClusterSpecStruct)
    ensures ClusterSpecValue(out) == ClusterSpecValue(s)
    ensures fresh(SliceCells(out.network.subnets)) && fresh(PointerCells(out.credentials))
    ensures out == s.(network := s.network.(subnets := out.network.subnets), credentials := out.credentials)
    ensures if s.credentials == null then out.credentials == null
            else out.credentials != null && out.credentials.value == s.credentials.value
  {
    out := s;
    var network := CopyNetwork(s.network);
    out := out.(network := network);
    var credentials := CopyPointer(s.credentials);
    out := out.(credentials := credentials);
  }

  method CopyCluster(c: ClusterStruct) returns (out: ClusterStruct)
    ensures SameCluster(out, c) && fresh(ClusterCells(out))
  {
    out := c;
    var spec := CopyClusterSpec(c.spec);
    out := out.(spec := spec);
  }

  ghost predicate SameCluster(a: ClusterStruct, b: ClusterStruct)
    reads ClusterCells(a), ClusterCells(b)
  { ClusterSpecValue(a.spec) == ClusterSpecValue(b.spec) && a.status == b.status }

  /** The slice of a cluster list and everything that its items hold. */
  ghost function ClusterListCells(items: array?<ClusterStruct>): set<object>
    reads SliceCells(items)
  {
    SliceCells(items) +
    if items == null then {} else set i, o | 0 <= i < items.Length && o in ClusterCells(items[i]) :: o
  }

  /** For a list of any length, the copy has equal items, and neither its slice nor any slice or
      pointer of its items existed before: nothing is shared with the original or with
      anything else. */
  method CopyClusterList(items: array?<ClusterStruct>) returns (out: array?<ClusterStruct>)
    ensures (out == null) == (items == null) && fresh(ClusterListCells(out))
    ensures out != null ==> out.Length == items.Length && forall i :: 0 <= i < items.Length ==>
              SameCluster(out[i], items[i])
    ensures out != null ==> forall i, j :: 0 <= i < j < out.Length ==>
              ClusterCells(out[i]) !! ClusterCells(out[j])
  {
    out := items;
    if items != null {
      var copy := new ClusterStruct[items.Length](i requires 0 <= i < items.Length reads items => items[i]);
      ghost var seen: set<object>, cells: seq<set<object>> := {}, [];
      for i := 0 to items.Length
        invariant fresh(copy) && copy.Length == items.Length
        invariant fresh(seen) && copy !in seen && |cells| == i && Apart(cells, seen)
        invariant forall j :: 0 <= j < i ==> ClusterCells(copy[j]) == cells[j]
        invariant forall j :: 0 <= j < i ==> SameCluster(copy[j], items[j])
      {
        var item := CopyCluster(items[i]);
        ghost var more := ClusterCells(item);
        assert copy !in more;
        copy[i] := item;
        ApartFrom(cells, seen, more);
        seen, cells := seen + more, cells + [more];
      }
      out := copy;
    }
  }

  // ---------- WXOneMachine ----------

  datatype MachineAddress = MachineAddress(kind: string, address: string)

  datatype MachineSpecStruct = MachineSpecStruct(flavor: string, image: string, providerID: Cell?<string>)

  datatype MachineStatusStruct = MachineStatusStruct(
    ready: bool, addresses: array?<MachineAddress>, flavor: ResourceReference, image: ResourceReference,
    instance: ResourceReference, attachment: ResourceReference)

  datatype MachineStruct = MachineStruct(spec: MachineSpecStruct, status: MachineStatusStruct)

  ghost function MachineSpecValue(s: MachineSpecStruct): MachineSpec
    reads PointerCells(s.providerID)
  { MachineSpec(s.flavor, s.image, PointerValue(s.providerID)) }

  /** Equal but for the addresses, whose values are equal. */
  ghost predicate SameStatus(a: MachineStatusStruct, b: MachineStatusStruct)
    reads SliceCells(a.addresses), SliceCells(b.addresses)
  {
    a.(addresses := null) == b.(addresses := null) && SliceValue(a.addresses) == SliceValue(b.addresses)
  }

  function MachineCells(m: MachineStruct): set<object>
  { PointerCells(m.spec.providerID) + SliceCells(m.status.addresses) }

  ghost predicate SameMachine(a: MachineStruct, b: MachineStruct)
    reads MachineCells(a), MachineCells(b)
  { MachineSpecValue(a.spec) == MachineSpecValue(b.spec) && SameStatus(a.status, b.status) }

  method CopyMachineSpec(s: MachineSpecStruct) returns (out: MachineSpecStruct)
    ensures MachineSpecValue(out) == MachineSpecValue(s) && fresh(PointerCells(out.providerID))
    ensures out == s.(providerID := out.providerID)
    ensures if s.providerID == null then out.providerID == null
            else out.providerID != null && out.providerID.value == s.providerID.value
  {
    out := s;
    var providerID := CopyPointer(s.providerID);
    out := out.(providerID := providerID);
  }

  method CopyMachineStatus(s: MachineStatusStruct) returns (out: MachineStatusStruct)
    ensures SameStatus(out, s) && fresh(SliceCells(out.addresses))
    ensures out == s.(addresses := out.addresses)
    ensures if s.addresses == null then out.addresses == null
            else out.addresses != null && out.addresses[..] == s.addresses[..]
  {
    out := s;
    var addresses := CopySlice(s.addresses);
    out := out.(addresses := addresses);
  }

  method CopyMachine(m: MachineStruct) returns (out: MachineStruct)
    ensures SameMachine(out, m) && fresh(MachineCells(out))
  {
    out := m;
    var spec := CopyMachineSpec(m.spec);
    out := out.(spec := spec);
    var status := CopyMachineStatus(m.status);
    out := out.(status := status);
  }

  ghost function MachineListCells(items: array?<MachineStruct>): set<object>
    reads SliceCells(items)
  {
    SliceCells(items) +
    if items == null then {} else set i, o | 0 <= i < items.Length && o in MachineCells(items[i]) :: o
  }

  method CopyMachineList(items: array?<MachineStruct>) returns (out: array?<MachineStruct>)
    ensures (out == null) == (items == null) && fresh(MachineListCells(out))
    ensures out != null ==> out.Length == items.Length && forall i :: 0 <= i < items.Length ==>
              SameMachine(out[i], items[i])
    ensures out != null ==> forall i, j :: 0 <= i < j < out.Length ==>
              MachineCells(out[i]) !! MachineCells(out[j])
  {
    out := items;
    if items != null {
      var copy := new MachineStruct[items.Length](i requires 0 <= i < items.Length reads items => items[i]);
      ghost var seen: set<object>, cells: seq<set<object>> := {}, [];
      for i := 0 to items.Length
        invariant fresh(copy) && copy.Length == items.Length
        invariant fresh(seen) && copy !in seen && |cells| == i && Apart(cells, seen)
        invariant forall j :: 0 <= j < i ==> MachineCells(copy[j]) == cells[j]
        invariant forall j :: 0 <= j < i ==> SameMachine(copy[j], items[j])
      {
        var item := CopyMachine(items[i]);
        ghost var more := MachineCells(item);
        assert copy !in more;
        copy[i] := item;
        ApartFrom(cells, seen, more);
        seen, cells := seen + more, cells + [more];
      }
      out := copy;
    }
  }

  // ---------- reflect.DeepEqual ----------

  method SlicesEqual<T(==)>(a: array?<T>, b: array?<T>) returns (eq: bool)
    ensures eq <==> SliceValue(a) == SliceValue(b)
  {
    if a == null || b == null {
      return a == null && b == null;
    }
    if a.Length != b.Length {
      assert |a[..]| != |b[..]|;
      return false;
    }
    for i := 0 to a.Length
      invariant a[..i] == b[..i]
    {
      if a[i] != b[i] {
        assert a[..][i] != b[..][i];
        return false;
      }
    }
    assert a[..] == a[..a.Length] && b[..] == b[..b.Length];
    return true;
  }

  method PointersEqual<T(==)>(p: Cell?<T>, q: Cell?<T>) returns (eq: bool)
    ensures eq <==> PointerValue(p) == PointerValue(q)
  {
    if p == null || q == null {
      return p == null && q == null;
    }
    return p.value == q.value;
  }
}
