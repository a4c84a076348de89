/** The libvirt daemon as the provisioning code sees it through a
    `libvirt.Connect`: a store of named storage pools, networks, storage
    volumes and domains, each with the description it was created from,
    together with the record of the calls made on it. Which calls fail for
    reasons outside the code (a lost connection, a refusal of the daemon) is
    fixed in advance by a fault table. */
module ControlPlane {
  import opened Wrappers
  import opened Machines

  /** virErrorNumber values the code distinguishes. */
  const ErrOperationFailed: int := 9
  const ErrNoDomain: int := 42
  const ErrNoNetwork: int := 43
  const ErrNoStoragePool: int := 49
  const ErrNoStorageVol: int := 50

  datatype Kind = PoolKind | NetworkKind | VolumeKind | DomainKind

  /** A resource: pools, networks and domains are known by name, volumes by key (their path). */
  datatype Res = Res(kind: Kind, key: string)

  /** The error code a lookup of a missing resource of this kind reports. */
  function NotFoundCode(k: Kind): int
  {
    match k
    case PoolKind => ErrNoStoragePool
    case NetworkKind => ErrNoNetwork
    case VolumeKind => ErrNoStorageVol
    case DomainKind => ErrNoDomain
  }

  /** The parts of a storage pool description that vary: its name and target directory. */
  datatype PoolDoc = PoolDoc(name: string, path: string)

  /** A static DHCP reservation. */
  datatype DhcpHost = DhcpHost(mac: string, ip: string, name: string)

  /** The parts of a network description that vary. */
  datatype NetworkDoc = NetworkDoc(
    name: string,
    bridge: string,
    domain: string,
    forwarderDomain: string,
    forwarderAddr: string,
    address: string,
    netmask: string,
    dhcpStart: string,
    dhcpEnd: string,
    hosts: seq<DhcpHost>)

  /** The parts of a storage volume description that vary. */
  datatype VolumeDoc = VolumeDoc(name: string, capacity: SizeSpec)

  /** The parts of a domain description that vary: its memory, processor
      count (a Go `uint`), boot disk (pool and volume), installation image,
      interface MAC and network. */
  datatype DomainDoc = DomainDoc(
    name: string,
    memory: SizeSpec,
    vcpus: nat,
    diskPool: string,
    diskVolume: string,
    cdrom: string,
    mac: string,
    network: string)

  datatype Desc =
    | PoolD(pool: PoolDoc)
    | NetworkD(net: NetworkDoc)
    | VolumeD(vol: VolumeDoc)
    | DomainD(dom: DomainDoc)

  datatype Call =
    | LookupCall(res: Res)
    | CreateCall(res: Res, desc: Desc)
    | DestroyCall(res: Res)

  /** The daemon's resources and the calls made so far. */
  datatype Plane = Plane(resources: map<Res, Desc>, calls: seq<Call>)

  /** Which operations fail for reasons outside the code, and with what error. */
  datatype Faults = Faults(
    connect: Option<Error>,
    mkdir: Option<Error>,
    lookup: map<Res, Error>,
    create: map<Res, Error>,
    destroy: map<Res, Error>)

  /** A world where nothing fails that the resources themselves do not make fail. */
  predicate FaultFree(f: Faults)
  {
    f.connect.None? && f.mkdir.None? && f.lookup == map[] && f.create == map[] && f.destroy == map[]
  }

  /** A lookup: found when present and not failed; otherwise the fault, or the kind's not-found error. */
  function LookupResult(p: Plane, f: Faults, r: Res): (out: (Plane, Option<Error>))
    ensures out.0 == Plane(p.resources, p.calls + [LookupCall(r)])
    ensures out.1.None? <==> r in p.resources && r !in f.lookup
    ensures r !in f.lookup && r !in p.resources ==> out.1 == Some(LibvirtError(NotFoundCode(r.kind)))
  {
    var q := Plane(p.resources, p.calls + [LookupCall(r)]);
    if r in f.lookup then (q, Some(f.lookup[r]))
    else if r in p.resources then (q, None)
    else (q, Some(LibvirtError(NotFoundCode(r.kind))))
  }

  /** A create: refused when it fails or when the resource exists already; otherwise it adds the resource. */
  function CreateResult(p: Plane, f: Faults, r: Res, d: Desc): (out: (Plane, Option<Error>))
    ensures out.0.calls == p.calls + [CreateCall(r, d)]
    ensures out.1.None? <==> r !in f.create && r !in p.resources
    ensures out.0.resources == if out.1.None? then p.resources[r := d] else p.resources
  {
    var calls := p.calls + [CreateCall(r, d)];
    if r in f.create then (Plane(p.resources, calls), Some(f.create[r]))
    else if r in p.resources then (Plane(p.resources, calls), Some(LibvirtError(ErrOperationFailed)))
    else (Plane(p.resources[r := d], calls), None)
  }

  /** A destroy (every resource the code creates is transient, so destroying removes it). */
  function DestroyResult(p: Plane, f: Faults, r: Res): (out: (Plane, Option<Error>))
    ensures out.0.calls == p.calls + [DestroyCall(r)]
    ensures out.1.None? <==> r !in f.destroy
    ensures out.0.resources == if out.1.None? then p.resources - {r} else p.resources
  {
    var calls := p.calls + [DestroyCall(r)];
    if r in f.destroy then (Plane(p.resources, calls), Some(f.destroy[r]))
    else (Plane(p.resources - {r}, calls), None)
  }

  /** The target directory of a pool, as a handle to it reports; empty if it is not a pool. */
  function PoolPath(p: Plane, r: Res): string
  {
    if r in p.resources && p.resources[r].PoolD? then p.resources[r].pool.path else ""
  }

  /** A connection to the daemon, with the daemon behind it. */
  class Hypervisor {
    var plane: Plane
    const faults: Faults

    constructor(resources: map<Res, Desc>, faults: Faults)
      ensures plane == Plane(resources, []) && this.faults == faults
    {
      plane := Plane(resources, []);
      this.faults := faults;
    }

    /** `libvirt.NewConnect`: fails as the fault table says. */
    method Connect() returns (err: Option<Error>)
      ensures err == faults.connect
    {
      err := faults.connect;
    }

    /** `os.MkdirAll` on the host: fails as the fault table says. */
    method MkdirAll(path: string) returns (err: Option<Error>)
      ensures err == faults.mkdir
    {
      err := faults.mkdir;
    }

    method Lookup(r: Res) returns (err: Option<Error>)
      modifies this
      ensures (plane, err) == LookupResult(old(plane), faults, r)
    {
      var out := LookupResult(plane, faults, r);
      plane, err := out.0, out.1;
    }

    method Create(r: Res, d: Desc) returns (err: Option<Error>)
      modifies this
      ensures (plane, err) == CreateResult(old(plane), faults, r, d)
    {
      var out := CreateResult(plane, faults, r, d);
      plane, err := out.0, out.1;
    }

    method Destroy(r: Res) returns (err: Option<Error>)
      modifies this
      ensures (plane, err) == DestroyResult(old(plane), faults, r)
    {
      var out := DestroyResult(plane, faults, r);
      plane, err := out.0, out.1;
    }
  }
}
