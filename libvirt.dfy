/** Provisioning a scenario on libvirt (pkg/ash/libvirt.go): the descriptions
    of the storage pool, the network, each machine's volume and domain; the
    lookup-then-create step for each of them; the fail-fast `Setup` and the
    best-effort `Teardown`. Each step is specified by a function from the
    daemon's state before it to the state and error after it, and the
    provider's methods are proved to do exactly that. */
module Libvirt {
  import opened Wrappers
  import opened Text
  import opened NetAddr
  import opened Machines
  import opened Scenarios
  import opened ControlPlane

  /** The one storage pool every scenario uses. */
  const AshPool: string := "ash_pool"
  /** The pool's directory, under the cache directory. */
  const PoolFolder: string := "pool"

  /** `filepath.Join` of two parts (the lexical clean-up of the result is not modelled). */
  function Join(a: string, b: string): string
  {
    a + "/" + b
  }

  const PoolRes: Res := Res(PoolKind, AshPool)

  function PoolTarget(cacheDir: string): string
  {
    Join(cacheDir, PoolFolder)
  }

  function NetworkRes(n: Network): Res
  {
    Res(NetworkKind, n.name)
  }

  function DomainRes(m: Machine): Res
  {
    Res(DomainKind, m.name)
  }

  /** `fmt.Sprintf("%s.qcow2", machine.Name)`. */
  function VolumeName(m: Machine): string
  {
    m.name + ".qcow2"
  }

  /** The key a machine's volume is looked up by: its path in the pool directory. */
  function VolumeRes(cacheDir: string, m: Machine): Res
  {
    Res(VolumeKind, Join(PoolTarget(cacheDir), VolumeName(m)))
  }

  /** A lookup error that makes a `create*` step give up: a libvirt error
      other than the kind's not-found error. A not-found error, or an error
      that is not a libvirt error, lets the step go on and create. */
  predicate Fatal(k: Kind, e: Error)
  {
    e.LibvirtError? && e.code != NotFoundCode(k)
  }

  // ---------------------------------------------------------------------------
  // Descriptions

  /** The pool description: `ash_pool`, a directory pool at `<cacheDir>/pool`. */
  function PoolDocFor(cacheDir: string): (r: PoolDoc)
    ensures r.name == "ash_pool" && r.path == cacheDir + "/pool"
  {
    PoolDoc(AshPool, PoolTarget(cacheDir))
  }

  function DhcpHostOf(m: Machine): DhcpHost
  {
    DhcpHost(m.mac, m.ip, m.name)
  }

  /** The static DHCP reservations, appended one machine at a time. */
  function DhcpHosts(ms: seq<Machine>): (r: seq<DhcpHost>)
    ensures |r| == |ms|
    ensures forall i :: 0 <= i < |ms| ==> r[i] == DhcpHostOf(ms[i])
    decreases |ms|
  {
    if ms == [] then [] else DhcpHosts(ms[..|ms| - 1]) + [DhcpHostOf(ms[|ms| - 1])]
  }

  /** The network address of a block. */
  function BaseAddress(c: Cidr): IPv4
    requires c.prefix <= 32
  {
    Mask(c.ip, c.prefix)
  }

  /** The host's address on the network: the network address plus 1. */
  function Gateway(c: Cidr): IPv4
    requires c.prefix <= 32
  {
    AddToLastOctet(BaseAddress(c), 1)
  }

  function DhcpStart(c: Cidr): IPv4
    requires c.prefix <= 32
  {
    AddToLastOctet(BaseAddress(c), 20)
  }

  function DhcpEnd(c: Cidr): IPv4
    requires c.prefix <= 32
  {
    AddToLastOctet(BaseAddress(c), 60)
  }

  /** The DNS domain of a network: `<name>.test.agent.org`. */
  function NetworkDomain(n: Network): string
  {
    n.name + "." + DefaultBaseDomain
  }

  /** The one DNS forwarder's domain: `apps.<name>.test.agent.org`. */
  function AppsDomain(n: Network): string
  {
    "apps." + n.name + "." + DefaultBaseDomain
  }

  const LoopbackAddress: string := "127.0.0.1"

  /** The network description: a bridge named after the network, the domain
      `<name>.test.agent.org` with `apps.<name>.test.agent.org` forwarded to
      the loopback address, the reservations as given, and the addresses of
      the block (see ProvisionFacts.NetworkDocAddresses). */
  function NetworkDocFor(n: Network, hosts: seq<DhcpHost>, c: Cidr): (r: NetworkDoc)
    requires c.prefix <= 32
    ensures r.name == n.name && r.bridge == n.name
    ensures r.domain == n.name + ".test.agent.org"
    ensures r.forwarderDomain == "apps." + n.name + ".test.agent.org" && r.forwarderAddr == "127.0.0.1"
    ensures r.hosts == hosts
  {
    NetworkDoc(
      n.name, n.name, NetworkDomain(n), AppsDomain(n), LoopbackAddress,
      FormatIPv4(Gateway(c)), FormatIPv4(Netmask(c.prefix)),
      FormatIPv4(DhcpStart(c)), FormatIPv4(DhcpEnd(c)), hosts)
  }

  /** The volume description: `<name>.qcow2`, with the capacity that the machine's disk size reads as. */
  function VolumeDocFor(m: Machine): (r: VolumeDoc)
    requires SpecMatches(m.disk)
    ensures r.name == m.name + ".qcow2"
    ensures IsSpecOf(m.disk, r.capacity)
  {
    VolumeDoc(VolumeName(m), m.GetDiskSpecs())
  }

  /** Go's `uint(v)` for a 64-bit `int`: two's-complement reinterpretation. */
  function AsUint(v: int): (r: nat)
    ensures r < 0x1_0000_0000_0000_0000
    ensures 0 <= v < 0x1_0000_0000_0000_0000 ==> r == v
  {
    v % 0x1_0000_0000_0000_0000
  }

  /** The domain description: the machine's memory size as read; it boots
      from the machine's volume in `ash_pool` and the agent image, on the
      network with the machine's MAC; its processor count is the Go `uint` of
      the machine's, so a negative count wraps round to a huge one. */
  function DomainDocFor(agentISO: string, n: Network, m: Machine, vcpus: int): (r: DomainDoc)
    requires SpecMatches(m.memory)
    ensures IsSpecOf(m.memory, r.memory) && r.name == m.name
    ensures r.diskPool == "ash_pool" && r.diskVolume == m.name + ".qcow2"
    ensures r.cdrom == agentISO && r.mac == m.mac && r.network == n.name
    ensures 0 <= vcpus < 0x1_0000_0000_0000_0000 ==> r.vcpus == vcpus
    ensures -0x1_0000_0000_0000_0000 <= vcpus < 0 ==> r.vcpus == vcpus + 0x1_0000_0000_0000_0000
  {
    DomainDoc(m.name, m.GetMemorySpecs(), AsUint(vcpus), AshPool, VolumeName(m), agentISO, m.mac, n.name)
  }

  // ---------------------------------------------------------------------------
  // The steps, as functions of the daemon's state

  /** createPool: the handle it returns is the pool's target directory. */
  function CreatePoolRun(p: Plane, f: Faults, cacheDir: string): (Plane, Result<string>)
  {
    var (p1, e1) := LookupResult(p, f, PoolRes);
    if e1.None? then (p1, Success(PoolPath(p1, PoolRes)))
    else if Fatal(PoolKind, e1.value) then (p1, Failure(e1.value))
    else if f.mkdir.Some? then (p1, Failure(f.mkdir.value))
    else
      var (p2, e2) := CreateResult(p1, f, PoolRes, PoolD(PoolDocFor(cacheDir)));
      if e2.Some? then (p2, Failure(e2.value)) else (p2, Success(PoolTarget(cacheDir)))
  }

  /** createNetwork. */
  function CreateNetworkRun(p: Plane, f: Faults, n: Network, ms: seq<Machine>): (Plane, Option<Error>)
    requires ':' !in n.cidr
  {
    CreateNetworkWith(p, f, n, ms, ParseCIDR(n.cidr))
  }

  /** createNetwork once the network's block has been read as `block`, which
      happens only after a lookup that fails without being fatal. */
  function CreateNetworkWith(p: Plane, f: Faults, n: Network, ms: seq<Machine>, block: Option<Cidr>): (Plane, Option<Error>)
    requires block.Some? ==> block.value.prefix <= 32
  {
    var (p1, e1) := LookupResult(p, f, NetworkRes(n));
    if e1.None? then (p1, None)
    else if Fatal(NetworkKind, e1.value) then (p1, e1)
    else match block
      case None => (p1, Some(CidrError(n.cidr)))
      case Some(c) => CreateResult(p1, f, NetworkRes(n), NetworkD(NetworkDocFor(n, DhcpHosts(ms), c)))
  }

  /** createVolume, in the pool whose target directory is `poolPath`. */
  function CreateVolumeRun(p: Plane, f: Faults, cacheDir: string, poolPath: string, m: Machine): (Plane, Option<Error>)
  {
    var (p1, e1) := LookupResult(p, f, VolumeRes(cacheDir, m));
    if e1.None? then (p1, None)
    else if Fatal(VolumeKind, e1.value) then (p1, e1)
    else if !SpecMatches(m.disk) then (p1, Some(Panic("disk: " + m.disk)))
    else CreateResult(p1, f, Res(VolumeKind, Join(poolPath, VolumeName(m))), VolumeD(VolumeDocFor(m)))
  }

  /** createDomain: the memory is read first (a panic if it does not match), then the processor count. */
  function CreateDomainRun(p: Plane, f: Faults, agentISO: string, n: Network, m: Machine): (Plane, Option<Error>)
  {
    var (p1, e1) := LookupResult(p, f, DomainRes(m));
    if e1.None? then (p1, None)
    else if Fatal(DomainKind, e1.value) then (p1, e1)
    else if !SpecMatches(m.memory) then (p1, Some(Panic("memory: " + m.memory)))
    else match Atoi(m.vcpus)
      case None => (p1, Some(AtoiError(m.vcpus)))
      case Some(v) => CreateResult(p1, f, DomainRes(m), DomainD(DomainDocFor(agentISO, n, m, v)))
  }

  /** The machine loop of Setup: volume then domain for each machine, stopping at the first error. */
  function SetupMachinesRun(p: Plane, f: Faults, agentISO: string, cacheDir: string, poolPath: string,
                            n: Network, ms: seq<Machine>): (Plane, Option<Error>)
    decreases |ms|
  {
    if ms == [] then (p, None)
    else
      var (p1, e1) := CreateVolumeRun(p, f, cacheDir, poolPath, ms[0]);
      if e1.Some? then (p1, e1)
      else
        var (p2, e2) := CreateDomainRun(p1, f, agentISO, n, ms[0]);
        if e2.Some? then (p2, e2)
        else SetupMachinesRun(p2, f, agentISO, cacheDir, poolPath, n, ms[1..])
  }

  /** Setup: connect, then the pool, the first network, and each machine, stopping at the first error. */
  function SetupRun(p: Plane, f: Faults, agentISO: string, cacheDir: string, s: Scenario): (Plane, Option<Error>)
    requires |s.networks| > 0 && ':' !in s.networks[0].cidr
  {
    if f.connect.Some? then (p, f.connect)
    else
      var (p1, pool) := CreatePoolRun(p, f, cacheDir);
      if pool.Failure? then (p1, Some(pool.error))
      else
        var (p2, e2) := CreateNetworkRun(p1, f, s.networks[0], s.machines);
        if e2.Some? then (p2, e2)
        else SetupMachinesRun(p2, f, agentISO, cacheDir, pool.value, s.networks[0], s.machines)
  }

  /** Destroy a resource if a lookup finds it; every error is ignored. */
  function DestroyIfFoundRun(p: Plane, f: Faults, r: Res): Plane
  {
    var (p1, e1) := LookupResult(p, f, r);
    if e1.None? then DestroyResult(p1, f, r).0 else p1
  }

  /** The machine loop of Teardown: domain then volume for each machine. */
  function TeardownMachinesRun(p: Plane, f: Faults, cacheDir: string, ms: seq<Machine>): Plane
    decreases |ms|
  {
    if ms == [] then p
    else
      var p1 := DestroyIfFoundRun(p, f, DomainRes(ms[0]));
      var p2 := DestroyIfFoundRun(p1, f, VolumeRes(cacheDir, ms[0]));
      TeardownMachinesRun(p2, f, cacheDir, ms[1..])
  }

  /** Teardown: after connecting, machines, then the pool, then the first
      network; the only error it returns is the connection's. */
  function TeardownRun(p: Plane, f: Faults, s: Scenario, cacheDir: string): (r: (Plane, Option<Error>))
    requires |s.networks| > 0
    ensures r.1 == f.connect
  {
    if f.connect.Some? then (p, f.connect)
    else
      var p1 := TeardownMachinesRun(p, f, cacheDir, s.machines);
      var p2 := DestroyIfFoundRun(p1, f, PoolRes);
      var p3 := DestroyIfFoundRun(p2, f, NetworkRes(s.networks[0]));
      (p3, None)
  }

  // ---------------------------------------------------------------------------
  // The provider

  class LibvirtProvider {
    const agentISO: string
    const cacheDir: string

    constructor(agentISO: string, cacheDir: string)
      ensures this.agentISO == agentISO && this.cacheDir == cacheDir
    {
      this.agentISO := agentISO;
      this.cacheDir := cacheDir;
    }

    method CreatePool(hv: Hypervisor) returns (pool: string, err: Option<Error>)
      modifies hv
      ensures (hv.plane, if err.Some? then Failure(err.value) else Success(pool))
           == CreatePoolRun(old(hv.plane), hv.faults, cacheDir)
    {
      pool := "";
      err := hv.Lookup(PoolRes);
      if err.None? {
        pool := PoolPath(hv.plane, PoolRes);
        return;
      }
      if err.value.LibvirtError? && err.value.code != ErrNoStoragePool {
        return;
      }
      var poolPath := Join(cacheDir, PoolFolder);
      err := hv.MkdirAll(poolPath);
      if err.Some? {
        return;
      }
      err := hv.Create(PoolRes, PoolD(PoolDoc(AshPool, poolPath)));
      if err.Some? {
        return;
      }
      pool := poolPath;
    }

    method CreateVolume(hv: Hypervisor, pool: string, m: Machine) returns (err: Option<Error>)
      modifies hv
      ensures (hv.plane, err) == CreateVolumeRun(old(hv.plane), hv.faults, cacheDir, pool, m)
    {
      var volumeName := m.name + ".qcow2";
      err := hv.Lookup(Res(VolumeKind, Join(Join(cacheDir, PoolFolder), volumeName)));
      if err.None? {
        return;
      }
      if err.value.LibvirtError? && err.value.code != ErrNoStorageVol {
        return;
      }
      if !SpecMatches(m.disk) {
        err := Some(Panic("disk: " + m.disk));
        return;
      }
      var disk := m.GetDiskSpecs();
      err := hv.Create(Res(VolumeKind, Join(pool, volumeName)), VolumeD(VolumeDoc(volumeName, disk)));
    }

    /** The DHCP reservations, one appended per machine. */
    method BuildDhcpHosts(ms: seq<Machine>) returns (hosts: seq<DhcpHost>)
      ensures hosts == DhcpHosts(ms)
    {
      hosts := [];
      for i := 0 to |ms|
        invariant hosts == DhcpHosts(ms[..i])
      {
        assert ms[..i + 1][..i] == ms[..i];
        hosts := hosts + [DhcpHost(ms[i].mac, ms[i].ip, ms[i].name)];
      }
      assert ms[..|ms|] == ms;
    }

    method CreateNetwork(hv: Hypervisor, n: Network, ms: seq<Machine>) returns (err: Option<Error>)
      requires ':' !in n.cidr
      modifies hv
      ensures (hv.plane, err) == CreateNetworkRun(old(hv.plane), hv.faults, n, ms)
    {
      err := hv.Lookup(Res(NetworkKind, n.name));
      if err.None? {
        return;
      }
      if err.value.LibvirtError? && err.value.code != ErrNoNetwork {
        return;
      }
      var parsed := ParseCIDR(n.cidr);
      if parsed.None? {
        err := Some(CidrError(n.cidr));
        return;
      }
      var c := parsed.value;
      var gateway := AddToLastOctet(Mask(c.ip, c.prefix), 1);
      var dhcpStart := AddToLastOctet(Mask(c.ip, c.prefix), 20);
      var dhcpEnd := AddToLastOctet(Mask(c.ip, c.prefix), 60);
      var hosts := BuildDhcpHosts(ms);
      var doc := NetworkDoc(
        n.name, n.name, n.name + "." + DefaultBaseDomain, "apps." + n.name + "." + DefaultBaseDomain, "127.0.0.1",
        FormatIPv4(gateway), FormatIPv4(Netmask(c.prefix)), FormatIPv4(dhcpStart), FormatIPv4(dhcpEnd), hosts);
      err := hv.Create(Res(NetworkKind, n.name), NetworkD(doc));
    }

    method CreateDomain(hv: Hypervisor, n: Network, m: Machine) returns (err: Option<Error>)
      modifies hv
      ensures (hv.plane, err) == CreateDomainRun(old(hv.plane), hv.faults, agentISO, n, m)
    {
      err := hv.Lookup(Res(DomainKind, m.name));
      if err.None? {
        return;
      }
      if err.value.LibvirtError? && err.value.code != ErrNoDomain {
        return;
      }
      if !SpecMatches(m.memory) {
        err := Some(Panic("memory: " + m.memory));
        return;
      }
      var mem := m.GetMemorySpecs();
      var vcpus := Atoi(m.vcpus);
      if vcpus.None? {
        err := Some(AtoiError(m.vcpus));
        return;
      }
      var doc := DomainDoc(m.name, mem, AsUint(vcpus.value), AshPool, m.name + ".qcow2", agentISO, m.mac, n.name);
      err := hv.Create(Res(DomainKind, m.name), DomainD(doc));
    }

    method Setup(hv: Hypervisor, s: Scenario) returns (err: Option<Error>)
      requires |s.networks| > 0 && ':' !in s.networks[0].cidr
      modifies hv
      ensures (hv.plane, err) == SetupRun(old(hv.plane), hv.faults, agentISO, cacheDir, s)
    {
      err := hv.Connect();
      if err.Some? {
        return;
      }
      var network := s.networks[0];
      var pool;
      pool, err := CreatePool(hv);
      if err.Some? {
        return;
      }
      err := CreateNetwork(hv, network, s.machines);
      if err.Some? {
        return;
      }
      ghost var start := hv.plane;
      for i := 0 to |s.machines|
        invariant err.None?
        invariant SetupMachinesRun(start, hv.faults, agentISO, cacheDir, pool, network, s.machines)
               == SetupMachinesRun(hv.plane, hv.faults, agentISO, cacheDir, pool, network, s.machines[i..])
      {
        assert s.machines[i..][0] == s.machines[i] && s.machines[i..][1..] == s.machines[i + 1..];
        err := CreateVolume(hv, pool, s.machines[i]);
        if err.Some? {
          return;
        }
        err := CreateDomain(hv, network, s.machines[i]);
        if err.Some? {
          return;
        }
      }
    }

    method DestroyIfFound(hv: Hypervisor, r: Res)
      modifies hv
      ensures hv.plane == DestroyIfFoundRun(old(hv.plane), hv.faults, r)
    {
      var err := hv.Lookup(r);
      if err.None? {
        err := hv.Destroy(r);
      }
    }

    /** Teardown; `cacheDir` is the caller's, which locates the volumes. */
    method Teardown(hv: Hypervisor, s: Scenario, cacheDir: string) returns (err: Option<Error>)
      requires |s.networks| > 0
      modifies hv
      ensures (hv.plane, err) == TeardownRun(old(hv.plane), hv.faults, s, cacheDir)
    {
      err := hv.Connect();
      if err.Some? {
        return;
      }
      ghost var start := hv.plane;
      for i := 0 to |s.machines|
        invariant TeardownMachinesRun(start, hv.faults, cacheDir, s.machines)
               == TeardownMachinesRun(hv.plane, hv.faults, cacheDir, s.machines[i..])
      {
        assert s.machines[i..][0] == s.machines[i] && s.machines[i..][1..] == s.machines[i + 1..];
        DestroyIfFound(hv, Res(DomainKind, s.machines[i].name));
        DestroyIfFound(hv, Res(VolumeKind, Join(Join(cacheDir, PoolFolder), s.machines[i].name + ".qcow2")));
      }
      DestroyIfFound(hv, Res(PoolKind, AshPool));
      DestroyIfFound(hv, Res(NetworkKind, s.networks[0].name));
      return None;
    }
  }
}
