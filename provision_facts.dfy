/** What provisioning guarantees (pkg/ash/libvirt.go): each `create*` step
    creates only after a lookup that failed without a fatal error; `Setup`
    looks resources up in a fixed order, never destroys and adds only the
    scenario's resources, so that a second `Setup` creates nothing; `Teardown`
    looks them up in the reverse order, never creates, and on a daemon that
    does not fail removes exactly the scenario's resources. */
module ProvisionFacts {
  import opened Wrappers
  import opened Text
  import opened NetAddr
  import opened Machines
  import opened Scenarios
  import opened ControlPlane
  import opened Libvirt
  import opened AshFacts

  // ---------------------------------------------------------------------------
  // Calls and resources between two states of the daemon

  /** The calls made to get from `p` to `q`. */
  function NewCalls(p: Plane, q: Plane): seq<Call>
    requires |p.calls| <= |q.calls|
  {
    q.calls[|p.calls|..]
  }

  /** The resources looked up by a sequence of calls, in order. */
  function Lookups(cs: seq<Call>): seq<Res>
    decreases |cs|
  {
    if cs == [] then []
    else Lookups(cs[..|cs| - 1]) + (if cs[|cs| - 1].LookupCall? then [cs[|cs| - 1].res] else [])
  }

  predicate NoCreates(cs: seq<Call>)
  {
    forall i :: 0 <= i < |cs| ==> !cs[i].CreateCall?
  }

  predicate NoDestroys(cs: seq<Call>)
  {
    forall i :: 0 <= i < |cs| ==> !cs[i].DestroyCall?
  }

  /** `q` follows `p` without destroying: the call record grows, every
      resource of `p` is kept with its description, and every new resource is in `made`. */
  predicate Extends(p: Plane, q: Plane, made: set<Res>)
  {
    |p.calls| <= |q.calls| && q.calls[..|p.calls|] == p.calls &&
    NoDestroys(q.calls[|p.calls|..]) &&
    (forall r :: r in p.resources ==> r in q.resources && q.resources[r] == p.resources[r]) &&
    (forall r :: r in q.resources ==> r in p.resources || r in made)
  }

  /** `q` follows `p` without creating: the call record grows and `q` keeps
      only resources of `p`, with their descriptions. */
  predicate Shrinks(p: Plane, q: Plane)
  {
    |p.calls| <= |q.calls| && q.calls[..|p.calls|] == p.calls &&
    NoCreates(q.calls[|p.calls|..]) &&
    (forall r :: r in q.resources ==> r in p.resources && q.resources[r] == p.resources[r])
  }

  lemma {:induction false} LookupsAppend(a: seq<Call>, b: seq<Call>)
    ensures Lookups(a + b) == Lookups(a) + Lookups(b)
    decreases |b|
  {
    if b == [] {
      assert a + b == a;
    } else {
      var b' := b[..|b| - 1];
      assert (a + b)[..|a + b| - 1] == a + b';
      LookupsAppend(a, b');
    }
  }

  lemma CallsAppend(p: Plane, q: Plane, r: Plane)
    requires |p.calls| <= |q.calls| <= |r.calls|
    requires q.calls[..|p.calls|] == p.calls && r.calls[..|q.calls|] == q.calls
    ensures r.calls[..|p.calls|] == p.calls
    ensures NewCalls(p, r) == NewCalls(p, q) + NewCalls(q, r)
  {
    assert r.calls == q.calls + r.calls[|q.calls|..];
    assert q.calls == p.calls + q.calls[|p.calls|..];
  }

  lemma ExtendsTrans(p: Plane, q: Plane, r: Plane, m1: set<Res>, m2: set<Res>)
    requires Extends(p, q, m1) && Extends(q, r, m2)
    ensures Extends(p, r, m1 + m2)
    ensures NewCalls(p, r) == NewCalls(p, q) + NewCalls(q, r)
  {
    CallsAppend(p, q, r);
  }

  lemma ShrinksTrans(p: Plane, q: Plane, r: Plane)
    requires Shrinks(p, q) && Shrinks(q, r)
    ensures Shrinks(p, r)
    ensures NewCalls(p, r) == NewCalls(p, q) + NewCalls(q, r)
  {
    CallsAppend(p, q, r);
  }

  lemma LookupStep(p: Plane, f: Faults, r: Res)
    ensures Extends(p, LookupResult(p, f, r).0, {}) && Shrinks(p, LookupResult(p, f, r).0)
    ensures NewCalls(p, LookupResult(p, f, r).0) == [LookupCall(r)]
    ensures LookupResult(p, f, r).0.resources == p.resources
  {
  }

  lemma CreateStep(p: Plane, f: Faults, r: Res, d: Desc)
    ensures Extends(p, CreateResult(p, f, r, d).0, {r})
    ensures NewCalls(p, CreateResult(p, f, r, d).0) == [CreateCall(r, d)]
  {
  }

  lemma DestroyStep(p: Plane, f: Faults, r: Res)
    ensures Shrinks(p, DestroyResult(p, f, r).0)
    ensures NewCalls(p, DestroyResult(p, f, r).0) == [DestroyCall(r)]
  {
  }

  // ---------------------------------------------------------------------------
  // The lookup-then-create steps

  /** createPool creates only when the lookup failed with the not-found
      error or with an error that is not libvirt's, and the directory could
      be made; a lookup that finds the pool hands back its directory. */
  lemma PoolDecision(p: Plane, f: Faults, cacheDir: string)
    ensures var (q, pool) := CreatePoolRun(p, f, cacheDir); var e := LookupResult(p, f, PoolRes).1;
      Extends(p, q, {PoolRes}) && Lookups(NewCalls(p, q)) == [PoolRes] &&
      (pool.Success? ==> PoolRes in q.resources) &&
      (e.None? ==> pool == Success(PoolPath(p, PoolRes)) && NewCalls(p, q) == [LookupCall(PoolRes)]) &&
      (e.Some? && e.value.LibvirtError? && e.value.code != ErrNoStoragePool ==>
         pool == Failure(e.value) && NewCalls(p, q) == [LookupCall(PoolRes)]) &&
      (!NoCreates(NewCalls(p, q)) <==>
         e.Some? && (e.value == LibvirtError(ErrNoStoragePool) || !e.value.LibvirtError?) && f.mkdir.None?) &&
      (!NoCreates(NewCalls(p, q)) ==>
         NewCalls(p, q) == [LookupCall(PoolRes), CreateCall(PoolRes, PoolD(PoolDoc(AshPool, PoolTarget(cacheDir))))])
  {
    var (p1, e) := LookupResult(p, f, PoolRes);
    LookupStep(p, f, PoolRes);
    if e.Some? && !Fatal(PoolKind, e.value) && f.mkdir.None? {
      var d := PoolD(PoolDocFor(cacheDir));
      CreateStep(p1, f, PoolRes, d);
      ExtendsTrans(p, p1, CreateResult(p1, f, PoolRes, d).0, {}, {PoolRes});
      LookupsAppend([LookupCall(PoolRes)], [CreateCall(PoolRes, d)]);
      assert NewCalls(p, CreatePoolRun(p, f, cacheDir).0)[1].CreateCall?;
    }
  }

  /** createNetwork creates only after a non-fatal lookup failure, and only
      when the block parses; the network it creates carries one DHCP
      reservation per machine. */
  lemma NetworkDecision(p: Plane, f: Faults, n: Network, ms: seq<Machine>)
    requires ':' !in n.cidr
    ensures var (q, err) := CreateNetworkRun(p, f, n, ms); var e := LookupResult(p, f, NetworkRes(n)).1;
      Extends(p, q, {NetworkRes(n)}) && Lookups(NewCalls(p, q)) == [NetworkRes(n)] &&
      (err.None? ==> NetworkRes(n) in q.resources) &&
      (e.None? ==> err.None? && NewCalls(p, q) == [LookupCall(NetworkRes(n))]) &&
      (e.Some? && e.value.LibvirtError? && e.value.code != ErrNoNetwork ==>
         err == e && NewCalls(p, q) == [LookupCall(NetworkRes(n))]) &&
      (!NoCreates(NewCalls(p, q)) <==>
         e.Some? && (e.value == LibvirtError(ErrNoNetwork) || !e.value.LibvirtError?) && ParseCIDR(n.cidr).Some?) &&
      (!NoCreates(NewCalls(p, q)) ==>
         NewCalls(p, q) == [LookupCall(NetworkRes(n)),
                            CreateCall(NetworkRes(n), NetworkD(NetworkDocFor(n, DhcpHosts(ms), ParseCIDR(n.cidr).value)))])
  {
    NetworkDecisionWith(p, f, n, ms, ParseCIDR(n.cidr));
  }

  lemma NetworkDecisionWith(p: Plane, f: Faults, n: Network, ms: seq<Machine>, block: Option<Cidr>)
    requires block.Some? ==> block.value.prefix <= 32
    ensures var (q, err) := CreateNetworkWith(p, f, n, ms, block); var e := LookupResult(p, f, NetworkRes(n)).1;
      Extends(p, q, {NetworkRes(n)}) && Lookups(NewCalls(p, q)) == [NetworkRes(n)] &&
      (err.None? ==> NetworkRes(n) in q.resources) &&
      (e.None? ==> err.None? && NewCalls(p, q) == [LookupCall(NetworkRes(n))]) &&
      (e.Some? && e.value.LibvirtError? && e.value.code != ErrNoNetwork ==>
         err == e && NewCalls(p, q) == [LookupCall(NetworkRes(n))]) &&
      (!NoCreates(NewCalls(p, q)) <==>
         e.Some? && (e.value == LibvirtError(ErrNoNetwork) || !e.value.LibvirtError?) && block.Some?) &&
      (!NoCreates(NewCalls(p, q)) ==>
         NewCalls(p, q) == [LookupCall(NetworkRes(n)),
                            CreateCall(NetworkRes(n), NetworkD(NetworkDocFor(n, DhcpHosts(ms), block.value)))])
  {
    NetworkCallsWith(p, f, n, ms, block);
    NetworkLookupsWith(p, f, n, ms, block);
    NetworkCreatesWith(p, f, n, ms, block);
  }

  lemma NetworkLookupsWith(p: Plane, f: Faults, n: Network, ms: seq<Machine>, block: Option<Cidr>)
    requires block.Some? ==> block.value.prefix <= 32
    ensures var q := CreateNetworkWith(p, f, n, ms, block).0;
      |p.calls| <= |q.calls| && Lookups(NewCalls(p, q)) == [NetworkRes(n)]
  {
    NetworkCallsWith(p, f, n, ms, block);
    var r := NetworkRes(n);
    var q := CreateNetworkWith(p, f, n, ms, block).0;
    var e := LookupResult(p, f, r).1;
    if e.Some? && !Fatal(NetworkKind, e.value) && block.Some? {
      var d := NetworkD(NetworkDocFor(n, DhcpHosts(ms), block.value));
      assert NewCalls(p, q) == [LookupCall(r), CreateCall(r, d)];
      LookupsAppend([LookupCall(r)], [CreateCall(r, d)]);
    } else {
      assert NewCalls(p, q) == [LookupCall(r)];
      assert Lookups([LookupCall(r)]) == [r];
    }
  }

  lemma NetworkCreatesWith(p: Plane, f: Faults, n: Network, ms: seq<Machine>, block: Option<Cidr>)
    requires block.Some? ==> block.value.prefix <= 32
    ensures var q := CreateNetworkWith(p, f, n, ms, block).0; var e := LookupResult(p, f, NetworkRes(n)).1;
      |p.calls| <= |q.calls| &&
      (!NoCreates(NewCalls(p, q)) <==> e.Some? && !Fatal(NetworkKind, e.value) && block.Some?)
  {
    NetworkCallsWith(p, f, n, ms, block);
    var r := NetworkRes(n);
    var q := CreateNetworkWith(p, f, n, ms, block).0;
    var e := LookupResult(p, f, r).1;
    if e.Some? && !Fatal(NetworkKind, e.value) && block.Some? {
      assert NewCalls(p, q)[1].CreateCall?;
    } else {
      assert NewCalls(p, q) == [LookupCall(r)];
    }
  }

  /** The calls createNetwork makes: the lookup, then the creation only after
      a failure that is not fatal and when the block was read. */
  lemma NetworkCallsWith(p: Plane, f: Faults, n: Network, ms: seq<Machine>, block: Option<Cidr>)
    requires block.Some? ==> block.value.prefix <= 32
    ensures var (q, err) := CreateNetworkWith(p, f, n, ms, block); var (p1, e) := LookupResult(p, f, NetworkRes(n));
      Extends(p, q, {NetworkRes(n)}) && (err.None? ==> NetworkRes(n) in q.resources) &&
      if e.Some? && !Fatal(NetworkKind, e.value) && block.Some? then
        NewCalls(p, q) == [LookupCall(NetworkRes(n)), CreateCall(NetworkRes(n), NetworkD(NetworkDocFor(n, DhcpHosts(ms), block.value)))]
      else
        q == p1 && NewCalls(p, q) == [LookupCall(NetworkRes(n))] && (e.None? ==> err.None?) && (e.Some? && Fatal(NetworkKind, e.value) ==> err == e)
  {
    var (p1, e) := LookupResult(p, f, NetworkRes(n));
    LookupStep(p, f, NetworkRes(n));
    if e.Some? && !Fatal(NetworkKind, e.value) && block.Some? {
      var d := NetworkD(NetworkDocFor(n, DhcpHosts(ms), block.value));
      CreateStep(p1, f, NetworkRes(n), d);
      ExtendsTrans(p, p1, CreateResult(p1, f, NetworkRes(n), d).0, {}, {NetworkRes(n)});
      CallsAppend(p, p1, CreateResult(p1, f, NetworkRes(n), d).0);
    }
  }

  /** createVolume looks the volume up by its path under `cacheDir/pool` and
      creates `<machine>.qcow2`, of the machine's disk size, in the pool it
      was handed; only after a non-fatal lookup failure. */
  lemma VolumeDecision(p: Plane, f: Faults, cacheDir: string, poolPath: string, m: Machine)
    ensures var (q, err) := CreateVolumeRun(p, f, cacheDir, poolPath, m); var e := LookupResult(p, f, VolumeRes(cacheDir, m)).1;
      Extends(p, q, {Res(VolumeKind, Join(poolPath, VolumeName(m)))}) &&
      Lookups(NewCalls(p, q)) == [VolumeRes(cacheDir, m)] &&
      (err.None? ==> VolumeRes(cacheDir, m) in q.resources || Res(VolumeKind, Join(poolPath, VolumeName(m))) in q.resources) &&
      (e.None? ==> err.None? && NewCalls(p, q) == [LookupCall(VolumeRes(cacheDir, m))]) &&
      (e.Some? && e.value.LibvirtError? && e.value.code != ErrNoStorageVol ==>
         err == e && NewCalls(p, q) == [LookupCall(VolumeRes(cacheDir, m))]) &&
      (!NoCreates(NewCalls(p, q)) <==>
         e.Some? && (e.value == LibvirtError(ErrNoStorageVol) || !e.value.LibvirtError?) && SpecMatches(m.disk)) &&
      (!NoCreates(NewCalls(p, q)) ==>
         NewCalls(p, q) == [LookupCall(VolumeRes(cacheDir, m)),
                            CreateCall(Res(VolumeKind, Join(poolPath, m.name + ".qcow2")),
                                       VolumeD(VolumeDoc(m.name + ".qcow2", GetSpecsFrom(m.disk))))])
  {
    var r := VolumeRes(cacheDir, m);
    var (p1, e) := LookupResult(p, f, r);
    LookupStep(p, f, r);
    if e.Some? && !Fatal(VolumeKind, e.value) && SpecMatches(m.disk) {
      var key := Res(VolumeKind, Join(poolPath, VolumeName(m)));
      var d := VolumeD(VolumeDocFor(m));
      CreateStep(p1, f, key, d);
      ExtendsTrans(p, p1, CreateResult(p1, f, key, d).0, {}, {key});
      LookupsAppend([LookupCall(r)], [CreateCall(key, d)]);
      assert NewCalls(p, CreateVolumeRun(p, f, cacheDir, poolPath, m).0)[1].CreateCall?;
    }
  }

  /** createDomain creates only after a non-fatal lookup failure; a processor
      count that is not an integer is an error, but only once the lookup has
      failed. */
  lemma DomainDecision(p: Plane, f: Faults, agentISO: string, n: Network, m: Machine)
    ensures var (q, err) := CreateDomainRun(p, f, agentISO, n, m); var e := LookupResult(p, f, DomainRes(m)).1;
      Extends(p, q, {DomainRes(m)}) && Lookups(NewCalls(p, q)) == [DomainRes(m)] &&
      (err.None? ==> DomainRes(m) in q.resources) &&
      (e.None? ==> err.None? && NewCalls(p, q) == [LookupCall(DomainRes(m))]) &&
      (e.Some? && e.value.LibvirtError? && e.value.code != ErrNoDomain ==>
         err == e && NewCalls(p, q) == [LookupCall(DomainRes(m))]) &&
      (err == Some(AtoiError(m.vcpus)) && Atoi(m.vcpus).None? ==>
         e.Some? && (e.value == LibvirtError(ErrNoDomain) || !e.value.LibvirtError?)) &&
      (!NoCreates(NewCalls(p, q)) <==>
         e.Some? && (e.value == LibvirtError(ErrNoDomain) || !e.value.LibvirtError?) &&
         SpecMatches(m.memory) && Atoi(m.vcpus).Some?) &&
      (!NoCreates(NewCalls(p, q)) ==>
         NewCalls(p, q) == [LookupCall(DomainRes(m)),
                            CreateCall(DomainRes(m), DomainD(DomainDocFor(agentISO, n, m, Atoi(m.vcpus).value)))])
  {
    var r := DomainRes(m);
    var (p1, e) := LookupResult(p, f, r);
    LookupStep(p, f, r);
    if e.Some? && !Fatal(DomainKind, e.value) && SpecMatches(m.memory) && Atoi(m.vcpus).Some? {
      var d := DomainD(DomainDocFor(agentISO, n, m, Atoi(m.vcpus).value));
      CreateStep(p1, f, r, d);
      ExtendsTrans(p, p1, CreateResult(p1, f, r, d).0, {}, {r});
      LookupsAppend([LookupCall(r)], [CreateCall(r, d)]);
      assert NewCalls(p, CreateDomainRun(p, f, agentISO, n, m).0)[1].CreateCall?;
    }
  }

  /** What a step does to the daemon, without the decision: it looks one
      resource up, may add one, never destroys, and on success leaves the
      resource present. */
  lemma PoolFrame(p: Plane, f: Faults, cacheDir: string)
    ensures var (q, pool) := CreatePoolRun(p, f, cacheDir);
      Extends(p, q, {PoolRes}) && Lookups(NewCalls(p, q)) == [PoolRes] && (pool.Success? ==> PoolRes in q.resources)
  {
    PoolDecision(p, f, cacheDir);
  }

  lemma NetworkFrame(p: Plane, f: Faults, n: Network, ms: seq<Machine>)
    requires ':' !in n.cidr
    ensures var (q, err) := CreateNetworkRun(p, f, n, ms);
      Extends(p, q, {NetworkRes(n)}) && Lookups(NewCalls(p, q)) == [NetworkRes(n)] &&
      (err.None? ==> NetworkRes(n) in q.resources)
  {
    NetworkDecision(p, f, n, ms);
  }

  lemma VolumeFrame(p: Plane, f: Faults, cacheDir: string, m: Machine)
    ensures var (q, err) := CreateVolumeRun(p, f, cacheDir, PoolTarget(cacheDir), m);
      Extends(p, q, {VolumeRes(cacheDir, m)}) && Lookups(NewCalls(p, q)) == [VolumeRes(cacheDir, m)] &&
      (err.None? ==> VolumeRes(cacheDir, m) in q.resources)
  {
    assert Join(PoolTarget(cacheDir), VolumeName(m)) == VolumeRes(cacheDir, m).key;
    VolumeDecision(p, f, cacheDir, PoolTarget(cacheDir), m);
  }

  lemma DomainFrame(p: Plane, f: Faults, agentISO: string, n: Network, m: Machine)
    ensures var (q, err) := CreateDomainRun(p, f, agentISO, n, m);
      Extends(p, q, {DomainRes(m)}) && Lookups(NewCalls(p, q)) == [DomainRes(m)] &&
      (err.None? ==> DomainRes(m) in q.resources)
  {
    DomainDecision(p, f, agentISO, n, m);
  }

  /** With the pool where this cache directory puts it, a successful
      createPool hands back that directory. */
  lemma PoolHandle(p: Plane, f: Faults, cacheDir: string)
    requires PoolConsistent(p, cacheDir)
    requires CreatePoolRun(p, f, cacheDir).1.Success?
    ensures CreatePoolRun(p, f, cacheDir).1.value == PoolTarget(cacheDir)
  {
  }

  // ---------------------------------------------------------------------------
  // The resources of a scenario and the order they are visited in

  /** A pool named `ash_pool`, if there is one, has the directory this cache directory gives it. */
  predicate PoolConsistent(p: Plane, cacheDir: string)
  {
    PoolRes in p.resources ==> p.resources[PoolRes] == PoolD(PoolDocFor(cacheDir))
  }

  /** The volume and domain of each machine. */
  function MachineResources(cacheDir: string, ms: seq<Machine>): set<Res>
    decreases |ms|
  {
    if ms == [] then {} else {VolumeRes(cacheDir, ms[0]), DomainRes(ms[0])} + MachineResources(cacheDir, ms[1..])
  }

  /** Every resource a scenario names: the pool, its first network, and each machine's volume and domain. */
  function ScenarioResources(cacheDir: string, s: Scenario): set<Res>
    requires |s.networks| > 0
  {
    {PoolRes, NetworkRes(s.networks[0])} + MachineResources(cacheDir, s.machines)
  }

  /** Setup's order over the machines: the volume, then the domain, of each machine in turn. */
  function SetupMachinesOrder(cacheDir: string, ms: seq<Machine>): seq<Res>
    decreases |ms|
  {
    if ms == [] then [] else [VolumeRes(cacheDir, ms[0]), DomainRes(ms[0])] + SetupMachinesOrder(cacheDir, ms[1..])
  }

  /** Setup's order: the pool, the first network, then the machines. */
  function SetupOrder(cacheDir: string, s: Scenario): seq<Res>
    requires |s.networks| > 0
  {
    [PoolRes, NetworkRes(s.networks[0])] + SetupMachinesOrder(cacheDir, s.machines)
  }

  /** Teardown's order over the machines: the domain, then the volume, of each machine in turn. */
  function TeardownMachinesOrder(cacheDir: string, ms: seq<Machine>): seq<Res>
    decreases |ms|
  {
    if ms == [] then [] else [DomainRes(ms[0]), VolumeRes(cacheDir, ms[0])] + TeardownMachinesOrder(cacheDir, ms[1..])
  }

  /** Teardown's order: the machines, then the pool, then the first network. */
  function TeardownOrder(cacheDir: string, s: Scenario): seq<Res>
    requires |s.networks| > 0
  {
    TeardownMachinesOrder(cacheDir, s.machines) + [PoolRes, NetworkRes(s.networks[0])]
  }

  lemma ExtendsWeaken(p: Plane, q: Plane, a: set<Res>, b: set<Res>)
    requires Extends(p, q, a) && a <= b
    ensures Extends(p, q, b)
  {
  }

  // ---------------------------------------------------------------------------
  // Setup

  lemma PrefixAppend(a: seq<Res>, b: seq<Res>, c: seq<Res>)
    requires b <= c
    ensures a + b <= a + c
  {
    assert (a + c)[..|a + b|] == a + b;
  }

  /** The machine loop of Setup, with the pool in this cache directory's
      place, never destroys and adds only the machines' volumes and domains. */
  lemma {:induction false} SetupMachinesExtends(p: Plane, f: Faults, agentISO: string, cacheDir: string,
                                                n: Network, ms: seq<Machine>)
    ensures Extends(p, SetupMachinesRun(p, f, agentISO, cacheDir, PoolTarget(cacheDir), n, ms).0,
                    MachineResources(cacheDir, ms))
    decreases |ms|
  {
    var pp := PoolTarget(cacheDir);
    if ms != [] {
      var m := ms[0];
      var all := MachineResources(cacheDir, ms);
      VolumeFrame(p, f, cacheDir, m);
      var (p1, e1) := CreateVolumeRun(p, f, cacheDir, pp, m);
      ExtendsWeaken(p, p1, {VolumeRes(cacheDir, m)}, all);
      if e1.None? {
        DomainFrame(p1, f, agentISO, n, m);
        var (p2, e2) := CreateDomainRun(p1, f, agentISO, n, m);
        ExtendsTrans(p, p1, p2, {VolumeRes(cacheDir, m)}, {DomainRes(m)});
        ExtendsWeaken(p, p2, {VolumeRes(cacheDir, m)} + {DomainRes(m)}, all);
        if e2.None? {
          SetupMachinesExtends(p2, f, agentISO, cacheDir, n, ms[1..]);
          var q := SetupMachinesRun(p2, f, agentISO, cacheDir, pp, n, ms[1..]).0;
          ExtendsTrans(p, p2, q, all, MachineResources(cacheDir, ms[1..]));
          assert all + MachineResources(cacheDir, ms[1..]) == all;
        }
      }
    }
  }

  /** The machine loop of Setup looks up the volume, then the domain, of each
      machine in turn, and stops early only on an error. */
  lemma {:induction false} SetupMachinesLookups(p: Plane, f: Faults, agentISO: string, cacheDir: string,
                                                n: Network, ms: seq<Machine>)
    ensures var (q, e) := SetupMachinesRun(p, f, agentISO, cacheDir, PoolTarget(cacheDir), n, ms);
      |p.calls| <= |q.calls| &&
      Lookups(NewCalls(p, q)) <= SetupMachinesOrder(cacheDir, ms) &&
      (e.None? ==> Lookups(NewCalls(p, q)) == SetupMachinesOrder(cacheDir, ms))
    decreases |ms|
  {
    var pp := PoolTarget(cacheDir);
    if ms == [] {
      assert NewCalls(p, p) == [];
    } else {
      var m := ms[0];
      var rest := SetupMachinesOrder(cacheDir, ms[1..]);
      assert SetupMachinesOrder(cacheDir, ms) == [VolumeRes(cacheDir, m), DomainRes(m)] + rest;
      VolumeFrame(p, f, cacheDir, m);
      var (p1, e1) := CreateVolumeRun(p, f, cacheDir, pp, m);
      if e1.None? {
        DomainFrame(p1, f, agentISO, n, m);
        var (p2, e2) := CreateDomainRun(p1, f, agentISO, n, m);
        ExtendsTrans(p, p1, p2, {VolumeRes(cacheDir, m)}, {DomainRes(m)});
        LookupsAppend(NewCalls(p, p1), NewCalls(p1, p2));
        assert Lookups(NewCalls(p, p2)) == [VolumeRes(cacheDir, m), DomainRes(m)];
        if e2.None? {
          SetupMachinesLookups(p2, f, agentISO, cacheDir, n, ms[1..]);
          SetupMachinesExtends(p2, f, agentISO, cacheDir, n, ms[1..]);
          var q := SetupMachinesRun(p2, f, agentISO, cacheDir, pp, n, ms[1..]).0;
          CallsAppend(p, p2, q);
          LookupsAppend(NewCalls(p, p2), NewCalls(p2, q));
          PrefixAppend([VolumeRes(cacheDir, m), DomainRes(m)], Lookups(NewCalls(p2, q)), rest);
        } else {
          PrefixAppend([VolumeRes(cacheDir, m), DomainRes(m)], [], rest);
        }
      } else {
        PrefixAppend([VolumeRes(cacheDir, m)], [], [DomainRes(m)] + rest);
      }
    }
  }

  /** When the machine loop of Setup succeeds, every machine's volume and domain is present. */
  lemma {:induction false} SetupMachinesPresent(p: Plane, f: Faults, agentISO: string, cacheDir: string,
                                                n: Network, ms: seq<Machine>)
    requires SetupMachinesRun(p, f, agentISO, cacheDir, PoolTarget(cacheDir), n, ms).1.None?
    ensures MachineResources(cacheDir, ms) <= SetupMachinesRun(p, f, agentISO, cacheDir, PoolTarget(cacheDir), n, ms).0.resources.Keys
    decreases |ms|
  {
    var pp := PoolTarget(cacheDir);
    if ms != [] {
      var m := ms[0];
      VolumeFrame(p, f, cacheDir, m);
      var (p1, e1) := CreateVolumeRun(p, f, cacheDir, pp, m);
      DomainFrame(p1, f, agentISO, n, m);
      var (p2, e2) := CreateDomainRun(p1, f, agentISO, n, m);
      SetupMachinesPresent(p2, f, agentISO, cacheDir, n, ms[1..]);
      SetupMachinesExtends(p2, f, agentISO, cacheDir, n, ms[1..]);
    }
  }

  /** Setup, with any pool already there where this cache directory puts it,
      never destroys and adds only the scenario's resources. */
  lemma SetupExtends(p: Plane, f: Faults, agentISO: string, cacheDir: string, s: Scenario)
    requires |s.networks| > 0 && ':' !in s.networks[0].cidr
    requires PoolConsistent(p, cacheDir)
    ensures Extends(p, SetupRun(p, f, agentISO, cacheDir, s).0, ScenarioResources(cacheDir, s))
  {
    var n := s.networks[0];
    var all := ScenarioResources(cacheDir, s);
    var q := SetupRun(p, f, agentISO, cacheDir, s).0;
    if f.connect.Some? {
      assert q == p;
    } else {
      PoolFrame(p, f, cacheDir);
      var (p1, pool) := CreatePoolRun(p, f, cacheDir);
      ExtendsWeaken(p, p1, {PoolRes}, all);
      if pool.Failure? {
        assert q == p1;
      } else {
        PoolHandle(p, f, cacheDir);
        NetworkFrame(p1, f, n, s.machines);
        var (p2, e2) := CreateNetworkRun(p1, f, n, s.machines);
        ExtendsTrans(p, p1, p2, {PoolRes}, {NetworkRes(n)});
        ExtendsWeaken(p, p2, {PoolRes} + {NetworkRes(n)}, all);
        if e2.Some? {
          assert q == p2;
        } else {
          assert q == SetupMachinesRun(p2, f, agentISO, cacheDir, PoolTarget(cacheDir), n, s.machines).0;
          SetupMachinesExtends(p2, f, agentISO, cacheDir, n, s.machines);
          ExtendsTrans(p, p2, q, all, MachineResources(cacheDir, s.machines));
          assert all + MachineResources(cacheDir, s.machines) == all;
        }
      }
    }
  }

  /** Setup looks up the pool, the first network, then the volume and domain
      of each machine, and stops early only on an error. */
  lemma SetupLookups(p: Plane, f: Faults, agentISO: string, cacheDir: string, s: Scenario)
    requires |s.networks| > 0 && ':' !in s.networks[0].cidr
    requires PoolConsistent(p, cacheDir)
    ensures var (q, e) := SetupRun(p, f, agentISO, cacheDir, s);
      |p.calls| <= |q.calls| &&
      Lookups(NewCalls(p, q)) <= SetupOrder(cacheDir, s) &&
      (e.None? ==> Lookups(NewCalls(p, q)) == SetupOrder(cacheDir, s))
  {
    var n := s.networks[0];
    var rest := SetupMachinesOrder(cacheDir, s.machines);
    var order := SetupOrder(cacheDir, s);
    assert order == [PoolRes, NetworkRes(n)] + rest;
    var (q, e) := SetupRun(p, f, agentISO, cacheDir, s);
    if f.connect.Some? {
      assert q == p;
      assert NewCalls(p, p) == [];
    } else {
      PoolFrame(p, f, cacheDir);
      var (p1, pool) := CreatePoolRun(p, f, cacheDir);
      if pool.Failure? {
        assert q == p1;
        PrefixAppend([PoolRes], [], [NetworkRes(n)] + rest);
      } else {
        PoolHandle(p, f, cacheDir);
        SetupHeadLookups(p, f, cacheDir, n, s.machines);
        var (p2, e2) := CreateNetworkRun(p1, f, n, s.machines);
        if e2.Some? {
          assert q == p2;
          PrefixAppend([PoolRes, NetworkRes(n)], [], rest);
        } else {
          assert (q, e) == SetupMachinesRun(p2, f, agentISO, cacheDir, PoolTarget(cacheDir), n, s.machines);
          SetupTailLookups(p, p2, f, agentISO, cacheDir, n, s.machines);
        }
      }
    }
  }

  /** A pool that is there or made is followed by the lookup of the network. */
  lemma SetupHeadLookups(p: Plane, f: Faults, cacheDir: string, n: Network, ms: seq<Machine>)
    requires ':' !in n.cidr
    ensures var p1 := CreatePoolRun(p, f, cacheDir).0; var p2 := CreateNetworkRun(p1, f, n, ms).0;
      |p.calls| <= |p2.calls| && p2.calls[..|p.calls|] == p.calls &&
      Lookups(NewCalls(p, p2)) == [PoolRes, NetworkRes(n)]
  {
    PoolFrame(p, f, cacheDir);
    var p1 := CreatePoolRun(p, f, cacheDir).0;
    NetworkFrame(p1, f, n, ms);
    var p2 := CreateNetworkRun(p1, f, n, ms).0;
    ExtendsTrans(p, p1, p2, {PoolRes}, {NetworkRes(n)});
    LookupsAppend(NewCalls(p, p1), NewCalls(p1, p2));
  }

  /** Once the pool and the network have been looked up, the machine loop's
      lookups follow theirs. */
  lemma SetupTailLookups(p: Plane, p2: Plane, f: Faults, agentISO: string, cacheDir: string, n: Network, ms: seq<Machine>)
    requires |p.calls| <= |p2.calls| && p2.calls[..|p.calls|] == p.calls
    requires Lookups(NewCalls(p, p2)) == [PoolRes, NetworkRes(n)]
    ensures var (q, e) := SetupMachinesRun(p2, f, agentISO, cacheDir, PoolTarget(cacheDir), n, ms);
      |p.calls| <= |q.calls| &&
      Lookups(NewCalls(p, q)) <= [PoolRes, NetworkRes(n)] + SetupMachinesOrder(cacheDir, ms) &&
      (e.None? ==> Lookups(NewCalls(p, q)) == [PoolRes, NetworkRes(n)] + SetupMachinesOrder(cacheDir, ms))
  {
    var q := SetupMachinesRun(p2, f, agentISO, cacheDir, PoolTarget(cacheDir), n, ms).0;
    SetupMachinesLookups(p2, f, agentISO, cacheDir, n, ms);
    SetupMachinesExtends(p2, f, agentISO, cacheDir, n, ms);
    CallsAppend(p, p2, q);
    LookupsAppend(NewCalls(p, p2), NewCalls(p2, q));
    PrefixAppend([PoolRes, NetworkRes(n)], Lookups(NewCalls(p2, q)), SetupMachinesOrder(cacheDir, ms));
  }

  /** When Setup succeeds, every resource of the scenario is present. */
  lemma SetupPresent(p: Plane, f: Faults, agentISO: string, cacheDir: string, s: Scenario)
    requires |s.networks| > 0 && ':' !in s.networks[0].cidr
    requires PoolConsistent(p, cacheDir)
    requires SetupRun(p, f, agentISO, cacheDir, s).1.None?
    ensures ScenarioResources(cacheDir, s) <= SetupRun(p, f, agentISO, cacheDir, s).0.resources.Keys
  {
    var n := s.networks[0];
    PoolFrame(p, f, cacheDir);
    var (p1, pool) := CreatePoolRun(p, f, cacheDir);
    PoolHandle(p, f, cacheDir);
    NetworkFrame(p1, f, n, s.machines);
    var (p2, e2) := CreateNetworkRun(p1, f, n, s.machines);
    SetupMachinesPresent(p2, f, agentISO, cacheDir, n, s.machines);
    SetupMachinesExtends(p2, f, agentISO, cacheDir, n, s.machines);
  }

  /** With every machine's volume and domain present and no lookup of them
      failing, the machine loop of Setup finds them all, creates nothing and
      changes nothing. */
  lemma {:induction false} SetupMachinesFindAll(p: Plane, f: Faults, agentISO: string, cacheDir: string,
                                                poolPath: string, n: Network, ms: seq<Machine>)
    requires forall r :: r in MachineResources(cacheDir, ms) ==> r in p.resources && r !in f.lookup
    ensures var (q, e) := SetupMachinesRun(p, f, agentISO, cacheDir, poolPath, n, ms);
      e.None? && Shrinks(p, q) && q.resources == p.resources
    decreases |ms|
  {
    if ms != [] {
      var m := ms[0];
      LookupStep(p, f, VolumeRes(cacheDir, m));
      var (p1, e1) := CreateVolumeRun(p, f, cacheDir, poolPath, m);
      LookupStep(p1, f, DomainRes(m));
      var (p2, e2) := CreateDomainRun(p1, f, agentISO, n, m);
      ShrinksTrans(p, p1, p2);
      SetupMachinesFindAll(p2, f, agentISO, cacheDir, poolPath, n, ms[1..]);
      var q := SetupMachinesRun(p2, f, agentISO, cacheDir, poolPath, n, ms[1..]).0;
      ShrinksTrans(p, p2, q);
    }
  }

  /** With every resource of the scenario present and no lookup of them
      failing, Setup finds them all, creates nothing and changes nothing. */
  lemma SetupFindsAll(p: Plane, f: Faults, agentISO: string, cacheDir: string, s: Scenario)
    requires |s.networks| > 0 && ':' !in s.networks[0].cidr
    requires f.connect.None?
    requires forall r :: r in ScenarioResources(cacheDir, s) ==> r in p.resources && r !in f.lookup
    ensures var (q, e) := SetupRun(p, f, agentISO, cacheDir, s);
      e.None? && Shrinks(p, q) && q.resources == p.resources
  {
    var n := s.networks[0];
    LookupStep(p, f, PoolRes);
    var (p1, pool) := CreatePoolRun(p, f, cacheDir);
    LookupStep(p1, f, NetworkRes(n));
    var (p2, e2) := CreateNetworkRun(p1, f, n, s.machines);
    ShrinksTrans(p, p1, p2);
    SetupMachinesFindAll(p2, f, agentISO, cacheDir, pool.value, n, s.machines);
    var q := SetupMachinesRun(p2, f, agentISO, cacheDir, pool.value, n, s.machines).0;
    ShrinksTrans(p, p2, q);
  }

  /** Setup is idempotent: after a Setup that succeeded, on a daemon whose
      lookups do not fail, a second Setup succeeds, creates nothing and
      changes nothing. */
  lemma SecondSetupCreatesNothing(p: Plane, f: Faults, agentISO: string, cacheDir: string, s: Scenario)
    requires |s.networks| > 0 && ':' !in s.networks[0].cidr
    requires PoolConsistent(p, cacheDir) && f.connect.None? && f.lookup == map[]
    requires SetupRun(p, f, agentISO, cacheDir, s).1.None?
    ensures var q := SetupRun(p, f, agentISO, cacheDir, s).0;
      var (q2, e2) := SetupRun(q, f, agentISO, cacheDir, s);
      e2.None? && Shrinks(q, q2) && NoCreates(NewCalls(q, q2)) && q2.resources == q.resources
  {
    SetupPresent(p, f, agentISO, cacheDir, s);
    SetupFindsAll(SetupRun(p, f, agentISO, cacheDir, s).0, f, agentISO, cacheDir, s);
  }

  /** A machine whose size fields match the pattern and whose processor count is an integer. */
  predicate MachineWellFormed(m: Machine)
  {
    SpecMatches(m.disk) && SpecMatches(m.memory) && Atoi(m.vcpus).Some?
  }

  lemma {:induction false} SetupMachinesSucceed(p: Plane, f: Faults, agentISO: string, cacheDir: string,
                                                n: Network, ms: seq<Machine>)
    requires FaultFree(f)
    requires forall i :: 0 <= i < |ms| ==> MachineWellFormed(ms[i])
    ensures SetupMachinesRun(p, f, agentISO, cacheDir, PoolTarget(cacheDir), n, ms).1.None?
    decreases |ms|
  {
    if ms != [] {
      var m := ms[0];
      assert MachineWellFormed(m);
      assert Join(PoolTarget(cacheDir), VolumeName(m)) == VolumeRes(cacheDir, m).key;
      LookupStep(p, f, VolumeRes(cacheDir, m));
      var (p1, e1) := CreateVolumeRun(p, f, cacheDir, PoolTarget(cacheDir), m);
      LookupStep(p1, f, DomainRes(m));
      var (p2, e2) := CreateDomainRun(p1, f, agentISO, n, m);
      assert forall i :: 0 <= i < |ms[1..]| ==> ms[1..][i] == ms[i + 1];
      SetupMachinesSucceed(p2, f, agentISO, cacheDir, n, ms[1..]);
    }
  }

  /** On a daemon where nothing fails, with any pool already there where this
      cache directory puts it, Setup of a scenario whose first block parses
      and whose machines are well formed succeeds. */
  lemma SetupSucceeds(p: Plane, f: Faults, agentISO: string, cacheDir: string, s: Scenario)
    requires |s.networks| > 0 && ':' !in s.networks[0].cidr && ParseCIDR(s.networks[0].cidr).Some?
    requires FaultFree(f) && PoolConsistent(p, cacheDir)
    requires forall i :: 0 <= i < |s.machines| ==> MachineWellFormed(s.machines[i])
    ensures SetupRun(p, f, agentISO, cacheDir, s).1.None?
  {
    var n := s.networks[0];
    LookupStep(p, f, PoolRes);
    var (p1, pool) := CreatePoolRun(p, f, cacheDir);
    PoolHandle(p, f, cacheDir);
    LookupStep(p1, f, NetworkRes(n));
    var (p2, e2) := CreateNetworkRun(p1, f, n, s.machines);
    SetupMachinesSucceed(p2, f, agentISO, cacheDir, n, s.machines);
  }

  // ---------------------------------------------------------------------------
  // Teardown

  /** Destroying a resource if it is found looks it up once, never creates,
      and on a daemon where nothing fails leaves every other resource and not that one. */
  lemma DestroyIfFoundFacts(p: Plane, f: Faults, r: Res)
    ensures var q := DestroyIfFoundRun(p, f, r);
      Shrinks(p, q) && Lookups(NewCalls(p, q)) == [r] &&
      (FaultFree(f) ==> q.resources == p.resources - {r})
  {
    LookupStep(p, f, r);
    var (p1, e1) := LookupResult(p, f, r);
    if e1.None? {
      DestroyStep(p1, f, r);
      ShrinksTrans(p, p1, DestroyResult(p1, f, r).0);
      LookupsAppend([LookupCall(r)], [DestroyCall(r)]);
    } else if FaultFree(f) {
      assert p.resources - {r} == p.resources;
    }
  }

  /** The machine loop of Teardown never creates. */
  lemma {:induction false} TeardownMachinesShrinks(p: Plane, f: Faults, cacheDir: string, ms: seq<Machine>)
    ensures Shrinks(p, TeardownMachinesRun(p, f, cacheDir, ms))
    decreases |ms|
  {
    if ms != [] {
      var m := ms[0];
      var p1 := DestroyIfFoundRun(p, f, DomainRes(m));
      var p2 := DestroyIfFoundRun(p1, f, VolumeRes(cacheDir, m));
      DestroyIfFoundFacts(p, f, DomainRes(m));
      DestroyIfFoundFacts(p1, f, VolumeRes(cacheDir, m));
      TeardownMachinesShrinks(p2, f, cacheDir, ms[1..]);
      ShrinksTrans(p, p1, p2);
      ShrinksTrans(p, p2, TeardownMachinesRun(p2, f, cacheDir, ms[1..]));
    }
  }

  /** The machine loop of Teardown looks up the domain, then the volume, of each machine in turn. */
  lemma {:induction false} TeardownMachinesLookups(p: Plane, f: Faults, cacheDir: string, ms: seq<Machine>)
    ensures var q := TeardownMachinesRun(p, f, cacheDir, ms);
      |p.calls| <= |q.calls| && Lookups(NewCalls(p, q)) == TeardownMachinesOrder(cacheDir, ms)
    decreases |ms|
  {
    if ms == [] {
      assert NewCalls(p, p) == [];
    } else {
      var m := ms[0];
      var p2 := DestroyIfFoundRun(DestroyIfFoundRun(p, f, DomainRes(m)), f, VolumeRes(cacheDir, m));
      var q := TeardownMachinesRun(p2, f, cacheDir, ms[1..]);
      assert TeardownMachinesRun(p, f, cacheDir, ms) == q;
      assert TeardownMachinesOrder(cacheDir, ms)
          == [DomainRes(m), VolumeRes(cacheDir, m)] + TeardownMachinesOrder(cacheDir, ms[1..]);
      TeardownMachineLookups(p, f, cacheDir, m);
      assert [m][1..] == [];
      assert TeardownMachinesRun(p, f, cacheDir, [m]) == p2;
      TeardownMachinesLookups(p2, f, cacheDir, ms[1..]);
      TeardownMachinesShrinks(p2, f, cacheDir, ms[1..]);
      ShrinksTrans(p, p2, q);
      LookupsAppend(NewCalls(p, p2), NewCalls(p2, q));
    }
  }

  /** One pass of the Teardown loop looks up the machine's domain, then its volume. */
  lemma TeardownMachineLookups(p: Plane, f: Faults, cacheDir: string, m: Machine)
    ensures var q := TeardownMachinesRun(p, f, cacheDir, [m]);
      Shrinks(p, q) && Lookups(NewCalls(p, q)) == [DomainRes(m), VolumeRes(cacheDir, m)]
  {
    var p1 := DestroyIfFoundRun(p, f, DomainRes(m));
    var p2 := DestroyIfFoundRun(p1, f, VolumeRes(cacheDir, m));
    assert [m][1..] == [];
    assert TeardownMachinesRun(p, f, cacheDir, [m]) == p2;
    DestroyIfFoundFacts(p, f, DomainRes(m));
    DestroyIfFoundFacts(p1, f, VolumeRes(cacheDir, m));
    ShrinksTrans(p, p1, p2);
    LookupsAppend(NewCalls(p, p1), NewCalls(p1, p2));
  }

  /** On a daemon where nothing fails, the machine loop of Teardown removes
      exactly the machines' domains and volumes. */
  lemma {:induction false} TeardownMachinesRemove(p: Plane, f: Faults, cacheDir: string, ms: seq<Machine>)
    requires FaultFree(f)
    ensures TeardownMachinesRun(p, f, cacheDir, ms).resources == p.resources - MachineResources(cacheDir, ms)
    decreases |ms|
  {
    if ms == [] {
      assert p.resources - {} == p.resources;
    } else {
      var m := ms[0];
      var p1 := DestroyIfFoundRun(p, f, DomainRes(m));
      var p2 := DestroyIfFoundRun(p1, f, VolumeRes(cacheDir, m));
      DestroyIfFoundFacts(p, f, DomainRes(m));
      DestroyIfFoundFacts(p1, f, VolumeRes(cacheDir, m));
      TeardownMachinesRemove(p2, f, cacheDir, ms[1..]);
      assert p.resources - {DomainRes(m)} - {VolumeRes(cacheDir, m)} - MachineResources(cacheDir, ms[1..])
          == p.resources - MachineResources(cacheDir, ms);
    }
  }

  /** Teardown returns only the connection's error; after connecting it
      never creates, and looks up each machine's domain then volume, then
      the pool, then the first network. */
  lemma TeardownFacts(p: Plane, f: Faults, s: Scenario, cacheDir: string)
    requires |s.networks| > 0
    ensures var (q, e) := TeardownRun(p, f, s, cacheDir);
      e == f.connect && Shrinks(p, q) &&
      (f.connect.None? ==> Lookups(NewCalls(p, q)) == TeardownOrder(cacheDir, s))
  {
    var n := s.networks[0];
    if f.connect.Some? {
      assert NewCalls(p, p) == [];
    } else {
      var p1 := TeardownMachinesRun(p, f, cacheDir, s.machines);
      var p2 := DestroyIfFoundRun(p1, f, PoolRes);
      var p3 := DestroyIfFoundRun(p2, f, NetworkRes(n));
      TeardownMachinesShrinks(p, f, cacheDir, s.machines);
      TeardownMachinesLookups(p, f, cacheDir, s.machines);
      DestroyIfFoundFacts(p1, f, PoolRes);
      DestroyIfFoundFacts(p2, f, NetworkRes(n));
      assert TeardownRun(p, f, s, cacheDir) == (p3, None);
      ShrinksTrans(p, p1, p2);
      ShrinksTrans(p, p2, p3);
      LookupsAppend(NewCalls(p, p1), NewCalls(p1, p2));
      assert Lookups(NewCalls(p, p2)) == TeardownMachinesOrder(cacheDir, s.machines) + [PoolRes];
      LookupsAppend(NewCalls(p, p2), NewCalls(p2, p3));
      assert Lookups(NewCalls(p, p3)) == TeardownMachinesOrder(cacheDir, s.machines) + [PoolRes] + [NetworkRes(n)];
    }
  }

  /** On a daemon where nothing fails, Teardown removes exactly the scenario's resources. */
  lemma TeardownRemoves(p: Plane, f: Faults, s: Scenario, cacheDir: string)
    requires |s.networks| > 0 && FaultFree(f)
    ensures TeardownRun(p, f, s, cacheDir).0.resources == p.resources - ScenarioResources(cacheDir, s)
  {
    var n := s.networks[0];
    var p1 := TeardownMachinesRun(p, f, cacheDir, s.machines);
    var p2 := DestroyIfFoundRun(p1, f, PoolRes);
    TeardownMachinesRemove(p, f, cacheDir, s.machines);
    DestroyIfFoundFacts(p1, f, PoolRes);
    DestroyIfFoundFacts(p2, f, NetworkRes(n));
    assert p.resources - MachineResources(cacheDir, s.machines) - {PoolRes} - {NetworkRes(n)}
        == p.resources - ScenarioResources(cacheDir, s);
  }

  /** Setup then Teardown on a daemon where nothing fails gives back the
      daemon's resources as they were, provided none of the scenario's
      resources was there before, whether or not Setup succeeded. */
  lemma SetupTeardownRoundTrip(p: Plane, f: Faults, agentISO: string, cacheDir: string, s: Scenario)
    requires |s.networks| > 0 && ':' !in s.networks[0].cidr
    requires FaultFree(f) && PoolConsistent(p, cacheDir)
    requires forall r :: r in ScenarioResources(cacheDir, s) ==> r !in p.resources
    ensures TeardownRun(SetupRun(p, f, agentISO, cacheDir, s).0, f, s, cacheDir).0.resources == p.resources
  {
    var q := SetupRun(p, f, agentISO, cacheDir, s).0;
    SetupExtends(p, f, agentISO, cacheDir, s);
    TeardownRemoves(q, f, s, cacheDir);
    var all := ScenarioResources(cacheDir, s);
    assert q.resources - all == p.resources;
  }

  // ---------------------------------------------------------------------------
  // Descriptions

  /** The network's address is its gateway, its DHCP range runs between the
      two DHCP addresses, and its mask is the block's; each reads back as the
      address it denotes. */
  lemma NetworkDocAddresses(n: Network, hosts: seq<DhcpHost>, c: Cidr)
    requires c.prefix <= 32
    ensures var d := NetworkDocFor(n, hosts, c);
      ParseIPv4(d.address) == Some(Gateway(c)) && ParseIPv4(d.netmask) == Some(Netmask(c.prefix)) &&
      ParseIPv4(d.dhcpStart) == Some(DhcpStart(c)) && ParseIPv4(d.dhcpEnd) == Some(DhcpEnd(c))
  {
    FormatParseRoundTrip(Gateway(c));
    FormatParseRoundTrip(Netmask(c.prefix));
    FormatParseRoundTrip(DhcpStart(c));
    FormatParseRoundTrip(DhcpEnd(c));
  }

  /** In a block of prefix at most 24, the gateway and the ends of the DHCP
      range are the network address with last octet 1, 20 and 60, all inside the block. */
  lemma NetworkOffsets(c: Cidr)
    requires c.prefix <= 24
    ensures Gateway(c) == BaseAddress(c)[3 := 1]
    ensures DhcpStart(c) == BaseAddress(c)[3 := 20]
    ensures DhcpEnd(c) == BaseAddress(c)[3 := 60]
    ensures Mask(Gateway(c), c.prefix) == BaseAddress(c)
    ensures Mask(DhcpStart(c), c.prefix) == BaseAddress(c)
    ensures Mask(DhcpEnd(c), c.prefix) == BaseAddress(c)
  {
    ShortPrefixLastOctet(c.ip, c.prefix, 1);
    ShortPrefixLastOctet(c.ip, c.prefix, 20);
    ShortPrefixLastOctet(c.ip, c.prefix, 60);
  }

  /** The default network 192.168.200.0/24 gets gateway 192.168.200.1, the
      DHCP range 192.168.200.20 to 192.168.200.60 and mask 255.255.255.0. */
  lemma DefaultNetworkOffsets(c: Cidr)
    requires c == Cidr([192, 168, 200, 0], 24)
    ensures Gateway(c) == [192, 168, 200, 1]
    ensures DhcpStart(c) == [192, 168, 200, 20]
    ensures DhcpEnd(c) == [192, 168, 200, 60]
    ensures Netmask(c.prefix) == [255, 255, 255, 0]
  {
    DefaultBase(c);
    NetworkOffsets(c);
  }

  /** A volume is looked up under `<cacheDir>/pool`, by the name its description gives it. */
  lemma VolumeKey(cacheDir: string, m: Machine)
    requires SpecMatches(m.disk)
    ensures VolumeRes(cacheDir, m).key == cacheDir + "/pool/" + VolumeDocFor(m).name
  {
  }

  /** Why the Setup lemmas assume PoolConsistent: when `ash_pool` already
      exists with another directory, createVolume creates the volume in that
      directory but looks it up under `<cacheDir>/pool`. The volume a first
      run creates is then not found by the next one, whose create fails
      because the volume exists. */
  lemma VolumeCreatedOutsideLookup(p: Plane, f: Faults, cacheDir: string, poolPath: string, m: Machine)
    requires FaultFree(f) && SpecMatches(m.disk)
    requires poolPath != PoolTarget(cacheDir)
    requires VolumeRes(cacheDir, m) !in p.resources
    requires Res(VolumeKind, Join(poolPath, VolumeName(m))) !in p.resources
    ensures var (p1, e1) := CreateVolumeRun(p, f, cacheDir, poolPath, m);
      e1.None? && VolumeRes(cacheDir, m) !in p1.resources &&
      CreateVolumeRun(p1, f, cacheDir, poolPath, m).1 == Some(LibvirtError(ErrOperationFailed))
  {
    JoinDirsDiffer(poolPath, PoolTarget(cacheDir), VolumeName(m));
  }

  /** The same name joined to two different directories gives two different paths. */
  lemma JoinDirsDiffer(a: string, b: string, name: string)
    requires a != b
    ensures Join(a, name) != Join(b, name)
  {
    if |a| == |b| {
      var k :| 0 <= k < |a| && a[k] != b[k];
      assert Join(a, name)[k] == a[k] && Join(b, name)[k] == b[k];
    } else {
      assert |Join(a, name)| != |Join(b, name)|;
    }
  }

}
