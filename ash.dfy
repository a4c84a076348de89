/** Resolving a scenario and driving the provider (pkg/ash/ash.go): the
    built-in defaults are added, every machine is put on the default profile
    and network, missing MACs and addresses are generated, and only a fully
    resolved scenario is kept and handed to the provider. */
module Ash {
  import opened Wrappers
  import opened Text
  import opened NetAddr
  import opened Machines
  import opened Scenarios
  import opened ControlPlane
  import opened Libvirt

  // ---------------------------------------------------------------------------
  // setDefaults

  /** A blank field takes the profile's value; a given one is kept. */
  function OrDefault(given: string, fallback: string): string
  {
    if given == "" then fallback else given
  }

  /** A machine after `setDefaults`: forced onto the default network and
      profile, blank sizes filled from the profile. */
  function DefaultedMachine(m: Machine): Machine
  {
    m.(network := DefaultNetwork.name, profile := DefaultProfile.name,
       vcpus := OrDefault(m.vcpus, DefaultProfile.vcpus),
       memory := OrDefault(m.memory, DefaultProfile.memory),
       disk := OrDefault(m.disk, DefaultProfile.disk))
  }

  /** The scenario after `setDefaults`. */
  function ApplyDefaults(s: Scenario): Scenario
  {
    Scenario(
      s.name,
      seq(|s.machines|, i requires 0 <= i < |s.machines| => DefaultedMachine(s.machines[i])),
      s.machineProfiles + [DefaultProfile],
      s.networks + [DefaultNetwork])
  }

  /** setDefaults, which never fails: the scenario is rewritten through its
      pointer, machine by machine. */
  method SetDefaults(s: Scenario) returns (out: Scenario)
    ensures out == ApplyDefaults(s)
  {
    out := s;
    out := out.(networks := out.networks + [DefaultNetwork]);
    out := out.(machineProfiles := out.machineProfiles + [DefaultProfile]);
    var i := 0;
    while i < |out.machines|
      invariant 0 <= i <= |out.machines| == |s.machines|
      invariant out.name == s.name
      invariant out.networks == s.networks + [DefaultNetwork]
      invariant out.machineProfiles == s.machineProfiles + [DefaultProfile]
      invariant forall j :: 0 <= j < i ==> out.machines[j] == DefaultedMachine(s.machines[j])
      invariant forall j :: i <= j < |out.machines| ==> out.machines[j] == s.machines[j]
    {
      var machine := out.machines[i];
      var profile := DefaultProfile;
      machine := machine.(network := DefaultNetwork.name, profile := profile.name);
      if machine.vcpus == "" {
        machine := machine.(vcpus := profile.vcpus);
      }
      if machine.memory == "" {
        machine := machine.(memory := profile.memory);
      }
      if machine.disk == "" {
        machine := machine.(disk := profile.disk);
      }
      out := out.(machines := out.machines[i := machine]);
      i := i + 1;
    }
  }

  // ---------------------------------------------------------------------------
  // setNetworking

  /** How many machines in `ms` have no address. */
  function BlankIps(ms: seq<Machine>): (n: nat)
    ensures n <= |ms|
    decreases |ms|
  {
    if ms == [] then 0 else BlankIps(ms[..|ms| - 1]) + (if ms[|ms| - 1].ip == "" then 1 else 0)
  }

  /** How many machines in `ms` have no MAC. */
  function BlankMacs(ms: seq<Machine>): (n: nat)
    ensures n <= |ms|
    decreases |ms|
  {
    if ms == [] then 0 else BlankMacs(ms[..|ms| - 1]) + (if ms[|ms| - 1].mac == "" then 1 else 0)
  }

  lemma BlankStep(ms: seq<Machine>, i: nat)
    requires i < |ms|
    ensures BlankIps(ms[..i + 1]) == BlankIps(ms[..i]) + (if ms[i].ip == "" then 1 else 0)
    ensures BlankMacs(ms[..i + 1]) == BlankMacs(ms[..i]) + (if ms[i].mac == "" then 1 else 0)
  {
    assert ms[..i + 1][..i] == ms[..i];
  }

  /** The first address handed out: the block's network address with 80 added to its last octet. */
  function FirstAddress(c: Cidr): IPv4
    requires c.prefix <= 32
  {
    AddToLastOctet(Mask(c.ip, c.prefix), MachinesBaseAddrStart)
  }

  /** The address the `k`-th machine without one receives (counting from 0). */
  function AutoAddress(c: Cidr, k: nat): IPv4
    requires c.prefix <= 32
  {
    AddToLastOctet(FirstAddress(c), k)
  }

  /** Machine `i` after `setNetworking`: the `k`-th machine without a MAC gets
      the MAC made from the `k`-th draw of random bytes, the `k`-th machine
      without an address gets the `k`-th automatic address. */
  function NetworkedMachine(ms: seq<Machine>, i: nat, c: Cidr, random: nat -> Bytes3): Machine
    requires i < |ms| && c.prefix <= 32
  {
    var m := ms[i];
    m.(mac := if m.mac == "" then RandomMac(random(BlankMacs(ms[..i]))) else m.mac,
       ip := if m.ip == "" then FormatIPv4(AutoAddress(c, BlankIps(ms[..i]))) else m.ip)
  }

  function ApplyNetworking(s: Scenario, c: Cidr, random: nat -> Bytes3): Scenario
    requires c.prefix <= 32
  {
    s.(machines := seq(|s.machines|, i requires 0 <= i < |s.machines| => NetworkedMachine(s.machines, i, c, random)))
  }

  /** The outcome of `setNetworking`: an error exactly when the first network's block does not parse. */
  function NetworkingRun(s: Scenario, random: nat -> Bytes3): Result<Scenario>
    requires |s.networks| > 0 && ':' !in s.networks[0].cidr
  {
    match ParseCIDR(s.networks[0].cidr)
    case None => Failure(CidrError(s.networks[0].cidr))
    case Some(c) => Success(ApplyNetworking(s, c, random))
  }

  /** A fresh four-byte buffer holding `ip`, as `ip.Mask` returns one. */
  method NewAddressBuffer(ip: IPv4) returns (buf: array<uint8>)
    ensures fresh(buf) && buf[..] == ip
  {
    buf := new uint8[4](j requires 0 <= j < 4 => ip[j]);
  }

  /** `buf[3] += d` on a byte buffer: only the last byte changes, modulo 256. */
  method AddToLast(buf: array<uint8>, d: nat)
    requires buf.Length == 4
    modifies buf
    ensures buf[..] == AddToLastOctet(old(buf[..]), d)
  {
    buf[3] := (buf[3] + d) % 256;
  }

  /** One pass of the loop in setNetworking over machine `m`: a missing MAC is
      drawn from `random(drawn)`, a missing address is the buffer's current
      value, after which the buffer's last byte moves on by one. */
  method FillMachine(m: Machine, ip: array<uint8>, drawn: nat, random: nat -> Bytes3) returns (r: Machine, next: nat)
    requires ip.Length == 4
    modifies ip
    ensures r == m.(mac := if m.mac == "" then RandomMac(random(drawn)) else m.mac,
                    ip := if m.ip == "" then FormatIPv4(old(ip[..])) else m.ip)
    ensures next == if m.mac == "" then drawn + 1 else drawn
    ensures ip[..] == if m.ip == "" then AddToLastOctet(old(ip[..]), 1) else old(ip[..])
  {
    r, next := m, drawn;
    if m.mac == "" {
      var mac := GenerateRandomMAC(random(drawn));
      next := drawn + 1;
      r := r.(mac := mac);
    }
    if m.ip == "" {
      r := r.(ip := FormatIPv4(ip[..]));
      AddToLast(ip, 1);
    }
  }

  /** The loop of setNetworking over all machines, starting from the block's first address. */
  method FillMachines(ms: seq<Machine>, c: Cidr, random: nat -> Bytes3) returns (out: seq<Machine>)
    requires c.prefix <= 32
    ensures |out| == |ms|
    ensures forall j :: 0 <= j < |ms| ==> out[j] == NetworkedMachine(ms, j, c, random)
  {
    var ip := NewAddressBuffer(Mask(c.ip, c.prefix));
    AddToLast(ip, MachinesBaseAddrStart);
    AddToLastOctetZero(FirstAddress(c));
    assert ms[..0] == [];
    var drawn := 0;
    out := [];
    var i := 0;
    while i < |ms|
      invariant 0 <= i <= |ms| && |out| == i
      invariant forall j :: 0 <= j < i ==> out[j] == NetworkedMachine(ms, j, c, random)
      invariant ip[..] == AutoAddress(c, BlankIps(ms[..i]))
      invariant drawn == BlankMacs(ms[..i])
    {
      ghost var before := ip[..];
      var machine, next := FillMachine(ms[i], ip, drawn, random);
      FillStep(ms, i, c, random, out, drawn, before, machine, next, ip[..]);
      out, drawn, i := out + [machine], next, i + 1;
    }
  }

  /** One pass of the loop builds machine `i` as the specification says and
      keeps the running address and the count of draws in step with the
      machines seen so far. */
  lemma FillStep(ms: seq<Machine>, i: nat, c: Cidr, random: nat -> Bytes3, out: seq<Machine>, drawn: nat,
                 before: IPv4, machine: Machine, next: nat, after: seq<uint8>)
    requires i < |ms| && c.prefix <= 32
    requires |out| == i && forall j :: 0 <= j < i ==> out[j] == NetworkedMachine(ms, j, c, random)
    requires before == AutoAddress(c, BlankIps(ms[..i])) && drawn == BlankMacs(ms[..i])
    requires machine == ms[i].(mac := if ms[i].mac == "" then RandomMac(random(drawn)) else ms[i].mac,
                               ip := if ms[i].ip == "" then FormatIPv4(before) else ms[i].ip)
    requires next == if ms[i].mac == "" then drawn + 1 else drawn
    requires after == if ms[i].ip == "" then AddToLastOctet(before, 1) else before
    ensures forall j :: 0 <= j < i + 1 ==> (out + [machine])[j] == NetworkedMachine(ms, j, c, random)
    ensures after == AutoAddress(c, BlankIps(ms[..i + 1]))
    ensures next == BlankMacs(ms[..i + 1])
  {
    FillStepMachine(ms, i, c, random, machine, drawn, before);
    FillStepExtend(ms, i, c, random, out, machine);
    BlankStep(ms, i);
    FillStepAddress(ms, i, c, before, after);
  }

  lemma FillStepMachine(ms: seq<Machine>, i: nat, c: Cidr, random: nat -> Bytes3, machine: Machine, drawn: nat, before: IPv4)
    requires i < |ms| && c.prefix <= 32
    requires before == AutoAddress(c, BlankIps(ms[..i])) && drawn == BlankMacs(ms[..i])
    requires machine == ms[i].(mac := if ms[i].mac == "" then RandomMac(random(drawn)) else ms[i].mac,
                               ip := if ms[i].ip == "" then FormatIPv4(before) else ms[i].ip)
    ensures machine == NetworkedMachine(ms, i, c, random)
  {
  }

  lemma FillStepExtend(ms: seq<Machine>, i: nat, c: Cidr, random: nat -> Bytes3, out: seq<Machine>, machine: Machine)
    requires i < |ms| && c.prefix <= 32
    requires |out| == i && forall j :: 0 <= j < i ==> out[j] == NetworkedMachine(ms, j, c, random)
    requires machine == NetworkedMachine(ms, i, c, random)
    ensures forall j :: 0 <= j < i + 1 ==> (out + [machine])[j] == NetworkedMachine(ms, j, c, random)
  {
  }

  lemma FillStepAddress(ms: seq<Machine>, i: nat, c: Cidr, before: IPv4, after: seq<uint8>)
    requires i < |ms| && c.prefix <= 32
    requires before == AutoAddress(c, BlankIps(ms[..i]))
    requires after == if ms[i].ip == "" then AddToLastOctet(before, 1) else before
    ensures after == AutoAddress(c, BlankIps(ms[..i + 1]))
  {
    BlankStep(ms, i);
    AddToLastOctetTwice(FirstAddress(c), BlankIps(ms[..i]), 1);
  }

  /** setNetworking. The `k`-th call to `rand.Read` yields `random(k)`; the
      running address is a four-byte buffer whose last byte is advanced in
      place. On error the scenario is left as it was. */
  method SetNetworking(s: Scenario, random: nat -> Bytes3) returns (out: Scenario, err: Option<Error>)
    requires |s.networks| > 0 && ':' !in s.networks[0].cidr
    ensures (if err.Some? then Failure(err.value) else Success(out)) == NetworkingRun(s, random)
    ensures err.Some? ==> out == s
  {
    out := s;
    var parsed := ParseCIDR(s.networks[0].cidr);
    if parsed.None? {
      err := Some(CidrError(s.networks[0].cidr));
      return;
    }
    var c := parsed.value;
    var machines := FillMachines(s.machines, c, random);
    out := s.(machines := machines);
    assert out.machines == ApplyNetworking(s, c, random).machines;
    err := None;
  }

  // ---------------------------------------------------------------------------
  // defineScenario, Setup, Teardown

  /** The model is of IPv4 scenarios: the first network of the document, if
      it has one, is written without ':'. */
  predicate IPv4First(document: Result<Scenario>)
  {
    document.Success? && |document.value.networks| > 0 ==> ':' !in document.value.networks[0].cidr
  }

  /** The outcome of `defineScenario`, given the outcome of reading and
      decoding the scenario file. */
  function Resolve(document: Result<Scenario>, random: nat -> Bytes3): Result<Scenario>
    requires IPv4First(document)
  {
    match document
    case Failure(e) => Failure(e)
    case Success(d) =>
      DefaultedIPv4First(d);
      NetworkingRun(ApplyDefaults(d), random)
  }

  /** After the defaults, the first network is the document's own first one
      or, when it has none, the default network: IPv4 either way. */
  lemma DefaultedIPv4First(d: Scenario)
    requires IPv4First(Success(d))
    ensures |ApplyDefaults(d).networks| > 0 && ':' !in ApplyDefaults(d).networks[0].cidr
  {
    DefaultNetworkIsIPv4();
  }

  class AgentScenarioHelper {
    var scenario: Scenario
    const assetsDir: string
    const cacheDir: string

    /** NewAgentScenarioHelper, with the working directory passed in. */
    constructor(workingDir: string, cacheDir: string)
      ensures scenario == Scenario("", [], [], [])
      ensures assetsDir == Join(workingDir, "cluster") && this.cacheDir == cacheDir
    {
      scenario := Scenario("", [], [], []);
      assetsDir := Join(workingDir, "cluster");
      this.cacheDir := cacheDir;
    }

    /** defineScenario; `document` is what reading and decoding
        `assetsDir/scenario.yaml` gave. The scenario is replaced only when
        every step succeeds. */
    method DefineScenario(document: Result<Scenario>, random: nat -> Bytes3) returns (err: Option<Error>)
      requires IPv4First(document)
      modifies this
      ensures Resolve(document, random).Success? ==> err.None? && scenario == Resolve(document, random).value
      ensures Resolve(document, random).Failure? ==>
        err == Some(Resolve(document, random).error) && scenario == old(scenario)
    {
      if document.Failure? {
        return Some(document.error);
      }
      var s := SetDefaults(document.value);
      DefaultNetworkIsIPv4();
      var networked;
      networked, err := SetNetworking(s, random);
      if err.Some? {
        return;
      }
      scenario := networked;
    }

    /** Setup: resolve the scenario, then provision it; a resolution error is
        returned before the daemon is touched. */
    method Setup(hv: Hypervisor, document: Result<Scenario>, random: nat -> Bytes3) returns (err: Option<Error>)
      requires IPv4First(document)
      modifies this, hv
      ensures Resolve(document, random).Failure? ==>
        err == Some(Resolve(document, random).error) && hv.plane == old(hv.plane) && scenario == old(scenario)
      ensures Resolve(document, random).Success? ==>
        scenario == Resolve(document, random).value &&
        |scenario.networks| > 0 && ':' !in scenario.networks[0].cidr &&
        (hv.plane, err) == SetupRun(old(hv.plane), hv.faults, Join(assetsDir, "agent.iso"), cacheDir, scenario)
    {
      err := DefineScenario(document, random);
      if err.Some? {
        return;
      }
      DefaultNetworkIsIPv4();
      var provider := new LibvirtProvider(Join(assetsDir, "agent.iso"), cacheDir);
      err := provider.Setup(hv, scenario);
    }

    /** Teardown: resolve the scenario, then remove what it names. */
    method Teardown(hv: Hypervisor, document: Result<Scenario>, random: nat -> Bytes3) returns (err: Option<Error>)
      requires IPv4First(document)
      modifies this, hv
      ensures Resolve(document, random).Failure? ==>
        err == Some(Resolve(document, random).error) && hv.plane == old(hv.plane) && scenario == old(scenario)
      ensures Resolve(document, random).Success? ==>
        scenario == Resolve(document, random).value && |scenario.networks| > 0 &&
        (hv.plane, err) == TeardownRun(old(hv.plane), hv.faults, scenario, cacheDir)
    {
      err := DefineScenario(document, random);
      if err.Some? {
        return;
      }
      var provider := new LibvirtProvider(Join(assetsDir, "agent.iso"), cacheDir);
      err := provider.Teardown(hv, scenario, cacheDir);
    }
  }
}
