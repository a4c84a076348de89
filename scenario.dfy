/** The scenario description and its built-in defaults (pkg/ash/scenario.go,
    machineProfile.go, network.go and defaults.go). */
module Scenarios {
  import opened Wrappers
  import opened Text
  import opened NetAddr
  import opened Machines

  /** The file, in the assets directory, that holds the scenario. */
  const ScenarioFilename: string := "scenario.yaml"

  /** A named set of machine sizes and the network machines attach to. */
  datatype MachineProfile = MachineProfile(
    name: string,
    vcpus: string,
    memory: string,
    disk: string,
    network: string)

  /** Automatically assigned machine addresses start at the network address plus 80. */
  const MachinesBaseAddrStart: nat := 80

  /** A virtual network: its name, its IPv4 block in prefix notation, and
      whether it is disconnected (kept as text, unused by the core). */
  datatype Network = Network(name: string, cidr: string, disconnected: string)

  /** A decoded scenario file. */
  datatype Scenario = Scenario(
    name: string,
    machines: seq<Machine>,
    machineProfiles: seq<MachineProfile>,
    networks: seq<Network>)

  const DefaultLabel: string := "ash"

  const DefaultProfile: MachineProfile := MachineProfile(DefaultLabel, "8", "16GiB", "120GiB", DefaultLabel)

  const DefaultNetwork: Network := Network(DefaultLabel, "192.168.200.0/24", "no")

  /** Every network's DNS domain is a sub-domain of this one. */
  const DefaultBaseDomain: string := "test.agent.org"

  /** The built-in processor count reads as 8. */
  lemma DefaultVcpus()
    ensures Atoi(DefaultProfile.vcpus) == Some(8)
  {
  }

  /** The built-in memory size reads as 16 GiB. */
  lemma DefaultMemory()
    ensures SpecMatches(DefaultProfile.memory) && GetSpecsFrom(DefaultProfile.memory) == SizeSpec(16, "GiB")
  {
    SpecExampleCompact(DefaultProfile.memory, "GiB");
  }

  /** The built-in disk size reads as 120 GiB. */
  lemma DefaultDisk()
    ensures SpecMatches(DefaultProfile.disk) && GetSpecsFrom(DefaultProfile.disk) == SizeSpec(120, "GiB")
  {
    var n: nat := 120;
    assert DecimalString(n) == "120";
    SpecRoundTrip(n, [], "GiB");
    assert DecimalString(n) + [] + "GiB" == DefaultProfile.disk;
  }

  /** The built-in network is the IPv4 block 192.168.200.0/24. */
  lemma DefaultNetworkBlock()
    ensures ':' !in DefaultNetwork.cidr
    ensures ParseCIDR(DefaultNetwork.cidr) == Some(Cidr([192, 168, 200, 0], 24))
  {
    DefaultNetworkIsIPv4();
    DefaultBlockParses(DefaultNetwork.cidr, [192, 168, 200, 0], 24);
  }

  lemma DefaultNetworkIsIPv4()
    ensures ':' !in DefaultNetwork.cidr
  {
  }
}
