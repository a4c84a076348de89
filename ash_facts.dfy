/** What resolving a scenario guarantees (pkg/ash/ash.go): the defaults are
    appended once and reach every machine, the automatic addresses and MACs
    go to exactly the machines that lack them, in order, and resolution fails
    exactly when the first network's block does not parse. */
module AshFacts {
  import opened Wrappers
  import opened Text
  import opened NetAddr
  import opened Machines
  import opened Scenarios
  import opened Libvirt
  import opened Ash

  // ---------------------------------------------------------------------------
  // setDefaults

  /** The decoded networks and profiles are kept, in order, and exactly one
      more copy of each default is appended after them. So the first network
      is the default one only if the decoded list was empty or began with it. */
  lemma DefaultsAppendOnce(s: Scenario)
    ensures var o := ApplyDefaults(s);
      o.name == s.name &&
      o.networks[..|s.networks|] == s.networks && o.networks[|s.networks|..] == [DefaultNetwork] &&
      o.machineProfiles[..|s.machineProfiles|] == s.machineProfiles &&
      o.machineProfiles[|s.machineProfiles|..] == [DefaultProfile]
    ensures multiset(ApplyDefaults(s).networks)[DefaultNetwork] == multiset(s.networks)[DefaultNetwork] + 1
    ensures multiset(ApplyDefaults(s).machineProfiles)[DefaultProfile] == multiset(s.machineProfiles)[DefaultProfile] + 1
    ensures ApplyDefaults(s).networks[0] == DefaultNetwork <==> s.networks == [] || s.networks[0] == DefaultNetwork
  {
    var o := ApplyDefaults(s);
    assert o.networks == s.networks + [DefaultNetwork];
    assert o.machineProfiles == s.machineProfiles + [DefaultProfile];
  }

  /** Every machine is put on the "ash" profile and network; its name, address
      and MAC are kept; a blank size becomes the profile's and a given one is kept. */
  lemma DefaultsMachine(s: Scenario, i: nat)
    requires i < |s.machines|
    ensures |ApplyDefaults(s).machines| == |s.machines|
    ensures var m, o := s.machines[i], ApplyDefaults(s).machines[i];
      o.profile == "ash" && o.network == "ash" &&
      o.name == m.name && o.ip == m.ip && o.mac == m.mac &&
      o.vcpus == (if m.vcpus == "" then "8" else m.vcpus) &&
      o.memory == (if m.memory == "" then "16GiB" else m.memory) &&
      o.disk == (if m.disk == "" then "120GiB" else m.disk)
  {
  }

  /** Applying the defaults a second time changes no machine. */
  lemma DefaultsIdempotentOnMachines(s: Scenario)
    ensures ApplyDefaults(ApplyDefaults(s)).machines == ApplyDefaults(s).machines
  {
    var once := ApplyDefaults(s).machines;
    var twice := ApplyDefaults(ApplyDefaults(s)).machines;
    assert |twice| == |once|;
    forall i | 0 <= i < |once|
      ensures twice[i] == once[i]
    {
      DefaultsMachine(s, i);
      DefaultsMachine(ApplyDefaults(s), i);
    }
  }

  /** After the defaults, every machine names a profile and a network the
      scenario defines, and every size field is non-empty; a size the machine
      did not give reads as the profile's 8 processors, 16 GiB and 120 GiB. */
  lemma DefaultsResolveReferences(s: Scenario, i: nat)
    requires i < |s.machines|
    ensures var o := ApplyDefaults(s); var m := o.machines[i];
      (exists j :: 0 <= j < |o.machineProfiles| && o.machineProfiles[j].name == m.profile) &&
      (exists j :: 0 <= j < |o.networks| && o.networks[j].name == m.network) &&
      m.vcpus != "" && m.memory != "" && m.disk != ""
    ensures s.machines[i].vcpus == "" ==> Atoi(ApplyDefaults(s).machines[i].vcpus) == Some(8)
    ensures s.machines[i].memory == "" ==>
      SpecMatches(ApplyDefaults(s).machines[i].memory) &&
      GetSpecsFrom(ApplyDefaults(s).machines[i].memory) == SizeSpec(16, "GiB")
    ensures s.machines[i].disk == "" ==>
      SpecMatches(ApplyDefaults(s).machines[i].disk) &&
      GetSpecsFrom(ApplyDefaults(s).machines[i].disk) == SizeSpec(120, "GiB")
  {
    var o := ApplyDefaults(s);
    DefaultsMachine(s, i);
    DefaultsAppendOnce(s);
    assert o.machineProfiles[|s.machineProfiles|] == DefaultProfile;
    assert o.networks[|s.networks|] == DefaultNetwork;
    DefaultVcpus();
    DefaultMemory();
    DefaultDisk();
  }

  // ---------------------------------------------------------------------------
  // Counting the machines that lack an address or a MAC

  /** A machine without an address counts towards every later prefix. */
  lemma {:induction false} BlankIpsGrow(ms: seq<Machine>, i: nat, j: nat)
    requires i < j <= |ms|
    ensures BlankIps(ms[..i]) + (if ms[i].ip == "" then 1 else 0) <= BlankIps(ms[..j])
    decreases j
  {
    BlankStep(ms, j - 1);
    if j > i + 1 {
      BlankIpsGrow(ms, i, j - 1);
    }
  }

  lemma {:induction false} BlankMacsGrow(ms: seq<Machine>, i: nat, j: nat)
    requires i < j <= |ms|
    ensures BlankMacs(ms[..i]) + (if ms[i].mac == "" then 1 else 0) <= BlankMacs(ms[..j])
    decreases j
  {
    BlankStep(ms, j - 1);
    if j > i + 1 {
      BlankMacsGrow(ms, i, j - 1);
    }
  }

  // ---------------------------------------------------------------------------
  // setNetworking

  /** setNetworking fails exactly when the first network's block does not
      parse, and then with that block's parse error. */
  lemma NetworkingFailsIff(s: Scenario, random: nat -> Bytes3)
    requires |s.networks| > 0 && ':' !in s.networks[0].cidr
    ensures NetworkingRun(s, random).Failure? <==> ParseCIDR(s.networks[0].cidr).None?
    ensures NetworkingRun(s, random).Failure? ==> NetworkingRun(s, random).error == CidrError(s.networks[0].cidr)
  {
  }

  /** setNetworking changes only the addresses and MACs of the machines that
      lack them; the `k`-th machine without a MAC gets the MAC of the `k`-th
      draw. Count and order of the machines are kept. */
  lemma NetworkingKeeps(s: Scenario, c: Cidr, random: nat -> Bytes3, i: nat)
    requires c.prefix <= 32 && i < |s.machines|
    ensures var o := ApplyNetworking(s, c, random);
      o.name == s.name && o.machineProfiles == s.machineProfiles && o.networks == s.networks &&
      |o.machines| == |s.machines|
    ensures var m, o := s.machines[i], ApplyNetworking(s, c, random).machines[i];
      o == m.(ip := o.ip, mac := o.mac) &&
      (m.ip != "" ==> o.ip == m.ip) &&
      (m.mac != "" ==> o.mac == m.mac) &&
      (m.mac == "" ==> o.mac == RandomMac(random(BlankMacs(s.machines[..i]))))
  {
  }

  /** The `k`-th automatic address keeps the first three octets of the
      network address and has last octet (base + 80 + k) mod 256. */
  lemma AutoAddressOctets(c: Cidr, k: nat)
    requires c.prefix <= 32
    ensures AutoAddress(c, k)[..3] == Mask(c.ip, c.prefix)[..3]
    ensures AutoAddress(c, k)[3] == (Mask(c.ip, c.prefix)[3] + 80 + k) % 256
  {
    AddToLastOctetTwice(Mask(c.ip, c.prefix), MachinesBaseAddrStart, k);
  }

  /** A machine without an address gets the text of the next automatic
      address, which reads back as that address. */
  lemma NetworkingAddress(s: Scenario, c: Cidr, random: nat -> Bytes3, i: nat)
    requires c.prefix <= 32 && i < |s.machines| && s.machines[i].ip == ""
    ensures ParseIPv4(ApplyNetworking(s, c, random).machines[i].ip) == Some(AutoAddress(c, BlankIps(s.machines[..i])))
  {
    FormatParseRoundTrip(AutoAddress(c, BlankIps(s.machines[..i])));
  }

  /** Among at most 256 machines without an address, later ones have a larger count below 256. */
  lemma BlankIpsOrdered(ms: seq<Machine>, i: nat, j: nat)
    requires i < j < |ms| && ms[i].ip == "" && ms[j].ip == ""
    requires BlankIps(ms) <= 256
    ensures BlankIps(ms[..i]) < BlankIps(ms[..j]) < 256
  {
    BlankIpsGrow(ms, i, j);
    BlankIpsGrow(ms, j, |ms|);
    assert ms[..|ms|] == ms;
  }

  /** Adding two amounts fewer than 256 apart to a byte gives two different bytes. */
  lemma ShiftedBytesDiffer(x: nat, a: nat, b: nat)
    requires a < b < a + 256
    ensures (x + a) % 256 != (x + b) % 256
  {
    var q, r := (x + a) / 256, (x + a) % 256;
    var t := r + (b - a);
    assert x + b == 256 * q + t;
    if t < 256 {
      assert (x + b) % 256 == t;
    } else {
      assert x + b == 256 * (q + 1) + (t - 256);
      assert (x + b) % 256 == t - 256;
    }
  }

  /** Automatic addresses fewer than 256 apart are different. */
  lemma AutoAddressesDiffer(c: Cidr, a: nat, b: nat)
    requires c.prefix <= 32 && a < b < 256
    ensures AutoAddress(c, a) != AutoAddress(c, b)
  {
    AutoAddressOctets(c, a);
    AutoAddressOctets(c, b);
    var x: nat := Mask(c.ip, c.prefix)[3];
    ShiftedBytesDiffer(x + 80, a, b);
  }

  /** As long as at most 256 machines need an address, no two of them get
      the same one. */
  lemma AddressesDistinct(s: Scenario, c: Cidr, random: nat -> Bytes3, i: nat, j: nat)
    requires c.prefix <= 32 && i < j < |s.machines|
    requires s.machines[i].ip == "" && s.machines[j].ip == ""
    requires BlankIps(s.machines) <= 256
    ensures ApplyNetworking(s, c, random).machines[i].ip != ApplyNetworking(s, c, random).machines[j].ip
  {
    var ms := s.machines;
    BlankIpsOrdered(ms, i, j);
    var ai, aj := AutoAddress(c, BlankIps(ms[..i])), AutoAddress(c, BlankIps(ms[..j]));
    AutoAddressesDiffer(c, BlankIps(ms[..i]), BlankIps(ms[..j]));
    FormatInjective(ai, aj);
    assert NetworkedMachine(ms, i, c, random).ip == FormatIPv4(ai);
    assert NetworkedMachine(ms, j, c, random).ip == FormatIPv4(aj);
  }

  /** Draws that differ in the bits a MAC keeps. */
  predicate DistinctDraws(random: nat -> Bytes3, n: nat)
  {
    forall x: nat, y: nat :: x < y < n ==>
      random(x)[0] / 4 != random(y)[0] / 4 || random(x)[1] != random(y)[1] || random(x)[2] != random(y)[2]
  }

  /** Machines without a MAC get distinct MACs when the random source's draws differ. */
  lemma MacsDistinct(s: Scenario, c: Cidr, random: nat -> Bytes3, i: nat, j: nat)
    requires c.prefix <= 32 && i < j < |s.machines|
    requires s.machines[i].mac == "" && s.machines[j].mac == ""
    requires DistinctDraws(random, BlankMacs(s.machines))
    ensures ApplyNetworking(s, c, random).machines[i].mac != ApplyNetworking(s, c, random).machines[j].mac
  {
    var ms := s.machines;
    BlankMacsGrow(ms, i, j);
    BlankMacsGrow(ms, j, |ms|);
    assert ms[..|ms|] == ms;
    RandomMacInjective(random(BlankMacs(ms[..i])), random(BlankMacs(ms[..j])));
  }

  /** In a block of prefix at most 24 the first 176 automatic addresses are
      the network address + 80 up to + 255, all inside the block. */
  lemma AutoAddressInBlock(c: Cidr, k: nat)
    requires c.prefix <= 24 && k < 176
    ensures AutoAddress(c, k) == BaseAddress(c)[3 := 80 + k]
    ensures Mask(AutoAddress(c, k), c.prefix) == BaseAddress(c)
  {
    ShortPrefixLastOctet(c.ip, c.prefix, (80 + k) as uint8);
    AutoAddressOctets(c, k);
    var a, b := AutoAddress(c, k), BaseAddress(c)[3 := 80 + k];
    assert a[..3] == b[..3] && a[3] == b[3];
    assert a == b by {
      assert forall i :: 0 <= i < 3 ==> a[i] == a[..3][i] && b[i] == b[..3][i];
    }
  }

  /** Those addresses are clear of the network address, the gateway (+1) and
      the DHCP range (+20 to +60). */
  lemma AutoAddressClear(c: Cidr, k: nat)
    requires c.prefix <= 24 && k < 176
    ensures AutoAddress(c, k) != BaseAddress(c) && AutoAddress(c, k) != Gateway(c)
    ensures !(DhcpStart(c)[3] <= AutoAddress(c, k)[3] <= DhcpEnd(c)[3])
  {
    ShortPrefixLastOctet(c.ip, c.prefix, 0);
    LastOctetClear(BaseAddress(c), k);
  }

  /** From a last octet of 0, the octet after adding 80 and then `k < 176` is
      none of 0, 1 and 20 to 60. */
  lemma LastOctetClear(b: IPv4, k: nat)
    requires b[3] == 0 && k < 176
    ensures AddToLastOctet(AddToLastOctet(b, MachinesBaseAddrStart), k) != b
    ensures AddToLastOctet(AddToLastOctet(b, MachinesBaseAddrStart), k) != AddToLastOctet(b, 1)
    ensures var x := AddToLastOctet(AddToLastOctet(b, MachinesBaseAddrStart), k)[3];
      !(AddToLastOctet(b, 20)[3] <= x <= AddToLastOctet(b, 60)[3])
  {
    AddToLastOctetTwice(b, MachinesBaseAddrStart, k);
    assert AddToLastOctet(b, MachinesBaseAddrStart + k)[3] == 80 + k;
  }

  /** The counter is not checked against the block: the 177th and 178th
      automatic addresses of a block of prefix at most 24 wrap round to the
      network address and to the gateway. */
  lemma AutoAddressWraps(c: Cidr)
    requires c.prefix <= 24
    ensures AutoAddress(c, 176) == BaseAddress(c)
    ensures AutoAddress(c, 177) == Gateway(c)
  {
    ShortPrefixLastOctet(c.ip, c.prefix, 0);
    LastOctetWraps(BaseAddress(c));
  }

  /** From a last octet of 0, adding 80 and then 176 comes back to 0, and adding 80 and then 177 gives 1. */
  lemma LastOctetWraps(b: IPv4)
    requires b[3] == 0
    ensures AddToLastOctet(AddToLastOctet(b, MachinesBaseAddrStart), 176) == b
    ensures AddToLastOctet(AddToLastOctet(b, MachinesBaseAddrStart), 177) == AddToLastOctet(b, 1)
  {
    AddToLastOctetTwice(b, MachinesBaseAddrStart, 176);
    AddToLastOctetTwice(b, MachinesBaseAddrStart, 177);
    assert AddToLastOctet(b, 256) == b[3 := 0] == b;
    assert AddToLastOctet(b, 257) == b[3 := 1] == AddToLastOctet(b, 1);
  }

  /** The network address of the default block is 192.168.200.0. */
  lemma DefaultBase(c: Cidr)
    requires c == Cidr([192, 168, 200, 0], 24)
    ensures Mask(c.ip, c.prefix) == [192, 168, 200, 0]
  {
    var m := Mask(c.ip, c.prefix);
    assert MaskOctet(24, 0) == 255 && MaskOctet(24, 1) == 255 && MaskOctet(24, 2) == 255 && MaskOctet(24, 3) == 0;
    assert m[0] == 192 && m[1] == 168 && m[2] == 200 && m[3] == 0;
  }

  /** The first default address prints as "192.168.200.80"; a step of
      DefaultFirstAddress kept apart so the printed text is worked out in a
      context of its own. */
  lemma Format80(ip: IPv4, text: string)
    requires ip == [192, 168, 200, 80] && text == "192.168.200.80"
    ensures FormatIPv4(ip) == text
  {
    var f0, f1, f2, f3 := DecimalString(ip[0]), DecimalString(ip[1]), DecimalString(ip[2]), DecimalString(ip[3]);
    assert f0 == "192" by { assert DecimalString(19) == "19"; }
    assert f1 == "168" by { assert DecimalString(16) == "16"; }
    assert f2 == "200" by { assert DecimalString(20) == "20"; }
    assert f3 == "80" by { assert DecimalString(8) == "8"; }
    Dotted80(f0, f1, f2, f3, text);
  }

  /** The literal concatenation behind Format80, kept apart for the same reason. */
  lemma Dotted80(f0: string, f1: string, f2: string, f3: string, text: string)
    requires f0 == "192" && f1 == "168" && f2 == "200" && f3 == "80" && text == "192.168.200.80"
    ensures f0 + "." + f1 + "." + f2 + "." + f3 == text
  {
  }

  /** The default network's first automatic address is 192.168.200.80. */
  lemma DefaultFirstAddress(c: Cidr)
    requires c == Cidr([192, 168, 200, 0], 24)
    ensures FirstAddress(c) == [192, 168, 200, 80]
    ensures FormatIPv4(FirstAddress(c)) == "192.168.200.80"
  {
    DefaultBase(c);
    var f := FirstAddress(c);
    assert f[..3] == [192, 168, 200] && f[3] == 80;
    assert f == [192, 168, 200, 80];
    Format80(f, "192.168.200.80");
  }

  /** Neither the DHCP range nor the automatic addresses are checked against
      the block: in 10.0.0.16/28, whose addresses run from 10.0.0.16 to
      10.0.0.31, the DHCP range starts at 10.0.0.36 and the first automatic
      address is 10.0.0.96, both in other blocks of the same size. */
  lemma SmallBlockSpill(c: Cidr)
    requires c == Cidr([10, 0, 0, 16], 28)
    ensures BaseAddress(c) == [10, 0, 0, 16]
    ensures DhcpStart(c) == [10, 0, 0, 36] && Mask(DhcpStart(c), c.prefix) != BaseAddress(c)
    ensures FirstAddress(c) == [10, 0, 0, 96] && Mask(FirstAddress(c), c.prefix) != BaseAddress(c)
  {
    assert Pow2(4) == 16;
    var b := BaseAddress(c);
    assert b[3] == 16;
    assert b == [10, 0, 0, 16];
    assert DhcpStart(c) == [10, 0, 0, 36];
    assert Mask(DhcpStart(c), c.prefix)[3] == 32;
    assert FirstAddress(c) == [10, 0, 0, 96];
    assert Mask(FirstAddress(c), c.prefix)[3] == 96;
  }

  // ---------------------------------------------------------------------------
  // defineScenario

  /** Resolution fails exactly when reading the document failed or the first
      network after the defaults does not parse; each error is passed on as it is. */
  lemma ResolveFailsIff(document: Result<Scenario>, random: nat -> Bytes3)
    requires IPv4First(document)
    ensures document.Failure? ==> Resolve(document, random) == Failure(document.error)
    ensures document.Success? ==>
      (Resolve(document, random).Failure? <==> ParseCIDR(ApplyDefaults(document.value).networks[0].cidr).None?)
  {
  }

  /** A document with no network of its own always resolves, onto the
      default network 192.168.200.0/24. */
  lemma ResolveWithoutNetworks(document: Result<Scenario>, random: nat -> Bytes3)
    requires document.Success? && document.value.networks == []
    ensures Resolve(document, random)
         == Success(ApplyNetworking(ApplyDefaults(document.value), Cidr([192, 168, 200, 0], 24), random))
    ensures Resolve(document, random).value.networks == [DefaultNetwork]
  {
    var d := ApplyDefaults(document.value);
    assert d.networks == [DefaultNetwork];
    DefaultNetworkBlock();
    ResolveOnto(document, random, Cidr([192, 168, 200, 0], 24));
  }

  /** A document whose first network after the defaults parses to `c` resolves onto `c`. */
  lemma ResolveOnto(document: Result<Scenario>, random: nat -> Bytes3, c: Cidr)
    requires document.Success? && IPv4First(document)
    requires ParseCIDR(ApplyDefaults(document.value).networks[0].cidr) == Some(c)
    ensures Resolve(document, random) == Success(ApplyNetworking(ApplyDefaults(document.value), c, random))
  {
  }

  /** On the default network, the first machine without an address gets 192.168.200.80. */
  lemma FirstBlankOnDefault(s: Scenario, c: Cidr, random: nat -> Bytes3, i: nat)
    requires c == Cidr([192, 168, 200, 0], 24)
    requires i < |s.machines| && s.machines[i].ip == "" && BlankIps(s.machines[..i]) == 0
    ensures ApplyNetworking(s, c, random).machines[i].ip == "192.168.200.80"
  {
    DefaultFirstAddress(c);
    AddToLastOctetZero(FirstAddress(c));
    assert NetworkedMachine(s.machines, i, c, random).ip == FormatIPv4(AutoAddress(c, 0));
  }

  /** The defaults do not touch addresses, so they do not change which machines lack one. */
  lemma {:induction false} DefaultedBlankIps(s: Scenario, i: nat)
    requires i <= |s.machines|
    ensures BlankIps(ApplyDefaults(s).machines[..i]) == BlankIps(s.machines[..i])
    decreases i
  {
    if i > 0 {
      DefaultedBlankIps(s, i - 1);
      DefaultsMachine(s, i - 1);
      BlankStep(s.machines, i - 1);
      BlankStep(ApplyDefaults(s).machines, i - 1);
    }
  }

  /** In a resolved scenario every machine has an address and a MAC, is on
      the "ash" profile and network, has every size field set, and keeps the
      name it was given. */
  lemma ResolvedComplete(document: Result<Scenario>, random: nat -> Bytes3, i: nat)
    requires IPv4First(document)
    requires Resolve(document, random).Success?
    requires i < |Resolve(document, random).value.machines|
    ensures document.Success? && |Resolve(document, random).value.machines| == |document.value.machines|
    ensures var m := Resolve(document, random).value.machines[i];
      m.ip != "" && m.mac != "" && m.profile == "ash" && m.network == "ash" &&
      m.vcpus != "" && m.memory != "" && m.disk != "" &&
      m.name == document.value.machines[i].name
  {
    var d := ApplyDefaults(document.value);
    var c := ParseCIDR(d.networks[0].cidr).value;
    DefaultsMachine(document.value, i);
    NetworkingKeeps(d, c, random, i);
    var m := d.machines[i];
    if m.ip == "" {
      NetworkingAddress(d, c, random, i);
    }
    if m.mac == "" {
      RandomMacShape(random(BlankMacs(d.machines[..i])));
    }
  }
}
