# ash: a Dafny model of the agent scenario helper

ash stands up a small test environment for the OpenShift agent-based installer on libvirt. Everything is read from a scenario file, `scenario.yaml`, in the assets directory. The file names machines, machine profiles and networks, and any of them may leave fields blank.

ash resolves such a scenario in two steps:
- **Defaults.** It appends the built-in `ash` profile and `ash` network and puts every machine on them. Blank processor, memory and disk sizes are filled from the profile.
- **Networking.** Each machine without a MAC gets a random locally administered QEMU MAC. Each machine without an address gets the next address of the first network's block, starting at the network address plus 80.

ash then provisions the resolved scenario on libvirt:
- one storage pool, `ash_pool`;
- one NAT network with a DHCP reservation per machine;
- one qcow2 volume and one domain per machine.

Teardown removes the same resources again.

This project models that core:
- **`Wrappers`, `Text`:** Option/Result, the errors the core passes on, and the parts of Go's `strconv`, `fmt` and RE2 character classes the core relies on.
- **`NetAddr`:** the IPv4 part of Go's `net` package:
  - `ParseCIDR` (prefix notation, section 3.1 of RFC 4632);
  - `IP.Mask`;
  - `IP.String`;
  - byte arithmetic on the last octet, which wraps modulo 256.
- **`Machines`** (`machine.go`):
  - the machine record;
  - MAC generation, with the random bytes as a parameter;
  - the size reader `getSpecsFrom`. It is specified by the leftmost-first matches of `^(\d+)\s?(\w+)$` and proved equal to a direct decision procedure.
- **`Scenarios`** (`scenario.go`, `machineProfile.go`, `network.go`, `defaults.go`): the scenario records and the built-in defaults.
- **`ControlPlane`:** the libvirt daemon as the provisioning code sees it:
  - a map from resources to the descriptions they were created from;
  - the sequence of calls made so far;
  - a fault table that fixes in advance which calls fail for reasons outside the code.

  `Hypervisor` is a class whose methods update that state.
- **`Libvirt`** (`libvirt.go`):
  - each provisioning step is specified as a function from the daemon's state to the new state and error;
  - `LibvirtProvider`'s methods, with their loops, are proved to do exactly that.
- **`Ash`** (`ash.go`):
  - `setDefaults` and `setNetworking` as methods with loops. The running address is a four-byte array advanced in place;
  - `AgentScenarioHelper` as a class whose `DefineScenario`, `Setup` and `Teardown` replace the scenario only on success.
- **`AshFacts`, `ProvisionFacts`:** properties of resolution and of provisioning.

## Model

| member | source | states |
|---|---|---|
| Text.DecimalRoundTrip | pkg/ash/libvirt.go:221-230 | Reading back the decimal numeral printed for `n` gives `n`. |
| Text.AtoiOfDecimal | pkg/ash/libvirt.go:280-283 | `strconv.Atoi` reads back every numeral printed for a non-negative 64-bit `int`. |
| Text.Atoi | pkg/ash/libvirt.go:280-283 | A successful `Atoi` result lies within the 64-bit `int` range. |
| Text.AtoiOfNegative | pkg/ash/libvirt.go:280-283 | `strconv.Atoi` reads back `-` followed by the numeral of any `n` from 1 to 2^63 as `-n`. |
| Text.AtoiMeaning | pkg/ash/libvirt.go:280-283 | Atoi accepts only an optional `+` or `-` followed by at least one decimal digit and nothing else. The value is that of the digits, negated after a `-`. |
| Text.DecimalCanonical | pkg/ash/ash.go:133 | A numeral without a superfluous leading zero is exactly the numeral printed for its value. |
| Text.AndHighOnes | pkg/ash/ash.go:137 | For a value below 2^n, a mask with bits j to n-1 set clears exactly the j low bits: the result is `a - a mod 2^j`. |
| Text.Hex2 | pkg/ash/machine.go:35 | `%02x` prints exactly two lower-case hex digits, which denote the byte. |
| Text.AndIdempotent | pkg/ash/ash.go:137 | Applying the same AND mask twice gives the same result as applying it once. |
| Text.AndLowOnes | pkg/ash/ash.go:137 | A mask of `n` low one-bits keeps every value below 2^n. |
| NetAddr.Cut | pkg/ash/ash.go:133 | Splitting at the first separator: none exactly when the separator is absent; otherwise the text is `before + sep + after`, with no separator in `before`. |
| NetAddr.CutAtFirst | pkg/ash/ash.go:133 | Cutting `before + sep + after` at its first `sep` recovers both parts. |
| NetAddr.ParseIPv4 | pkg/ash/ash.go:133 | Only the canonical dotted-decimal text of an address parses: a parsed address prints back as exactly the text it was read from. Leading zeros, values above 255 and a wrong number of fields are errors. |
| NetAddr.OctetCanonical | pkg/ash/ash.go:133 | An accepted field is exactly the decimal numeral of its byte. |
| NetAddr.FieldsCanonical | pkg/ash/ash.go:133 | Accepted fields are the bytes' numerals joined by dots. |
| NetAddr.FormatIPv4 | pkg/ash/ash.go:150 | `IP.String` of a four-byte address is dotted decimal text of 7 to 15 characters. |
| NetAddr.ParseFieldsStep | pkg/ash/ash.go:133 | A valid field, a dot and valid fields parse to the field's octet followed by the others. |
| NetAddr.OctetRoundTrip | pkg/ash/ash.go:150 | A printed octet has no dot and parses back to the same byte. |
| NetAddr.ParseDotted | pkg/ash/ash.go:133 | Four valid octet fields joined by dots parse to those four bytes. |
| NetAddr.FormatParseRoundTrip | pkg/ash/ash.go:150 | Every address printed by `IP.String` parses back to itself. |
| NetAddr.FormatInjective | pkg/ash/ash.go:150 | Distinct addresses print as distinct strings. |
| NetAddr.ParseCIDR | pkg/ash/ash.go:133-136 | An accepted block has a prefix of at most 32. |
| NetAddr.ParseCIDRCanonical | pkg/ash/ash.go:133-136 | An accepted block is written as the canonical text of its address, a `/`, and a non-empty run of decimal digits whose value is the prefix length. |
| NetAddr.ParseCIDRWritten | pkg/ash/libvirt.go:216-219 | An address, a `/` and a decimal length of at most 32 parse to that address and length. |
| NetAddr.CidrRoundTrip | pkg/ash/libvirt.go:216-219 | Every block printed as `address/length`, with length at most 32, parses back to the same block. |
| NetAddr.MaskOctet | pkg/ash/libvirt.go:231 | A mask byte is 255 when the prefix covers the whole byte and 0 when it covers none of it. |
| NetAddr.Netmask | pkg/ash/libvirt.go:231 | `net.IP(ipnet.Mask)` has its leading `prefix` bits set and the rest clear. Covered bytes are 255 and uncovered bytes 0; the byte the prefix ends in is 256 - 2^(8(i+1) - prefix). |
| NetAddr.And | pkg/ash/ash.go:137 | Masking a byte never increases it; mask 255 keeps the byte and mask 0 clears it. |
| NetAddr.AndMaskOctet | pkg/ash/ash.go:137 | AND-ing a byte with a mask byte keeps it when the prefix covers the byte and clears it when the prefix does not reach it. In the byte the prefix ends in, only the high bits are kept. |
| NetAddr.Mask | pkg/ash/ash.go:137 | The network address keeps the bytes the prefix covers and zeroes the bytes after it. In the byte `i` where the prefix ends, the low `8(i+1) - prefix` bits are cleared: the byte becomes `b - b mod 2^(8(i+1)-prefix)`. |
| NetAddr.MaskByNetmask | pkg/ash/ash.go:137 | Each byte of the network address is the address byte AND the corresponding byte of `net.IP(ipnet.Mask)`. |
| NetAddr.MaskIdempotent | pkg/ash/libvirt.go:221-226 | A network address is its own network: masking twice equals masking once. |
| NetAddr.AddToLastOctet | pkg/ash/ash.go:138 | `ip[3] += d` changes only the last byte, to (old + d) mod 256, with no carry. |
| NetAddr.AddToLastOctetTwice | pkg/ash/ash.go:151 | Two additions to the last byte equal one addition of their sum, mod 256. |
| NetAddr.ShortPrefixLastOctet | pkg/ash/libvirt.go:221-226 | With a prefix of at most 24, the network address ends in 0, and any last byte stays inside the block. |
| NetAddr.DefaultBlockParses | pkg/ash/defaults.go:14-18 | `192.168.200.0/24` parses to address 192.168.200.0 with prefix 24. |
| Machines.Machine.GetDiskSpecs | pkg/ash/machine.go:45-47 | The disk size is the leftmost-first reading of the `disk` field. |
| Machines.Machine.GetMemorySpecs | pkg/ash/machine.go:49-51 | The memory size is the leftmost-first reading of the `memory` field. |
| Machines.LocalUnicast | pkg/ash/machine.go:26-33 | OR-ing in `localBit` and AND-ing with `unicastMask` sets bit 1, clears bit 0 and keeps the upper six bits. |
| Machines.LocalUnicastValue | pkg/ash/machine.go:33 | The forced first byte equals 4*(b/4)+2. |
| Machines.GenerateRandomMAC | pkg/ash/machine.go:30-36 | The MAC is the QEMU prefix, the forced first random byte and the other two bytes, printed as hex. |
| Machines.MacTextShape | pkg/ash/machine.go:35 | The printed MAC is six colon-separated hex pairs, begins `52:54:00:`, and its octets 4-6 are the three given bytes. |
| Machines.RandomMacShape | pkg/ash/machine.go:30-36 | A generated MAC is well formed and carries the QEMU prefix. Its fourth octet is locally administered unicast and keeps the first random byte's upper six bits. Its last two octets are the other random bytes. |
| Machines.RandomMacInjective | pkg/ash/machine.go:30-36 | Random draws that differ outside the two overwritten bits give different MACs. |
| Machines.DigitRun | pkg/ash/machine.go:39 | The leading run of `\d` characters is all digits and is followed by a non-digit or the end of the text. |
| Machines.SpecMatchesIff | pkg/ash/machine.go:38-41 | The decision procedure accepts exactly when `^(\d+)\s?(\w+)$` has some split. The split it picks is the one a leftmost-first matcher reports. |
| Machines.MatchIsLeftmost | pkg/ash/machine.go:38-41 | When accepted, no other split takes more digits, or the same digits and more whitespace. |
| Machines.SplitMatches | pkg/ash/machine.go:38-41 | Any split of the pattern makes the decision procedure accept. |
| Machines.GetSpecsFrom | pkg/ash/machine.go:38-43 | The result is the leftmost-first digits, read by Atoi (clamped on overflow), and a non-empty word unit. |
| Machines.SpecOfUnique | pkg/ash/machine.go:38-43 | A size text denotes at most one (amount, unit) pair. |
| Machines.NumeralSplit | pkg/ash/machine.go:38-41 | Digits, an optional space and a word not starting with a digit split at exactly those boundaries. |
| Machines.SpecRoundTrip | pkg/ash/machine.go:38-43 | A printed amount, an optional whitespace and a unit read back as that amount and unit. |
| Machines.AllDigitSpec | pkg/ash/machine.go:38-43 | On all-digit text the greedy digits give back the last digit, which becomes the unit. |
| Machines.SpecExampleCompact | pkg/ash/machine.go:38-43 | "16GiB" reads as 16 GiB. |
| Machines.SpecExampleSpaced | pkg/ash/machine.go:38-43 | "120 GiB" reads as 120 GiB; the single space is skipped. |
| Machines.AllDigitExample | pkg/ash/machine.go:38-43 | "1616" reads as 161 of unit "6". |
| Scenarios.DefaultVcpus | pkg/ash/defaults.go:6-12 | The default profile's processor count reads as 8. |
| Scenarios.DefaultMemory | pkg/ash/defaults.go:6-12 | The default profile's memory reads as 16 GiB. |
| Scenarios.DefaultDisk | pkg/ash/defaults.go:6-12 | The default profile's disk reads as 120 GiB. |
| Scenarios.DefaultNetworkBlock | pkg/ash/defaults.go:14-18 | The default network is the IPv4 block 192.168.200.0/24. |
| ControlPlane.LookupResult | pkg/ash/libvirt.go:74-78 | A lookup is recorded and changes no resource. It succeeds exactly when the resource exists and no fault applies. When the resource is absent and no fault applies, it fails with the kind's not-found code; a faulted lookup fails with the fault's error. |
| ControlPlane.CreateResult | pkg/ash/libvirt.go:108-111 | A create is recorded. It succeeds exactly when there is no fault and no existing resource, and only a success adds the resource. |
| ControlPlane.DestroyResult | pkg/ash/libvirt.go:444-452 | A destroy is recorded. It succeeds exactly when there is no fault, and only a success removes the resource. |
| ControlPlane.Hypervisor.Lookup | pkg/ash/libvirt.go:74 | The connection's lookup updates its state as `LookupResult` says. |
| ControlPlane.Hypervisor.Create | pkg/ash/libvirt.go:108 | The connection's create updates its state as `CreateResult` says. |
| ControlPlane.Hypervisor.Destroy | pkg/ash/libvirt.go:446 | The connection's destroy updates its state as `DestroyResult` says. |
| Libvirt.PoolDocFor | pkg/ash/libvirt.go:84-101 | The pool description is named `ash_pool` with target directory `<cacheDir>/pool`. |
| Libvirt.NetworkDocFor | pkg/ash/libvirt.go:183-250 | The network is named and bridged after the scenario network. Its DNS domain is `<name>.test.agent.org`, and its one forwarder sends `apps.<name>.test.agent.org` to 127.0.0.1. It carries the reservations as given. |
| Libvirt.VolumeDocFor | pkg/ash/libvirt.go:119-155 | The volume is named `<machine>.qcow2`, and its capacity is the machine's disk size as read. |
| Libvirt.DomainDocFor | pkg/ash/libvirt.go:279-369 | The domain's memory is the machine's memory as read. It boots the `<name>.qcow2` volume of `ash_pool` and the agent image, on the scenario network with the machine's MAC. Its vcpus is `uint(v)`: `v` when non-negative, `v + 2^64` when negative. |
| Libvirt.DhcpHosts | pkg/ash/libvirt.go:244-250 | One reservation per machine, in order, with that machine's MAC, address and name. |
| Libvirt.AsUint | pkg/ash/libvirt.go:299-301 | `uint(v)` is below 2^64 and equals `v` when `v` is non-negative. |
| Libvirt.TeardownRun | pkg/ash/libvirt.go:411-466 | Teardown's only error is the connection's. |
| Libvirt.LibvirtProvider.CreatePool | pkg/ash/libvirt.go:72-115 | createPool takes the daemon from its old state to the new state and result `CreatePoolRun` gives. |
| Libvirt.LibvirtProvider.CreateVolume | pkg/ash/libvirt.go:117-169 | createVolume does exactly what `CreateVolumeRun` says. |
| Libvirt.LibvirtProvider.BuildDhcpHosts | pkg/ash/libvirt.go:244-250 | The append loop builds exactly `DhcpHosts(ms)`. |
| Libvirt.LibvirtProvider.CreateNetwork | pkg/ash/libvirt.go:171-265 | createNetwork does exactly what `CreateNetworkRun` says. |
| Libvirt.LibvirtProvider.CreateDomain | pkg/ash/libvirt.go:267-409 | createDomain does exactly what `CreateDomainRun` says. |
| Libvirt.LibvirtProvider.Setup | pkg/ash/libvirt.go:37-70 | Setup, with its machine loop, does exactly what `SetupRun` says. |
| Libvirt.LibvirtProvider.DestroyIfFound | pkg/ash/libvirt.go:421-429 | Look the resource up; if found, destroy it; ignore every error. |
| Libvirt.LibvirtProvider.Teardown | pkg/ash/libvirt.go:411-466 | Teardown, with its machine loop, does exactly what `TeardownRun` says. |
| Ash.SetDefaults | pkg/ash/ash.go:100-129 | The in-place loop produces `ApplyDefaults(s)`; its properties are in `AshFacts.Defaults*`. |
| Ash.BlankStep | pkg/ash/ash.go:144-152 | The counts of machines without an address or a MAC grow by one exactly at such a machine. |
| Ash.AddToLast | pkg/ash/ash.go:151 | `ip[3]++` on the address buffer changes its last byte only, mod 256. |
| Ash.FillMachine | pkg/ash/ash.go:141-154 | A missing MAC is drawn and a missing address is the buffer's current value, after which the buffer advances. Given fields are kept. |
| Ash.FillMachines | pkg/ash/ash.go:137-155 | Machine `j` ends up as `NetworkedMachine(ms, j, ...)`: the k-th machine without an address gets the k-th automatic address, and the k-th without a MAC gets the k-th draw. |
| Ash.FillStep | pkg/ash/ash.go:140-155 | One loop pass builds machine `i` as specified and keeps the address buffer and the draw count in step with the machines seen so far. |
| Ash.SetNetworking | pkg/ash/ash.go:131-158 | Fails, leaving the scenario as it was, exactly when the block does not parse; otherwise the result is `ApplyNetworking`. |
| Ash.AgentScenarioHelper.DefineScenario | pkg/ash/ash.go:75-98 | The scenario is replaced by the resolved one only on success. Every error (read, decode, block) is returned unchanged and leaves the scenario as it was. |
| Ash.AgentScenarioHelper.Setup | pkg/ash/ash.go:35-51 | A resolution error is returned before the daemon is touched. Otherwise the provider's Setup runs on the resolved scenario with `<assets>/agent.iso`. |
| Ash.AgentScenarioHelper.Teardown | pkg/ash/ash.go:55-71 | Same as Setup, with the provider's Teardown using the helper's cache directory. |
| AshFacts.DefaultsAppendOnce | pkg/ash/ash.go:102-104 | Decoded networks and profiles are kept in order, with exactly one more copy of each default after them. The first network is the default one only if the list was empty or already began with it. |
| AshFacts.DefaultsMachine | pkg/ash/ash.go:106-126 | Every machine is put on profile and network "ash" and keeps its name, address and MAC. Each blank size becomes "8"/"16GiB"/"120GiB" and each given size is kept. |
| AshFacts.DefaultsIdempotentOnMachines | pkg/ash/ash.go:106-126 | Applying the defaults twice changes no machine further. |
| AshFacts.DefaultsResolveReferences | pkg/ash/ash.go:100-129 | Each machine names a profile and a network the scenario defines, and has non-empty sizes. A defaulted size reads as 8 processors, 16 GiB or 120 GiB. |
| AshFacts.BlankIpsGrow | pkg/ash/ash.go:149-152 | A machine without an address counts towards every later prefix. |
| AshFacts.BlankMacsGrow | pkg/ash/ash.go:144-146 | A machine without a MAC counts towards every later prefix. |
| AshFacts.NetworkingFailsIff | pkg/ash/ash.go:133-136 | setNetworking fails exactly when the first network's block does not parse, and then with that parse error. |
| AshFacts.NetworkingKeeps | pkg/ash/ash.go:140-155 | Only empty addresses and MACs change. Count and order are kept, and the k-th machine without a MAC gets the MAC of draw k. |
| AshFacts.AutoAddressOctets | pkg/ash/ash.go:137-151 | The k-th automatic address keeps the network address's first three bytes; its last byte is (base + 80 + k) mod 256. |
| AshFacts.NetworkingAddress | pkg/ash/ash.go:149-152 | A machine without an address gets text that parses back to its automatic address. |
| AshFacts.AddressesDistinct | pkg/ash/ash.go:140-155 | While at most 256 machines need an address, no two of them get the same one. |
| AshFacts.MacsDistinct | pkg/ash/ash.go:144-146 | Machines without a MAC get distinct MACs when the random draws differ in the bits a MAC keeps. |
| AshFacts.AutoAddressInBlock | pkg/ash/ash.go:137-152 | With a prefix of at most 24, the first 176 automatic addresses are the network address + 80 to + 255, all inside the block. |
| AshFacts.AutoAddressClear | pkg/ash/ash.go:137-152 | Those addresses avoid the network address, the gateway and the DHCP range set up in libvirt.go. |
| AshFacts.AutoAddressWraps | pkg/ash/ash.go:151 | The counter is unchecked: the 177th and 178th automatic addresses wrap to the network address and the gateway. |
| AshFacts.SmallBlockSpill | pkg/ash/libvirt.go:221-226 | Offsets are not checked against the block. In 10.0.0.16/28 (10.0.0.16 to .31), the DHCP range starts at 10.0.0.36 and the first automatic address is 10.0.0.96, both outside the block. |
| AshFacts.DefaultFirstAddress | pkg/ash/network.go:3-6 | On the default network the first automatic address is 192.168.200.80. |
| AshFacts.ResolveFailsIff | pkg/ash/ash.go:75-98 | Resolution fails exactly when reading failed or the first network after the defaults does not parse, and passes the error on unchanged. |
| Ash.DefaultedIPv4First | pkg/ash/ash.go:102-103 | After the defaults there is a first network, and it is IPv4 text whenever the document's own first network is. |
| AshFacts.ResolveOnto | pkg/ash/ash.go:75-98 | A document whose first network after the defaults parses to a block resolves to the networking of the defaulted scenario on that block. |
| AshFacts.ResolveWithoutNetworks | pkg/ash/ash.go:102-103 | A document with no networks always resolves, onto 192.168.200.0/24. |
| AshFacts.FirstBlankOnDefault | pkg/ash/ash.go:137-152 | On the default network the first machine without an address gets "192.168.200.80". |
| AshFacts.DefaultedBlankIps | pkg/ash/ash.go:106-126 | The defaults do not change which machines lack an address. |
| AshFacts.ResolvedComplete | pkg/ash/ash.go:75-98 | In a resolved scenario every machine has an address, a MAC, profile and network "ash" and all its sizes, and keeps its name. |
| ProvisionFacts.LookupsAppend | pkg/ash/libvirt.go:37-70 | The lookups of two call sequences, concatenated, are the lookups of the concatenation. |
| ProvisionFacts.ExtendsTrans | pkg/ash/libvirt.go:37-70 | Growing without destroying composes, and the new calls concatenate. |
| ProvisionFacts.ShrinksTrans | pkg/ash/libvirt.go:411-466 | Shrinking without creating composes, and the new calls concatenate. |
| ProvisionFacts.LookupStep | pkg/ash/libvirt.go:74 | A lookup adds one call and changes no resource. |
| ProvisionFacts.CreateStep | pkg/ash/libvirt.go:108 | A create adds one call and at most that one resource. |
| ProvisionFacts.DestroyStep | pkg/ash/libvirt.go:446 | A destroy adds one call and only removes. |
| ProvisionFacts.PoolDecision | pkg/ash/libvirt.go:72-115 | createPool looks up `ash_pool` once. It creates it, at `<cacheDir>/pool`, exactly when the lookup failed with no-storage-pool or a non-libvirt error and the directory could be made. A found pool hands back its directory, and a fatal error is returned as it is. |
| ProvisionFacts.NetworkDecision | pkg/ash/libvirt.go:171-265 | createNetwork looks up the network once. It creates it only after a non-fatal failure and when the block parses. The created network carries one reservation per machine; a fatal error is returned as it is. |
| ProvisionFacts.NetworkDecisionWith | pkg/ash/libvirt.go:171-265 | The same decision for a block already read. |
| ProvisionFacts.NetworkLookupsWith | pkg/ash/libvirt.go:173-181 | createNetwork looks up only the network, once. |
| ProvisionFacts.NetworkCreatesWith | pkg/ash/libvirt.go:216-261 | It creates exactly when the lookup failed non-fatally and the block was read. |
| ProvisionFacts.NetworkCallsWith | pkg/ash/libvirt.go:171-265 | Its calls are the lookup, then the creation with the description built from the block and machines. |
| ProvisionFacts.VolumeDecision | pkg/ash/libvirt.go:117-169 | createVolume looks the volume up by key `<cacheDir>/pool/<name>.qcow2`. It creates `<name>.qcow2` at the machine's disk size in the pool handed to it, exactly after a no-storage-vol or non-libvirt failure with a readable disk size. |
| ProvisionFacts.DomainDecision | pkg/ash/libvirt.go:267-409 | createDomain creates exactly after a no-domain or non-libvirt failure with readable memory and an integer processor count. An Atoi error is reported only after the lookup failed. |
| ProvisionFacts.PoolFrame | pkg/ash/libvirt.go:72-115 | createPool looks up only the pool, never destroys, may add only the pool, and on success the pool is present. |
| ProvisionFacts.NetworkFrame | pkg/ash/libvirt.go:171-265 | createNetwork looks up only its network, never destroys, may add only its network, and on success the network is present. |
| ProvisionFacts.VolumeFrame | pkg/ash/libvirt.go:117-169 | With the pool in its own place, createVolume looks up only its volume, may add only it, and on success it is present. |
| ProvisionFacts.DomainFrame | pkg/ash/libvirt.go:267-409 | createDomain looks up only its domain, never destroys, may add only its domain, and on success the domain is present. |
| ProvisionFacts.PoolHandle | pkg/ash/libvirt.go:47-58 | With any existing pool at this cache directory's path, a successful createPool hands back `<cacheDir>/pool`. |
| ProvisionFacts.SetupMachinesExtends | pkg/ash/libvirt.go:57-67 | The machine loop never destroys and adds only the machines' volumes and domains. |
| ProvisionFacts.SetupMachinesLookups | pkg/ash/libvirt.go:57-67 | The machine loop looks up each machine's volume then domain, in order, stopping early only on an error. |
| ProvisionFacts.SetupMachinesPresent | pkg/ash/libvirt.go:57-67 | When the loop succeeds, every machine's volume and domain is present. |
| ProvisionFacts.SetupExtends | pkg/ash/libvirt.go:37-70 | Setup never destroys and adds only the scenario's resources. |
| ProvisionFacts.SetupLookups | pkg/ash/libvirt.go:37-70 | Setup looks up the pool, the first network, then each machine's volume and domain, and stops early only on an error. |
| ProvisionFacts.SetupHeadLookups | pkg/ash/libvirt.go:47-55 | The pool's lookup is followed by the network's. |
| ProvisionFacts.SetupTailLookups | pkg/ash/libvirt.go:57-67 | After those two lookups, the machine loop's lookups follow. |
| ProvisionFacts.SetupPresent | pkg/ash/libvirt.go:37-70 | After a successful Setup every resource of the scenario is present. |
| ProvisionFacts.SetupMachinesFindAll | pkg/ash/libvirt.go:57-67 | With every machine resource present, the loop finds them all and creates nothing. |
| ProvisionFacts.SetupFindsAll | pkg/ash/libvirt.go:37-70 | With every scenario resource present and findable, Setup creates nothing and changes no resource. |
| ProvisionFacts.SecondSetupCreatesNothing | pkg/ash/libvirt.go:37-70 | When any existing `ash_pool` has target `<cacheDir>/pool`: after a successful Setup, a second Setup with no lookup faults creates nothing and changes no resource. |
| ProvisionFacts.SetupMachinesSucceed | pkg/ash/libvirt.go:57-67 | On a fault-free daemon the loop succeeds when every machine has readable sizes and an integer processor count. |
| ProvisionFacts.SetupSucceeds | pkg/ash/libvirt.go:37-70 | When any existing `ash_pool` has target `<cacheDir>/pool`: on a fault-free daemon, Setup of a scenario with a parseable block and well-formed machines succeeds. |
| ProvisionFacts.DestroyIfFoundFacts | pkg/ash/libvirt.go:421-429 | Destroy-if-found looks up once and never creates. Without faults it removes exactly that resource. |
| ProvisionFacts.TeardownMachinesShrinks | pkg/ash/libvirt.go:420-441 | The teardown loop never creates. |
| ProvisionFacts.TeardownMachinesLookups | pkg/ash/libvirt.go:420-441 | The teardown loop looks up each machine's domain, then its volume, in order. |
| ProvisionFacts.TeardownMachineLookups | pkg/ash/libvirt.go:421-440 | The teardown loop over a single machine looks up its domain, then its volume, and never creates. |
| ProvisionFacts.TeardownMachinesRemove | pkg/ash/libvirt.go:420-441 | Without faults, the loop removes exactly the machines' domains and volumes. |
| ProvisionFacts.TeardownFacts | pkg/ash/libvirt.go:411-466 | Teardown returns only the connection error and never creates. It looks up the machines, then the pool, then the first network. |
| ProvisionFacts.TeardownRemoves | pkg/ash/libvirt.go:411-466 | Without faults, Teardown removes exactly the scenario's resources. |
| ProvisionFacts.SetupTeardownRoundTrip | pkg/ash/libvirt.go:37-70 | Without faults, Setup then Teardown restores the daemon's resources when none of the scenario's was there before, whether or not Setup succeeded. |
| ProvisionFacts.NetworkDocAddresses | pkg/ash/libvirt.go:221-236 | The network's address, mask and DHCP bounds parse back to the gateway, the mask and the range ends. |
| ProvisionFacts.NetworkOffsets | pkg/ash/libvirt.go:221-226 | With a prefix of at most 24, the gateway and DHCP ends are the network address with last byte 1, 20 and 60, all in the block. |
| ProvisionFacts.DefaultNetworkOffsets | pkg/ash/libvirt.go:221-231 | The default network gets gateway 192.168.200.1, DHCP 192.168.200.20 to .60 and mask 255.255.255.0. |
| ProvisionFacts.VolumeKey | pkg/ash/libvirt.go:119-121 | A volume is looked up by key `<cacheDir>/pool/<name>`, where `<name>` is the name its description gives it. |
| ProvisionFacts.VolumeCreatedOutsideLookup | pkg/ash/libvirt.go:119-169 | When the pool's directory is not `<cacheDir>/pool`, a fault-free createVolume creates the volume outside the key it looks up. A second createVolume then misses it and fails with `VIR_ERR_OPERATION_FAILED`. |

## Left out

- Reading `scenario.yaml` and decoding YAML: `DefineScenario` takes the outcome of both as a `Result<Scenario>` parameter.
- `os.Getwd`: the working directory is a constructor parameter.
- `rand.Read`: the random source is a function from draw number to three bytes. A failing `rand.Read`, whose error the source ignores, is not modelled.
- Logging is not modelled, and neither is the connection's `Close`.
- The `uuid` of a network is not modelled.
- XML marshalling and its errors are not modelled. Neither are the fixed XML constants: pool permissions, allocation size, forwarding mode, CPU and device settings. A description records only the fields that vary.
- `filepath.Join` is not modelled beyond joining with `/`. Its lexical clean-up is left out.
- `os.MkdirAll` is an oracle: it fails or succeeds as the fault table says.
- IPv6 blocks are not modelled. `Ash.NetworkingRun`, `Ash.SetNetworking`, `Ash.Resolve`, `Libvirt.CreateNetworkRun` and the members built on them require a first network written without `:`. Go's address parser picks IPv6 when a `:` comes before any `.`. When a `.` comes first, it reads the text as IPv4 and rejects the `:`. Neither case is modelled. Text without `:` is read as IPv4, exactly as modelled. Leading zeros in an IPv4 field are rejected, as current Go versions do.
- Machines.SpecMatches, Machines.GetSpecsFrom: the `(?m)` flag of the size pattern is not modelled. The model matches the whole text. Go instead finds the first line that matches, so it reads `"16GiB\n"` or `"x\n16GiB"` as 16 GiB, where the model reports no match. Single-line text, the only kind a scenario field normally holds, is modelled exactly.
- Machines.GetSpecsFrom: a `strconv.Atoi` overflow is not an error. The source discards that error, so the model returns the largest `int` in that case.
- Libvirt.CreateVolumeRun, Libvirt.CreateDomainRun: where the source would panic on an unreadable size (indexing a nil match), the model returns the error `Panic(what)` so that a run stays total.
- ProvisionFacts.SetupExtends, SetupLookups, SetupPresent, SetupTeardownRoundTrip: these hold only for a daemon whose existing `ash_pool`, if any, has target `<cacheDir>/pool` (`PoolConsistent`). Otherwise a volume is created under a different key than the one Setup and Teardown look up (`ProvisionFacts.VolumeCreatedOutsideLookup`).
- ProvisionFacts.SecondSetupCreatesNothing: assumes `PoolConsistent` too. With the pool elsewhere, the second Setup misses the volume the first one created, tries to create it again, and fails with `VIR_ERR_OPERATION_FAILED`.
- ProvisionFacts.SetupSucceeds: assumes `PoolConsistent` too. With the pool elsewhere, a volume already present in the pool's directory but not under `<cacheDir>/pool` makes Setup fail.
- ProvisionFacts.PoolHandle: assumes `PoolConsistent`. A pool found elsewhere hands back its own directory, not `<cacheDir>/pool`.
- AshFacts.AddressesDistinct: stated for at most 256 machines without an address. Beyond that, the last octet repeats.
- Which libvirt calls fail for reasons outside the code is fixed in advance by a fault table. Each call has the effect on the daemon that its result reports. The pool, network and domains are transient, so destroying one removes it.
- The command-line entry point is not part of this model. It only chooses between Setup and Teardown.
