/** A scenario machine (pkg/ash/machine.go): its record, the MAC address it
    gets when it has none, and the reading of its size fields such as
    "16GiB" or "120 GiB". */
module Machines {
  import opened Text

  /** One machine of a scenario. `profile`, `network` and the sizing fields
      override the machine profile; an empty string means "not given". */
  datatype Machine = Machine(
    name: string,
    profile: string,
    ip: string,
    mac: string,
    vcpus: string,
    memory: string,
    disk: string,
    network: string)
  {
    /** The disk size and unit, read from `disk`. */
    function GetDiskSpecs(): (r: SizeSpec)
      requires SpecMatches(disk)
      ensures IsSpecOf(disk, r)
    {
      GetSpecsFrom(disk)
    }

    /** The memory size and unit, read from `memory`. */
    function GetMemorySpecs(): (r: SizeSpec)
      requires SpecMatches(memory)
      ensures IsSpecOf(memory, r)
    {
      GetSpecsFrom(memory)
    }
  }

  /** A size as the two results of `getSpecsFrom`: an amount (a Go `uint64`)
      and the unit text, returned verbatim. */
  datatype SizeSpec = SizeSpec(amount: nat, unit: string)

  // ---------------------------------------------------------------------------
  // MAC addresses

  /** The QEMU/KVM organisationally unique identifier. */
  const QemuOUI: string := "52:54:00"
  /** Bit 1 of the first octet: a locally administered address. */
  const LocalBit: uint8 := 0x2
  /** Clears bit 0 of the first octet: a unicast (not group) address. */
  const UnicastMask: uint8 := 0xfe

  /** Three random bytes, as `rand.Read` fills the buffer. */
  type Bytes3 = s: seq<uint8> | |s| == 3 witness [0, 0, 0]

  /** `(b | localBit) & unicastMask`: bit 1 set, bit 0 clear, the upper six bits as they were. */
  function LocalUnicast(b: uint8): (r: uint8)
    ensures (r / 2) % 2 == 1 && r % 2 == 0
    ensures r / 4 == b / 4
  {
    var q := b / 4;
    LocalUnicastValue(b);
    assert (4 * q + 2) / 2 == 2 * q + 1 && (4 * q + 2) / 4 == q;
    BitAnd(BitOr(b, LocalBit), UnicastMask)
  }

  /** Setting bit 1 and clearing bit 0 of `b` gives four times its upper six bits, plus two. */
  lemma LocalUnicastValue(b: uint8)
    ensures BitAnd(BitOr(b, LocalBit), UnicastMask) == 4 * (b / 4) + 2
  {
    var o := BitOr(b, LocalBit);
    OrLocalBit(b);
    AndUnicastMask(o);
    var q := b / 4;
    assert o / 2 == 2 * q + 1;
  }

  /** `b | 2` sets bit 1 and keeps the others. */
  lemma OrLocalBit(b: uint8)
    ensures BitOr(b, LocalBit) == 4 * (b / 4) + 2 + b % 2
  {
    if b != 0 {
      var h := b / 2;
      assert BitOr(h, 1) == 2 * (b / 4) + 1 by {
        if h != 0 { assert BitOr(h, 1) == 2 * BitOr(h / 2, 0) + 1; }
      }
      assert BitOr(b, LocalBit) == 2 * BitOr(h, 1) + b % 2;
    }
  }

  /** `o & 0xfe` clears bit 0 of a byte. */
  lemma AndUnicastMask(o: nat)
    requires o < 256
    ensures BitAnd(o, UnicastMask) == 2 * (o / 2)
  {
    var h := o / 2;
    assert Pow2(7) == 128;
    AndLowOnes(h, 7);
    if o != 0 {
      assert BitAnd(o, UnicastMask) == 2 * BitAnd(h, 127) + (o % 2) * 0;
    }
  }

  /** The text `fmt.Sprintf("%s:%02x:%02x:%02x", qemuOUI, b0, b1, b2)`. */
  function MacText(b0: uint8, b1: uint8, b2: uint8): string
  {
    QemuOUI + ":" + Hex2(b0) + ":" + Hex2(b1) + ":" + Hex2(b2)
  }

  /** The MAC address generated from the three bytes the random source supplies. */
  function RandomMac(random: Bytes3): string
  {
    MacText(LocalUnicast(random[0]), random[1], random[2])
  }

  /** GenerateRandomMAC, with the bytes `rand.Read` would supply passed in:
      fill a three-byte buffer, force the first byte to a locally administered
      unicast value, print the buffer after the QEMU prefix. */
  method GenerateRandomMAC(random: Bytes3) returns (mac: string)
    ensures mac == RandomMac(random)
  {
    var buf := new uint8[3];
    buf[0], buf[1], buf[2] := random[0], random[1], random[2];
    buf[0] := LocalUnicast(buf[0]);
    mac := QemuOUI + ":" + Hex2(buf[0]) + ":" + Hex2(buf[1]) + ":" + Hex2(buf[2]);
  }

  /** `s` is `k` colon-separated pairs of lower-case hexadecimal digits. */
  predicate IsHexPairs(s: string, k: nat)
  {
    k >= 1 && |s| == 3 * k - 1 &&
    forall i :: 0 <= i < |s| ==> if i % 3 == 2 then s[i] == ':' else IsLowerHex(s[i])
  }

  /** `s` is a MAC address as text: six colon-separated pairs of lower-case hexadecimal digits. */
  predicate IsMacText(s: string)
  {
    IsHexPairs(s, 6)
  }

  /** The octet that pair `k` (0 to 5) of a MAC text denotes. */
  function MacOctet(s: string, k: nat): (b: uint8)
    requires IsMacText(s) && k < 6
  {
    assert IsLowerHex(s[3 * k]) && IsLowerHex(s[3 * k + 1]);
    HexPairValue(s[3 * k..3 * k + 2])
  }

  /** Appending a colon and a pair keeps the shape and the earlier text. */
  lemma AppendPair(s: string, k: nat, h: string)
    requires IsHexPairs(s, k) && |h| == 2 && IsLowerHex(h[0]) && IsLowerHex(h[1])
    ensures IsHexPairs(s + ":" + h, k + 1)
    ensures (s + ":" + h)[..|s|] == s && (s + ":" + h)[|s| + 1..] == h
  {
    var t := s + ":" + h;
    forall i | 0 <= i < |t|
      ensures if i % 3 == 2 then t[i] == ':' else IsLowerHex(t[i])
    {
      if i < |s| {
        assert t[i] == s[i];
      } else if i > |s| {
        assert t[i] == h[i - |s| - 1];
      }
    }
  }

  lemma OuiShape()
    ensures IsHexPairs(QemuOUI, 3)
  {
  }

  /** The printed MAC is well formed, carries the QEMU prefix and denotes the three bytes it was given. */
  lemma MacTextShape(b0: uint8, b1: uint8, b2: uint8)
    ensures IsMacText(MacText(b0, b1, b2))
    ensures MacText(b0, b1, b2)[..9] == QemuOUI + ":"
    ensures MacOctet(MacText(b0, b1, b2), 3) == b0
    ensures MacOctet(MacText(b0, b1, b2), 4) == b1
    ensures MacOctet(MacText(b0, b1, b2), 5) == b2
  {
    var h0, h1, h2 := Hex2(b0), Hex2(b1), Hex2(b2);
    var m1 := QemuOUI + ":" + h0;
    var m2 := m1 + ":" + h1;
    var m := m2 + ":" + h2;
    OuiShape();
    AppendPair(QemuOUI, 3, h0);
    AppendPair(m1, 4, h1);
    AppendPair(m2, 5, h2);
    assert m == MacText(b0, b1, b2);
    assert m[15..17] == h2;
    assert m[12..14] == m2[12..14] == h1;
    assert m[9..11] == m1[9..11] == h0;
    assert m[..9] == m1[..9] == QemuOUI + ":";
  }

  /** Every generated MAC is a well-formed MAC text with the QEMU prefix; its
      fourth octet has the local bit set and the group bit clear, keeping the
      upper six bits of the first random byte; the last two octets are the
      other random bytes unchanged. */
  lemma RandomMacShape(random: Bytes3)
    ensures IsMacText(RandomMac(random))
    ensures RandomMac(random)[..9] == QemuOUI + ":"
    ensures var m := RandomMac(random);
      (MacOctet(m, 3) / 2) % 2 == 1 && MacOctet(m, 3) % 2 == 0 && MacOctet(m, 3) / 4 == random[0] / 4
    ensures MacOctet(RandomMac(random), 4) == random[1]
    ensures MacOctet(RandomMac(random), 5) == random[2]
  {
    MacTextShape(LocalUnicast(random[0]), random[1], random[2]);
  }

  /** Distinct random bytes give distinct MACs unless they differ only in the two
      low bits of the first byte, which the local/unicast forcing overwrites. */
  lemma RandomMacInjective(x: Bytes3, y: Bytes3)
    requires x[0] / 4 != y[0] / 4 || x[1] != y[1] || x[2] != y[2]
    ensures RandomMac(x) != RandomMac(y)
  {
    RandomMacShape(x);
    RandomMacShape(y);
  }

  // ---------------------------------------------------------------------------
  // Size specifications: the pattern `^(\d+)\s?(\w+)$`

  /** One way the anchored pattern can match all of `s`: `digits` decimal
      digits, then `sep` (0 or 1) whitespace characters, then one or more word
      characters up to the end. */
  predicate IsSplit(s: string, digits: nat, sep: nat)
  {
    1 <= digits && sep <= 1 && digits + sep < |s| &&
    AllDigits(s[..digits]) && (sep == 1 ==> IsSpace(s[digits])) && AllWord(s[digits + sep..])
  }

  /** The split a backtracking leftmost-first matcher reports: the greedy `\d+`
      takes as many digits as still allow a match, then the greedy `\s?` takes
      its character if it still allows one. */
  ghost predicate IsLeftmostFirst(s: string, digits: nat, sep: nat)
  {
    IsSplit(s, digits, sep) &&
    forall d: nat, p: nat :: IsSplit(s, d, p) ==> d < digits || (d == digits && p <= sep)
  }

  /** The length of the run of decimal digits that starts `s`. */
  function DigitRun(s: string): (n: nat)
    ensures n <= |s| && AllDigits(s[..n])
    ensures n < |s| ==> !IsDigit(s[n])
    decreases |s|
  {
    if s == [] || !IsDigit(s[0]) then 0
    else
      var n := 1 + DigitRun(s[1..]);
      assert s[..n] == [s[0]] + s[1..][..n - 1];
      n
  }

  /** Where the digits group ends: after the whole run, except that on
      all-digit text the word group needs the last digit. */
  function DigitsEnd(s: string): (n: nat)
    ensures n <= |s|
  {
    if |s| == 0 then 0 else if DigitRun(s) == |s| then |s| - 1 else DigitRun(s)
  }

  /** Whether the optional whitespace is taken. */
  function SepLen(s: string): (n: nat)
    ensures n <= 1
  {
    if DigitsEnd(s) < |s| && IsSpace(s[DigitsEnd(s)]) then 1 else 0
  }

  /** Whether `^(\d+)\s?(\w+)$` matches `s`, decided without backtracking. */
  predicate SpecMatches(s: string)
  {
    DigitsEnd(s) >= 1 && DigitsEnd(s) + SepLen(s) < |s| && AllWord(s[DigitsEnd(s) + SepLen(s)..])
  }

  /** Any split is no longer in its digits than the digit run. */
  lemma SplitWithinRun(s: string, d: nat, p: nat)
    requires IsSplit(s, d, p)
    ensures d <= DigitRun(s)
  {
  }

  /** The pattern matches exactly when some split exists, and the split the
      decision procedure picks is the leftmost-first one. */
  lemma SpecMatchesIff(s: string)
    ensures SpecMatches(s) <==> exists d: nat, p: nat :: IsSplit(s, d, p)
    ensures SpecMatches(s) ==> IsLeftmostFirst(s, DigitsEnd(s), SepLen(s))
  {
    if SpecMatches(s) {
      MatchIsLeftmost(s);
    }
    if exists d: nat, p: nat :: IsSplit(s, d, p) {
      var d: nat, p: nat :| IsSplit(s, d, p);
      SplitMatches(s, d, p);
    }
  }

  /** When the decision procedure accepts, its split is a split and no split
      takes more digits, or as many digits and more whitespace. */
  lemma MatchIsLeftmost(s: string)
    requires SpecMatches(s)
    ensures IsLeftmostFirst(s, DigitsEnd(s), SepLen(s))
  {
    var e := DigitsEnd(s);
    assert s[..e] == s[..DigitRun(s)][..e];
    assert IsSplit(s, e, SepLen(s));
    forall d: nat, p: nat | IsSplit(s, d, p)
      ensures d < e || (d == e && p <= SepLen(s))
    {
      SplitWithinRun(s, d, p);
    }
  }

  /** Any split makes the decision procedure accept. */
  lemma SplitMatches(s: string, d: nat, p: nat)
    requires IsSplit(s, d, p)
    ensures SpecMatches(s)
  {
    SplitWithinRun(s, d, p);
    var run := DigitRun(s);
    if run == |s| {
      AllDigitsMatch(s);
    } else if d < run {
      ShortSplitMatches(s, d, p);
    } else {
      assert s[run + p..] == s[d + p..];
      if p == 0 {
        assert IsWord(s[d + p..][0]);
      }
    }
  }

  /** All-digit text of two or more characters matches, the last digit being the word group. */
  lemma AllDigitsMatch(s: string)
    requires |s| >= 2 && DigitRun(s) == |s|
    ensures SpecMatches(s)
  {
    assert IsWord(s[|s| - 1]) by { assert IsDigit(s[..|s|][|s| - 1]); }
    assert s[|s| - 1..] == [s[|s| - 1]];
  }

  /** A split that stops inside the digit run leaves the rest of the run to
      the word group, so the run is followed by word characters up to the end. */
  lemma ShortSplitMatches(s: string, d: nat, p: nat)
    requires IsSplit(s, d, p) && d < DigitRun(s) < |s|
    ensures SpecMatches(s)
  {
    var run := DigitRun(s);
    assert IsDigit(s[..run][d]);
    assert p == 0;
    assert s[run] == s[d + p..][run - d - p];
    assert s[run..] == s[d + p..][run - d - p..];
  }

  /** `getSpecsFrom` on text the pattern matches: the digits group read by
      `strconv.Atoi` (whose out-of-range result is the largest `int`, the
      error being discarded) and the word group verbatim, for the
      leftmost-first split. */
  ghost predicate IsSpecOf(s: string, r: SizeSpec)
  {
    exists d: nat, p: nat ::
      IsLeftmostFirst(s, d, p) &&
      r == SizeSpec(ClampInt64(DecimalValue(s[..d])), s[d + p..])
  }

  /** The value `strconv.Atoi` returns for a numeral of a non-negative number. */
  function ClampInt64(n: nat): (r: nat)
    ensures r <= MaxInt64
    ensures n <= MaxInt64 ==> r == n
  {
    if n <= MaxInt64 then n else MaxInt64
  }

  /** getSpecsFrom: the pattern is required to match; otherwise the source
      indexes a nil match and panics. */
  function GetSpecsFrom(s: string): (r: SizeSpec)
    requires SpecMatches(s)
    ensures IsSpecOf(s, r)
    ensures 1 <= |r.unit| && AllWord(r.unit) && r.amount <= MaxInt64
  {
    SpecMatchesIff(s);
    var d := DigitsEnd(s);
    SizeSpec(ClampInt64(DecimalValue(s[..d])), s[d + SepLen(s)..])
  }

  /** The leftmost-first split is unique, so the spec a text denotes is too. */
  lemma SpecOfUnique(s: string, r1: SizeSpec, r2: SizeSpec)
    requires IsSpecOf(s, r1) && IsSpecOf(s, r2)
    ensures r1 == r2
  {
    var d1: nat, p1: nat :| IsLeftmostFirst(s, d1, p1) && r1 == SizeSpec(ClampInt64(DecimalValue(s[..d1])), s[d1 + p1..]);
    var d2: nat, p2: nat :| IsLeftmostFirst(s, d2, p2) && r2 == SizeSpec(ClampInt64(DecimalValue(s[..d2])), s[d2 + p2..]);
    assert d1 == d2 && p1 == p2;
  }

  /** The digit run of digits followed by a non-digit is those digits. */
  lemma {:induction false} DigitRunOf(ds: string, rest: string)
    requires AllDigits(ds) && (rest == [] || !IsDigit(rest[0]))
    ensures DigitRun(ds + rest) == |ds|
    decreases |ds|
  {
    if ds != [] {
      assert (ds + rest)[1..] == ds[1..] + rest;
      DigitRunOf(ds[1..], rest);
    }
  }

  /** Digits, at most one space and a word that does not start with a digit:
      the pattern splits the text at exactly those boundaries. */
  lemma NumeralSplit(ds: string, sep: string, unit: string)
    requires 1 <= |ds| && AllDigits(ds) && |sep| <= 1 && (|sep| == 1 ==> IsSpace(sep[0]))
    requires 1 <= |unit| && AllWord(unit) && !IsDigit(unit[0])
    ensures DigitsEnd(ds + sep + unit) == |ds| && SepLen(ds + sep + unit) == |sep|
    ensures (ds + sep + unit)[..|ds|] == ds && (ds + sep + unit)[|ds| + |sep|..] == unit
  {
    var s := ds + sep + unit;
    assert s == ds + (sep + unit);
    assert (sep + unit)[0] == if |sep| == 1 then sep[0] else unit[0];
    DigitRunOf(ds, sep + unit);
    assert s[|ds|] == (sep + unit)[0];
  }

  /** A printed amount followed by a unit that does not start with a digit
      reads back as that amount and unit, with or without one space between. */
  lemma SpecRoundTrip(n: nat, sep: string, unit: string)
    requires n <= MaxInt64 && |sep| <= 1 && (|sep| == 1 ==> IsSpace(sep[0]))
    requires 1 <= |unit| && AllWord(unit) && !IsDigit(unit[0])
    ensures SpecMatches(DecimalString(n) + sep + unit)
    ensures GetSpecsFrom(DecimalString(n) + sep + unit) == SizeSpec(n, unit)
  {
    NumeralSplit(DecimalString(n), sep, unit);
    DecimalRoundTrip(n);
  }

  /** When the text is nothing but digits, the greedy digits group gives back
      its last digit, which becomes the unit: "1616" reads as 161 of unit "6". */
  lemma AllDigitSpec(s: string)
    requires |s| >= 2 && AllDigits(s)
    ensures SpecMatches(s)
    ensures GetSpecsFrom(s) == SizeSpec(ClampInt64(DecimalValue(s[..|s| - 1])), [s[|s| - 1]])
  {
    assert DigitRun(s) == |s|;
    assert s[..|s|][..|s| - 1] == s[..|s| - 1];
    assert s[|s| - 1..] == [s[|s| - 1]];
  }

  /** "16GiB" reads as 16 of unit "GiB". */
  lemma SpecExampleCompact(s: string, unit: string)
    requires s == "16GiB" && unit == "GiB"
    ensures SpecMatches(s) && GetSpecsFrom(s) == SizeSpec(16, unit)
  {
    var n: nat := 16;
    assert DecimalString(n) == "16";
    SpecRoundTrip(n, [], unit);
    assert DecimalString(n) + [] + unit == s;
  }

  /** "120 GiB" reads as 120 of unit "GiB": the single space is skipped. */
  lemma SpecExampleSpaced(s: string, unit: string)
    requires s == "120 GiB" && unit == "GiB"
    ensures SpecMatches(s) && GetSpecsFrom(s) == SizeSpec(120, unit)
  {
    var n: nat := 120;
    assert DecimalString(n) == "120";
    SpecRoundTrip(n, " ", unit);
    assert DecimalString(n) + " " + unit == s;
  }

  /** All-digit text gives its last digit to the unit: "1616" is 161 of unit "6". */
  lemma AllDigitExample(s: string)
    requires s == "1616"
    ensures SpecMatches(s) && GetSpecsFrom(s) == SizeSpec(161, "6")
  {
    AllDigitSpec(s);
    var head := s[..3];
    assert head == "161";
    assert DecimalValue(head) == 10 * DecimalValue(head[..2]) + 1;
    assert head[..2] == "16";
    assert DecimalValue(head[..2]) == 10 * DecimalValue(head[..1]) + 6;
    assert head[..1] == "1";
    assert DecimalValue(head[..1]) == 1;
    assert [s[3]] == "6";
  }
}
