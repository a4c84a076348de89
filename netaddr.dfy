/** The part of Go's `net` package that the core relies on, for IPv4 only:
    `net.ParseCIDR` (prefix notation, section 3.1 of RFC 4632), `IP.Mask`
    with a CIDR mask, and `IP.String` for a four-byte address. */
module NetAddr {
  import opened Wrappers
  import opened Text

  /** A four-byte IPv4 address, as `ip.To4()` holds it. */
  type IPv4 = s: seq<uint8> | |s| == 4 witness [0, 0, 0, 0]

  /** What `net.ParseCIDR` returns for an IPv4 block: the address as written and the prefix length. */
  datatype Cidr = Cidr(ip: IPv4, prefix: nat)

  /** strings.Cut: the text before and after the first `sep`, if there is one. */
  function Cut(s: string, sep: char): (r: Option<(string, string)>)
    ensures r.None? <==> sep !in s
    ensures r.Some? ==> sep !in r.value.0 && s == r.value.0 + [sep] + r.value.1
    decreases |s|
  {
    if s == [] then None
    else if s[0] == sep then Some(([], s[1..]))
    else match Cut(s[1..], sep)
      case None => None
      case Some((before, after)) => Some(([s[0]] + before, after))
  }

  /** Cutting at the first separator recovers the two parts around it. */
  lemma {:induction false} CutAtFirst(before: string, sep: char, after: string)
    requires sep !in before
    ensures Cut(before + [sep] + after, sep) == Some((before, after))
    decreases |before|
  {
    var s := before + [sep] + after;
    if before == [] {
      assert s[0] == sep && s[1..] == after;
    } else {
      assert s[0] == before[0] != sep;
      assert s[1..] == before[1..] + [sep] + after;
      CutAtFirst(before[1..], sep, after);
      assert [before[0]] + before[1..] == before;
    }
  }

  /** One dotted-decimal field as Go's IPv4 parser accepts it: one to three
      digits, no leading zero, at most 255. */
  function ParseOctet(s: string): (r: Option<uint8>)
    ensures r.Some? ==> 1 <= |s| <= 3 && AllDigits(s) && DecimalValue(s) == r.value
  {
    if 1 <= |s| <= 3 && AllDigits(s) && !(|s| > 1 && s[0] == '0') && DecimalValue(s) <= 255
    then Some(DecimalValue(s))
    else None
  }

  /** `n` dot-separated fields, each a valid octet, and nothing else. */
  function ParseFields(s: string, n: nat): (r: Option<seq<uint8>>)
    requires n >= 1
    ensures r.Some? ==> |r.value| == n
    decreases n
  {
    if n == 1 then
      match ParseOctet(s)
      case None => None
      case Some(b) => Some([b])
    else
      match Cut(s, '.')
      case None => None
      case Some((field, rest)) =>
        match (ParseOctet(field), ParseFields(rest, n - 1))
        case (Some(b), Some(bs)) => Some([b] + bs)
        case _ => None
  }

  /** Go's IPv4 parser: exactly four dot-separated fields, each a valid octet.
      Only the canonical dotted-decimal text of an address is accepted, so
      leading zeros, values above 255 and missing or extra fields are errors. */
  function ParseIPv4(s: string): (r: Option<IPv4>)
    ensures r.Some? ==> s == FormatIPv4(r.value)
  {
    match ParseFields(s, 4)
    case None => None
    case Some(bs) =>
      FieldsCanonical(s, 4, bs);
      FormatIsDotted(bs);
      Some(bs)
  }

  /** Octets written in decimal and joined by dots. */
  function Dotted(bs: seq<uint8>): string
    requires |bs| >= 1
    decreases |bs|
  {
    if |bs| == 1 then DecimalString(bs[0]) else DecimalString(bs[0]) + ['.'] + Dotted(bs[1..])
  }

  /** An accepted octet is written exactly as `%d` prints it. */
  lemma OctetCanonical(s: string, b: uint8)
    requires ParseOctet(s) == Some(b)
    ensures s == DecimalString(b)
  {
    DecimalCanonical(s);
  }

  /** Accepted fields are the octets' decimal text joined by dots. */
  lemma {:induction false} FieldsCanonical(s: string, n: nat, bs: seq<uint8>)
    requires n >= 1 && ParseFields(s, n) == Some(bs)
    ensures |bs| == n && s == Dotted(bs)
    decreases n
  {
    if n == 1 {
      OctetCanonical(s, bs[0]);
    } else {
      var (field, rest) := Cut(s, '.').value;
      var b := ParseOctet(field).value;
      var tail := ParseFields(rest, n - 1).value;
      assert bs == [b] + tail && bs[1..] == tail;
      OctetCanonical(field, b);
      FieldsCanonical(rest, n - 1, tail);
    }
  }

  lemma FormatIsDotted(ip: IPv4)
    ensures Dotted(ip) == FormatIPv4(ip)
  {
    var f0, f1, f2, f3 := DecimalString(ip[0]), DecimalString(ip[1]), DecimalString(ip[2]), DecimalString(ip[3]);
    assert ip[1..][1..] == ip[2..] && ip[2..][1..] == ip[3..];
    assert Dotted(ip[3..]) == f3;
    assert Dotted(ip[2..]) == f2 + ['.'] + f3;
    assert Dotted(ip[1..]) == f1 + ['.'] + (f2 + ['.'] + f3);
    assert Dotted(ip) == f0 + ['.'] + (f1 + ['.'] + (f2 + ['.'] + f3));
    DottedAssoc(f0, f1, f2, f3);
  }

  /** A valid field, a dot and valid fields parse to the field's octet followed by theirs. */
  lemma ParseFieldsStep(field: string, rest: string, n: nat, b: uint8, bs: seq<uint8>)
    requires n >= 2 && '.' !in field
    requires ParseOctet(field) == Some(b) && ParseFields(rest, n - 1) == Some(bs)
    ensures ParseFields(field + ['.'] + rest, n) == Some([b] + bs)
  {
    CutAtFirst(field, '.', rest);
  }

  /** `IP.String` of a four-byte address: dotted decimal, seven to fifteen characters. */
  function FormatIPv4(ip: IPv4): (s: string)
    ensures 7 <= |s| <= 15
    ensures '.' in s
  {
    DecimalString(ip[0]) + "." + DecimalString(ip[1]) + "." + DecimalString(ip[2]) + "." + DecimalString(ip[3])
  }

  lemma OctetRoundTrip(b: uint8)
    ensures '.' !in DecimalString(b)
    ensures ParseOctet(DecimalString(b)) == Some(b)
  {
    DecimalRoundTrip(b);
  }

  lemma TwoFields(f2: string, f3: string, c: uint8, d: uint8)
    requires '.' !in f2 && ParseOctet(f2) == Some(c) && ParseOctet(f3) == Some(d)
    ensures ParseFields(f2 + ['.'] + f3, 2) == Some([c, d])
  {
    assert ParseFields(f3, 1) == Some([d]);
    ParseFieldsStep(f2, f3, 2, c, [d]);
    assert [c] + [d] == [c, d];
  }

  lemma ThreeFields(f1: string, f2: string, f3: string, b: uint8, c: uint8, d: uint8)
    requires '.' !in f1 && '.' !in f2
    requires ParseOctet(f1) == Some(b) && ParseOctet(f2) == Some(c) && ParseOctet(f3) == Some(d)
    ensures ParseFields(f1 + ['.'] + (f2 + ['.'] + f3), 3) == Some([b, c, d])
  {
    TwoFields(f2, f3, c, d);
    ParseFieldsStep(f1, f2 + ['.'] + f3, 3, b, [c, d]);
    assert [b] + [c, d] == [b, c, d];
  }

  /** Four valid fields joined by dots parse to the four octets. */
  lemma ParseDotted(f0: string, f1: string, f2: string, f3: string, a: uint8, b: uint8, c: uint8, d: uint8)
    requires '.' !in f0 && '.' !in f1 && '.' !in f2
    requires ParseOctet(f0) == Some(a) && ParseOctet(f1) == Some(b)
    requires ParseOctet(f2) == Some(c) && ParseOctet(f3) == Some(d)
    ensures ParseIPv4(f0 + "." + f1 + "." + f2 + "." + f3) == Some([a, b, c, d])
  {
    var r1 := f1 + ['.'] + (f2 + ['.'] + f3);
    ThreeFields(f1, f2, f3, b, c, d);
    ParseFieldsStep(f0, r1, 4, a, [b, c, d]);
    assert [a] + [b, c, d] == [a, b, c, d];
    DottedAssoc(f0, f1, f2, f3);
  }

  lemma DottedAssoc(f0: string, f1: string, f2: string, f3: string)
    ensures f0 + "." + f1 + "." + f2 + "." + f3 == f0 + ['.'] + (f1 + ['.'] + (f2 + ['.'] + f3))
  {
    assert "." == ['.'];
  }

  /** Every printed address parses back to itself. */
  lemma FormatParseRoundTrip(ip: IPv4)
    ensures ParseIPv4(FormatIPv4(ip)) == Some(ip)
  {
    var a, b, c, d := ip[0], ip[1], ip[2], ip[3];
    var f0, f1, f2, f3 := DecimalString(a), DecimalString(b), DecimalString(c), DecimalString(d);
    OctetRoundTrip(a);
    OctetRoundTrip(b);
    OctetRoundTrip(c);
    OctetRoundTrip(d);
    ParseDotted(f0, f1, f2, f3, a, b, c, d);
    assert FormatIPv4(ip) == f0 + "." + f1 + "." + f2 + "." + f3;
    assert [a, b, c, d] == ip;
  }

  /** Distinct addresses print differently. */
  lemma FormatInjective(a: IPv4, b: IPv4)
    requires a != b
    ensures FormatIPv4(a) != FormatIPv4(b)
  {
    FormatParseRoundTrip(a);
    FormatParseRoundTrip(b);
  }

  /** `net.ParseCIDR` for an IPv4 block: the text before the first '/' is an
      IPv4 address, the text after it a decimal prefix length of at most 32
      (leading zeros allowed, as Go's `dtoi` reads it). */
  function ParseCIDR(s: string): (r: Option<Cidr>)
    ensures r.Some? ==> r.value.prefix <= 32
  {
    match Cut(s, '/')
    case None => None
    case Some((addr, mask)) =>
      match ParseIPv4(addr)
      case None => None
      case Some(ip) =>
        if |mask| >= 1 && AllDigits(mask) && DecimalValue(mask) <= 32
        then Some(Cidr(ip, DecimalValue(mask)))
        else None
  }

  /** What ParseCIDR accepts: the canonical text of an address, a '/', and a
      non-empty run of decimal digits whose value is the prefix length. */
  lemma ParseCIDRCanonical(s: string, c: Cidr)
    requires ParseCIDR(s) == Some(c)
    ensures |FormatIPv4(c.ip)| < |s|
    ensures var k := |FormatIPv4(c.ip)|; var mask := s[k + 1..];
      s == FormatIPv4(c.ip) + "/" + mask && 1 <= |mask| && AllDigits(mask) && DecimalValue(mask) == c.prefix
  {
    var (addr, mask) := Cut(s, '/').value;
    assert addr == FormatIPv4(c.ip);
    assert s[|addr| + 1..] == mask;
  }

  /** Byte `i` of `net.CIDRMask(prefix, 32)`: its leading `prefix - 8*i` bits set (clamped to 0..8). */
  function MaskOctet(prefix: nat, i: nat): (m: uint8)
    requires prefix <= 32 && i < 4
    ensures prefix >= 8 * (i + 1) ==> m == 255
    ensures prefix <= 8 * i ==> m == 0
  {
    var ones := if prefix <= 8 * i then 0 else if prefix >= 8 * (i + 1) then 8 else prefix - 8 * i;
    assert Pow2(8 - ones) <= 256 by { Pow2Monotone(8 - ones, 8); }
    256 - Pow2(8 - ones)
  }

  /** The dotted form of the mask, `net.IP(ipnet.Mask)`: the leading `prefix`
      bits of the 32 are set and the others clear. */
  function Netmask(prefix: nat): (m: IPv4)
    requires prefix <= 32
    ensures forall i :: 0 <= i < 4 && 8 * (i + 1) <= prefix ==> m[i] == 255
    ensures forall i :: 0 <= i < 4 && prefix <= 8 * i ==> m[i] == 0
    ensures forall i :: 0 <= i < 4 && 8 * i < prefix < 8 * (i + 1) ==> m[i] == 256 - Pow2(8 * (i + 1) - prefix)
  {
    [MaskOctet(prefix, 0), MaskOctet(prefix, 1), MaskOctet(prefix, 2), MaskOctet(prefix, 3)]
  }

  /** `a & m` on bytes. */
  function And(a: uint8, m: uint8): (r: uint8)
    ensures r <= a
    ensures m == 255 ==> r == a
    ensures m == 0 ==> r == 0
  {
    assert Pow2(8) == 256;
    AndLowOnes(a, 8);
    BitAnd(a, m)
  }

  /** `a & m` with a byte of a CIDR mask: the bytes the prefix covers are
      kept, those it does not are cleared, and the byte it ends in keeps its
      high bits only. */
  lemma AndMaskOctet(a: uint8, prefix: nat, i: nat)
    requires prefix <= 32 && i < 4
    ensures 8 * (i + 1) <= prefix ==> And(a, MaskOctet(prefix, i)) == a
    ensures prefix <= 8 * i ==> And(a, MaskOctet(prefix, i)) == 0
    ensures 8 * i < prefix < 8 * (i + 1) ==> And(a, MaskOctet(prefix, i)) == a - a % Pow2(8 * (i + 1) - prefix)
  {
    if 8 * i < prefix < 8 * (i + 1) {
      var j := 8 * (i + 1) - prefix;
      assert Pow2(8) == 256;
      Pow2Monotone(j, 8);
      AndHighOnes(a, 8, j);
    }
  }

  /** `ip.Mask(ipnet.Mask)`: the network address of the block. The bytes the
      prefix covers are kept, those after it are zero, and the byte the prefix
      ends in loses its low `8*(i+1) - prefix` bits. */
  function Mask(ip: IPv4, prefix: nat): (r: IPv4)
    requires prefix <= 32
    ensures forall i :: 0 <= i < 4 && 8 * (i + 1) <= prefix ==> r[i] == ip[i]
    ensures forall i :: 0 <= i < 4 && prefix <= 8 * i ==> r[i] == 0
    ensures forall i :: 0 <= i < 4 && 8 * i < prefix < 8 * (i + 1) ==> r[i] == ip[i] - ip[i] % Pow2(8 * (i + 1) - prefix)
  {
    AndMaskOctet(ip[0], prefix, 0);
    AndMaskOctet(ip[1], prefix, 1);
    AndMaskOctet(ip[2], prefix, 2);
    AndMaskOctet(ip[3], prefix, 3);
    [And(ip[0], MaskOctet(prefix, 0)), And(ip[1], MaskOctet(prefix, 1)),
     And(ip[2], MaskOctet(prefix, 2)), And(ip[3], MaskOctet(prefix, 3))]
  }

  /** Go masks byte by byte: each byte of the network address is the address
      byte AND the mask byte. */
  lemma MaskByNetmask(ip: IPv4, prefix: nat, i: nat)
    requires prefix <= 32 && i < 4
    ensures Mask(ip, prefix)[i] == And(ip[i], Netmask(prefix)[i])
  {
  }

  /** Masking twice is masking once: a network address is its own network. */
  lemma MaskIdempotent(ip: IPv4, prefix: nat)
    requires prefix <= 32
    ensures Mask(Mask(ip, prefix), prefix) == Mask(ip, prefix)
  {
    forall i | 0 <= i < 4
      ensures And(And(ip[i], MaskOctet(prefix, i)), MaskOctet(prefix, i)) == And(ip[i], MaskOctet(prefix, i))
    {
      AndIdempotent(ip[i], MaskOctet(prefix, i));
    }
  }

  /** Go's `ip[3] += d` on a byte slice: only the last octet changes, modulo 256, with no carry. */
  function AddToLastOctet(ip: IPv4, d: nat): (r: IPv4)
    ensures r[..3] == ip[..3]
    ensures r[3] == (ip[3] + d) % 256
  {
    ip[3 := (ip[3] + d) % 256]
  }

  lemma AddToLastOctetZero(ip: IPv4)
    ensures AddToLastOctet(ip, 0) == ip
  {
    assert AddToLastOctet(ip, 0)[3] == ip[3];
  }

  /** Adding to the last octet twice adds the sum, modulo 256. */
  lemma AddToLastOctetTwice(ip: IPv4, a: nat, b: nat)
    ensures AddToLastOctet(AddToLastOctet(ip, a), b) == AddToLastOctet(ip, a + b)
  {
  }

  /** A block whose prefix is at most 24 has last octet 0 in its network address,
      and every address that differs from it only in the last octet lies in the block. */
  lemma ShortPrefixLastOctet(ip: IPv4, prefix: nat, last: uint8)
    requires prefix <= 24
    ensures Mask(ip, prefix)[3] == 0
    ensures Mask(Mask(ip, prefix)[3 := last], prefix) == Mask(ip, prefix)
  {
    MaskIdempotent(ip, prefix);
  }

  /** The default block's address prints as "192.168.200.0". */
  lemma DefaultBlockFormat(ip: IPv4, addr: string)
    requires ip == [192, 168, 200, 0] && addr == FormatIPv4(ip)
    ensures addr == "192.168.200.0"
  {
    assert DecimalString(19) == "19";
    assert DecimalString(192) == "192";
    assert DecimalString(16) == "16";
    assert DecimalString(168) == "168";
    assert DecimalString(20) == "20";
    assert DecimalString(200) == "200";
    assert DecimalString(0) == "0";
  }

  /** An address, a '/' and a prefix length of at most 32 form a valid block. */
  lemma ParseCIDRWritten(addr: string, mask: string, ip: IPv4)
    requires '/' !in addr && ParseIPv4(addr) == Some(ip)
    requires |mask| >= 1 && AllDigits(mask) && DecimalValue(mask) <= 32
    ensures ParseCIDR(addr + ['/'] + mask) == Some(Cidr(ip, DecimalValue(mask)))
  {
    CutAtFirst(addr, '/', mask);
  }

  /** Every block written as an address, a '/' and a decimal prefix length of
      at most 32 parses back to that address and length. */
  lemma CidrRoundTrip(ip: IPv4, prefix: nat)
    requires prefix <= 32
    ensures ParseCIDR(FormatIPv4(ip) + "/" + DecimalString(prefix)) == Some(Cidr(ip, prefix))
  {
    var addr := FormatIPv4(ip);
    FormatParseRoundTrip(ip);
    DecimalRoundTrip(prefix);
    FormatNoSlash(ip);
    ParseCIDRWritten(addr, DecimalString(prefix), ip);
    assert "/" == ['/'];
  }

  /** A printed address holds digits and dots only, so no '/'. */
  lemma FormatNoSlash(ip: IPv4)
    ensures '/' !in FormatIPv4(ip)
  {
    var f0, f1, f2, f3 := DecimalString(ip[0]), DecimalString(ip[1]), DecimalString(ip[2]), DecimalString(ip[3]);
    assert '/' !in f0 && '/' !in f1 && '/' !in f2 && '/' !in f3;
    assert FormatIPv4(ip) == f0 + "." + f1 + "." + f2 + "." + f3;
  }

  /** The block of the default scenario network, 192.168.200.0/24. */
  lemma DefaultBlockParses(s: string, ip: IPv4, prefix: nat)
    requires s == "192.168.200.0/24" && ip == [192, 168, 200, 0] && prefix == 24
    ensures ParseCIDR(s) == Some(Cidr(ip, prefix))
  {
    DefaultBlockSpelled(s, ip, prefix);
    CidrRoundTrip(ip, prefix);
  }

  /** A step of DefaultBlockParses, kept apart so that the literal text is
      compared with the printed one in a context of its own. */
  lemma DefaultBlockSpelled(s: string, ip: IPv4, prefix: nat)
    requires s == "192.168.200.0/24" && ip == [192, 168, 200, 0] && prefix == 24
    ensures s == FormatIPv4(ip) + "/" + DecimalString(prefix)
  {
    var addr := FormatIPv4(ip);
    var mask := DecimalString(prefix);
    DefaultBlockFormat(ip, addr);
    assert mask == "24" by { assert DecimalString(2) == "2"; }
    DefaultBlockText(addr, mask, s);
  }

  /** The literal concatenation behind DefaultBlockSpelled, kept apart for the same reason. */
  lemma DefaultBlockText(addr: string, mask: string, s: string)
    requires addr == "192.168.200.0" && mask == "24" && s == "192.168.200.0/24"
    ensures addr + "/" + mask == s
  {
  }
}
