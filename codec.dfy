/** The SOCKS5 destination address header (section 5 of RFC 1928) as the relay
    reads it: ATYP, then a 4-octet IPv4 address or a length-prefixed domain
    name, then a 2-octet big-endian port. The same header opens the SOCKS5
    request (at offset 3) and the first tunnel frame (at offset 0). */
module Codec {
  import opened Relay

  const ATYP_IPV4: byte := 0x01
  const ATYP_DOMAIN_NAME: byte := 0x03

  /** `{addressType, headerLen, dstAddr, dstPort}`; the host stays raw octets
      (the four address octets, or the domain name's bytes). */
  datatype AddressHeader = AddressHeader(addressType: AddressType, headerLen: nat, host: seq<byte>, port: nat)

  /** What `parseAddressHeader` does: return a header, return `false`, or throw
      because a read runs past the end of the buffer. */
  datatype ParseResult = Parsed(header: AddressHeader) | Unsupported | OutOfRange

  /** A header that some octet string encodes. */
  predicate WellFormed(h: AddressHeader)
  {
    h.port < 0x1_0000 &&
    match h.addressType
    case IPv4 => |h.host| == 4 && h.headerLen == 7
    case DomainName => |h.host| < 256 && h.headerLen == |h.host| + 4
  }

  /** `Buffer.readUInt16BE`. */
  function ReadUInt16BE(data: seq<byte>, i: nat): (v: nat)
    requires i + 2 <= |data|
    ensures v < 0x1_0000
  {
    data[i] as int * 256 + data[i + 1] as int
  }

  /** A 16-bit value as two octets, most significant first. */
  function PortOctets(port: nat): (r: seq<byte>)
    requires port < 0x1_0000
    ensures |r| == 2 && ReadUInt16BE(r, 0) == port
  {
    [port / 256, port % 256]
  }

  /** The octets of a header: the reference encoding the parser is checked against. */
  function Encode(h: AddressHeader): (r: seq<byte>)
    requires WellFormed(h)
    ensures |r| == h.headerLen
    ensures r[0] == (if h.addressType == IPv4 then ATYP_IPV4 else ATYP_DOMAIN_NAME)
  {
    match h.addressType
    case IPv4 => [ATYP_IPV4] + h.host + PortOctets(h.port)
    case DomainName => [ATYP_DOMAIN_NAME, |h.host|] + h.host + PortOctets(h.port)
  }

  /** `parseAddressHeader(data, offset)`. There is no bounds check in the source:
      `readUInt8` and `readUInt16BE` throw when they read past the buffer, which
      is `OutOfRange` here, distinct from the `false` returned for a type octet
      other than IPv4 or domain name (IPv6 included). */
  function ParseAddressHeader(data: seq<byte>, offset: nat): (r: ParseResult)
    ensures r.Parsed? ==> WellFormed(r.header) && offset + r.header.headerLen <= |data|
  {
    if offset >= |data| then OutOfRange
    else if data[offset] == ATYP_DOMAIN_NAME then
      if offset + 1 >= |data| then OutOfRange
      else
        var len := data[offset + 1] as int;
        if |data| < offset + 2 + len + 2 then OutOfRange
        else
          Parsed(AddressHeader(DomainName, 4 + len, data[offset + 2 .. offset + 2 + len],
                               ReadUInt16BE(data, offset + 2 + len)))
    else if data[offset] == ATYP_IPV4 then
      if |data| < offset + 7 then OutOfRange
      else Parsed(AddressHeader(IPv4, 7, data[offset + 1 .. offset + 5], ReadUInt16BE(data, offset + 5)))
    else Unsupported
  }

  /** The three outcomes of the parser: `false` exactly for a type octet that is
      neither IPv4 nor domain name, a throw exactly when a read runs past the end. */
  lemma ParseOutcomes(data: seq<byte>, offset: nat)
    ensures ParseAddressHeader(data, offset).Unsupported? <==>
              offset < |data| && data[offset] != ATYP_IPV4 && data[offset] != ATYP_DOMAIN_NAME
    ensures ParseAddressHeader(data, offset).OutOfRange? <==>
              offset >= |data| ||
              (data[offset] == ATYP_IPV4 && |data| < offset + 7) ||
              (data[offset] == ATYP_DOMAIN_NAME &&
                 (|data| < offset + 2 || |data| < offset + 4 + data[offset + 1] as int))
  {
  }

  /** Two octets read big-endian and written back give the same two octets. */
  lemma PortOctetsOfRead(data: seq<byte>, i: nat)
    requires i + 2 <= |data|
    ensures PortOctets(ReadUInt16BE(data, i)) == data[i .. i + 2]
  {
    var hi, lo := data[i] as int, data[i + 1] as int;
    assert (hi * 256 + lo) / 256 == hi;
    assert (hi * 256 + lo) % 256 == lo;
  }

  /** Every header the parser returns is exactly the encoding of the octets it consumed. */
  lemma ParsedIsEncoding(data: seq<byte>, offset: nat)
    requires ParseAddressHeader(data, offset).Parsed?
    ensures var h := ParseAddressHeader(data, offset).header;
            WellFormed(h) && offset + h.headerLen <= |data| &&
            data[offset .. offset + h.headerLen] == Encode(h)
  {
    if data[offset] == ATYP_DOMAIN_NAME {
      ParsedDomainNameIsEncoding(data, offset);
    } else {
      ParsedIPv4IsEncoding(data, offset);
    }
  }

  /** A slice of a slice is a slice of the whole. */
  lemma SliceOfSlice<T>(s: seq<T>, lo: nat, hi: nat, i: nat, j: nat)
    requires lo <= hi <= |s| && i <= j <= hi - lo
    ensures s[lo..hi][i..j] == s[lo + i .. lo + j]
  {
    var inner := s[lo..hi];
    forall k | 0 <= k < j - i
      ensures inner[i..j][k] == s[lo + i .. lo + j][k]
    {
      assert inner[i..j][k] == inner[i + k] == s[lo + i + k];
    }
  }

  /** The IPv4 case of `ParsedIsEncoding`. */
  lemma ParsedIPv4IsEncoding(data: seq<byte>, offset: nat)
    requires offset + 7 <= |data| && data[offset] == ATYP_IPV4
    ensures var h := AddressHeader(IPv4, 7, data[offset + 1 .. offset + 5], ReadUInt16BE(data, offset + 5));
            WellFormed(h) && data[offset .. offset + 7] == Encode(h)
  {
    var h := AddressHeader(IPv4, 7, data[offset + 1 .. offset + 5], ReadUInt16BE(data, offset + 5));
    var s := data[offset .. offset + 7];
    SliceOfSlice(data, offset, offset + 7, 1, 5);
    assert ReadUInt16BE(s, 5) == h.port;
    HeaderOctets(s, h);
  }

  /** The domain-name case of `ParsedIsEncoding`. */
  lemma ParsedDomainNameIsEncoding(data: seq<byte>, offset: nat)
    requires offset + 2 <= |data| && data[offset] == ATYP_DOMAIN_NAME
    requires offset + 4 + data[offset + 1] as int <= |data|
    ensures var n := data[offset + 1] as int;
            var h := AddressHeader(DomainName, n + 4, data[offset + 2 .. offset + 2 + n], ReadUInt16BE(data, offset + 2 + n));
            WellFormed(h) && data[offset .. offset + n + 4] == Encode(h)
  {
    var n := data[offset + 1] as int;
    var h := AddressHeader(DomainName, n + 4, data[offset + 2 .. offset + 2 + n], ReadUInt16BE(data, offset + 2 + n));
    var s := data[offset .. offset + n + 4];
    SliceOfSlice(data, offset, offset + n + 4, 2, n + 2);
    assert ReadUInt16BE(s, n + 2) == h.port;
    HeaderOctets(s, h);
  }

  /** Octets that start with a type octet, then (for a domain name) a length octet,
      then the host, then the port read big-endian, are the encoding of that header. */
  lemma HeaderOctets(s: seq<byte>, h: AddressHeader)
    requires |s| == h.headerLen && h.port < 0x1_0000
    requires h.addressType == IPv4 ==>
               |s| == 7 && s[0] == ATYP_IPV4 && h.host == s[1..5] && h.port == ReadUInt16BE(s, 5)
    requires h.addressType == DomainName ==>
               |s| >= 4 && s[0] == ATYP_DOMAIN_NAME && s[1] as int == |s| - 4 &&
               h.host == s[2 .. |s| - 2] && h.port == ReadUInt16BE(s, |s| - 2)
    ensures WellFormed(h) && s == Encode(h)
  {
    var k := |s| - 2;
    PortOctetsOfRead(s, k);
    if h.addressType == IPv4 {
      assert s == [s[0]] + s[1..k] + s[k..];
    } else {
      assert s == s[..2] + s[2..k] + s[k..];
      assert s[..2] == [ATYP_DOMAIN_NAME, |h.host|];
    }
  }

  /** An encoded header is parsed back to itself, wherever it sits and whatever follows it. */
  lemma ParseEncoding(prefix: seq<byte>, h: AddressHeader, rest: seq<byte>)
    requires WellFormed(h)
    ensures ParseAddressHeader(prefix + Encode(h) + rest, |prefix|) == Parsed(h)
  {
    if h.addressType == DomainName {
      ParseEncodedDomainName(prefix, h, rest);
    } else {
      ParseEncodedIPv4(prefix, h, rest);
    }
  }

  /** The domain-name case of `ParseEncoding`. */
  lemma ParseEncodedDomainName(prefix: seq<byte>, h: AddressHeader, rest: seq<byte>)
    requires WellFormed(h) && h.addressType == DomainName
    ensures ParseAddressHeader(prefix + Encode(h) + rest, |prefix|) == Parsed(h)
  {
    var data := prefix + Encode(h) + rest;
    var o, n := |prefix|, |h.host|;
    assert Encode(h) == [ATYP_DOMAIN_NAME, n] + h.host + PortOctets(h.port);
    assert data[o] == ATYP_DOMAIN_NAME && data[o + 1] == n;
    assert data[o + 2 .. o + 2 + n] == h.host;
    assert data[o + 2 + n .. o + 4 + n] == PortOctets(h.port);
    assert ReadUInt16BE(data, o + 2 + n) == ReadUInt16BE(PortOctets(h.port), 0);
  }

  /** The IPv4 case of `ParseEncoding`. */
  lemma ParseEncodedIPv4(prefix: seq<byte>, h: AddressHeader, rest: seq<byte>)
    requires WellFormed(h) && h.addressType == IPv4
    ensures ParseAddressHeader(prefix + Encode(h) + rest, |prefix|) == Parsed(h)
  {
    var data := prefix + Encode(h) + rest;
    var o := |prefix|;
    assert Encode(h) == [ATYP_IPV4] + h.host + PortOctets(h.port);
    assert data[o] == ATYP_IPV4;
    assert data[o + 1 .. o + 5] == h.host;
    assert data[o + 5 .. o + 7] == PortOctets(h.port);
    assert ReadUInt16BE(data, o + 5) == ReadUInt16BE(PortOctets(h.port), 0);
  }

  /** For type 0x01 with room for it: a 7-octet header whose host is the four
      address octets and whose port is read big-endian from the last two. */
  lemma ParseIPv4(data: seq<byte>, offset: nat)
    requires offset + 7 <= |data| && data[offset] == ATYP_IPV4
    ensures ParseAddressHeader(data, offset) ==
            Parsed(AddressHeader(IPv4, 7, data[offset + 1 .. offset + 5],
                                 data[offset + 5] as int * 256 + data[offset + 6] as int))
  {
  }

  /** For type 0x03 with declared length L and room for it: an (L+4)-octet header
      whose host is the L octets after the length and whose port follows them. */
  lemma ParseDomainName(data: seq<byte>, offset: nat)
    requires offset + 2 <= |data| && data[offset] == ATYP_DOMAIN_NAME
    requires offset + 4 + data[offset + 1] as int <= |data|
    ensures var len := data[offset + 1] as int;
            ParseAddressHeader(data, offset) ==
            Parsed(AddressHeader(DomainName, len + 4, data[offset + 2 .. offset + 2 + len],
                                 data[offset + 2 + len] as int * 256 + data[offset + 3 + len] as int))
  {
  }
}
