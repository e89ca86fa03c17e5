/** addr.go: the host addresses of published container ports, made of a
    transport protocol, an IP address and a port number, and lists of them.
    An IP address is a Go net.IP, a byte slice of 4 bytes (IPv4), 16 bytes
    (IPv6, possibly an IPv4-mapped address) or nil (empty). */
module Address {
  import opened Results
  import opened Text

  type Byte = bv8
  type IP = seq<Byte>
  type Port = p: nat | p < 0x1_0000

  /** The twelve-byte prefix of an IPv4-mapped IPv6 address. */
  const V4InV6Prefix: IP := [0, 0, 0, 0, 0, 0, 0, 0, 0, 0, 0xff, 0xff]

  /** net.IP.To4: the four-byte form of an IPv4 address, given in either
      form, and None for anything else. */
  function To4(ip: IP): (r: Option<IP>)
    ensures r.Some? ==> |r.value| == 4
    ensures |ip| == 4 ==> r == Some(ip)
    ensures |ip| == 16 ==> (r.Some? <==> ip[..12] == V4InV6Prefix)
    ensures |ip| == 16 && r.Some? ==> r.value == ip[12..]
    ensures |ip| != 4 && |ip| != 16 ==> r.None?
  {
    if |ip| == 4 then Some(ip)
    else if |ip| == 16 && ip[..12] == V4InV6Prefix then Some(ip[12..])
    else None
  }

  /** net.IP.Equal: the same bytes, or the same IPv4 address in its four-
      and sixteen-byte forms. */
  predicate Equal(ip: IP, x: IP)
  {
    if |ip| == |x| then ip == x
    else if |ip| == 4 && |x| == 16 then x[..12] == V4InV6Prefix && ip == x[12..]
    else if |ip| == 16 && |x| == 4 then ip[..12] == V4InV6Prefix && ip[12..] == x
    else false
  }

  /** net.IPv4zero, which Go keeps in its sixteen-byte form, and
      net.IPv6unspecified. */
  const IPv4Zero: IP := V4InV6Prefix + [0, 0, 0, 0]
  const IPv6Unspecified: IP := [0, 0, 0, 0, 0, 0, 0, 0, 0, 0, 0, 0, 0, 0, 0, 0]

  /** net.IP.IsUnspecified. */
  predicate IsUnspecified(ip: IP)
  {
    Equal(ip, IPv4Zero) || Equal(ip, IPv6Unspecified)
  }

  /** The loopback addresses substituted for unspecified ones: 127.0.0.1 in
      its four-byte form, and ::1. */
  const IPv4Loopback: IP := [127, 0, 0, 1]
  const IPv6Loopback: IP := [0, 0, 0, 0, 0, 0, 0, 0, 0, 0, 0, 0, 0, 0, 0, 1]

  /** The unspecified addresses are exactly 0.0.0.0, ::ffff:0.0.0.0 and ::. */
  lemma UnspecifiedForms(ip: IP)
    ensures IsUnspecified(ip) <==> ip == [0, 0, 0, 0] || ip == IPv4Zero || ip == IPv6Unspecified
  {
    if |ip| == 4 && IsUnspecified(ip) {
      assert ip == IPv4Zero[12..];
    }
    if ip == [0, 0, 0, 0] {
      assert IPv4Zero[..12] == V4InV6Prefix && IPv4Zero[12..] == ip;
    }
    if |ip| == 4 && Equal(ip, IPv6Unspecified) {
      assert IPv6Unspecified[10] != V4InV6Prefix[10];
    }
  }

  /** Addr, a transport protocol ("tcp", "udp", ...), an IP address and a
      port. The zero Addr has an empty protocol, no IP and port 0. */
  datatype Addr = Addr(l4proto: string, ip: IP, port: Port)

  const Zero := Addr("", [], 0)

  function NewAddr(ip: IP, port: Port, l4proto: string): (a: Addr)
    ensures Network(a) == l4proto && a.ip == ip && a.port == port
  {
    Addr(l4proto, ip, port)
  }

  function Network(a: Addr): string
  {
    a.l4proto
  }

  /** The decimal dotted-quad text of a four-byte address. */
  function DottedQuad(ip: IP): (s: string)
    requires |ip| == 4
    ensures ':' !in s
  {
    Decimal(ip[0] as nat) + "." + Decimal(ip[1] as nat) + "." + Decimal(ip[2] as nat) + "." + Decimal(ip[3] as nat)
  }

  /** Addr.String: "" for the zero address, "a.b.c.d:port" for an IPv4
      address, and "[ip]:port" otherwise, the IP-literal form of section
      3.2.2 of RFC 3986. `ipText` stands for net.IP.String on anything but
      an IPv4 address. */
  function String(a: Addr, ipText: IP -> string): (s: string)
    ensures a.l4proto == "" ==> s == ""
    ensures a.l4proto != "" && To4(a.ip).Some? ==>
              s == DottedQuad(To4(a.ip).value) + ":" + Decimal(a.port)
    ensures a.l4proto != "" && To4(a.ip).None? ==>
              s == "[" + ipText(a.ip) + "]:" + Decimal(a.port)
  {
    if a.l4proto == "" then ""
    else match To4(a.ip)
      case Some(ip4) => DottedQuad(ip4) + ":" + Decimal(a.port)
      case None => "[" + ipText(a.ip) + "]:" + Decimal(a.port)
  }

  /** The text after the last ":" of a non-zero address is the port in
      decimal, and it parses back as a 16-bit number to the port; an IPv4
      address has no other ":". */
  lemma {:induction false} StringPort(a: Addr, ipText: IP -> string)
    requires a.l4proto != ""
    ensures exists host :: String(a, ipText) == host + ":" + Decimal(a.port)
    ensures ParseUint(Decimal(a.port), 0xffff) == Ok(a.port as nat)
    ensures ':' !in Decimal(a.port)
    ensures To4(a.ip).Some? ==> exists host :: String(a, ipText) == host + ":" + Decimal(a.port) && ':' !in host
  {
    ParseDecimal(a.port, 0xffff);
    var host := if To4(a.ip).Some? then DottedQuad(To4(a.ip).value) else "[" + ipText(a.ip) + "]";
    assert String(a, ipText) == host + ":" + Decimal(a.port);
  }

  /** Addr.UnspecifiedAsLoopback: the zero address stays zero, a specified
      address stays as it is, and an unspecified one becomes the loopback
      address of its family, keeping protocol and port. */
  function UnspecifiedAsLoopback(a: Addr): (r: Addr)
    ensures a.l4proto == "" ==> r == Zero
    ensures a.l4proto != "" && !IsUnspecified(a.ip) ==> r == a
    ensures a.l4proto != "" && IsUnspecified(a.ip) && To4(a.ip).Some? ==> r == a.(ip := IPv4Loopback)
    ensures a.l4proto != "" && IsUnspecified(a.ip) && To4(a.ip).None? ==> r == a.(ip := IPv6Loopback)
  {
    if a.l4proto == "" then Zero
    else if !IsUnspecified(a.ip) then a
    else if To4(a.ip).Some? then Addr(a.l4proto, IPv4Loopback, a.port)
    else Addr(a.l4proto, IPv6Loopback, a.port)
  }

  /** The loopback addresses are specified. */
  lemma LoopbacksSpecified()
    ensures !IsUnspecified(IPv4Loopback) && !IsUnspecified(IPv6Loopback)
  {
    UnspecifiedForms(IPv4Loopback);
    UnspecifiedForms(IPv6Loopback);
    assert IPv6Loopback[15] != IPv6Unspecified[15];
    assert IPv6Loopback[10] != IPv4Zero[10];
  }

  /** The result is never unspecified, unless it is the zero address, and
      a second application changes nothing. */
  lemma LoopbackIdempotent(a: Addr)
    ensures UnspecifiedAsLoopback(a) == Zero || !IsUnspecified(UnspecifiedAsLoopback(a).ip)
    ensures UnspecifiedAsLoopback(UnspecifiedAsLoopback(a)) == UnspecifiedAsLoopback(a)
  {
    LoopbacksSpecified();
  }

  /** 0.0.0.0 becomes 127.0.0.1 and :: becomes ::1. */
  lemma LoopbackFamilies(proto: string, port: Port)
    requires proto != ""
    ensures UnspecifiedAsLoopback(Addr(proto, [0, 0, 0, 0], port)) == Addr(proto, IPv4Loopback, port)
    ensures UnspecifiedAsLoopback(Addr(proto, IPv6Unspecified, port)) == Addr(proto, IPv6Loopback, port)
  {
    UnspecifiedForms([0, 0, 0, 0]);
    UnspecifiedForms(IPv6Unspecified);
    assert IPv6Unspecified[..12] != V4InV6Prefix by {
      assert IPv6Unspecified[10] != V4InV6Prefix[10];
    }
  }

  /** Addrs.Any: the zero address for an empty list, else the element the
      random number `r` (rand.Intn of the length) picks. */
  function Any(addrs: seq<Addr>, r: nat): (a: Addr)
    ensures |addrs| == 0 ==> a == Zero
    ensures |addrs| > 0 ==> a in addrs
  {
    if |addrs| == 0 then Zero else addrs[r % |addrs|]
  }

  /** Every element of a list can be the one Any picks. */
  lemma AnyReachesAll(addrs: seq<Addr>, i: nat)
    requires i < |addrs|
    ensures Any(addrs, i) == addrs[i]
  {
    assert i % |addrs| == i;
  }

  /** Addrs.First: the zero address for an empty list, else the first. */
  function First(addrs: seq<Addr>): (a: Addr)
    ensures |addrs| == 0 ==> a == Zero
    ensures |addrs| > 0 ==> a == addrs[0]
  {
    if |addrs| == 0 then Zero else addrs[0]
  }
}
