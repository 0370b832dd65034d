/**
 * The interface-address search of drivers/helpers.go. The operating system's
 * answers (net.InterfaceByName and Interface.Addrs) arrive as an AddrLookup value.
 */
module Helpers {
  import opened Wrappers
  import opened GoStd
  import opened DriverErrors

  /** A net.IP: 4 bytes, or 16 bytes possibly holding an IPv4-mapped address. */
  type IP = seq<byte>

  /** What the system reports for an interface name: a failure, or the IPs of its *net.IPNet addresses. */
  datatype AddrLookup =
    | NoSuchInterface(err: Error)
    | AddrsFailed(err: Error)
    | Addrs(ips: seq<IP>)

  predicate IsV4InV6Prefix(ip: IP)
    requires |ip| == 16
  {
    (forall i :: 0 <= i < 10 ==> ip[i] == 0) && ip[10] == 0xff && ip[11] == 0xff
  }

  /** net.IP.To4: the 4-byte form of an IPv4 address, None for anything else. */
  function To4(ip: IP): (r: Option<IP>)
    ensures r.Some? ==> |r.value| == 4
    ensures r.Some? <==> |ip| == 4 || (|ip| == 16 && IsV4InV6Prefix(ip))
    ensures r.Some? ==> r.value == ip[|ip| - 4..]
  {
    if |ip| == 4 then Some(ip)
    else if |ip| == 16 && IsV4InV6Prefix(ip) then Some(ip[12..16])
    else None
  }

  /** The IPv4 form of the first address that has one. */
  function FirstIPv4(ips: seq<IP>): (r: Option<IP>)
    ensures r.Some? ==> |r.value| == 4
  {
    if ips == [] then None
    else if To4(ips[0]).Some? then To4(ips[0])
    else FirstIPv4(ips[1..])
  }

  function NoIPv4Error(iface: string): Error {
    Msg("interface " + iface + " don't have an ipv4 address")
  }

  /**
   * The whole of GetInterfaceIPv4Addr as a value: a lookup failure as it came,
   * the first IPv4 form among the addresses, or an error naming the interface.
   */
  function InterfaceIPv4(iface: string, lookup: AddrLookup): (r: Result<IP, Error>)
    ensures lookup.NoSuchInterface? || lookup.AddrsFailed? ==> r == Failure(lookup.err)
    ensures lookup.Addrs? ==>
      r == (if FirstIPv4(lookup.ips).Some? then Success(FirstIPv4(lookup.ips).value) else Failure(NoIPv4Error(iface)))
    ensures r.Success? ==> |r.value| == 4
  {
    match lookup
    case NoSuchInterface(err) => Failure(err)
    case AddrsFailed(err) => Failure(err)
    case Addrs(ips) =>
      match FirstIPv4(ips)
      case None => Failure(NoIPv4Error(iface))
      case Some(ip) => Success(ip)
  }

  /** FirstIPv4 picks the first address with an IPv4 form and ignores the rest. */
  lemma {:induction false} FirstIPv4IsFirst(ips: seq<IP>)
    ensures FirstIPv4(ips).Some? <==> exists k :: 0 <= k < |ips| && To4(ips[k]).Some?
    ensures FirstIPv4(ips).Some? ==>
      exists k :: 0 <= k < |ips| && FirstIPv4(ips) == To4(ips[k]) &&
        forall j :: 0 <= j < k ==> To4(ips[j]).None?
  {
    if ips != [] {
      FirstIPv4IsFirst(ips[1..]);
      if To4(ips[0]).None? {
        if FirstIPv4(ips).Some? {
          var k :| 0 <= k < |ips| - 1 && FirstIPv4(ips[1..]) == To4(ips[1..][k]) &&
            forall j :: 0 <= j < k ==> To4(ips[1..][j]).None?;
          assert FirstIPv4(ips) == To4(ips[k + 1]);
          assert forall j :: 0 <= j < k + 1 ==> To4(ips[j]).None? by {
            forall j | 0 <= j < k + 1 ensures To4(ips[j]).None? {
              if j > 0 { assert ips[j] == ips[1..][j - 1]; }
            }
          }
        }
        if exists k :: 0 <= k < |ips| && To4(ips[k]).Some? {
          var k :| 0 <= k < |ips| && To4(ips[k]).Some?;
          assert k > 0 && ips[1..][k - 1] == ips[k];
        }
      }
    }
  }

  /**
   * GetInterfaceIPv4Addr: lookup failures come back unchanged; otherwise the loop
   * keeps the IPv4 form of each address until one has one.
   */
  method GetInterfaceIPv4Addr(iface: string, lookup: AddrLookup) returns (r: Result<IP, Error>)
    ensures r == InterfaceIPv4(iface, lookup)
    ensures lookup.NoSuchInterface? || lookup.AddrsFailed? ==> r == Failure(lookup.err)
    ensures r.Success? ==> |r.value| == 4
  {
    if lookup.NoSuchInterface? || lookup.AddrsFailed? {
      return Failure(lookup.err);
    }
    var addrs := lookup.ips;
    var ipv4Addr: Option<IP> := None;
    var i := 0;
    while i < |addrs|
      invariant 0 <= i <= |addrs|
      invariant ipv4Addr.None?
      invariant FirstIPv4(addrs) == FirstIPv4(addrs[i..])
    {
      ipv4Addr := To4(addrs[i]);
      if ipv4Addr.Some? {
        break;
      }
      assert addrs[i..][1..] == addrs[i + 1..];
      i := i + 1;
    }
    if ipv4Addr.None? {
      return Failure(NoIPv4Error(iface));
    }
    return Success(ipv4Addr.value);
  }
}
