/**
  The `net` values the core handles. An IP address and a hardware address
  are byte strings as in Go, where nil is the empty string: every address
  in the core comes from a parser or a literal, never an empty non-nil
  slice. The parsers of the `net` and `time` packages and the lookup of a
  network interface are not modelled; they are passed in as functions.
 */
module Net {
  import opened Base

  type IP = seq<Byte>
  type HardwareAddr = seq<Byte>

  /** The fields of a `net.Interface` the core reads. */
  datatype NetInterface = NetInterface(name: string, hardwareAddr: HardwareAddr)

  /**
    Library parsers, each returning None where Go returns nil or an error:
    net.ParseIP, net.ParseMAC and time.ParseDuration (nanoseconds).
   */
  datatype Parsers = Parsers(
    parseIP: string -> Option<IP>,
    parseMAC: string -> Option<HardwareAddr>,
    parseDuration: string -> Option<int>)

  /** The address a parse leaves in a Go `net.IP` variable: nil on failure. */
  function IPOrNil(parsed: Option<IP>): (ip: IP)
    ensures parsed.None? ==> ip == []
    ensures parsed.Some? ==> ip == parsed.value
  {
    match parsed
    case Some(a) => a
    case None => []
  }

  /** The 12-byte prefix of an IPv4 address held in 16 bytes. */
  const V4InV6Prefix: seq<Byte> := [0, 0, 0, 0, 0, 0, 0, 0, 0, 0, 0xFF, 0xFF]

  /** net.IPv4(a, b, c, d): the 16-byte form that `net.ParseIP` also returns for IPv4 text. */
  function IPv4(a: Byte, b: Byte, c: Byte, d: Byte): (ip: IP)
    ensures |ip| == 16 && ip[..12] == V4InV6Prefix && ip[12..] == [a, b, c, d]
  {
    V4InV6Prefix + [a, b, c, d]
  }

  /** net.IPv4zero, "0.0.0.0". */
  const IPv4Zero: IP := IPv4(0, 0, 0, 0)

  /**
    IP.To4: the four bytes of an IPv4 address, given in either length, and
    nil for anything else (an IPv6 address, nil itself).
   */
  function To4(ip: IP): (v4: IP)
    ensures |v4| == 0 || |v4| == 4
    ensures |ip| == 4 ==> v4 == ip
    ensures |ip| == 16 && ip[..12] == V4InV6Prefix ==> v4 == ip[12..]
    ensures |ip| != 4 && !(|ip| == 16 && ip[..12] == V4InV6Prefix) ==> v4 == []
  {
    if |ip| == 4 then ip
    else if |ip| == 16 && ip[..12] == V4InV6Prefix then ip[12..]
    else []
  }

  /** "FF:FF:FF:FF:FF:FF" as net.ParseMAC returns it. */
  const BroadcastMAC: HardwareAddr := [0xFF, 0xFF, 0xFF, 0xFF, 0xFF, 0xFF]

  /**
    net.JoinHostPort: brackets a host that holds a colon (an IPv6 literal),
    then appends ":" and the port.
   */
  function JoinHostPort(host: string, port: string): (hp: string)
    ensures ':' !in host ==> hp == host + ":" + port
    ensures ':' in host ==> hp == "[" + host + "]:" + port
  {
    if ':' in host then "[" + host + "]:" + port else host + ":" + port
  }
}
