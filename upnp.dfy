/**
  UPnP discovery: the `[upnp]` settings and the SSDP M-SEARCH request the
  simulator multicasts (UPnP Device Architecture 1.1, section 1.3.2). The
  request is a text template with LF line ends, filled in and then given
  CRLF line ends before it is sent as bytes. The socket exchange is not
  modelled.
 */
module UpnpDiscovery {
  import opened Base
  import opened Net
  import opened Strconv
  import opened Strings
  import opened Ini

  /** `Upnp`. */
  class Upnp {
    var enabled: bool
    var intNet: NetInterface
    var userAgent: string
    var ipAddr: IP
    var udpPort: int
    var deviceType: string

    /** A zero-valued Upnp bound to its interface. */
    constructor (intNet: NetInterface)
      ensures this.intNet == intNet && !enabled && userAgent == "" && ipAddr == [] && udpPort == 0 && deviceType == ""
    {
      this.intNet := intNet;
      enabled := false;
      userAgent := "";
      ipAddr := [];
      udpPort := 0;
      deviceType := "";
    }

    /**
      readUpnpConfig: enabled only for "true" or "1"; the user agent and the
      device type are taken as written; an unparsable address leaves nil. A
      port that Atoi rejects ends the program (`exits`), after the enabled
      flag, the user agent and the address are set and before the port and
      the device type are. No range check is made on the port.
     */
    method ReadUpnpConfig(cfg: IniFile, parseIP: string -> Option<IP>) returns (exits: bool)
      modifies this
      ensures intNet == old(intNet)
      ensures enabled == EnabledFlag(KeyString(cfg, "upnp", "enabled"))
      ensures userAgent == KeyString(cfg, "upnp", "useragent")
      ensures ipAddr == IPOrNil(parseIP(KeyString(cfg, "upnp", "ipaddr")))
      ensures exits <==> Atoi(KeyString(cfg, "upnp", "udpport")).err != NoError
      ensures !exits ==> udpPort == Atoi(KeyString(cfg, "upnp", "udpport")).value && deviceType == KeyString(cfg, "upnp", "devicetype")
      ensures exits ==> udpPort == old(udpPort) && deviceType == old(deviceType)
    {
      var enabledText := KeyString(cfg, "upnp", "enabled");
      var agent := KeyString(cfg, "upnp", "useragent");
      var ipText := KeyString(cfg, "upnp", "ipaddr");
      var portText := KeyString(cfg, "upnp", "udpport");
      var device := KeyString(cfg, "upnp", "devicetype");
      enabled := EnabledFlag(enabledText);
      userAgent := agent;
      ipAddr := IPOrNil(parseIP(ipText));
      var port := Atoi(portText);
      if port.err != NoError {
        return true;
      }
      udpPort := port.value;
      deviceType := device;
      return false;
    }
  }

  /** A line of the template: its text and a line feed. */
  function Line(text: string): string {
    text + "\n"
  }

  /** The same line once converted: its text and CR LF. */
  function CrlfLine(text: string): string {
    text + "\r\n"
  }

  /** Lines one after the other, each ended by LF. */
  function Lines(ls: seq<string>): string {
    if ls == [] then "" else Line(ls[0]) + Lines(ls[1..])
  }

  /** Lines one after the other, each ended by CR LF. */
  function CrlfLines(ls: seq<string>): string {
    if ls == [] then "" else CrlfLine(ls[0]) + CrlfLines(ls[1..])
  }

  const RequestLine := "M-SEARCH * HTTP/1.1"
  const ManHeader := "MAN: \"ssdp:discover\""

  /**
    The lines of the filled template: the request line, the HOST, ST, MAN,
    MX and USER-AGENT headers in that order, and an empty line.
   */
  function SearchLines(host: string, st: string, mx: string, userAgent: string): (ls: seq<string>)
    ensures |ls| == 7 && ls[0] == RequestLine && ls[3] == ManHeader && ls[6] == ""
  {
    [RequestLine, "HOST: " + host, "ST: " + st, ManHeader, "MX: " + mx, "USER-AGENT: " + userAgent, ""]
  }

  /** The template filled in, still with LF line ends; `mx` is the number as `%d` prints it. */
  function SearchText(host: string, st: string, mx: string, userAgent: string): string {
    Lines(SearchLines(host, st, mx, userAgent))
  }

  /**
    How `%s` prints the `*net.UDPAddr`: a nil address prints as an empty
    host, any other through `formatIP` (IP.String), and the port follows
    after a colon, the host bracketed when it holds one.
   */
  function HostText(ipAddr: IP, udpPort: int, formatIP: IP -> string): (hp: string)
    ensures ipAddr == [] ==> hp == ":" + Itoa(udpPort)
    ensures ipAddr != [] ==> hp == JoinHostPort(formatIP(ipAddr), Itoa(udpPort))
  {
    JoinHostPort(if ipAddr == [] then "" else formatIP(ipAddr), Itoa(udpPort))
  }

  /**
    The M-SEARCH text `discover` builds for a timeout in nanoseconds: the
    filled template with every LF replaced by CR LF. MX is the timeout in
    whole seconds, truncated.
   */
  function SearchMessage(ipAddr: IP, udpPort: int, deviceType: string, userAgent: string,
                         timeout: int, formatIP: IP -> string): (m: string)
    ensures CrlfToLf(m) == SearchText(HostText(ipAddr, udpPort, formatIP), deviceType, Itoa(Quo(timeout, Second)), userAgent)
  {
    var text := SearchText(HostText(ipAddr, udpPort, formatIP), deviceType, Itoa(Quo(timeout, Second)), userAgent);
    CrlfToLfUndoes(text);
    LfToCrlf(text)
  }

  /** The bytes written to the socket: the message's UTF-8 encoding. */
  function SearchRequest(ipAddr: IP, udpPort: int, deviceType: string, userAgent: string,
                         timeout: int, formatIP: IP -> string): (b: seq<Byte>)
    ensures |b| >= |SearchMessage(ipAddr, udpPort, deviceType, userAgent, timeout, formatIP)|
  {
    Utf8Encode(SearchMessage(ipAddr, udpPort, deviceType, userAgent, timeout, formatIP))
  }

  /** Converting lines free of LF only turns each line end into CR LF. */
  lemma {:induction false} LinesToCrlf(ls: seq<string>)
    requires forall i | 0 <= i < |ls| :: '\n' !in ls[i]
    ensures LfToCrlf(Lines(ls)) == CrlfLines(ls)
  {
    if ls != [] {
      LinesToCrlf(ls[1..]);
      LfToCrlfAppend(Line(ls[0]), Lines(ls[1..]));
      LfToCrlfAppend(ls[0], "\n");
      LfToCrlfNoLf(ls[0]);
    }
  }

  /** Lines free of LF hold one LF each, and splitting at LF gives them back, then "". */
  lemma {:induction false} LinesSplit(ls: seq<string>)
    requires forall i | 0 <= i < |ls| :: '\n' !in ls[i]
    ensures Count(Lines(ls), '\n') == |ls|
    ensures Split(Lines(ls), '\n') == ls + [""]
  {
    if ls == [] {
      assert Split("", '\n') == [""];
    } else {
      LinesSplit(ls[1..]);
      CountAppend(Line(ls[0]), Lines(ls[1..]), '\n');
      CountAppend(ls[0], "\n", '\n');
      CountAbsent(ls[0], '\n');
      assert Line(ls[0]) + Lines(ls[1..]) == ls[0] + ['\n'] + Lines(ls[1..]);
      SplitFirst(ls[0], '\n', Lines(ls[1..]));
      assert ls + [""] == [ls[0]] + (ls[1..] + [""]);
    }
  }

  /** The last line comes last. */
  lemma {:induction false} CrlfLinesLast(ls: seq<string>)
    requires ls != []
    ensures CrlfLines(ls) == CrlfLines(ls[..|ls| - 1]) + CrlfLine(ls[|ls| - 1])
  {
    if |ls| > 1 {
      CrlfLinesLast(ls[1..]);
      assert ls[1..][..|ls| - 2] == ls[..|ls| - 1][1..];
    }
  }

  /** Itoa writes digits and a sign, never a line feed. */
  lemma ItoaNoLf(n: int)
    ensures '\n' !in Itoa(n)
  {
  }

  /**
    The message line by line, for values without line feeds: it opens with
    the request line and closes with an empty line; HOST joins the address
    and port, ST is the device type and MX the timeout in whole seconds.
   */
  lemma SearchMessageShape(ipAddr: IP, udpPort: int, deviceType: string, userAgent: string,
                           timeout: int, formatIP: IP -> string)
    requires '\n' !in HostText(ipAddr, udpPort, formatIP) && '\n' !in deviceType && '\n' !in userAgent
    ensures var m := SearchMessage(ipAddr, udpPort, deviceType, userAgent, timeout, formatIP);
      && m == CrlfLines([RequestLine, "HOST: " + HostText(ipAddr, udpPort, formatIP), "ST: " + deviceType, ManHeader,
                         "MX: " + Itoa(Quo(timeout, Second)), "USER-AGENT: " + userAgent, ""])
      && |m| >= 25
      && m[..21] == "M-SEARCH * HTTP/1.1\r\n"
      && m[|m| - 4..] == "\r\n\r\n"
  {
    var host := HostText(ipAddr, udpPort, formatIP);
    var mx := Itoa(Quo(timeout, Second));
    ItoaNoLf(Quo(timeout, Second));
    var ls := SearchLines(host, deviceType, mx, userAgent);
    SearchLinesNoLf(host, deviceType, mx, userAgent);
    LinesToCrlf(ls);
    CrlfLinesEnds(ls);
  }

  /**
    CR LF lines begin with the first line and, when the last line is empty
    and follows another, end with two CR LF.
   */
  lemma CrlfLinesEnds(ls: seq<string>)
    requires |ls| >= 3 && ls[|ls| - 1] == ""
    ensures var m := CrlfLines(ls);
      && |m| >= |ls[0]| + 6
      && m[..|ls[0]| + 2] == CrlfLine(ls[0])
      && m[|m| - 4..] == "\r\n\r\n"
  {
    var m := CrlfLines(ls);
    var n := |ls|;
    assert m == CrlfLine(ls[0]) + CrlfLines(ls[1..]);
    CrlfLinesLast(ls);
    CrlfLinesLast(ls[..n - 1]);
    assert ls[..n - 1][..n - 2] == ls[..n - 2];
    assert ls[..n - 1][n - 2] == ls[n - 2];
    var front := CrlfLines(ls[..n - 2]);
    assert m == front + CrlfLine(ls[n - 2]) + CrlfLine("");
    assert |CrlfLines(ls[1..])| >= 2;
  }

  /**
    Every LF of the message has a CR before it, and the message is longer
    than the filled template by one character per LF; turning CR LF back
    into LF gives the template back.
   */
  lemma SearchMessageLineEnds(ipAddr: IP, udpPort: int, deviceType: string, userAgent: string,
                              timeout: int, formatIP: IP -> string)
    ensures var text := SearchText(HostText(ipAddr, udpPort, formatIP), deviceType, Itoa(Quo(timeout, Second)), userAgent);
      var m := SearchMessage(ipAddr, udpPort, deviceType, userAgent, timeout, formatIP);
      && (forall i | 0 <= i < |m| && m[i] == '\n' :: i > 0 && m[i - 1] == '\r')
      && |m| == |text| + Count(text, '\n')
      && CrlfToLf(m) == text
  {
    var text := SearchText(HostText(ipAddr, udpPort, formatIP), deviceType, Itoa(Quo(timeout, Second)), userAgent);
    LfToCrlfPrecedesEveryLf(text);
    LfToCrlfLength(text);
    CrlfToLfUndoes(text);
  }

  /**
    With no line feed in the substituted values, the template holds seven,
    one per line, so the message is seven characters longer than it; and a
    receiver that turns CR LF into LF and splits at LF finds the request
    line, then the HOST, ST, MAN, MX and USER-AGENT headers in that order,
    then the empty line.
   */
  lemma SearchMessageHeaders(ipAddr: IP, udpPort: int, deviceType: string, userAgent: string,
                             timeout: int, formatIP: IP -> string)
    requires '\n' !in HostText(ipAddr, udpPort, formatIP) && '\n' !in deviceType && '\n' !in userAgent
    ensures var text := SearchText(HostText(ipAddr, udpPort, formatIP), deviceType, Itoa(Quo(timeout, Second)), userAgent);
      var m := SearchMessage(ipAddr, udpPort, deviceType, userAgent, timeout, formatIP);
      && |m| == |text| + 7
      && Split(CrlfToLf(m), '\n')
         == [RequestLine, "HOST: " + HostText(ipAddr, udpPort, formatIP), "ST: " + deviceType, ManHeader,
             "MX: " + Itoa(Quo(timeout, Second)), "USER-AGENT: " + userAgent, "", ""]
  {
    var host := HostText(ipAddr, udpPort, formatIP);
    var mx := Itoa(Quo(timeout, Second));
    ItoaNoLf(Quo(timeout, Second));
    var ls := SearchLines(host, deviceType, mx, userAgent);
    SearchMessageLineEnds(ipAddr, udpPort, deviceType, userAgent, timeout, formatIP);
    SearchLinesNoLf(host, deviceType, mx, userAgent);
    LinesSplit(ls);
  }

  /** With no LF in the substituted values, no line of the template holds one. */
  lemma SearchLinesNoLf(host: string, st: string, mx: string, userAgent: string)
    requires '\n' !in host && '\n' !in st && '\n' !in mx && '\n' !in userAgent
    ensures forall i | 0 <= i < 7 :: '\n' !in SearchLines(host, st, mx, userAgent)[i]
  {
    var ls := SearchLines(host, st, mx, userAgent);
    assert '\n' !in ls[1] && '\n' !in ls[2] && '\n' !in ls[4] && '\n' !in ls[5];
  }
}
