/**
  The second-generation configuration readers: each protocol's settings
  come from the shared configuration manager, with a default for every key
  and bounds on the ports. `cm` is the package-level manager; the library
  parsers are the `parsers` parameter.
 */
module OptimizedConfig {
  import opened Base
  import opened Net
  import opened Ini
  import opened ConfigManagement
  import opened DhcpClient
  import opened IpfixExport
  import opened UpnpDiscovery

  /** net.ParseIP("127.0.0.1"), the default IPFIX collector. */
  const Loopback: IP := IPv4(127, 0, 0, 1)
  /** net.ParseIP("239.255.255.250"), the SSDP multicast group. */
  const SsdpGroup: IP := IPv4(239, 255, 255, 250)
  const DefaultRenew: int := 30 * Second
  const DefaultUserAgent := "siemens ag simatic s7"
  const DefaultDeviceType := "urn:schemas-upnp-org:device:InternetGatewayDevice:1"
  const DefaultUpnpPort := 1900

  /** GetInt with an in-range default stays within its bounds. */
  lemma IntSettingWithin(val: string, defaultVal: int, min: int, max: int)
    requires min <= defaultVal <= max
    ensures min <= IntSetting(val, defaultVal, min, max) <= max
  {
  }

  /**
    readDhcpConfigOptimized: every setting through the manager, with
    0.0.0.0 for the addresses, the interface's own MAC as source, broadcast
    as destination, 30 seconds between renewals and "[]" for the options.
   */
  method ReadDhcpConfigOptimized(d: DhcpClient.Interface, cm: ConfigManager, parsers: Parsers)
    modifies d
    ensures d.name == old(d.name) && d.intNet == old(d.intNet) && d.clientMAC == old(d.clientMAC)
    ensures d.enabled == cm.GetBool("dhcp", "enabled", false)
    ensures d.serverIP == cm.GetIP("dhcp", "server", IPv4Zero, parsers.parseIP)
    ensures d.giAddr == cm.GetIP("dhcp", "giaddr", IPv4Zero, parsers.parseIP)
    ensures d.ciAddr == cm.GetIP("dhcp", "ciaddr", IPv4Zero, parsers.parseIP)
    ensures d.srcMac == cm.GetMAC("dhcp", "srcmac", d.intNet.hardwareAddr, parsers.parseMAC)
    ensures d.dstMac == cm.GetMAC("dhcp", "dstmac", BroadcastMAC, parsers.parseMAC)
    ensures d.renew == cm.GetDuration("dhcp", "renew", DefaultRenew, parsers.parseDuration)
    ensures d.options == cm.GetString("dhcp", "options", "[]")
  {
    d.enabled := cm.GetBool("dhcp", "enabled", false);
    d.serverIP := cm.GetIP("dhcp", "server", IPv4Zero, parsers.parseIP);
    d.giAddr := cm.GetIP("dhcp", "giaddr", IPv4Zero, parsers.parseIP);
    d.ciAddr := cm.GetIP("dhcp", "ciaddr", IPv4Zero, parsers.parseIP);
    d.srcMac := cm.GetMAC("dhcp", "srcmac", d.intNet.hardwareAddr, parsers.parseMAC);
    d.dstMac := cm.GetMAC("dhcp", "dstmac", BroadcastMAC, parsers.parseMAC);
    d.renew := cm.GetDuration("dhcp", "renew", DefaultRenew, parsers.parseDuration);
    d.options := cm.GetString("dhcp", "options", "[]");
  }

  /**
    With no file loaded, or with an empty `[dhcp]` section, the DHCP
    client gets every default.
   */
  method DhcpDefaults(d: DhcpClient.Interface, cm: ConfigManager, parsers: Parsers)
    requires !cm.loaded || "dhcp" !in cm.cfg || cm.cfg["dhcp"] == map[]
    modifies d
    ensures !d.enabled && d.serverIP == IPv4Zero && d.giAddr == IPv4Zero && d.ciAddr == IPv4Zero
    ensures d.srcMac == d.intNet.hardwareAddr && d.dstMac == BroadcastMAC
    ensures d.renew == DefaultRenew && d.options == "[]"
  {
    ReadDhcpConfigOptimized(d, cm, parsers);
  }

  /**
    readUpnpConfigOptimized: disabled, the Siemens user agent, the
    Internet Gateway Device type, 239.255.255.250 and port 1900 unless
    configured; a port outside [1, 65535] falls back to 1900.
   */
  method ReadUpnpConfigOptimized(u: Upnp, cm: ConfigManager, parsers: Parsers)
    modifies u
    ensures u.intNet == old(u.intNet)
    ensures u.enabled == cm.GetBool("upnp", "enabled", false)
    ensures u.userAgent == cm.GetString("upnp", "useragent", DefaultUserAgent)
    ensures u.deviceType == cm.GetString("upnp", "devicetype", DefaultDeviceType)
    ensures u.ipAddr == cm.GetIP("upnp", "ipaddr", SsdpGroup, parsers.parseIP)
    ensures u.udpPort == cm.GetInt("upnp", "udpport", DefaultUpnpPort, 1, 65535)
    ensures 1 <= u.udpPort <= 65535
  {
    u.enabled := cm.GetBool("upnp", "enabled", false);
    u.userAgent := cm.GetString("upnp", "useragent", DefaultUserAgent);
    u.deviceType := cm.GetString("upnp", "devicetype", DefaultDeviceType);
    u.ipAddr := cm.GetIP("upnp", "ipaddr", SsdpGroup, parsers.parseIP);
    u.udpPort := cm.GetInt("upnp", "udpport", DefaultUpnpPort, 1, 65535);
    if cm.loaded {
      IntSettingWithin(KeyString(cm.cfg, "upnp", "udpport"), DefaultUpnpPort, 1, 65535);
    }
  }

  /**
    readIpFixConfigOptimized: disabled, 127.0.0.1, port 4739 and "[]"
    unless configured; a port outside [1, 65535] falls back to 4739.
   */
  method ReadIpFixConfigOptimized(i: IpFix, cm: ConfigManager, parsers: Parsers)
    modifies i
    ensures i.enabled == cm.GetBool("ipfix", "enabled", false)
    ensures i.destinationIP == cm.GetIP("ipfix", "destination_ip", Loopback, parsers.parseIP)
    ensures i.destinationPort == cm.GetInt("ipfix", "destination_port", DefaultDestinationPort, 1, 65535)
    ensures i.traffic == cm.GetString("ipfix", "traffic", "[]")
    ensures 1 <= i.destinationPort <= 65535
  {
    i.enabled := cm.GetBool("ipfix", "enabled", false);
    i.destinationIP := cm.GetIP("ipfix", "destination_ip", Loopback, parsers.parseIP);
    i.destinationPort := cm.GetInt("ipfix", "destination_port", DefaultDestinationPort, 1, 65535);
    i.traffic := cm.GetString("ipfix", "traffic", "[]");
    if cm.loaded {
      IntSettingWithin(KeyString(cm.cfg, "ipfix", "destination_port"), DefaultDestinationPort, 1, 65535);
    }
  }

  /**
    The RADIUS server decision shared by accounting and authentication: an
    empty server setting keeps the old address and the enabled flag as
    read; a non-empty one replaces the address with its parse, and when
    that is nil the protocol is disabled.
   */
  function ServerSetting(server: string, enabledSetting: bool, oldServerIP: IP,
                         parseIP: string -> Option<IP>): (r: (bool, IP))
    ensures server == "" ==> r == (enabledSetting, oldServerIP)
    ensures server != "" ==> r.1 == IPOrNil(parseIP(server)) && (r.0 <==> enabledSetting && r.1 != [])
  {
    if server == "" then (enabledSetting, oldServerIP)
    else
      var ip := IPOrNil(parseIP(server));
      (enabledSetting && ip != [], ip)
  }

  /** `Accounting`: the RADIUS accounting settings. */
  class Accounting {
    var enabled: bool
    var serverIP: IP
    var secret: string
    var userName: string
    var acctSessionId: string
    var callingStationId: string
    var calledStationId: string
    var nasPort: string
    var nasPortType: string
    var framedIPAddress: string
    var nasIdentifier: string
    var nasPortId: string
    var nasIPAddress: string

    /** The zero value of the Go struct. */
    constructor ()
      ensures !enabled && serverIP == [] && secret == "" && userName == "" && acctSessionId == ""
      ensures callingStationId == "" && calledStationId == "" && nasPort == "" && nasPortType == ""
      ensures framedIPAddress == "" && nasIdentifier == "" && nasPortId == "" && nasIPAddress == ""
    {
      enabled := false;
      serverIP := [];
      secret := "";
      userName := "";
      acctSessionId := "";
      callingStationId := "";
      calledStationId := "";
      nasPort := "";
      nasPortType := "";
      framedIPAddress := "";
      nasIdentifier := "";
      nasPortId := "";
      nasIPAddress := "";
    }

    /**
      The enabled flag as read, then the server: a non-empty setting is
      parsed, and a nil parse disables the protocol.
     */
    method SetServer(enabledSetting: bool, server: string, parseIP: string -> Option<IP>)
      modifies this
      ensures (enabled, serverIP) == ServerSetting(server, enabledSetting, old(serverIP), parseIP)
      ensures secret == old(secret)
      ensures userName == old(userName)
      ensures acctSessionId == old(acctSessionId)
      ensures callingStationId == old(callingStationId)
      ensures calledStationId == old(calledStationId)
      ensures nasPort == old(nasPort)
      ensures nasPortType == old(nasPortType)
      ensures framedIPAddress == old(framedIPAddress)
      ensures nasIdentifier == old(nasIdentifier)
      ensures nasPortId == old(nasPortId)
      ensures nasIPAddress == old(nasIPAddress)
    {
      enabled := enabledSetting;
      if server != "" {
        serverIP := IPOrNil(parseIP(server));
        if serverIP == [] {
          enabled := false;
        }
      }
    }

    /** The secret and the user and station attribute texts. */
    method SetIdentity(secret: string, userName: string, acctSessionId: string, callingStationId: string, calledStationId: string)
      modifies this
      ensures this.secret == secret
      ensures this.userName == userName
      ensures this.acctSessionId == acctSessionId
      ensures this.callingStationId == callingStationId
      ensures this.calledStationId == calledStationId
      ensures enabled == old(enabled)
      ensures serverIP == old(serverIP)
      ensures nasPort == old(nasPort)
      ensures nasPortType == old(nasPortType)
      ensures framedIPAddress == old(framedIPAddress)
      ensures nasIdentifier == old(nasIdentifier)
      ensures nasPortId == old(nasPortId)
      ensures nasIPAddress == old(nasIPAddress)
    {
      this.secret := secret;
      this.userName := userName;
      this.acctSessionId := acctSessionId;
      this.callingStationId := callingStationId;
      this.calledStationId := calledStationId;
    }

    /** The NAS and framed-address attribute texts. */
    method SetNas(nasPort: string, nasPortType: string, framedIPAddress: string, nasIdentifier: string, nasPortId: string, nasIPAddress: string)
      modifies this
      ensures this.nasPort == nasPort
      ensures this.nasPortType == nasPortType
      ensures this.framedIPAddress == framedIPAddress
      ensures this.nasIdentifier == nasIdentifier
      ensures this.nasPortId == nasPortId
      ensures this.nasIPAddress == nasIPAddress
      ensures enabled == old(enabled)
      ensures serverIP == old(serverIP)
      ensures secret == old(secret)
      ensures userName == old(userName)
      ensures acctSessionId == old(acctSessionId)
      ensures callingStationId == old(callingStationId)
      ensures calledStationId == old(calledStationId)
    {
      this.nasPort := nasPort;
      this.nasPortType := nasPortType;
      this.framedIPAddress := framedIPAddress;
      this.nasIdentifier := nasIdentifier;
      this.nasPortId := nasPortId;
      this.nasIPAddress := nasIPAddress;
    }
  }

  /**
    ReadRadiusAccountingConfigOptimized: the enabled flag and server as
    ServerSetting decides them, the secret defaulting to "secret" and the
    attribute texts to "".
   */
  method ReadRadiusAccountingConfigOptimized(a: Accounting, cm: ConfigManager, parsers: Parsers)
    modifies a
    ensures (a.enabled, a.serverIP)
      == ServerSetting(cm.GetString("accounting", "server", ""), cm.GetBool("accounting", "enabled", false),
                       old(a.serverIP), parsers.parseIP)
    ensures a.secret == cm.GetString("accounting", "secret", "secret")
    ensures a.userName == cm.GetString("accounting", "User-Name", "")
    ensures a.acctSessionId == cm.GetString("accounting", "Acct-Session-Id", "")
    ensures a.callingStationId == cm.GetString("accounting", "Calling-Station-Id", "")
    ensures a.calledStationId == cm.GetString("accounting", "Called-Station-Id", "")
    ensures a.nasPort == cm.GetString("accounting", "NAS-Port", "")
    ensures a.nasPortType == cm.GetString("accounting", "NAS-Port-Type", "")
    ensures a.framedIPAddress == cm.GetString("accounting", "Framed-IP-Address", "")
    ensures a.nasIdentifier == cm.GetString("accounting", "NAS-Identifier", "")
    ensures a.nasPortId == cm.GetString("accounting", "NAS-Port-Id", "")
    ensures a.nasIPAddress == cm.GetString("accounting", "NAS-IP-Address", "")
  {
    var enabled := cm.GetBool("accounting", "enabled", false);
    var server := cm.GetString("accounting", "server", "");
    a.SetServer(enabled, server, parsers.parseIP);
    var secret := cm.GetString("accounting", "secret", "secret");
    var userName := cm.GetString("accounting", "User-Name", "");
    var acctSessionId := cm.GetString("accounting", "Acct-Session-Id", "");
    var callingStationId := cm.GetString("accounting", "Calling-Station-Id", "");
    var calledStationId := cm.GetString("accounting", "Called-Station-Id", "");
    var nasPort := cm.GetString("accounting", "NAS-Port", "");
    var nasPortType := cm.GetString("accounting", "NAS-Port-Type", "");
    var framedIPAddress := cm.GetString("accounting", "Framed-IP-Address", "");
    var nasIdentifier := cm.GetString("accounting", "NAS-Identifier", "");
    var nasPortId := cm.GetString("accounting", "NAS-Port-Id", "");
    var nasIPAddress := cm.GetString("accounting", "NAS-IP-Address", "");
    a.SetIdentity(secret, userName, acctSessionId, callingStationId, calledStationId);
    a.SetNas(nasPort, nasPortType, framedIPAddress, nasIdentifier, nasPortId, nasIPAddress);
  }

  /** `Authentication`: the RADIUS authentication settings. */
  class Authentication {
    var enabled: bool
    var serverIP: IP
    var secret: string
    var userName: string
    var callingStationId: string
    var calledStationId: string
    var nasPort: string
    var nasPortType: string
    var framedIPAddress: string
    var nasIdentifier: string
    var nasPortId: string
    var nasIPAddress: string

    /** The zero value of the Go struct. */
    constructor ()
      ensures !enabled && serverIP == [] && secret == "" && userName == ""
      ensures callingStationId == "" && calledStationId == "" && nasPort == "" && nasPortType == ""
      ensures framedIPAddress == "" && nasIdentifier == "" && nasPortId == "" && nasIPAddress == ""
    {
      enabled := false;
      serverIP := [];
      secret := "";
      userName := "";
      callingStationId := "";
      calledStationId := "";
      nasPort := "";
      nasPortType := "";
      framedIPAddress := "";
      nasIdentifier := "";
      nasPortId := "";
      nasIPAddress := "";
    }

    /**
      The enabled flag as read, then the server: a non-empty setting is
      parsed, and a nil parse disables the protocol.
     */
    method SetServer(enabledSetting: bool, server: string, parseIP: string -> Option<IP>)
      modifies this
      ensures (enabled, serverIP) == ServerSetting(server, enabledSetting, old(serverIP), parseIP)
      ensures secret == old(secret)
      ensures userName == old(userName)
      ensures callingStationId == old(callingStationId)
      ensures calledStationId == old(calledStationId)
      ensures nasPort == old(nasPort)
      ensures nasPortType == old(nasPortType)
      ensures framedIPAddress == old(framedIPAddress)
      ensures nasIdentifier == old(nasIdentifier)
      ensures nasPortId == old(nasPortId)
      ensures nasIPAddress == old(nasIPAddress)
    {
      enabled := enabledSetting;
      if server != "" {
        serverIP := IPOrNil(parseIP(server));
        if serverIP == [] {
          enabled := false;
        }
      }
    }

    /** The secret and the user and station attribute texts. */
    method SetIdentity(secret: string, userName: string, callingStationId: string, calledStationId: string)
      modifies this
      ensures this.secret == secret
      ensures this.userName == userName
      ensures this.callingStationId == callingStationId
      ensures this.calledStationId == calledStationId
      ensures enabled == old(enabled)
      ensures serverIP == old(serverIP)
      ensures nasPort == old(nasPort)
      ensures nasPortType == old(nasPortType)
      ensures framedIPAddress == old(framedIPAddress)
      ensures nasIdentifier == old(nasIdentifier)
      ensures nasPortId == old(nasPortId)
      ensures nasIPAddress == old(nasIPAddress)
    {
      this.secret := secret;
      this.userName := userName;
      this.callingStationId := callingStationId;
      this.calledStationId := calledStationId;
    }

    /** The NAS and framed-address attribute texts. */
    method SetNas(nasPort: string, nasPortType: string, framedIPAddress: string, nasIdentifier: string, nasPortId: string, nasIPAddress: string)
      modifies this
      ensures this.nasPort == nasPort
      ensures this.nasPortType == nasPortType
      ensures this.framedIPAddress == framedIPAddress
      ensures this.nasIdentifier == nasIdentifier
      ensures this.nasPortId == nasPortId
      ensures this.nasIPAddress == nasIPAddress
      ensures enabled == old(enabled)
      ensures serverIP == old(serverIP)
      ensures secret == old(secret)
      ensures userName == old(userName)
      ensures callingStationId == old(callingStationId)
      ensures calledStationId == old(calledStationId)
    {
      this.nasPort := nasPort;
      this.nasPortType := nasPortType;
      this.framedIPAddress := framedIPAddress;
      this.nasIdentifier := nasIdentifier;
      this.nasPortId := nasPortId;
      this.nasIPAddress := nasIPAddress;
    }
  }

  /**
    ReadRadiusAuthenticationConfigOptimized: as for accounting, under the
    `[authentication]` section and without a session identifier.
   */
  method ReadRadiusAuthenticationConfigOptimized(a: Authentication, cm: ConfigManager, parsers: Parsers)
    modifies a
    ensures (a.enabled, a.serverIP)
      == ServerSetting(cm.GetString("authentication", "server", ""), cm.GetBool("authentication", "enabled", false),
                       old(a.serverIP), parsers.parseIP)
    ensures a.secret == cm.GetString("authentication", "secret", "secret")
    ensures a.userName == cm.GetString("authentication", "User-Name", "")
    ensures a.callingStationId == cm.GetString("authentication", "Calling-Station-Id", "")
    ensures a.calledStationId == cm.GetString("authentication", "Called-Station-Id", "")
    ensures a.nasPort == cm.GetString("authentication", "NAS-Port", "")
    ensures a.nasPortType == cm.GetString("authentication", "NAS-Port-Type", "")
    ensures a.framedIPAddress == cm.GetString("authentication", "Framed-IP-Address", "")
    ensures a.nasIdentifier == cm.GetString("authentication", "NAS-Identifier", "")
    ensures a.nasPortId == cm.GetString("authentication", "NAS-Port-Id", "")
    ensures a.nasIPAddress == cm.GetString("authentication", "NAS-IP-Address", "")
  {
    var enabled := cm.GetBool("authentication", "enabled", false);
    var server := cm.GetString("authentication", "server", "");
    a.SetServer(enabled, server, parsers.parseIP);
    var secret := cm.GetString("authentication", "secret", "secret");
    var userName := cm.GetString("authentication", "User-Name", "");
    var callingStationId := cm.GetString("authentication", "Calling-Station-Id", "");
    var calledStationId := cm.GetString("authentication", "Called-Station-Id", "");
    var nasPort := cm.GetString("authentication", "NAS-Port", "");
    var nasPortType := cm.GetString("authentication", "NAS-Port-Type", "");
    var framedIPAddress := cm.GetString("authentication", "Framed-IP-Address", "");
    var nasIdentifier := cm.GetString("authentication", "NAS-Identifier", "");
    var nasPortId := cm.GetString("authentication", "NAS-Port-Id", "");
    var nasIPAddress := cm.GetString("authentication", "NAS-IP-Address", "");
    a.SetIdentity(secret, userName, callingStationId, calledStationId);
    a.SetNas(nasPort, nasPortType, framedIPAddress, nasIdentifier, nasPortId, nasIPAddress);
  }
}
