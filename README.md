# DeviceSimulator core in Dafny

DeviceSimulator emulates a network endpoint. It requests a DHCP lease, talks
RADIUS, sends SSDP M-SEARCH discovery requests and exports flow records as
IPFIX. This project models the parts of it that build wire data or read
configuration:

- the IPFIX exporter's message encoder and its `[ipfix]` reader (`ipfix.dfy`);
- the DHCP option encoder, the request builder and the `[dhcp]` reader (`dhcp.dfy`);
- the shared resources: the RADIUS client pool, the interface cache and the
  token-bucket rate limiter (`pools.dfy`);
- the configuration manager with its typed accessors and cache (`config.dfy`);
- the five readers built on the manager (`optimized_config.dfy`);
- the UPnP `[upnp]` reader and the M-SEARCH request text (`upnp.dfy`).

Supporting modules model the Go library behaviour the core depends on:

- `strconv.Atoi` and `Itoa`, with the 64-bit range checks (`strconv.dfy`);
- `strings.Split`, `strings.Replace` of LF by CR LF, and UTF-8 encoding (`strings.dfy`);
- big-endian encoding and `copy` on byte arrays (`binary.dfy`);
- IP and MAC values and `net.JoinHostPort` (`net.dfy`);
- key lookup in a loaded INI file (`ini.dfy`);
- Go's truncating division, byte and 32-bit truncation, and `time.Second` (`base.dfy`).

Some behaviour is taken from outside the model:

- Library parsers are parameters: `net.ParseIP`, `net.ParseMAC`,
  `time.ParseDuration`, `net.InterfaceByName` and `IP.String`.
- A nil `net.IP` or `net.HardwareAddr` is the empty sequence.
- The clock is a parameter: the IPFIX export time, and the UPnP timeout as a
  number of nanoseconds.

The IPFIX encoder sends template 256 with five field specifiers: a 64-byte
message with observation domain 256.

Reloading the configuration does not clear the manager's cache.
`ConfigManager.LoadConfig` states this as the source has it: an interface or
MAC cached from an earlier file survives unless the new file resolves a
replacement.

## Model

| member | source | states |
|---|---|---|
| IpfixExport.SpecifierBytesAt | ipfix.go:114-129 | every field specifier of an encoded specifier list reads back, element ID and length, at offset 4k |
| IpfixExport.TemplateSetUnrolled | ipfix.go:106-129 | the template set is the 14 big-endian 16-bit words the encoder writes, in order |
| IpfixExport.PutPair | ipfix.go:108-129 | two adjacent `PutUint16` calls append both words and leave the rest of the buffer unchanged |
| IpfixExport.EncodeTemplateSet | ipfix.go:106-129 | the 28-byte template set buffer equals the Template Set: Set ID 2, length 28, template 256, 5 fields, the five specifiers |
| IpfixExport.CopyIPv4 | ipfix.go:139-140 | `copy` of `To4()` into a zeroed 4-byte window leaves the IPv4 bytes, or zeros when the address has no IPv4 form |
| IpfixExport.EncodeDataSet | ipfix.go:132-143 | the 20-byte data set buffer equals the Data Set: Set ID 256, length 20, then the flow's addresses, ports and packet count |
| IpfixExport.WriteHeader | ipfix.go:146-152 | the first 16 bytes become the message header: version 10, length, export time, sequence 1, domain 256; the rest is unchanged |
| IpfixExport.IpfixMessage | ipfix.go:99-159 | the message the encoder must produce is the 16-byte header, the template set and the data set, 64 bytes in all |
| IpfixExport.GenerateIpfixPacket | ipfix.go:99-159 | the packet is exactly the IPFIX message: header, template set and data set, back to back |
| IpfixExport.MessageParts | ipfix.go:146-158 | the message is 64 bytes: header at 0, template set at 16, data set at 44 |
| IpfixExport.MessageHeaderFields | ipfix.go:146-152 | a collector reads version 10, a length equal to the message's length, the export time truncated to 32 bits, sequence 1 and domain 256 |
| IpfixExport.TemplateSetHeader | ipfix.go:106-112 | the template set reads back Set ID 2, its length 28, template ID 256, 5 fields, then the encoded specifiers |
| IpfixExport.TemplateSpecifierInMessage | ipfix.go:114-129 | specifier k of the template is found in the message at byte 24 + 4k |
| IpfixExport.TemplateSetFields | ipfix.go:106-129 | in the message: Set ID 2, set length 28, template 256, field count 5, and every specifier in template order |
| IpfixExport.TemplateRecordLength | ipfix.go:114-133 | the template's field lengths sum to 16, the data record's length |
| IpfixExport.DataSetFields | ipfix.go:134-152 | the data set's ID equals the template ID, its length is 4 + the record length, and header + set lengths equal the message length |
| IpfixExport.FlowRoundTrip | ipfix.go:138-143 | the addresses, ports and packet count of the flow read back from the data record |
| IpfixExport.Ipv4FieldCases | ipfix.go:139-140 | a 4-byte address is sent as is, an IPv4-in-IPv6 address as its last 4 bytes, anything else as zeros |
| IpfixExport.SplitRecordStep | ipfix.go:134-143 | cutting a record by a template takes the first field, then cuts the rest by the rest of the template |
| IpfixExport.SplitDataRecord | ipfix.go:134-143 | cutting the data record by the template gives the five field values |
| IpfixExport.RecordFollowsTemplate | ipfix.go:106-143 | each field of the data record has its specifier's length and holds the value for that element ID |
| IpfixExport.MessageIgnoresOctetsAndProtocol | ipfix.go:99-159 | flows differing only in octet count or protocol give identical messages |
| IpfixExport.DestinationPortSetting | ipfix.go:64-75 | the port is always in 1..65535; it is the configured number when Atoi accepts it and it is in range, otherwise 4739 |
| IpfixExport.IpFix.constructor | ipfix.go:15-20 | the zero-valued settings |
| IpfixExport.IpFix.ReadIpFixConfig | ipfix.go:32-79 | enabled is "true" or "1"; an unparsable address stays nil; the port follows the 4739 fallback and lies in 1..65535; the traffic text is kept |
| DhcpClient.OptionFor | dhcp.go:69-90 | a recognised type keeps the entry's code; any other type gives the zero option; `ipaddr` gives 0 or 4 bytes, `int` 4 bytes, `bytes` one byte per comma-separated piece |
| DhcpClient.PieceBytes | dhcp.go:85-90 | one byte per comma-separated piece |
| DhcpClient.ReadOptions | dhcp.go:56-95 | one option per entry, in entry order, each the encoding its type calls for |
| DhcpClient.BytesValue | dhcp.go:87-90 | the loop builds the low byte of each piece's integer, in order |
| DhcpClient.IntOptionEncoding | dhcp.go:78-84 | an `int` value is 4 bytes reading back `uint32(n)`; a decimal below 2^32 reads back as itself; a short non-number gives 0 0 0 0 |
| DhcpClient.IntOptionExample | dhcp.go:78-84 | "256" is sent as 00 00 01 00 |
| DhcpClient.BytesOptionEncoding | dhcp.go:85-90 | a `bytes` value has one byte per piece, count of commas + 1; a byte-sized piece is sent as its value, larger ones as their low 8 bits, short non-numbers as 0 |
| DhcpClient.PieceBytesMeaning | dhcp.go:87-90 | each byte of a `bytes` value is what its piece denotes, as above |
| DhcpClient.SplitExample | dhcp.go:87 | `strings.Split("1,2,255", ",")` is the three pieces |
| DhcpClient.AtoiExample | dhcp.go:88 | Atoi reads "1", "2" and "255" as 1, 2 and 255 |
| DhcpClient.DecimalExamples | dhcp.go:88 | "1", "2" and "255" are decimals of those values |
| DhcpClient.BytesOptionExample | dhcp.go:85-90 | "1,2,255" is sent as the bytes 1, 2, 255 |
| DhcpClient.ByteValues | dhcp.go:88-89 | the low bytes of 1, 2 and 255 are those values |
| DhcpClient.StringOptionEncoding | dhcp.go:74-77 | a `string` value is sent as its bytes, one per character for ASCII text |
| DhcpClient.IpaddrOptionEncoding | dhcp.go:70-73 | an `ipaddr` value is the four IPv4 bytes, or empty when it does not parse |
| DhcpClient.UnknownTypeIsZeroOption | dhcp.go:64-92 | an entry of another type becomes the zero option, whatever its code |
| DhcpClient.Packet.constructor | dhcp.go:40 | a new packet of the given op code with every field empty |
| DhcpClient.Packet.AddOption | dhcp.go:48-51 | appends one option after the existing ones; no other field changes |
| DhcpClient.RequestPacket | dhcp.go:39-54 | a boot request with the given addresses, ID and flag; client address set only when non-nil; message type first, then the options in order |
| DhcpClient.Interface.constructor | dhcp.go:17-29 | the named interface with every setting zero |
| DhcpClient.Interface.SetSettings | dhcp.go:105-152 | sets the six settings read before the renewal period; nothing else changes |
| DhcpClient.Interface.ReadDhcpConfig | dhcp.go:97-164 | enabled is "true" or "1"; fallbacks 0.0.0.0, the interface's MAC and broadcast; a renew Atoi rejects exits before renew and options are set; otherwise renew is that many seconds |
| Pools.RadiusClient.constructor | pools.go:42-45 | a client with the given retry and packet-error settings |
| Pools.RadiusClientPool.constructor | pools.go:21-27 | an empty pool with its capacity and timeout |
| Pools.RadiusClientPool.Get | pools.go:30-48 | pops the most recently returned client, or makes a new one (Retry 3, MaxPacketErrors 2) and the pool stays empty; the size bound is kept |
| Pools.RadiusClientPool.Put | pools.go:51-63 | pushes a non-nil client when the pool has room, otherwise changes nothing; the size bound is kept |
| Pools.PutThenGet | pools.go:30-63 | a client put into a pool with room is the one the next Get returns, and the pool is as before |
| Pools.NetworkInterface.constructor | pools.go:66-73 | an empty cache |
| Pools.NetworkInterface.GetInterface | pools.go:76-100 | a cached name is answered from the cache; otherwise a successful lookup is cached and returned; a failed lookup is an error and caches nothing |
| Pools.NetworkInterface.ClearCache | pools.go:103-107 | the cache is empty |
| Pools.RateLimiter.constructor | pools.go:118-161 | a full bucket of `requestsPerSecond` tokens; refill period one second over the count, truncated, and at least one nanosecond; counts the source panics on (not positive, above 10^9) are excluded |
| Pools.RateLimiter.TryWait | pools.go:150-157 | succeeds exactly when a token is left, and then takes one |
| Pools.RateLimiter.RefillTick | pools.go:160-176 | adds a token unless the bucket is full or the limiter is closed |
| Pools.RateLimiter.Close | pools.go:179-181 | the limiter is closed; its tokens are unchanged |
| Pools.FreshLimiterAdmitsExactly | pools.go:118-157 | a new limiter for n admits exactly n TryWait calls in a row; the next is refused |
| Pools.ClosedLimiterStaysEmpty | pools.go:150-181 | once closed and emptied, no number of ticks gives a token back |
| Pools.RefillAfterExhaustion | pools.go:150-176 | an emptied open limiter gets exactly one token from a tick |
| ConfigManagement.BoolSetting | config.go:115-135 | "true", "1", "yes" and "on" are true; "false", "0", "no" and "off" are false; anything else is the default |
| ConfigManagement.BoolSettingRoundTrip | config.go:115-135 | a boolean written as "true" or "false" reads back, whatever the default |
| ConfigManagement.StringSetting | config.go:138-151 | an empty value means the default; any other value is returned as written |
| ConfigManagement.IntSetting | config.go:154-179 | a decimal accepted by Atoi and within [min, max] is returned; an empty, unparsable or out-of-range value gives the default |
| ConfigManagement.IntSettingInRange | config.go:154-179 | the result is the default or an in-range number the text denotes |
| ConfigManagement.IntSettingRoundTrip | config.go:154-179 | an in-range 64-bit integer written in decimal reads back |
| ConfigManagement.ParsedSetting | config.go:182-225 | an empty value, or an address or MAC that does not parse, gives the default; otherwise the parsed value |
| ConfigManagement.DurationSetting | config.go:228-253 | an empty value gives the default; a bare integer counts seconds and is tried first; then duration syntax; otherwise the default |
| ConfigManagement.DurationSettingSeconds | config.go:228-253 | an integer written in decimal means that many seconds, whatever duration syntax would say |
| ConfigManagement.Preloaded | config.go:50-64 | only the interface and client-MAC entries can change; the interface is cached when its name resolves and the MAC when it parses, otherwise the old entry (or its absence) stays |
| ConfigManagement.ConfigManager.constructor | config.go:14-23 | no file loaded and an empty cache |
| ConfigManagement.ConfigManager.GetBool | config.go:115-135 | the default before a load, otherwise BoolSetting on the section's key |
| ConfigManagement.ConfigManager.GetString | config.go:138-151 | the default before a load, otherwise StringSetting on the key |
| ConfigManagement.ConfigManager.GetInt | config.go:154-179 | the default before a load, otherwise IntSetting on the key |
| ConfigManagement.ConfigManager.GetIP | config.go:182-202 | the default before a load, otherwise ParsedSetting with net.ParseIP on the key |
| ConfigManagement.ConfigManager.GetMAC | config.go:205-225 | the default before a load, otherwise ParsedSetting with net.ParseMAC on the key |
| ConfigManagement.ConfigManager.GetDuration | config.go:228-253 | the default before a load, otherwise DurationSetting on the key |
| ConfigManagement.ConfigManager.LoadConfig | config.go:26-47 | an unreadable file is an error and changes nothing; otherwise the file is loaded and the cache is preloaded from it |
| ConfigManagement.ConfigManager.PreloadCache | config.go:50-64 | caches the interface when its name resolves and the client MAC when it parses; other entries are kept |
| ConfigManagement.ConfigManager.GetInterface | config.go:67-91 | not loaded, no name and lookup failure are errors that cache nothing; a cached interface is returned; a successful lookup is cached |
| ConfigManagement.ConfigManager.GetClientMAC | config.go:94-112 | a cached MAC is returned; a configured MAC that parses is cached and returned; otherwise de:ad:be:ef:de:ad, not cached |
| ConfigManagement.ClientMacIsStable | config.go:94-112 | after a MAC that parses, a second call returns the same MAC whatever the parser now says |
| ConfigManagement.InterfaceIsStable | config.go:67-91 | after a successful GetInterface, a second call returns the same interface even when the lookup now fails |
| OptimizedConfig.IntSettingWithin | config.go:154-179 | GetInt with an in-range default stays within its bounds |
| OptimizedConfig.ReadDhcpConfigOptimized | optimized_config.go:11-32 | each DHCP setting is the manager's answer for its key and default: false, 0.0.0.0, the interface's MAC, broadcast, 30 s, "[]" |
| OptimizedConfig.DhcpDefaults | optimized_config.go:11-32 | with nothing loaded or an empty `[dhcp]` section, every DHCP setting is its default |
| OptimizedConfig.ReadUpnpConfigOptimized | optimized_config.go:35-44 | the UPnP settings come from the manager with their defaults; the port is in 1..65535 |
| OptimizedConfig.ReadIpFixConfigOptimized | optimized_config.go:104-112 | the IPFIX settings come from the manager with 127.0.0.1, 4739 and "[]"; the port is in 1..65535 |
| OptimizedConfig.ServerSetting | optimized_config.go:50-57 | an empty server keeps the old address and the enabled flag; otherwise the address is the parse, and the protocol is enabled exactly when the flag is set and the parse is not nil |
| OptimizedConfig.Accounting.constructor | accounting.go:11-25 | the zero-valued accounting settings |
| OptimizedConfig.Accounting.SetServer | optimized_config.go:48-57 | enabled flag and server address as ServerSetting decides; the other fields unchanged |
| OptimizedConfig.Accounting.SetIdentity | optimized_config.go:59-63 | sets the secret and the user and station texts; the other fields unchanged |
| OptimizedConfig.Accounting.SetNas | optimized_config.go:64-69 | sets the NAS and framed-address texts; the other fields unchanged |
| OptimizedConfig.ReadRadiusAccountingConfigOptimized | optimized_config.go:47-73 | enabled and server as ServerSetting decides from the manager's answers; the secret defaults to "secret", every attribute text to "" |
| OptimizedConfig.Authentication.constructor | authentication.go:11-24 | the zero-valued authentication settings |
| OptimizedConfig.Authentication.SetServer | optimized_config.go:77-86 | enabled flag and server address as ServerSetting decides; the other fields unchanged |
| OptimizedConfig.Authentication.SetIdentity | optimized_config.go:88-91 | sets the secret and the user and station texts; the other fields unchanged |
| OptimizedConfig.Authentication.SetNas | optimized_config.go:92-97 | sets the NAS and framed-address texts; the other fields unchanged |
| OptimizedConfig.ReadRadiusAuthenticationConfigOptimized | optimized_config.go:76-101 | as for accounting, on the `[authentication]` section and without a session ID |
| UpnpDiscovery.Upnp.constructor | upnp.go:14-21 | the zero-valued settings bound to the interface |
| UpnpDiscovery.Upnp.ReadUpnpConfig | upnp.go:23-64 | enabled is "true" or "1"; the user agent is kept; an unparsable address stays nil; a port Atoi rejects exits before the port and device type are set |
| UpnpDiscovery.SearchLines | upnp.go:69-76 | the template has seven lines: the request line first, the MAN header fourth, an empty line last |
| UpnpDiscovery.SearchMessage | upnp.go:77-79 | the filled template with LF turned into CR LF; turning CR LF back into LF gives the filled template again |
| UpnpDiscovery.HostText | upnp.go:67-77 | a nil address prints as ":port"; any other as host and port joined |
| UpnpDiscovery.SearchRequest | upnp.go:79 | the request bytes are at least as many as the message's characters |
| UpnpDiscovery.LinesToCrlf | upnp.go:79 | replacing LF by CR LF in lines free of LF turns each line end into CR LF |
| UpnpDiscovery.LinesSplit | upnp.go:69-76 | lines free of LF hold one LF each, and splitting at LF gives them back, then "" |
| UpnpDiscovery.CrlfLinesLast | upnp.go:79 | the last CR LF line comes last |
| UpnpDiscovery.ItoaNoLf | upnp.go:77 | a number printed with %d holds no line feed |
| UpnpDiscovery.SearchMessageShape | upnp.go:69-79 | the message is the seven CR LF lines, opening with "M-SEARCH * HTTP/1.1" and closing with an empty line; MX is the timeout in whole seconds |
| UpnpDiscovery.CrlfLinesEnds | upnp.go:69-79 | CR LF lines begin with the first line and, when the last is empty, end with two CR LF |
| UpnpDiscovery.SearchMessageLineEnds | upnp.go:77-79 | every LF in the message has a CR before it; the message is longer than the template text by one per LF; undoing CR LF gives the text back |
| UpnpDiscovery.SearchMessageHeaders | upnp.go:69-79 | a receiver splitting at line ends finds the request line, HOST, ST, MAN, MX and USER-AGENT in that order, then the empty line |
| UpnpDiscovery.SearchLinesNoLf | upnp.go:69-77 | no line of the filled template holds a line feed when the values hold none |

## Left out

- The sockets are not modelled: `sendIPFIX`, the DHCP raw-socket send and renewal loop, the UPnP multicast listen and read loop, and the RADIUS exchange. They are I/O.
- `readIpFixTraffic` (`ipfix.go:81-96`) is not modelled. It is JSON decoding; the model starts from decoded `Traffic` values.
- The options JSON of `ReadOptions` is not decoded either; the model starts from the decoded entries.
- `ini.Load` and `SafeConfigRead` are not modelled. A load is an `Option<IniFile>`: a file that cannot be read or parsed is `None`.
- The readers that end the process on a load failure (`os.Exit`) are modelled on an already loaded file.
- Logging and printing are not modelled.
- The locks, the limiter's channel and goroutine, its ticker and its context are not modelled. Every operation runs as one step. The refill timer is the explicit `RefillTick`.
- `RateLimiter.Wait` (`pools.go:140-147`) is not modelled. It blocks until a token or cancellation arrives, which is concurrency.
- Pools.RateLimiter.constructor: requires 1 to 10^9 requests per second. Fewer make `make` or the division panic; more truncate the refill period to zero, and `time.NewTicker` in the refill goroutine panics on it (`pools.go:161`).
- `NetworkInterface.GetInterface` leaves out the second, locked cache check. In a sequential model it always misses after the first check does.
- `main.go`, `metrics.go`, `logger.go`, the RADIUS packet building, and the non-optimized readers of `accounting.go` and `authentication.go` are not part of this model.
- The `dhcp4` packet is modelled by its fields. Its wire layout and `PadToMinSize` are not modelled.
- The library parsers are parameters: `net.ParseIP`, `net.ParseMAC`, `time.ParseDuration`, `net.InterfaceByName` and `IP.String`. The model proves what follows from their answers, not the parsers themselves.
- Go strings are sequences of characters, and `[]byte(s)` is their UTF-8 encoding.
- The "no `enabled` key" branches of the file readers are not modelled separately. `Key` never returns nil, so a missing key reads as "" and is disabled.
- The interface handed to the readers is never nil; the supervisor only builds a reader for an interface it found.
- ConfigManagement.ConfigManager.GetClientMAC: requires a loaded file. Before a load, the source dereferences the nil file.
- DhcpClient.IntOptionEncoding: the four zero bytes are stated only for non-numbers of at most 19 digits. Longer digit strings make Atoi report a range error and clamp the value instead.
- DhcpClient.BytesOptionEncoding: states a zero byte only for non-numeric pieces of at most 19 digits, for the same reason.
- UpnpDiscovery.SearchMessageShape: states the line-by-line form only for values that hold no line feed. For all values, `SearchMessageLineEnds` states the CR LF facts.
- UpnpDiscovery.SearchMessageHeaders: stated only for values that hold no line feed, for the same reason.
- UpnpDiscovery.SearchRequest: states only the length bound. The bytes are `Utf8Encode` of the message, and for ASCII text they are the characters one for one (`Strings.Utf8Encode`).
- `%s` of a `*net.UDPAddr` with a zone is not modelled. The address is printed through `IP.String` and joined with the port.
