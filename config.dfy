/**
  The configuration manager: one loaded INI file, typed accessors that fall
  back to a caller's default, and a cache holding the network interface and
  the client MAC once they have been resolved. Each accessor's decision on
  the raw value is a function of its own; the manager adds the "not loaded
  yet" case and the lookup of the value.
 */
module ConfigManagement {
  import opened Base
  import opened Net
  import opened Strconv
  import opened Ini

  /** The values GetBool reads as true and as false. */
  const TrueWords: set<string> := {"true", "1", "yes", "on"}
  const FalseWords: set<string> := {"false", "0", "no", "off"}

  /** GetBool's decision on a raw value. */
  function BoolSetting(val: string, defaultVal: bool): (b: bool)
    ensures val in TrueWords ==> b
    ensures val in FalseWords ==> !b
    ensures val !in TrueWords && val !in FalseWords ==> b == defaultVal
  {
    if val == "true" || val == "1" || val == "yes" || val == "on" then true
    else if val == "false" || val == "0" || val == "no" || val == "off" then false
    else defaultVal
  }

  /** strconv.FormatBool. */
  function FormatBool(b: bool): string {
    if b then "true" else "false"
  }

  /** A boolean written with FormatBool is read back whatever the default. */
  lemma BoolSettingRoundTrip(b: bool, defaultVal: bool)
    ensures BoolSetting(FormatBool(b), defaultVal) == b
  {
  }

  /** GetString's decision: an empty value means the default. */
  function StringSetting(val: string, defaultVal: string): (s: string)
    ensures val == "" ==> s == defaultVal
    ensures val != "" ==> s == val
  {
    if val == "" then defaultVal else val
  }

  /** GetInt's decision: a decimal integer within [min, max], otherwise the default. */
  function IntSetting(val: string, defaultVal: int, min: int, max: int): (n: int)
    ensures val == "" || Atoi(val).err != NoError || Atoi(val).value < min || Atoi(val).value > max ==> n == defaultVal
    ensures val != "" && Atoi(val).err == NoError && min <= Atoi(val).value <= max ==> n == Atoi(val).value
  {
    if val == "" then defaultVal
    else
      var parsed := Atoi(val);
      if parsed.err != NoError then defaultVal
      else if parsed.value < min || parsed.value > max then defaultVal
      else parsed.value
  }

  /** GetInt returns the default or a value the text denotes and the bounds admit. */
  lemma IntSettingInRange(val: string, defaultVal: int, min: int, max: int)
    ensures var n := IntSetting(val, defaultVal, min, max);
      n == defaultVal || (min <= n <= max && IsDecimal(val) && DecimalOf(val) == n)
  {
  }

  /** An in-range integer written with Itoa is read back by GetInt. */
  lemma IntSettingRoundTrip(n: int, defaultVal: int, min: int, max: int)
    requires IsInt64(n) && min <= n <= max
    ensures IntSetting(Itoa(n), defaultVal, min, max) == n
  {
  }

  /**
    The decision GetIP and GetMAC share: an empty value or one that `parse`
    rejects (net.ParseIP, net.ParseMAC) means the default.
   */
  function ParsedSetting<T>(val: string, defaultVal: T, parse: string -> Option<T>): (v: T)
    ensures val == "" || parse(val).None? ==> v == defaultVal
    ensures val != "" && parse(val).Some? ==> v == parse(val).value
  {
    if val == "" then defaultVal
    else
      match parse(val)
      case None => defaultVal
      case Some(parsed) => parsed
  }

  /**
    GetDuration's decision: a decimal integer counts seconds and is tried
    before duration syntax (`parseDuration`, time.ParseDuration in
    nanoseconds); an empty or unparsable value means the default.
   */
  function DurationSetting(val: string, defaultDuration: int, parseDuration: string -> Option<int>): (d: int)
    ensures val == "" ==> d == defaultDuration
    ensures val != "" && Atoi(val).err == NoError ==> d == Seconds(Atoi(val).value)
    ensures val != "" && Atoi(val).err != NoError && parseDuration(val).Some? ==> d == parseDuration(val).value
    ensures val != "" && Atoi(val).err != NoError && parseDuration(val).None? ==> d == defaultDuration
  {
    if val == "" then defaultDuration
    else
      var seconds := Atoi(val);
      if seconds.err == NoError then Seconds(seconds.value)
      else
        match parseDuration(val)
        case Some(duration) => duration
        case None => defaultDuration
  }

  /**
    A whole number of seconds written as a bare integer means that many
    seconds, whatever duration syntax would make of the same text.
   */
  lemma DurationSettingSeconds(n: int, defaultDuration: int, parseDuration: string -> Option<int>)
    requires IsInt64(n) && IsInt64(n * Second)
    ensures DurationSetting(Itoa(n), defaultDuration, parseDuration) == n * Second
  {
  }

  /** "de:ad:be:ef:de:ad", the client MAC used when none is configured. */
  const DefaultClientMAC: HardwareAddr := [0xDE, 0xAD, 0xBE, 0xEF, 0xDE, 0xAD]

  /** A cached value: the two keys the manager caches hold different types. */
  datatype CachedValue = CachedInterface(intf: NetInterface) | CachedMac(mac: HardwareAddr)

  const InterfaceKey := "interface"
  const ClientMacKey := "clientmac"

  datatype ConfigError = NotLoaded | LoadFailed | NoInterfaceSpecified | InterfaceNotFound(name: string)

  /** The cache after `preloadCache` on `cfg`, starting from `cache`. */
  function Preloaded(cache: map<string, CachedValue>, cfg: IniFile,
                     lookup: string -> Option<NetInterface>, parseMAC: string -> Option<HardwareAddr>): (r: map<string, CachedValue>)
    ensures r.Keys <= cache.Keys + {InterfaceKey, ClientMacKey}
    ensures forall k | k in cache && k != InterfaceKey && k != ClientMacKey :: k in r && r[k] == cache[k]
    ensures var name := KeyString(cfg, "general", "interface");
      if name != "" && lookup(name).Some? then InterfaceKey in r && r[InterfaceKey] == CachedInterface(lookup(name).value)
      else (InterfaceKey in r <==> InterfaceKey in cache) && (InterfaceKey in cache ==> r[InterfaceKey] == cache[InterfaceKey])
    ensures var macText := KeyString(cfg, "general", "clientmac");
      if macText != "" && parseMAC(macText).Some? then ClientMacKey in r && r[ClientMacKey] == CachedMac(parseMAC(macText).value)
      else (ClientMacKey in r <==> ClientMacKey in cache) && (ClientMacKey in cache ==> r[ClientMacKey] == cache[ClientMacKey])
  {
    var name := KeyString(cfg, "general", "interface");
    var withInterface := if name != "" && lookup(name).Some? then cache[InterfaceKey := CachedInterface(lookup(name).value)] else cache;
    var macText := KeyString(cfg, "general", "clientmac");
    if macText != "" && parseMAC(macText).Some? then withInterface[ClientMacKey := CachedMac(parseMAC(macText).value)] else withInterface
  }

  /** `ConfigManager`. */
  class ConfigManager {
    var cfg: IniFile
    var cache: map<string, CachedValue>
    var loaded: bool

    /**
      Each cached key holds the type the accessors assert it has, and
      nothing is cached before a file is loaded.
     */
    ghost predicate Valid()
      reads this
    {
      && (InterfaceKey in cache ==> cache[InterfaceKey].CachedInterface?)
      && (ClientMacKey in cache ==> cache[ClientMacKey].CachedMac?)
      && (!loaded ==> cache == map[])
    }

    /** The package-level manager before LoadConfig: no file, an empty cache. */
    constructor ()
      ensures Valid() && !loaded && cache == map[] && cfg == map[]
    {
      cfg := map[];
      cache := map[];
      loaded := false;
    }

    function GetBool(section: string, key: string, defaultVal: bool): (b: bool)
      reads this
      ensures !loaded ==> b == defaultVal
      ensures loaded ==> b == BoolSetting(KeyString(cfg, section, key), defaultVal)
    {
      if !loaded then defaultVal else BoolSetting(KeyString(cfg, section, key), defaultVal)
    }

    function GetString(section: string, key: string, defaultVal: string): (s: string)
      reads this
      ensures !loaded ==> s == defaultVal
      ensures loaded ==> s == StringSetting(KeyString(cfg, section, key), defaultVal)
    {
      if !loaded then defaultVal else StringSetting(KeyString(cfg, section, key), defaultVal)
    }

    function GetInt(section: string, key: string, defaultVal: int, min: int, max: int): (n: int)
      reads this
      ensures !loaded ==> n == defaultVal
      ensures loaded ==> n == IntSetting(KeyString(cfg, section, key), defaultVal, min, max)
    {
      if !loaded then defaultVal else IntSetting(KeyString(cfg, section, key), defaultVal, min, max)
    }

    function GetIP(section: string, key: string, defaultIP: IP, parseIP: string -> Option<IP>): (ip: IP)
      reads this
      ensures !loaded ==> ip == defaultIP
      ensures loaded ==> ip == ParsedSetting(KeyString(cfg, section, key), defaultIP, parseIP)
    {
      if !loaded then defaultIP else ParsedSetting(KeyString(cfg, section, key), defaultIP, parseIP)
    }

    function GetMAC(section: string, key: string, defaultMAC: HardwareAddr, parseMAC: string -> Option<HardwareAddr>): (mac: HardwareAddr)
      reads this
      ensures !loaded ==> mac == defaultMAC
      ensures loaded ==> mac == ParsedSetting(KeyString(cfg, section, key), defaultMAC, parseMAC)
    {
      if !loaded then defaultMAC else ParsedSetting(KeyString(cfg, section, key), defaultMAC, parseMAC)
    }

    function GetDuration(section: string, key: string, defaultDuration: int, parseDuration: string -> Option<int>): (d: int)
      reads this
      ensures !loaded ==> d == defaultDuration
      ensures loaded ==> d == DurationSetting(KeyString(cfg, section, key), defaultDuration, parseDuration)
    {
      if !loaded then defaultDuration else DurationSetting(KeyString(cfg, section, key), defaultDuration, parseDuration)
    }

    /**
      LoadConfig: on a file that cannot be read or parsed (`file` is None)
      nothing changes; otherwise the file replaces the old one and the cache
      is preloaded. Entries cached from an earlier file are kept unless the
      new file replaces them.
     */
    method LoadConfig(file: Option<IniFile>, lookup: string -> Option<NetInterface>, parseMAC: string -> Option<HardwareAddr>)
      returns (err: Option<ConfigError>)
      requires Valid()
      modifies this
      ensures Valid()
      ensures file.None? ==> err == Some(LoadFailed) && cfg == old(cfg) && cache == old(cache) && loaded == old(loaded)
      ensures file.Some? ==> err == None && loaded && cfg == file.value
      ensures file.Some? ==> cache == Preloaded(old(cache), file.value, lookup, parseMAC)
    {
      if file.None? {
        return Some(LoadFailed);
      }
      cfg := file.value;
      loaded := true;
      PreloadCache(lookup, parseMAC);
      return None;
    }

    /** preloadCache: caches the interface and the client MAC when they resolve. */
    method PreloadCache(lookup: string -> Option<NetInterface>, parseMAC: string -> Option<HardwareAddr>)
      requires Valid() && loaded
      modifies this
      ensures Valid() && loaded && cfg == old(cfg)
      ensures cache == Preloaded(old(cache), cfg, lookup, parseMAC)
    {
      var interfaceName := KeyString(cfg, "general", "interface");
      if interfaceName != "" {
        var intf := lookup(interfaceName);
        if intf.Some? {
          cache := cache[InterfaceKey := CachedInterface(intf.value)];
        }
      }
      var clientMAC := KeyString(cfg, "general", "clientmac");
      if clientMAC != "" {
        var mac := parseMAC(clientMAC);
        if mac.Some? {
          cache := cache[ClientMacKey := CachedMac(mac.value)];
        }
      }
    }

    /**
      GetInterface: the cached interface if there is one; otherwise the
      configured name is looked up and a success is cached. Before a load,
      with no name configured, or when the lookup fails, it reports an error
      and caches nothing.
     */
    method GetInterface(lookup: string -> Option<NetInterface>) returns (r: Result<NetInterface, ConfigError>)
      requires Valid()
      modifies this
      ensures Valid() && cfg == old(cfg) && loaded == old(loaded)
      ensures !loaded ==> r == Err(NotLoaded) && cache == old(cache)
      ensures loaded && InterfaceKey in old(cache) ==> r == Ok(old(cache)[InterfaceKey].intf) && cache == old(cache)
      ensures var name := KeyString(cfg, "general", "interface");
        loaded && InterfaceKey !in old(cache) ==>
          && (name == "" ==> r == Err(NoInterfaceSpecified) && cache == old(cache))
          && (name != "" && lookup(name).None? ==> r == Err(InterfaceNotFound(name)) && cache == old(cache))
          && (name != "" && lookup(name).Some? ==>
                r == Ok(lookup(name).value) && cache == old(cache)[InterfaceKey := CachedInterface(lookup(name).value)])
    {
      if !loaded {
        return Err(NotLoaded);
      }
      if InterfaceKey in cache {
        return Ok(cache[InterfaceKey].intf);
      }
      var interfaceName := KeyString(cfg, "general", "interface");
      if interfaceName == "" {
        return Err(NoInterfaceSpecified);
      }
      var intf := lookup(interfaceName);
      if intf.None? {
        return Err(InterfaceNotFound(interfaceName));
      }
      cache := cache[InterfaceKey := CachedInterface(intf.value)];
      return Ok(intf.value);
    }

    /**
      GetClientMAC: the cached MAC if there is one; otherwise the configured
      MAC, cached when it parses, or de:ad:be:ef:de:ad, which is not cached.
      Before a load Go dereferences the nil file, so a loaded file is
      required.
     */
    method GetClientMAC(parseMAC: string -> Option<HardwareAddr>) returns (mac: HardwareAddr)
      requires Valid() && loaded
      modifies this
      ensures Valid() && cfg == old(cfg) && loaded
      ensures ClientMacKey in old(cache) ==> mac == old(cache)[ClientMacKey].mac && cache == old(cache)
      ensures var parsed := parseMAC(KeyString(cfg, "general", "clientmac"));
        ClientMacKey !in old(cache) ==>
          && (parsed.Some? ==> mac == parsed.value && cache == old(cache)[ClientMacKey := CachedMac(parsed.value)])
          && (parsed.None? ==> mac == DefaultClientMAC && cache == old(cache))
    {
      if ClientMacKey in cache {
        return cache[ClientMacKey].mac;
      }
      var clientMAC := KeyString(cfg, "general", "clientmac");
      var parsed := parseMAC(clientMAC);
      if parsed.Some? {
        cache := cache[ClientMacKey := CachedMac(parsed.value)];
        return parsed.value;
      }
      return DefaultClientMAC;
    }
  }

  /**
    Once a client MAC has been returned from a successful parse, later calls
    return the same MAC, whatever the parser would now say.
   */
  method ClientMacIsStable(cm: ConfigManager, parseMAC: string -> Option<HardwareAddr>, laterParseMAC: string -> Option<HardwareAddr>)
    returns (first: HardwareAddr, second: HardwareAddr)
    requires cm.Valid() && cm.loaded
    requires parseMAC(KeyString(cm.cfg, "general", "clientmac")).Some?
    modifies cm
    ensures first == second
  {
    first := cm.GetClientMAC(parseMAC);
    second := cm.GetClientMAC(laterParseMAC);
  }

  /**
    A successful interface lookup is cached: asking again returns the same
    interface, even when the lookup would now fail.
   */
  method InterfaceIsStable(cm: ConfigManager, lookup: string -> Option<NetInterface>, laterLookup: string -> Option<NetInterface>)
    returns (first: Result<NetInterface, ConfigError>, second: Result<NetInterface, ConfigError>)
    requires cm.Valid()
    modifies cm
    ensures first.Ok? ==> second == first
  {
    first := cm.GetInterface(lookup);
    second := cm.GetInterface(laterLookup);
  }
}
