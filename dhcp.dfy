/**
  The DHCP client's option encoder, request builder and settings reader.
  Configured options arrive as typed entries (`ipaddr`, `string`, `int`,
  `bytes`) and become code/value pairs; a request carries the DHCP Message
  Type option (RFC 2132 section 9.6) first and the configured options after
  it, in their order. The `dhcp4` packet is kept as its fields, not its
  wire layout.
 */
module DhcpClient {
  import opened Base
  import opened Binary
  import opened Net
  import opened Strconv
  import opened Strings
  import opened Ini

  type OptionCode = Byte

  /** The code of a `dhcp4.Option{}` whose code was never set. */
  const OptionPad: OptionCode := 0
  const OptionDhcpMessageType: OptionCode := 53

  /** `dhcp4.OpCode` of a client message. */
  const BootRequest: Byte := 1

  /** One entry of the options JSON: code, value text and value type. */
  datatype OptionEntry = OptionEntry(option: OptionCode, value: string, kind: string)

  /** A `dhcp4.Option`: its code and its value bytes. */
  datatype DhcpOption = DhcpOption(code: OptionCode, value: seq<Byte>)

  /** The value types an options entry may declare. */
  const KnownKinds: set<string> := {"ipaddr", "string", "int", "bytes"}

  /** The low byte of each comma-separated integer, with Atoi's error ignored. */
  function PieceBytes(pieces: seq<string>): (b: seq<Byte>)
    ensures |b| == |pieces|
  {
    seq(|pieces|, k requires 0 <= k < |pieces| => ByteOf(Atoi(pieces[k]).value))
  }

  /**
    The option an entry becomes. An entry of an unknown type yields the zero
    option: its code is only set inside the recognised cases.
   */
  function OptionFor(e: OptionEntry, parseIP: string -> Option<IP>): (o: DhcpOption)
    ensures e.kind in KnownKinds ==> o.code == e.option
    ensures e.kind !in KnownKinds ==> o == DhcpOption(OptionPad, [])
    ensures e.kind == "ipaddr" ==> |o.value| == 0 || |o.value| == 4
    ensures e.kind == "int" ==> |o.value| == 4
    ensures e.kind == "bytes" ==> |o.value| == Count(e.value, ',') + 1
  {
    if e.kind == "ipaddr" then DhcpOption(e.option, To4(IPOrNil(parseIP(e.value))))
    else if e.kind == "string" then DhcpOption(e.option, Utf8Encode(e.value))
    else if e.kind == "int" then DhcpOption(e.option, Be32(Uint32Of(Atoi(e.value).value)))
    else if e.kind == "bytes" then DhcpOption(e.option, PieceBytes(Split(e.value, ',')))
    else DhcpOption(OptionPad, [])
  }

  /**
    `ReadOptions` on the decoded entries: one option per entry, in entry
    order. `net.ParseIP` is the parameter `parseIP`.
   */
  method ReadOptions(entries: seq<OptionEntry>, parseIP: string -> Option<IP>) returns (options: seq<DhcpOption>)
    ensures |options| == |entries|
    ensures forall i | 0 <= i < |entries| :: options[i] == OptionFor(entries[i], parseIP)
  {
    options := [];
    var i := 0;
    while i < |entries|
      invariant 0 <= i <= |entries|
      invariant |options| == i
      invariant forall j | 0 <= j < i :: options[j] == OptionFor(entries[j], parseIP)
    {
      var entry := entries[i];
      var option := DhcpOption(OptionPad, []);
      if entry.kind == "ipaddr" {
        var parsed := IPOrNil(parseIP(entry.value));
        option := DhcpOption(entry.option, To4(parsed));
      } else if entry.kind == "string" {
        option := DhcpOption(entry.option, Utf8Encode(entry.value));
      } else if entry.kind == "int" {
        var val := Atoi(entry.value).value;
        option := DhcpOption(entry.option, Be32(Uint32Of(val)));
      } else if entry.kind == "bytes" {
        var value := BytesValue(Split(entry.value, ','));
        option := DhcpOption(entry.option, value);
      }
      assert option == OptionFor(entry, parseIP);
      options := options + [option];
      i := i + 1;
    }
  }

  /** The `bytes` case's inner loop: one byte appended per piece. */
  method BytesValue(pieces: seq<string>) returns (value: seq<Byte>)
    ensures value == PieceBytes(pieces)
  {
    value := [];
    var k := 0;
    while k < |pieces|
      invariant 0 <= k <= |pieces|
      invariant value == PieceBytes(pieces[..k])
    {
      var val := Atoi(pieces[k]).value;
      assert pieces[..k + 1][..k] == pieces[..k];
      value := value + [ByteOf(val)];
      k := k + 1;
    }
    assert pieces[..k] == pieces;
  }

  /** An `int` value is the four big-endian bytes of `uint32(n)`; a non-number gives four zeros. */
  lemma IntOptionEncoding(code: OptionCode, value: string, parseIP: string -> Option<IP>)
    ensures var o := OptionFor(OptionEntry(code, value, "int"), parseIP);
      && o.code == code && |o.value| == 4
      && Uint32At(o.value, 0) == Uint32Of(Atoi(value).value)
      && (IsDecimal(value) && 0 <= DecimalOf(value) < 0x1_0000_0000 ==> Uint32At(o.value, 0) == DecimalOf(value))
      && (!IsDecimal(value) && |Unsigned(value)| <= 19 ==> o.value == [0, 0, 0, 0])
  {
    var o := OptionFor(OptionEntry(code, value, "int"), parseIP);
    if !IsDecimal(value) && |Unsigned(value)| <= 19 {
      AtoiShortSyntaxError(value);
    }
    Uint32AtBe32(o.value, 0, Uint32Of(Atoi(value).value));
    assert o.value[0..4] == o.value;
  }

  /** "256" is sent as 00 00 01 00. */
  lemma IntOptionExample(code: OptionCode, parseIP: string -> Option<IP>)
    ensures OptionFor(OptionEntry(code, "256", "int"), parseIP).value == [0, 0, 1, 0]
  {
    assert Unsigned("256") == "256";
    assert "256"[..2] == "25" && "25"[..1] == "2" && "2"[..0] == "";
    assert DecimalOf("256") == 256;
  }

  /**
    A `bytes` value gives one byte per comma-separated piece: the piece's
    integer when it is a byte, its low eight bits in general, and 0 for a
    short piece that is not a number.
   */
  lemma BytesOptionEncoding(code: OptionCode, value: string, parseIP: string -> Option<IP>)
    ensures var o := OptionFor(OptionEntry(code, value, "bytes"), parseIP);
      var pieces := Split(value, ',');
      && o == DhcpOption(code, PieceBytes(pieces))
      && |o.value| == Count(value, ',') + 1 == |pieces|
      && forall k | 0 <= k < |pieces| :: PieceByte(pieces[k], o.value[k])
  {
    PieceBytesMeaning(Split(value, ','));
  }

  lemma PieceBytesMeaning(pieces: seq<string>)
    ensures forall k | 0 <= k < |pieces| :: PieceByte(pieces[k], PieceBytes(pieces)[k])
  {
    forall k | 0 <= k < |pieces|
      ensures PieceByte(pieces[k], PieceBytes(pieces)[k])
    {
      var piece := pieces[k];
      assert PieceBytes(pieces)[k] == ByteOf(Atoi(piece).value);
      if !IsDecimal(piece) && |Unsigned(piece)| <= 19 {
        AtoiShortSyntaxError(piece);
      }
    }
  }

  /** What one piece of a `bytes` value is sent as. */
  predicate PieceByte(piece: string, b: Byte) {
    && (IsDecimal(piece) && 0 <= DecimalOf(piece) < 0x100 ==> b == DecimalOf(piece))
    && (IsDecimal(piece) && IsInt64(DecimalOf(piece)) ==> (DecimalOf(piece) - b) % 0x100 == 0)
    && (!IsDecimal(piece) && |Unsigned(piece)| <= 19 ==> b == 0)
  }

  /** strings.Split("1,2,255", ","), worked out. */
  lemma SplitExample()
    ensures Split("1,2,255", ',') == ["1", "2", "255"]
  {
    assert "5"[1..] == "" && "55"[1..] == "5" && "255"[1..] == "55";
    assert ",255"[1..] == "255" && "2,255"[1..] == ",255" && ",2,255"[1..] == "2,255" && "1,2,255"[1..] == ",2,255";
    assert Split("5", ',') == ["5"];
    assert Split("55", ',') == ["55"];
    assert Split("255", ',') == ["255"];
    assert Split(",255", ',') == ["", "255"];
    assert ["", "255"][1..] == ["255"] && ['2'] + "" == "2";
    assert Split("2,255", ',') == ["2", "255"];
    assert Split(",2,255", ',') == ["", "2", "255"];
    assert ["", "2", "255"][1..] == ["2", "255"] && ['1'] + "" == "1";
  }

  lemma AtoiExample()
    ensures Atoi("1").value == 1 && Atoi("2").value == 2 && Atoi("255").value == 255
  {
    DecimalExamples();
  }

  lemma DecimalExamples()
    ensures IsDecimal("1") && DecimalOf("1") == 1
    ensures IsDecimal("2") && DecimalOf("2") == 2
    ensures IsDecimal("255") && DecimalOf("255") == 255
  {
    assert "255"[..2] == "25" && "25"[..1] == "2" && "2"[..0] == "" && "1"[..0] == "";
    assert Unsigned("1") == "1" && Unsigned("2") == "2" && Unsigned("255") == "255";
  }

  /** "1,2,255" is sent as the bytes 1, 2, 255. */
  lemma BytesOptionExample(code: OptionCode, parseIP: string -> Option<IP>)
    ensures OptionFor(OptionEntry(code, "1,2,255", "bytes"), parseIP).value == [1, 2, 255]
  {
    SplitExample();
    AtoiExample();
    ByteValues(["1", "2", "255"]);
  }

  /** The low bytes of the three pieces, once their values are known. */
  lemma ByteValues(pieces: seq<string>)
    requires pieces == ["1", "2", "255"]
    requires Atoi("1").value == 1 && Atoi("2").value == 2 && Atoi("255").value == 255
    ensures PieceBytes(pieces) == [1, 2, 255]
  {
  }

  /** A `string` value is sent as its bytes: one per character for ASCII text. */
  lemma StringOptionEncoding(code: OptionCode, value: string, parseIP: string -> Option<IP>)
    ensures var o := OptionFor(OptionEntry(code, value, "string"), parseIP);
      && o.code == code
      && o.value == Utf8Encode(value)
      && (IsAscii(value) ==> |o.value| == |value| && forall i | 0 <= i < |value| :: o.value[i] == value[i] as int)
  {
  }

  /** An `ipaddr` value is the address's four IPv4 bytes, or empty when it does not parse. */
  lemma IpaddrOptionEncoding(code: OptionCode, value: string, parseIP: string -> Option<IP>)
    ensures var o := OptionFor(OptionEntry(code, value, "ipaddr"), parseIP);
      && o.code == code
      && (parseIP(value).None? ==> o.value == [])
      && (forall a: Byte, b: Byte, c: Byte, d: Byte {:trigger IPv4(a, b, c, d)} ::
            parseIP(value) == Some(IPv4(a, b, c, d)) ==> o.value == [a, b, c, d])
  {
  }

  /** An entry of any other type becomes the zero option, whatever its code. */
  lemma UnknownTypeIsZeroOption(e: OptionEntry, parseIP: string -> Option<IP>)
    requires e.kind !in KnownKinds
    ensures OptionFor(e, parseIP) == DhcpOption(OptionPad, [])
  {
  }

  /** A `dhcp4.Packet` as the fields a client request sets. */
  class Packet {
    var opCode: Byte
    var chAddr: HardwareAddr
    var xId: seq<Byte>
    /** None while `SetCIAddr` was never called: the field stays zero on the wire. */
    var ciAddr: Option<IP>
    var giAddr: IP
    var broadcast: bool
    var options: seq<DhcpOption>

    /** dhcp4.NewPacket: an empty packet of the given kind. */
    constructor (opCode: Byte)
      ensures this.opCode == opCode && chAddr == [] && xId == [] && ciAddr == None
      ensures giAddr == [] && !broadcast && options == []
    {
      this.opCode := opCode;
      chAddr := [];
      xId := [];
      ciAddr := None;
      giAddr := [];
      broadcast := false;
      options := [];
    }

    /** Appends one option after those already added. */
    method AddOption(code: OptionCode, value: seq<Byte>)
      modifies this
      ensures options == old(options) + [DhcpOption(code, value)]
      ensures opCode == old(opCode) && chAddr == old(chAddr) && xId == old(xId)
      ensures ciAddr == old(ciAddr) && giAddr == old(giAddr) && broadcast == old(broadcast)
    {
      options := options + [DhcpOption(code, value)];
    }
  }

  /**
    `RequestPacket`: a client request whose first option is the message type
    `mt`, followed by the configured options in their order. The client
    address is set only for a non-nil `cIAddr`.
   */
  method RequestPacket(mt: Byte, chAddr: HardwareAddr, giAddr: IP, cIAddr: IP, xId: seq<Byte>, broadcast: bool, options: seq<DhcpOption>)
    returns (p: Packet)
    ensures fresh(p)
    ensures p.opCode == BootRequest && p.chAddr == chAddr && p.xId == xId
    ensures p.ciAddr == (if cIAddr != [] then Some(cIAddr) else None)
    ensures p.giAddr == giAddr && p.broadcast == broadcast
    ensures |p.options| == |options| + 1
    ensures p.options[0] == DhcpOption(OptionDhcpMessageType, [mt])
    ensures p.options[1..] == options
  {
    p := new Packet(BootRequest);
    p.chAddr := chAddr;
    p.xId := xId;
    if cIAddr != [] {
      p.ciAddr := Some(cIAddr);
    }
    p.giAddr := giAddr;
    p.broadcast := broadcast;
    p.AddOption(OptionDhcpMessageType, [mt]);
    var i := 0;
    while i < |options|
      invariant 0 <= i <= |options|
      invariant p.options == [DhcpOption(OptionDhcpMessageType, [mt])] + options[..i]
      invariant p.opCode == BootRequest && p.chAddr == chAddr && p.xId == xId
      invariant p.ciAddr == (if cIAddr != [] then Some(cIAddr) else None)
      invariant p.giAddr == giAddr && p.broadcast == broadcast
    {
      p.AddOption(options[i].code, options[i].value);
      assert options[..i + 1] == options[..i] + [options[i]];
      i := i + 1;
    }
    assert options[..i] == options;
  }

  /** The DHCP settings of the `[dhcp]` section and the interface they apply to. */
  class Interface {
    var enabled: bool
    var name: string
    var intNet: NetInterface
    var serverIP: IP
    var dstMac: HardwareAddr
    /** The renewal period, a `time.Duration` in nanoseconds. */
    var renew: int
    var clientMAC: HardwareAddr
    var giAddr: IP
    var srcMac: HardwareAddr
    var ciAddr: IP
    var options: string

    /** The struct as the supervisor prepares it: the interface found, every setting zero. */
    constructor (name: string, intNet: NetInterface)
      ensures this.name == name && this.intNet == intNet
      ensures !enabled && serverIP == [] && dstMac == [] && renew == 0 && clientMAC == []
      ensures giAddr == [] && srcMac == [] && ciAddr == [] && options == ""
    {
      this.name := name;
      this.intNet := intNet;
      enabled := false;
      serverIP := [];
      dstMac := [];
      renew := 0;
      clientMAC := [];
      giAddr := [];
      srcMac := [];
      ciAddr := [];
      options := "";
    }

    /** The settings `readDhcpConfig` assigns before it reads the renewal period, in its order. */
    method SetSettings(enabled: bool, serverIP: IP, giAddr: IP, ciAddr: IP, srcMac: HardwareAddr, dstMac: HardwareAddr)
      modifies this
      ensures this.enabled == enabled && this.serverIP == serverIP && this.giAddr == giAddr
      ensures this.ciAddr == ciAddr && this.srcMac == srcMac && this.dstMac == dstMac
      ensures name == old(name) && intNet == old(intNet) && clientMAC == old(clientMAC)
      ensures renew == old(renew) && options == old(options)
    {
      this.enabled := enabled;
      this.serverIP := serverIP;
      this.giAddr := giAddr;
      this.ciAddr := ciAddr;
      this.srcMac := srcMac;
      this.dstMac := dstMac;
    }

    /**
      `readDhcpConfig` on a loaded file. Unparsable relay and client
      addresses fall back to 0.0.0.0, an unparsable source MAC to the
      interface's own, an unparsable destination MAC to broadcast. A renew
      value Atoi rejects ends the process (`exits`) before the renewal
      period and the options are assigned.
     */
    method ReadDhcpConfig(cfg: IniFile, parsers: Parsers) returns (exits: bool)
      modifies this
      ensures enabled == EnabledFlag(KeyString(cfg, "dhcp", "enabled"))
      ensures serverIP == IPOrNil(parsers.parseIP(KeyString(cfg, "dhcp", "server")))
      ensures giAddr == GetOr(parsers.parseIP(KeyString(cfg, "dhcp", "giaddr")), IPv4Zero)
      ensures ciAddr == GetOr(parsers.parseIP(KeyString(cfg, "dhcp", "ciaddr")), IPv4Zero)
      ensures srcMac == GetOr(parsers.parseMAC(KeyString(cfg, "dhcp", "srcmac")), intNet.hardwareAddr)
      ensures dstMac == GetOr(parsers.parseMAC(KeyString(cfg, "dhcp", "dstmac")), BroadcastMAC)
      ensures name == old(name) && intNet == old(intNet) && clientMAC == old(clientMAC)
      ensures exits <==> Atoi(KeyString(cfg, "dhcp", "renew")).err != NoError
      ensures !exits ==> renew == Seconds(Atoi(KeyString(cfg, "dhcp", "renew")).value)
      ensures !exits ==> options == KeyString(cfg, "dhcp", "options")
      ensures exits ==> renew == old(renew) && options == old(options)
    {
      var enabledText := KeyString(cfg, "dhcp", "enabled");
      var server := KeyString(cfg, "dhcp", "server");
      var gi := parsers.parseIP(KeyString(cfg, "dhcp", "giaddr"));
      var ci := parsers.parseIP(KeyString(cfg, "dhcp", "ciaddr"));
      var src := parsers.parseMAC(KeyString(cfg, "dhcp", "srcmac"));
      var dst := parsers.parseMAC(KeyString(cfg, "dhcp", "dstmac"));
      var timeout := Atoi(KeyString(cfg, "dhcp", "renew"));

      SetSettings(EnabledFlag(enabledText), IPOrNil(parsers.parseIP(server)), GetOr(gi, IPv4Zero), GetOr(ci, IPv4Zero),
                  GetOr(src, intNet.hardwareAddr), GetOr(dst, BroadcastMAC));
      if timeout.err != NoError {
        return true;
      }
      renew := Seconds(timeout.value);
      options := KeyString(cfg, "dhcp", "options");
      return false;
    }
  }
}
