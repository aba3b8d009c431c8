/**
  The IPFIX exporter (RFC 7011): one export message per configured flow,
  made of the 16-byte message header (section 3.1), a Template Set with Set
  ID 2 announcing template 256 with five field specifiers (sections 3.3.2
  and 3.4.1), and a Data Set whose Set ID is that template ID, carrying one
  16-byte data record. The encoder fills fixed offsets of three byte buffers
  in place; the functions below give the message it must produce, and the
  lemmas state what a collector reads back from it.
 */
module IpfixExport {
  import opened Base
  import opened Binary
  import opened Net
  import opened Strconv
  import opened Ini

  /** One flow of the configured traffic, as decoded from its JSON array. */
  datatype Traffic = Traffic(
    sourceIP: IP,
    destinationIP: IP,
    sourcePort: Uint16,
    destinationPort: Uint16,
    packets: Uint32,
    octets: Uint32,
    protocol: string)

  /** A field specifier of a template record (RFC 7011 section 3.2), enterprise bit clear. */
  datatype FieldSpecifier = FieldSpecifier(elementId: Uint16, fieldLength: Uint16)

  const IpfixVersion: Uint16 := 10
  const TemplateSetId: Uint16 := 2
  const TemplateId: Uint16 := 256
  const SequenceNumber: Uint32 := 1
  const ObservationDomainId: Uint32 := 256
  const MessageHeaderLength := 16
  const DefaultDestinationPort := 4739

  // IANA information element identifiers
  const PacketDeltaCount: Uint16 := 2
  const SourceTransportPort: Uint16 := 7
  const SourceIPv4Address: Uint16 := 8
  const DestinationTransportPort: Uint16 := 11
  const DestinationIPv4Address: Uint16 := 12

  /**
    The template the exporter announces, in record order. packetDeltaCount
    is an unsigned64 sent in 4 bytes (reduced-size encoding, RFC 7011
    section 6.2).
   */
  const Template: seq<FieldSpecifier> := [
    FieldSpecifier(SourceIPv4Address, 4),
    FieldSpecifier(DestinationIPv4Address, 4),
    FieldSpecifier(SourceTransportPort, 2),
    FieldSpecifier(DestinationTransportPort, 2),
    FieldSpecifier(PacketDeltaCount, 4)]

  /** The total length of the records a template describes. */
  function RecordLength(fields: seq<FieldSpecifier>): nat {
    if fields == [] then 0 else fields[0].fieldLength + RecordLength(fields[1..])
  }

  function SpecifierBytes(fields: seq<FieldSpecifier>): (b: seq<Byte>)
    ensures |b| == 4 * |fields|
  {
    if fields == [] then [] else Be16(fields[0].elementId) + Be16(fields[0].fieldLength) + SpecifierBytes(fields[1..])
  }

  /** Every field specifier can be read back at its position in the encoded list. */
  lemma {:induction false} SpecifierBytesAt(fields: seq<FieldSpecifier>, k: nat)
    requires k < |fields|
    ensures Uint16At(SpecifierBytes(fields), 4 * k) == fields[k].elementId
    ensures Uint16At(SpecifierBytes(fields), 4 * k + 2) == fields[k].fieldLength
  {
    var rest := SpecifierBytes(fields[1..]);
    var head := Be16(fields[0].elementId) + Be16(fields[0].fieldLength);
    assert SpecifierBytes(fields) == head + rest;
    if k > 0 {
      SpecifierBytesAt(fields[1..], k - 1);
      assert Uint16At(head + rest, 4 * k) == Uint16At(rest, 4 * (k - 1));
      assert Uint16At(head + rest, 4 * k + 2) == Uint16At(rest, 4 * (k - 1) + 2);
    }
  }

  /** Template ID, field count and the field specifiers. */
  function TemplateRecord(): (r: seq<Byte>)
    ensures |r| == 24
  {
    Be16(TemplateId) + Be16(|Template|) + SpecifierBytes(Template)
  }

  /** The Template Set: Set ID 2, its own length, then the template record. */
  function TemplateSet(): (s: seq<Byte>)
    ensures |s| == 28
  {
    Be16(TemplateSetId) + Be16(4 + |TemplateRecord()|) + TemplateRecord()
  }

  /**
    What `copy` leaves in a zeroed 4-byte field from `ip.To4()`: the IPv4
    bytes, or zeros when the address has no IPv4 form.
   */
  function Ipv4Field(ip: IP): (b: seq<Byte>)
    ensures |b| == 4
  {
    To4(ip) + Zeros(4 - |To4(ip)|)
  }

  /** The data record: the fields in template order, each as long as its specifier says. */
  function DataRecord(t: Traffic): (r: seq<Byte>)
    ensures |r| == 16
  {
    Ipv4Field(t.sourceIP) + Ipv4Field(t.destinationIP) + Be16(t.sourcePort) + Be16(t.destinationPort) + Be32(t.packets)
  }

  /** The Data Set: the template ID as Set ID, its own length, then the record. */
  function DataSet(t: Traffic): (s: seq<Byte>)
    ensures |s| == 20
  {
    Be16(TemplateId) + Be16(4 + |DataRecord(t)|) + DataRecord(t)
  }

  function MessageHeader(length: Uint16, exportTime: int): (h: seq<Byte>)
    ensures |h| == MessageHeaderLength
  {
    Be16(IpfixVersion) + Be16(length) + Be32(Uint32Of(exportTime)) + Be32(SequenceNumber) + Be32(ObservationDomainId)
  }

  /** The export message for one flow, with the export time in Unix seconds. */
  function IpfixMessage(t: Traffic, exportTime: int): (m: seq<Byte>)
    ensures |m| == MessageHeaderLength + |TemplateSet()| + |DataSet(t)| == 64
  {
    var sets := TemplateSet() + DataSet(t);
    MessageHeader(MessageHeaderLength + |sets|, exportTime) + sets
  }

  /** The value the exporter sends for an information element of the template. */
  function FieldValue(elementId: Uint16, t: Traffic): seq<Byte> {
    if elementId == SourceIPv4Address then Ipv4Field(t.sourceIP)
    else if elementId == DestinationIPv4Address then Ipv4Field(t.destinationIP)
    else if elementId == SourceTransportPort then Be16(t.sourcePort)
    else if elementId == DestinationTransportPort then Be16(t.destinationPort)
    else if elementId == PacketDeltaCount then Be32(t.packets)
    else []
  }

  /** A record cut into fields as a collector does with a template: None when the record is too short. */
  function SplitRecord(fields: seq<FieldSpecifier>, record: seq<Byte>): Option<seq<seq<Byte>>> {
    if fields == [] then Some([])
    else if |record| < fields[0].fieldLength then None
    else
      match SplitRecord(fields[1..], record[fields[0].fieldLength..])
      case None => None
      case Some(rest) => Some([record[..fields[0].fieldLength]] + rest)
  }

  /** The template set spelled out specifier by specifier, as the encoder writes it. */
  lemma TemplateSetUnrolled()
    ensures TemplateSet() ==
      Be16(TemplateSetId) + Be16(28) + Be16(TemplateId) + Be16(5)
      + Be16(SourceIPv4Address) + Be16(4) + Be16(DestinationIPv4Address) + Be16(4)
      + Be16(SourceTransportPort) + Be16(2) + Be16(DestinationTransportPort) + Be16(2)
      + Be16(PacketDeltaCount) + Be16(4)
  {
    var fields := Template;
    assert SpecifierBytes(fields) == Be16(SourceIPv4Address) + Be16(4) + SpecifierBytes(fields[1..]);
    assert SpecifierBytes(fields[1..]) == Be16(DestinationIPv4Address) + Be16(4) + SpecifierBytes(fields[2..]);
    assert SpecifierBytes(fields[2..]) == Be16(SourceTransportPort) + Be16(2) + SpecifierBytes(fields[3..]);
    assert SpecifierBytes(fields[3..]) == Be16(DestinationTransportPort) + Be16(2) + SpecifierBytes(fields[4..]);
    assert SpecifierBytes(fields[4..]) == Be16(PacketDeltaCount) + Be16(4) + SpecifierBytes(fields[5..]);
    assert fields[5..] == [];
  }

  /** Two PutUint16 calls side by side: an element ID and a length, or a set's ID and length. */
  method PutPair(b: array<Byte>, off: nat, first: Uint16, second: Uint16)
    requires off + 4 <= b.Length
    modifies b
    ensures b[..off + 4] == old(b[..off]) + Be16(first) + Be16(second)
    ensures b[off + 4..] == old(b[off + 4..])
  {
    PutUint16(b, off, first);
    ghost var s2 := b[..off + 2];
    PutUint16(b, off + 2, second);
    assert b[..off + 4] == s2 + Be16(second);
    assert b[off + 4..] == old(b[off + 2..])[2..];
  }

  /** The first section of `generateIPFIXPacket`: the 28-byte template set buffer. */
  method EncodeTemplateSet() returns (templateSet: array<Byte>)
    ensures fresh(templateSet) && templateSet[..] == TemplateSet()
  {
    templateSet := new Byte[4 + 4 + 20](_ => 0);
    // Template Set header, template record header, five field specifiers
    PutPair(templateSet, 0, TemplateSetId, templateSet.Length);
    ghost var s4 := templateSet[..4];
    PutPair(templateSet, 4, TemplateId, 5);
    ghost var s8 := templateSet[..8];
    PutPair(templateSet, 8, SourceIPv4Address, 4);
    ghost var s12 := templateSet[..12];
    PutPair(templateSet, 12, DestinationIPv4Address, 4);
    ghost var s16 := templateSet[..16];
    PutPair(templateSet, 16, SourceTransportPort, 2);
    ghost var s20 := templateSet[..20];
    PutPair(templateSet, 20, DestinationTransportPort, 2);
    ghost var s24 := templateSet[..24];
    PutPair(templateSet, 24, PacketDeltaCount, 4);
    TemplateSetUnrolled();
    assert s8 == s4 + Be16(TemplateId) + Be16(5);
    assert s12 == s8 + Be16(SourceIPv4Address) + Be16(4);
    assert s16 == s12 + Be16(DestinationIPv4Address) + Be16(4);
    assert s20 == s16 + Be16(SourceTransportPort) + Be16(2);
    assert s24 == s20 + Be16(DestinationTransportPort) + Be16(2);
    assert templateSet[..] == templateSet[..28] == s24 + Be16(PacketDeltaCount) + Be16(4);
  }

  /**
    `copy(dataSet[off:off+4], ip.To4())` over a zeroed window: the four
    bytes of an IPv4 address, or zeros when the address has no IPv4 form.
   */
  method CopyIPv4(b: array<Byte>, off: nat, ip: IP)
    requires off + 4 <= b.Length
    requires b[off..off + 4] == Zeros(4)
    modifies b
    ensures b[..off + 4] == old(b[..off]) + Ipv4Field(ip)
    ensures b[off + 4..] == old(b[off + 4..])
  {
    ghost var before := b[..];
    assert forall i | off <= i < off + 4 :: before[i] == b[off..off + 4][i - off] == 0;
    var copied := Copy(b, off, off + 4, To4(ip));
    CopyIntoZeros(before, b[..], off, 4, copied, To4(ip));
    assert To4(ip)[..copied] == To4(ip);
  }

  /** The second section: the 20-byte data set buffer holding the flow's record. */
  method EncodeDataSet(t: Traffic) returns (dataSet: array<Byte>)
    ensures fresh(dataSet) && dataSet[..] == DataSet(t)
  {
    dataSet := new Byte[4 + 16](_ => 0);
    assert dataSet[..] == Zeros(20);
    PutUint16(dataSet, 0, TemplateId);
    assert dataSet[2..] == Zeros(18);
    assert dataSet[4..] == dataSet[2..][2..] == Zeros(16);
    PutUint16(dataSet, 2, dataSet.Length);
    ghost var s4 := dataSet[..4];
    assert dataSet[4..8] == dataSet[4..][..4] == Zeros(4);
    assert dataSet[8..] == dataSet[4..][4..] == Zeros(12);
    var offset := 4;
    CopyIPv4(dataSet, offset, t.sourceIP);
    ghost var s8 := dataSet[..8];
    assert dataSet[8..12] == dataSet[8..][..4] == Zeros(4);
    CopyIPv4(dataSet, offset + 4, t.destinationIP);
    ghost var s12 := dataSet[..12];
    PutUint16(dataSet, offset + 8, t.sourcePort);
    ghost var s14 := dataSet[..14];
    PutUint16(dataSet, offset + 10, t.destinationPort);
    ghost var s16 := dataSet[..16];
    PutUint32(dataSet, offset + 12, t.packets);
    assert s4 == Be16(TemplateId) + Be16(20);
    assert s8 == s4 + Ipv4Field(t.sourceIP);
    assert s12 == s8 + Ipv4Field(t.destinationIP);
    assert s14 == s12 + Be16(t.sourcePort);
    assert s16 == s14 + Be16(t.destinationPort);
    assert dataSet[..] == dataSet[..20] == s16 + Be32(t.packets);
  }

  /** The message header written at the start of the packet buffer. */
  method WriteHeader(packet: array<Byte>, length: Uint16, exportTime: int)
    requires packet.Length >= 16
    modifies packet
    ensures packet[..16] == MessageHeader(length, exportTime)
    ensures packet[16..] == old(packet[16..])
  {
    ghost var tail := packet[16..];
    PutPair(packet, 0, IpfixVersion, length);
    assert packet[16..] == packet[4..][12..] == tail;
    ghost var s4 := packet[..4];
    PutUint32(packet, 4, Uint32Of(exportTime));
    assert packet[16..] == packet[8..][8..] == tail;
    ghost var s8 := packet[..8];
    PutUint32(packet, 8, SequenceNumber);
    assert packet[16..] == packet[12..][4..] == tail;
    ghost var s12 := packet[..12];
    PutUint32(packet, 12, ObservationDomainId);
    assert packet[..16] == s12 + Be32(ObservationDomainId);
    assert s12 == s8 + Be32(SequenceNumber);
    assert s8 == s4 + Be32(Uint32Of(exportTime));
  }

  /**
    `generateIPFIXPacket`: the message header written into a fresh buffer,
    followed by copies of the two sets. The export clock, `time.Now()` in the
    source, is the parameter `exportTime`.
   */
  method GenerateIpfixPacket(t: Traffic, exportTime: int) returns (packet: array<Byte>)
    ensures packet[..] == IpfixMessage(t, exportTime)
  {
    var templateSet := EncodeTemplateSet();
    var dataSet := EncodeDataSet(t);

    var totalLen := 16 + templateSet.Length + dataSet.Length;
    packet := new Byte[totalLen](_ => 0);
    WriteHeader(packet, totalLen, exportTime);
    ghost var header := packet[..16];
    var copied := Copy(packet, 16, packet.Length, templateSet[..]);
    assert templateSet[..][..copied] == TemplateSet();
    ghost var s44 := packet[..44];
    assert s44 == header + TemplateSet();
    copied := Copy(packet, 16 + templateSet.Length, packet.Length, dataSet[..]);
    assert dataSet[..][..copied] == DataSet(t);
    assert packet[..] == packet[..64] == s44 + DataSet(t);
  }

  /** The message is the header, the template set and the data set, back to back. */
  lemma MessageParts(t: Traffic, exportTime: int)
    ensures var m := IpfixMessage(t, exportTime);
      && |m| == 64
      && m[..16] == MessageHeader(64, exportTime)
      && m[16..44] == TemplateSet()
      && m[44..64] == DataSet(t)
  {
  }

  /** The message header a collector parses (RFC 7011 section 3.1). */
  lemma MessageHeaderFields(t: Traffic, exportTime: int)
    ensures var m := IpfixMessage(t, exportTime);
      && |m| == 64
      && Uint16At(m, 0) == IpfixVersion
      && Uint16At(m, 2) == |m|
      && Uint32At(m, 4) == Uint32Of(exportTime)
      && Uint32At(m, 8) == SequenceNumber
      && Uint32At(m, 12) == ObservationDomainId
  {
    var m := IpfixMessage(t, exportTime);
    MessageParts(t, exportTime);
    var h := m[..16];
    Uint16AtBe16(h, 0, IpfixVersion);
    Uint16AtBe16(h, 2, 64);
    Uint32AtBe32(h, 4, Uint32Of(exportTime));
    Uint32AtBe32(h, 8, SequenceNumber);
    Uint32AtBe32(h, 12, ObservationDomainId);
    assert m[..16] == m[0..16];
    Uint16AtSlice(m, 0, 16, 0);
    Uint16AtSlice(m, 0, 16, 2);
    Uint32AtSlice(m, 0, 16, 4);
    Uint32AtSlice(m, 0, 16, 8);
    Uint32AtSlice(m, 0, 16, 12);
  }

  /** The template set's own fields: Set ID, length, template ID and field count. */
  lemma TemplateSetHeader()
    ensures Uint16At(TemplateSet(), 0) == TemplateSetId
    ensures Uint16At(TemplateSet(), 2) == 4 + 4 + 4 * |Template|
    ensures Uint16At(TemplateSet(), 4) == TemplateId
    ensures Uint16At(TemplateSet(), 6) == |Template|
    ensures TemplateSet()[8..] == SpecifierBytes(Template)
  {
    var ts := TemplateSet();
    Uint16AtBe16(ts, 0, TemplateSetId);
    Uint16AtBe16(ts, 2, 28);
    Uint16AtBe16(ts, 4, TemplateId);
    Uint16AtBe16(ts, 6, 5);
  }

  /** Field specifier `k` of the template, where a collector finds it in the message. */
  lemma TemplateSpecifierInMessage(t: Traffic, exportTime: int, k: nat)
    requires k < |Template|
    ensures var m := IpfixMessage(t, exportTime);
      && |m| == 64
      && Uint16At(m, 24 + 4 * k) == Template[k].elementId
      && Uint16At(m, 26 + 4 * k) == Template[k].fieldLength
  {
    var m := IpfixMessage(t, exportTime);
    MessageParts(t, exportTime);
    TemplateSetHeader();
    SpecifierBytesAt(Template, k);
    var sb := m[24..44];
    assert sb == TemplateSet()[8..];
    Uint16AtSlice(m, 24, 44, 4 * k);
    Uint16AtSlice(m, 24, 44, 4 * k + 2);
  }

  /**
    The Template Set: Set ID 2, a length covering its header and the
    template record, template ID 256, the field count, then every field
    specifier of the template in order.
   */
  lemma TemplateSetFields(t: Traffic, exportTime: int)
    ensures var m := IpfixMessage(t, exportTime);
      && |m| == 64
      && Uint16At(m, 16) == TemplateSetId
      && Uint16At(m, 18) == 4 + 4 + 4 * |Template|
      && Uint16At(m, 20) == TemplateId
      && Uint16At(m, 22) == |Template|
      && forall k | 0 <= k < |Template| ::
           Uint16At(m, 24 + 4 * k) == Template[k].elementId && Uint16At(m, 26 + 4 * k) == Template[k].fieldLength
  {
    var m := IpfixMessage(t, exportTime);
    MessageParts(t, exportTime);
    TemplateSetHeader();
    Uint16AtSlice(m, 16, 44, 0);
    Uint16AtSlice(m, 16, 44, 2);
    Uint16AtSlice(m, 16, 44, 4);
    Uint16AtSlice(m, 16, 44, 6);
    forall k | 0 <= k < |Template|
      ensures Uint16At(m, 24 + 4 * k) == Template[k].elementId && Uint16At(m, 26 + 4 * k) == Template[k].fieldLength
    {
      TemplateSpecifierInMessage(t, exportTime, k);
    }
  }

  /** The sum of the field lengths the template announces. */
  lemma TemplateRecordLength()
    ensures RecordLength(Template) == 16
  {
    assert Template[4..][1..] == [];
    assert Template[3..][1..] == Template[4..];
    assert Template[2..][1..] == Template[3..];
    assert Template[1..][1..] == Template[2..];
    assert RecordLength(Template[4..]) == 4;
    assert RecordLength(Template[3..]) == 6;
    assert RecordLength(Template[2..]) == 8;
    assert RecordLength(Template[1..]) == 12;
  }

  /**
    The Data Set refers to the announced template by its Set ID, its length
    is its header plus one record of the template's length, and the two sets
    fill the message exactly.
   */
  lemma DataSetFields(t: Traffic, exportTime: int)
    ensures var m := IpfixMessage(t, exportTime);
      && |m| == 64
      && Uint16At(m, 44) == Uint16At(m, 20)
      && Uint16At(m, 46) == 4 + RecordLength(Template)
      && MessageHeaderLength + Uint16At(m, 18) + Uint16At(m, 46) == Uint16At(m, 2)
  {
    var m := IpfixMessage(t, exportTime);
    MessageParts(t, exportTime);
    MessageHeaderFields(t, exportTime);
    TemplateSetFields(t, exportTime);
    TemplateRecordLength();
    var ds := DataSet(t);
    Uint16AtBe16(ds, 0, TemplateId);
    Uint16AtBe16(ds, 2, 20);
    Uint16AtSlice(m, 44, 64, 0);
    Uint16AtSlice(m, 44, 64, 2);
  }

  /** The flow read back from the data record: addresses, ports and packet count. */
  lemma FlowRoundTrip(t: Traffic, exportTime: int)
    ensures var m := IpfixMessage(t, exportTime);
      && |m| == 64
      && m[48..52] == Ipv4Field(t.sourceIP)
      && m[52..56] == Ipv4Field(t.destinationIP)
      && Uint16At(m, 56) == t.sourcePort
      && Uint16At(m, 58) == t.destinationPort
      && Uint32At(m, 60) == t.packets
  {
    var m := IpfixMessage(t, exportTime);
    MessageParts(t, exportTime);
    var r := DataRecord(t);
    assert m[48..64] == DataSet(t)[4..] == r;
    assert m[48..52] == r[..4];
    assert m[52..56] == r[4..8];
    Uint16AtBe16(r, 8, t.sourcePort);
    Uint16AtBe16(r, 10, t.destinationPort);
    Uint32AtBe32(r, 12, t.packets);
    Uint16AtSlice(m, 48, 64, 8);
    Uint16AtSlice(m, 48, 64, 10);
    Uint32AtSlice(m, 48, 64, 12);
  }

  /** An IPv4 address is carried as its four bytes; any other address, nil included, as zeros. */
  lemma Ipv4FieldCases(ip: IP)
    ensures |ip| == 4 ==> Ipv4Field(ip) == ip
    ensures |ip| == 16 && ip[..12] == V4InV6Prefix ==> Ipv4Field(ip) == ip[12..]
    ensures To4(ip) == [] ==> Ipv4Field(ip) == [0, 0, 0, 0]
  {
    assert To4(ip) == [] ==> Ipv4Field(ip) == [] + Zeros(4);
  }

  /** One step of cutting a record: the first field, then whatever the rest of the template cuts. */
  lemma SplitRecordStep(fields: seq<FieldSpecifier>, field: seq<Byte>, more: seq<Byte>, rest: seq<seq<Byte>>)
    requires fields != [] && |field| == fields[0].fieldLength
    requires SplitRecord(fields[1..], more) == Some(rest)
    ensures SplitRecord(fields, field + more) == Some([field] + rest)
  {
    assert (field + more)[..|field|] == field && (field + more)[|field|..] == more;
  }

  /** Cutting the record by the template yields each field's value in template order. */
  lemma RecordFollowsTemplate(t: Traffic)
    ensures SplitRecord(Template, DataRecord(t)).Some?
    ensures var fields := SplitRecord(Template, DataRecord(t)).value;
      && |fields| == |Template|
      && forall k | 0 <= k < |Template| ::
           |fields[k]| == Template[k].fieldLength && fields[k] == FieldValue(Template[k].elementId, t)
  {
    SplitDataRecord(t);
    var fields := SplitRecord(Template, DataRecord(t)).value;
    forall k | 0 <= k < |Template|
      ensures |fields[k]| == Template[k].fieldLength && fields[k] == FieldValue(Template[k].elementId, t)
    {
    }
  }

  /** Cutting the data record by the template gives the five field values. */
  lemma SplitDataRecord(t: Traffic)
    ensures SplitRecord(Template, DataRecord(t))
      == Some([Ipv4Field(t.sourceIP), Ipv4Field(t.destinationIP), Be16(t.sourcePort), Be16(t.destinationPort), Be32(t.packets)])
  {
    var a, b, c, d, e := Ipv4Field(t.sourceIP), Ipv4Field(t.destinationIP), Be16(t.sourcePort), Be16(t.destinationPort), Be32(t.packets);
    assert Template[4..][1..] == Template[5..] == [];
    assert Template[3..][1..] == Template[4..];
    assert Template[2..][1..] == Template[3..];
    assert Template[1..][1..] == Template[2..];
    assert e + [] == e;
    SplitRecordStep(Template[4..], e, [], []);
    assert [e] + [] == [e];
    SplitRecordStep(Template[3..], d, e, [e]);
    assert [d] + [e] == [d, e];
    SplitRecordStep(Template[2..], c, d + e, [d, e]);
    assert [c] + [d, e] == [c, d, e];
    SplitRecordStep(Template[1..], b, c + (d + e), [c, d, e]);
    assert [b] + [c, d, e] == [b, c, d, e];
    SplitRecordStep(Template, a, b + (c + (d + e)), [b, c, d, e]);
    assert [a] + [b, c, d, e] == [a, b, c, d, e];
    assert DataRecord(t) == a + (b + (c + (d + e)));
  }

  /** The message depends on the flow's addresses, ports and packet count only, never on octets or protocol. */
  lemma MessageIgnoresOctetsAndProtocol(t: Traffic, u: Traffic, exportTime: int)
    requires t.sourceIP == u.sourceIP && t.destinationIP == u.destinationIP
    requires t.sourcePort == u.sourcePort && t.destinationPort == u.destinationPort && t.packets == u.packets
    ensures IpfixMessage(t, exportTime) == IpfixMessage(u, exportTime)
  {
  }

  /**
    The destination port `readIpFixConfig` settles on: the configured number
    when Atoi accepts it and it lies in 1..65535, otherwise 4739.
   */
  function DestinationPortSetting(val: string): (port: int)
    ensures 1 <= port <= 65535
    ensures Atoi(val).err == NoError && 1 <= Atoi(val).value <= 65535 ==> port == Atoi(val).value
    ensures Atoi(val).err != NoError || Atoi(val).value < 1 || Atoi(val).value > 65535 ==> port == DefaultDestinationPort
  {
    var parsed := Atoi(val);
    var port := if parsed.err != NoError then DefaultDestinationPort else parsed.value;
    if port < 1 || port > 65535 then DefaultDestinationPort else port
  }

  /** The IPFIX settings of the `[ipfix]` section. */
  class IpFix {
    var enabled: bool
    var traffic: string
    var destinationIP: IP
    var destinationPort: int

    /** The zero value of the Go struct. */
    constructor ()
      ensures !enabled && traffic == "" && destinationIP == [] && destinationPort == 0
    {
      enabled := false;
      traffic := "";
      destinationIP := [];
      destinationPort := 0;
    }

    /**
      `readIpFixConfig` on a loaded file: `enabled` is "true" or "1", an
      unparsable destination address is left nil, the port falls back to 4739
      when it is not a number or out of range, and the traffic JSON is kept
      as text.
     */
    method ReadIpFixConfig(cfg: IniFile, parsers: Parsers)
      modifies this
      ensures enabled == EnabledFlag(KeyString(cfg, "ipfix", "enabled"))
      ensures destinationIP == IPOrNil(parsers.parseIP(KeyString(cfg, "ipfix", "destination_ip")))
      ensures destinationPort == DestinationPortSetting(KeyString(cfg, "ipfix", "destination_port"))
      ensures 1 <= destinationPort <= 65535
      ensures traffic == KeyString(cfg, "ipfix", "traffic")
    {
      var enabledText := KeyString(cfg, "ipfix", "enabled");
      if enabledText == "true" || enabledText == "1" {
        enabled := true;
      } else {
        enabled := false;
      }
      destinationIP := IPOrNil(parsers.parseIP(KeyString(cfg, "ipfix", "destination_ip")));
      var port := Atoi(KeyString(cfg, "ipfix", "destination_port"));
      if port.err != NoError {
        destinationPort := DefaultDestinationPort;
      } else {
        destinationPort := port.value;
      }
      if destinationPort < 1 || destinationPort > 65535 {
        destinationPort := DefaultDestinationPort;
      }
      traffic := KeyString(cfg, "ipfix", "traffic");
    }
  }
}
