// The packet codec of pkg/qmi/frame.go: TLVs, the QMUX and QRTR outer headers, the control and
// service headers, and whole packets.

module QmiFrame {
  import opened Bytes
  import opened Wrappers

  const QMUX_MARKER: Byte := 0x01
  const QRTR_MARKER: Byte := 0x02
  const QMUX_HEADER_SIZE := 6
  const QRTR_HEADER_SIZE := 7
  const CTL_HEADER_SIZE := 6
  const SERVICE_HEADER_SIZE := 7
  const TLV_HEADER_SIZE := 3

  datatype Tlv = Tlv(kind: Byte, value: seq<Byte>)

  datatype Packet = Packet(
    serviceType: Byte,
    clientID: Byte,
    transactionID: U16,
    messageID: U16,
    isIndication: bool,
    tlvs: seq<Tlv>)

  // ------------------------------------------------------------------ TLVs

  function MarshalTlv(t: Tlv): seq<Byte> {
    [t.kind] + PutU16(ToU16(|t.value|)) + t.value
  }

  function MarshalTlvs(ts: seq<Tlv>): seq<Byte> {
    if ts == [] then [] else MarshalTlv(ts[0]) + MarshalTlvs(ts[1..])
  }

  // The first TLV of the data and the number of octets it takes.
  function UnmarshalTlv(data: seq<Byte>): (r: Result<(Tlv, nat)>)
    ensures r.Ok? ==> TLV_HEADER_SIZE <= r.value.1 <= |data|
  {
    if |data| < TLV_HEADER_SIZE then Error
    else
      var len := GetU16(data[1], data[2]);
      if |data| < TLV_HEADER_SIZE + len then Error
      else Ok((Tlv(data[0], data[TLV_HEADER_SIZE..TLV_HEADER_SIZE + len]), TLV_HEADER_SIZE + len))
  }

  predicate AllZero(data: seq<Byte>) {
    forall i | 0 <= i < |data| :: data[i] == 0
  }

  // What ParseTLVs returns: the TLVs read so far, and whether it stopped without an error.
  datatype Parsed = Parsed(tlvs: seq<Tlv>, ok: bool)

  function TlvsOf(data: seq<Byte>): Parsed
    decreases |data|
  {
    if data == [] || (|data| < TLV_HEADER_SIZE && AllZero(data)) then Parsed([], true)
    else
      match UnmarshalTlv(data)
      case Error => Parsed([], false)
      case Ok((t, consumed)) =>
        var rest := TlvsOf(data[consumed..]);
        Parsed([t] + rest.tlvs, rest.ok)
  }

  method OnlyZeroFrom(data: seq<Byte>, offset: nat) returns (allZero: bool)
    requires offset <= |data|
    ensures allZero <==> AllZero(data[offset..])
  {
    var i := offset;
    while i < |data|
      invariant offset <= i <= |data|
      invariant forall k | offset <= k < i :: data[k] == 0
    {
      if data[i] != 0 {
        assert data[offset..][i - offset] != 0;
        return false;
      }
      i := i + 1;
    }
    return true;
  }

  method ParseTlvs(data: seq<Byte>) returns (parsed: Parsed)
    ensures parsed == TlvsOf(data)
  {
    hide UnmarshalTlv, AllZero;
    var tlvs: seq<Tlv> := [];
    var offset := 0;
    ghost var rest := TlvsOf(data);
    assert data[0..] == data;
    while offset < |data|
      invariant offset <= |data|
      invariant rest == TlvsOf(data[offset..])
      invariant TlvsOf(data) == Parsed(tlvs + rest.tlvs, rest.ok)
    {
      if |data| - offset < TLV_HEADER_SIZE {
        var allZero := OnlyZeroFrom(data, offset);
        if allZero {
          break;
        }
      }
      var r := UnmarshalTlv(data[offset..]);
      if r.Error? {
        return Parsed(tlvs, false);
      }
      var (tlv, consumed) := r.value;
      assert data[offset..][consumed..] == data[offset + consumed..];
      rest := TlvsOf(data[offset + consumed..]);
      tlvs := tlvs + [tlv];
      offset := offset + consumed;
    }
    parsed := Parsed(tlvs, true);
  }

  function FindTlv(ts: seq<Tlv>, kind: Byte): Option<Tlv> {
    if ts == [] then None
    else if ts[0].kind == kind then Some(ts[0])
    else FindTlv(ts[1..], kind)
  }

  // It is the first of its kind, if there is one.
  lemma {:induction false} FindTlvIsFirst(ts: seq<Tlv>, kind: Byte)
    ensures FindTlv(ts, kind).None? <==> forall i | 0 <= i < |ts| :: ts[i].kind != kind
    ensures FindTlv(ts, kind).Some? ==>
              exists i :: 0 <= i < |ts| && FindTlv(ts, kind) == Some(ts[i]) && ts[i].kind == kind
                          && forall j | 0 <= j < i :: ts[j].kind != kind
  {
    if ts != [] && ts[0].kind != kind {
      FindTlvIsFirst(ts[1..], kind);
      if FindTlv(ts[1..], kind).Some? {
        var i :| 0 <= i < |ts[1..]| && FindTlv(ts[1..], kind) == Some(ts[1..][i]) && ts[1..][i].kind == kind
                 && forall j | 0 <= j < i :: ts[1..][j].kind != kind;
        forall j | 0 <= j < i + 1 ensures ts[j].kind != kind {
          assert j == 0 || ts[j] == ts[1..][j - 1];
        }
        assert ts[i + 1] == ts[1..][i];
      } else {
        forall i | 0 <= i < |ts| ensures ts[i].kind != kind {
          assert i == 0 || ts[i] == ts[1..][i - 1];
        }
      }
    }
  }

  // ------------------------------------------------------------------ outer headers

  datatype FrameHeader = FrameHeader(
    headerSize: nat,
    length: U16,
    controlFlags: Byte,
    serviceType: U16,
    clientID: Byte)

  function MarshalFrameHeader(service: U16, clientID: Byte, bodyLen: nat): seq<Byte> {
    if service <= 0xFF then
      var len := PutU16(ToU16(bodyLen + 5));
      [QMUX_MARKER, len[0], len[1], 0x00, service, clientID]
    else
      var len, id := PutU16(ToU16(bodyLen + 6)), PutU16(service);
      [QRTR_MARKER, len[0], len[1], 0x00, id[0], id[1], clientID]
  }

  function UnmarshalFrameHeader(data: seq<Byte>): Result<FrameHeader> {
    if |data| < 1 then Error
    else if data[0] == QMUX_MARKER then
      if |data| < QMUX_HEADER_SIZE then Error
      else Ok(FrameHeader(QMUX_HEADER_SIZE, GetU16(data[1], data[2]), data[3], data[4], data[5]))
    else if data[0] == QRTR_MARKER then
      if |data| < QRTR_HEADER_SIZE then Error
      else Ok(FrameHeader(QRTR_HEADER_SIZE, GetU16(data[1], data[2]), data[3], GetU16(data[4], data[5]), data[6]))
    else Error
  }

  // ------------------------------------------------------------------ packets

  function CtlHeader(flags: Byte, transactionID: Byte, messageID: U16, length: U16): seq<Byte> {
    var id, len := PutU16(messageID), PutU16(length);
    [flags, transactionID, id[0], id[1], len[0], len[1]]
  }

  function ServiceHeader(flags: Byte, transactionID: U16, messageID: U16, length: U16): seq<Byte> {
    var tx, id, len := PutU16(transactionID), PutU16(messageID), PutU16(length);
    [flags, tx[0], tx[1], id[0], id[1], len[0], len[1]]
  }

  function MarshalBody(p: Packet): seq<Byte> {
    var tlvBytes := MarshalTlvs(p.tlvs);
    if p.serviceType == SERVICE_CONTROL then
      CtlHeader(0x00, p.transactionID % 0x100, p.messageID, ToU16(|tlvBytes|)) + tlvBytes
    else
      ServiceHeader(0x00, p.transactionID, p.messageID, ToU16(|tlvBytes|)) + tlvBytes
  }

  function Marshal(p: Packet): seq<Byte> {
    var body := MarshalBody(p);
    MarshalFrameHeader(p.serviceType, p.clientID, |body|) + body
  }

  function UnmarshalCtlBody(service: Byte, clientID: Byte, body: seq<Byte>): Result<Packet> {
    if |body| < CTL_HEADER_SIZE then Error
    else
      var length := GetU16(body[4], body[5]);
      var tlvData := body[CTL_HEADER_SIZE..];
      if length > |tlvData| then Error
      else
        var parsed := TlvsOf(tlvData[..length]);
        if !parsed.ok then Error
        else Ok(Packet(service, clientID, body[1], GetU16(body[2], body[3]), HasBit1(body[0]), parsed.tlvs))
  }

  function UnmarshalServiceBody(service: Byte, clientID: Byte, body: seq<Byte>): Result<Packet> {
    if |body| < SERVICE_HEADER_SIZE then Error
    else
      var length := GetU16(body[5], body[6]);
      var tlvData := body[SERVICE_HEADER_SIZE..];
      if length > |tlvData| then Error
      else
        var parsed := TlvsOf(tlvData[..length]);
        if !parsed.ok then Error
        else Ok(Packet(service, clientID, GetU16(body[1], body[2]), GetU16(body[3], body[4]),
                       HasBit2(body[0]), parsed.tlvs))
  }

  function UnmarshalBody(service: U16, clientID: Byte, body: seq<Byte>): Result<Packet> {
    if service == SERVICE_CONTROL then UnmarshalCtlBody(service, clientID, body)
    else UnmarshalServiceBody(service % 0x100, clientID, body)
  }

  function Unmarshal(data: seq<Byte>): Result<Packet> {
    match UnmarshalFrameHeader(data)
    case Error => Error
    case Ok(fh) =>
      var expectedTotal := fh.length + 1;
      if expectedTotal < fh.headerSize || |data| < expectedTotal then Error
      else
        var body := data[fh.headerSize..expectedTotal];
        UnmarshalBody(fh.serviceType, fh.clientID, body)
  }

  // ------------------------------------------------------------------ laws

  // The value lengths fit the 16-bit field of each TLV.
  predicate FitTlvs(ts: seq<Tlv>) {
    forall i | 0 <= i < |ts| :: |ts[i].value| < 0x1_0000
  }

  // The outer 16-bit length field can hold the packet.
  predicate Fits(p: Packet) {
    |MarshalBody(p)| + 5 < 0x1_0000
  }

  // What the wire format keeps of a packet.
  function OnTheWire(p: Packet): Packet {
    p.(isIndication := false,
       transactionID := if p.serviceType == SERVICE_CONTROL then p.transactionID % 0x100 else p.transactionID)
  }

  lemma {:induction false} UnmarshalFirstTlv(t: Tlv, rest: seq<Byte>)
    requires |t.value| < 0x1_0000
    ensures UnmarshalTlv(MarshalTlv(t) + rest) == Ok((t, |MarshalTlv(t)|))
    ensures (MarshalTlv(t) + rest)[|MarshalTlv(t)|..] == rest
  {
    var data := MarshalTlv(t) + rest;
    assert data[TLV_HEADER_SIZE..TLV_HEADER_SIZE + |t.value|] == t.value;
  }

  // Reading back a list of TLVs, also when one or two zero octets of padding follow.
  lemma {:induction false} TlvRoundTrip(ts: seq<Tlv>, padding: seq<Byte>)
    requires FitTlvs(ts)
    requires |padding| < TLV_HEADER_SIZE && AllZero(padding)
    ensures TlvsOf(MarshalTlvs(ts) + padding) == Parsed(ts, true)
  {
    if ts == [] {
      assert MarshalTlvs(ts) + padding == padding;
    } else {
      var rest := MarshalTlvs(ts[1..]) + padding;
      assert MarshalTlvs(ts) + padding == MarshalTlv(ts[0]) + rest;
      UnmarshalFirstTlv(ts[0], rest);
      TlvRoundTrip(ts[1..], padding);
    }
  }

  // Parsing never invents octets.
  lemma {:induction false} ParsedTlvsFit(data: seq<Byte>)
    ensures FitTlvs(TlvsOf(data).tlvs)
    ensures |MarshalTlvs(TlvsOf(data).tlvs)| <= |data|
    decreases |data|
  {
    if data != [] && !(|data| < TLV_HEADER_SIZE && AllZero(data)) && UnmarshalTlv(data).Ok? {
      var (t, consumed) := UnmarshalTlv(data).value;
      ParsedTlvsFit(data[consumed..]);
      assert TlvsOf(data).tlvs[1..] == TlvsOf(data[consumed..]).tlvs;
    }
  }

  // Parsing succeeds with ts exactly when the data is the marshalled ts followed by at most two
  // zero octets.
  lemma {:induction false} TlvsReadExactly(data: seq<Byte>, ts: seq<Tlv>)
    ensures TlvsOf(data) == Parsed(ts, true)
       <==> (&& FitTlvs(ts)
             && MarshalTlvs(ts) <= data
             && |data| - |MarshalTlvs(ts)| < TLV_HEADER_SIZE
             && AllZero(data[|MarshalTlvs(ts)|..]))
  {
    var wire := MarshalTlvs(ts);
    if FitTlvs(ts) && wire <= data && |data| - |wire| < TLV_HEADER_SIZE && AllZero(data[|wire|..]) {
      TlvRoundTrip(ts, data[|wire|..]);
      assert data == wire + data[|wire|..];
    }
    if TlvsOf(data) == Parsed(ts, true) {
      ParsedIsPrefix(data);
    }
  }

  lemma {:induction false} ParsedIsPrefix(data: seq<Byte>)
    requires TlvsOf(data).ok
    ensures var wire := MarshalTlvs(TlvsOf(data).tlvs);
            && FitTlvs(TlvsOf(data).tlvs)
            && wire <= data
            && |data| - |wire| < TLV_HEADER_SIZE
            && AllZero(data[|wire|..])
    decreases |data|
  {
    hide UnmarshalTlv, MarshalTlv;
    if data != [] && !(|data| < TLV_HEADER_SIZE && AllZero(data)) {
      var (t, consumed) := UnmarshalTlv(data).value;
      var rest := data[consumed..];
      ParsedIsPrefix(rest);
      assert TlvsOf(data).tlvs[1..] == TlvsOf(rest).tlvs;
      FirstTlvIsPrefix(data);
      PrefixOfConcat(MarshalTlv(t), MarshalTlvs(TlvsOf(rest).tlvs), rest, data);
    }
  }

  lemma {:induction false} PutGetBack(lo: Byte, hi: Byte)
    ensures PutU16(GetU16(lo, hi)) == [lo, hi]
  {
  }

  lemma {:induction false} HeadSplits(data: seq<Byte>, n: nat)
    requires 3 <= n <= |data|
    ensures data == [data[0]] + [data[1], data[2]] + data[3..n] + data[n..]
  {
  }

  lemma {:induction false} FirstTlvIsPrefix(data: seq<Byte>)
    requires UnmarshalTlv(data).Ok?
    ensures var (t, consumed) := UnmarshalTlv(data).value;
            |t.value| < 0x1_0000 && data == MarshalTlv(t) + data[consumed..]
  {
    hide GetU16, PutU16;
    var (t, consumed) := UnmarshalTlv(data).value;
    PutGetBack(data[1], data[2]);
    HeadSplits(data, consumed);
  }

  lemma {:induction false} PrefixOfConcat(head: seq<Byte>, wire: seq<Byte>, rest: seq<Byte>, data: seq<Byte>)
    requires data == head + rest && wire <= rest
    ensures head + wire <= data && data[|head + wire|..] == rest[|wire|..]
  {
  }

  lemma {:induction false} MarshalTlvsBound(ts: seq<Tlv>)
    ensures forall i | 0 <= i < |ts| :: |ts[i].value| <= |MarshalTlvs(ts)|
  {
    if ts != [] {
      MarshalTlvsBound(ts[1..]);
      forall i | 0 <= i < |ts|
        ensures |ts[i].value| <= |MarshalTlvs(ts)|
      {
        if i > 0 {
          assert ts[i] == ts[1..][i - 1];
        }
      }
    }
  }

  lemma {:induction false} CtlHeaderFields(body: seq<Byte>, flags: Byte, tx: Byte, messageID: U16, tlvBytes: seq<Byte>)
    requires |tlvBytes| < 0x1_0000
    requires body == CtlHeader(flags, tx, messageID, |tlvBytes|) + tlvBytes
    ensures |body| == CTL_HEADER_SIZE + |tlvBytes| && body[CTL_HEADER_SIZE..] == tlvBytes
    ensures body[0] == flags && body[1] == tx
    ensures GetU16(body[2], body[3]) == messageID && GetU16(body[4], body[5]) == |tlvBytes|
  {
  }

  lemma {:induction false} ServiceHeaderFields(body: seq<Byte>, flags: Byte, tx: U16, messageID: U16,
      tlvBytes: seq<Byte>)
    requires |tlvBytes| < 0x1_0000
    requires body == ServiceHeader(flags, tx, messageID, |tlvBytes|) + tlvBytes
    ensures |body| == SERVICE_HEADER_SIZE + |tlvBytes| && body[SERVICE_HEADER_SIZE..] == tlvBytes
    ensures body[0] == flags && GetU16(body[1], body[2]) == tx
    ensures GetU16(body[3], body[4]) == messageID && GetU16(body[5], body[6]) == |tlvBytes|
  {
  }

  // A control header and a parsable TLV area decode to their fields, whatever the flags.
  lemma {:induction false} CtlBodyDecodes(service: Byte, clientID: Byte, body: seq<Byte>,
                       flags: Byte, tx: Byte, messageID: U16, tlvBytes: seq<Byte>, ts: seq<Tlv>)
    requires |tlvBytes| < 0x1_0000 && TlvsOf(tlvBytes) == Parsed(ts, true)
    requires body == CtlHeader(flags, tx, messageID, |tlvBytes|) + tlvBytes
    ensures UnmarshalCtlBody(service, clientID, body)
         == Ok(Packet(service, clientID, tx, messageID, HasBit1(flags), ts))
  {
    CtlHeaderFields(body, flags, tx, messageID, tlvBytes);
    UnmarshalWholeCtlBody(service, clientID, body, ts);
  }

  lemma {:induction false} UnmarshalWholeCtlBody(service: Byte, clientID: Byte, body: seq<Byte>, ts: seq<Tlv>)
    requires |body| >= CTL_HEADER_SIZE && GetU16(body[4], body[5]) == |body| - CTL_HEADER_SIZE
    requires TlvsOf(body[CTL_HEADER_SIZE..]) == Parsed(ts, true)
    ensures UnmarshalCtlBody(service, clientID, body)
         == Ok(Packet(service, clientID, body[1], GetU16(body[2], body[3]), HasBit1(body[0]), ts))
  {
    var tlvData := body[CTL_HEADER_SIZE..];
    assert tlvData[..|tlvData|] == tlvData;
  }

  lemma {:induction false} ServiceBodyDecodes(service: Byte, clientID: Byte, body: seq<Byte>,
                           flags: Byte, tx: U16, messageID: U16, tlvBytes: seq<Byte>, ts: seq<Tlv>)
    requires |tlvBytes| < 0x1_0000 && TlvsOf(tlvBytes) == Parsed(ts, true)
    requires body == ServiceHeader(flags, tx, messageID, |tlvBytes|) + tlvBytes
    ensures UnmarshalServiceBody(service, clientID, body)
         == Ok(Packet(service, clientID, tx, messageID, HasBit2(flags), ts))
  {
    ServiceHeaderFields(body, flags, tx, messageID, tlvBytes);
    UnmarshalWholeServiceBody(service, clientID, body, ts);
  }

  lemma {:induction false} UnmarshalWholeServiceBody(service: Byte, clientID: Byte, body: seq<Byte>, ts: seq<Tlv>)
    requires |body| >= SERVICE_HEADER_SIZE && GetU16(body[5], body[6]) == |body| - SERVICE_HEADER_SIZE
    requires TlvsOf(body[SERVICE_HEADER_SIZE..]) == Parsed(ts, true)
    ensures UnmarshalServiceBody(service, clientID, body)
         == Ok(Packet(service, clientID, GetU16(body[1], body[2]), GetU16(body[3], body[4]), HasBit2(body[0]), ts))
  {
    var tlvData := body[SERVICE_HEADER_SIZE..];
    assert tlvData[..|tlvData|] == tlvData;
  }

  // The TLV area of a packet that fits parses back to its TLVs.
  lemma {:induction false} TlvAreaRoundTrip(p: Packet)
    requires Fits(p)
    ensures |MarshalTlvs(p.tlvs)| < 0x1_0000
    ensures TlvsOf(MarshalTlvs(p.tlvs)) == Parsed(p.tlvs, true)
  {
    MarshalTlvsBound(p.tlvs);
    TlvRoundTrip(p.tlvs, []);
    assert MarshalTlvs(p.tlvs) + [] == MarshalTlvs(p.tlvs);
  }

  // The outer header in front of anything gives back its fields, in the narrow and the wide form.
  lemma {:induction false} QmuxHeaderRoundTrip(service: Byte, clientID: Byte, bodyLen: nat, rest: seq<Byte>,
      data: seq<Byte>)
    requires bodyLen + 5 < 0x1_0000
    requires data == MarshalFrameHeader(service, clientID, bodyLen) + rest
    ensures UnmarshalFrameHeader(data) == Ok(FrameHeader(QMUX_HEADER_SIZE, bodyLen + 5, 0, service, clientID))
    ensures data[QMUX_HEADER_SIZE..] == rest
  {
  }

  lemma {:induction false} QrtrHeaderRoundTrip(service: U16, clientID: Byte, bodyLen: nat, rest: seq<Byte>,
      data: seq<Byte>)
    requires service > 0xFF && bodyLen + 6 < 0x1_0000
    requires data == MarshalFrameHeader(service, clientID, bodyLen) + rest
    ensures UnmarshalFrameHeader(data) == Ok(FrameHeader(QRTR_HEADER_SIZE, bodyLen + 6, 0, service, clientID))
    ensures data[QRTR_HEADER_SIZE..] == rest
  {
  }

  lemma {:induction false} Middle(header: seq<Byte>, body: seq<Byte>, rest: seq<Byte>)
    ensures (header + (body + rest))[|header|..|header| + |body|] == body
  {
  }

  // A frame made of a header for an 8-bit service and a body unmarshals as that body does.
  lemma {:induction false} UnmarshalFrame(service: Byte, clientID: Byte, body: seq<Byte>, rest: seq<Byte>,
      data: seq<Byte>)
    requires |body| + 5 < 0x1_0000
    requires data == MarshalFrameHeader(service, clientID, |body|) + (body + rest)
    ensures Unmarshal(data) == UnmarshalBody(service, clientID, body)
  {
    QmuxHeaderRoundTrip(service, clientID, |body|, body + rest, data);
    Middle(MarshalFrameHeader(service, clientID, |body|), body, rest);
  }

  lemma {:induction false} MarshalBodyOfFitting(p: Packet)
    requires Fits(p)
    ensures |MarshalTlvs(p.tlvs)| < 0x1_0000
    ensures var tlvBytes := MarshalTlvs(p.tlvs);
            MarshalBody(p) == (if p.serviceType == SERVICE_CONTROL
                               then CtlHeader(0x00, p.transactionID % 0x100, p.messageID, |tlvBytes|)
                               else ServiceHeader(0x00, p.transactionID, p.messageID, |tlvBytes|)) + tlvBytes
  {
  }

  lemma {:induction false} CtlBodyRoundTrip(p: Packet)
    requires Fits(p) && p.serviceType == SERVICE_CONTROL
    ensures UnmarshalCtlBody(p.serviceType, p.clientID, MarshalBody(p)) == Ok(OnTheWire(p))
  {
    TlvAreaRoundTrip(p);
    MarshalBodyOfFitting(p);
    CtlBodyDecodes(p.serviceType, p.clientID, MarshalBody(p), 0x00, p.transactionID % 0x100, p.messageID,
                   MarshalTlvs(p.tlvs), p.tlvs);
  }

  lemma {:induction false} ServiceBodyRoundTrip(p: Packet)
    requires Fits(p) && p.serviceType != SERVICE_CONTROL
    ensures UnmarshalServiceBody(p.serviceType, p.clientID, MarshalBody(p)) == Ok(OnTheWire(p))
  {
    TlvAreaRoundTrip(p);
    MarshalBodyOfFitting(p);
    ServiceBodyDecodes(p.serviceType, p.clientID, MarshalBody(p), 0x00, p.transactionID, p.messageID,
                       MarshalTlvs(p.tlvs), p.tlvs);
  }

  lemma {:induction false} BodyRoundTrip(p: Packet)
    requires Fits(p)
    ensures UnmarshalBody(p.serviceType, p.clientID, MarshalBody(p)) == Ok(OnTheWire(p))
  {
    hide MarshalBody, UnmarshalCtlBody, UnmarshalServiceBody;
    if p.serviceType == SERVICE_CONTROL {
      CtlBodyRoundTrip(p);
    } else {
      ServiceBodyRoundTrip(p);
    }
  }

  lemma {:induction false} MarshalSplits(p: Packet, rest: seq<Byte>)
    ensures var body := MarshalBody(p);
            Marshal(p) + rest == MarshalFrameHeader(p.serviceType, p.clientID, |body|) + (body + rest)
  {
  }

  // The octets of the frame that the outer length announces.
  function Announced(data: seq<Byte>): nat
    requires |data| >= 3
  {
    GetU16(data[1], data[2]) + 1
  }

  // A frame is refused while octets of it are missing, and what follows it does not matter.
  lemma {:induction false} OnlyTheFrameMatters(data: seq<Byte>)
    ensures Unmarshal(data).Ok? ==> |data| >= 6 && Announced(data) <= |data| && data[0] in {0x01, 0x02}
    ensures 6 <= |data| && 7 <= Announced(data) <= |data| ==> Unmarshal(data) == Unmarshal(data[..Announced(data)])
  {
    hide UnmarshalBody;
    if 6 <= |data| && 7 <= Announced(data) <= |data| {
      var n := Announced(data);
      var frame := data[..n];
      SameHeader(data, n);
      if UnmarshalFrameHeader(data).Ok? {
        var fh := UnmarshalFrameHeader(data).value;
        assert frame[fh.headerSize..n] == data[fh.headerSize..n];
      }
    }
  }

  lemma {:induction false} SameHeader(data: seq<Byte>, n: nat)
    requires 7 <= n <= |data|
    ensures UnmarshalFrameHeader(data[..n]) == UnmarshalFrameHeader(data)
  {
  }

  // A packet read back from its own octets, possibly followed by more, is the packet on the wire.
  lemma {:induction false} RoundTrip(p: Packet, rest: seq<Byte>)
    requires Fits(p)
    ensures Unmarshal(Marshal(p) + rest) == Ok(OnTheWire(p))
  {
    hide MarshalBody, Marshal, MarshalFrameHeader, Unmarshal, UnmarshalBody;
    MarshalSplits(p, rest);
    UnmarshalFrame(p.serviceType, p.clientID, MarshalBody(p), rest, Marshal(p) + rest);
    BodyRoundTrip(p);
  }

  lemma {:induction false} MarshalBodyLength(p: Packet)
    ensures |MarshalBody(p)|
         == |MarshalTlvs(p.tlvs)| + if p.serviceType == SERVICE_CONTROL then CTL_HEADER_SIZE else SERVICE_HEADER_SIZE
  {
    hide MarshalTlvs, ToU16, PutU16;
  }

  lemma {:induction false} ParsedCtlBodyFits(service: Byte, clientID: Byte, body: seq<Byte>)
    requires UnmarshalCtlBody(service, clientID, body).Ok?
    ensures CTL_HEADER_SIZE + |MarshalTlvs(UnmarshalCtlBody(service, clientID, body).value.tlvs)| <= |body|
  {
    hide TlvsOf, MarshalTlvs;
    ParsedTlvsFit(body[CTL_HEADER_SIZE..][..GetU16(body[4], body[5])]);
  }

  lemma {:induction false} ParsedServiceBodyFits(service: Byte, clientID: Byte, body: seq<Byte>)
    requires UnmarshalServiceBody(service, clientID, body).Ok?
    ensures SERVICE_HEADER_SIZE + |MarshalTlvs(UnmarshalServiceBody(service, clientID, body).value.tlvs)| <= |body|
  {
    hide TlvsOf, MarshalTlvs;
    ParsedTlvsFit(body[SERVICE_HEADER_SIZE..][..GetU16(body[5], body[6])]);
  }

  lemma {:induction false} ParsedBodyFits(service: U16, clientID: Byte, body: seq<Byte>)
    requires UnmarshalBody(service, clientID, body).Ok?
    ensures |MarshalBody(UnmarshalBody(service, clientID, body).value)| <= |body|
  {
    hide TlvsOf, MarshalTlvs, MarshalBody;
    MarshalBodyLength(UnmarshalBody(service, clientID, body).value);
    if service == SERVICE_CONTROL {
      ParsedCtlBodyFits(service, clientID, body);
    } else {
      ParsedServiceBodyFits(service % 0x100, clientID, body);
    }
  }

  // Whatever the modem sends, a packet that was unmarshalled can be marshalled again.
  lemma {:induction false} UnmarshalledPacketsFit(data: seq<Byte>)
    requires Unmarshal(data).Ok?
    ensures Fits(Unmarshal(data).value)
  {
    hide UnmarshalBody, MarshalBody;
    var fh := UnmarshalFrameHeader(data).value;
    ParsedBodyFits(fh.serviceType, fh.clientID, data[fh.headerSize..fh.length + 1]);
  }

  lemma {:induction false} OnTheWireFits(p: Packet)
    ensures Fits(OnTheWire(p)) <==> Fits(p)
  {
    hide MarshalBody;
    MarshalBodyLength(p);
    MarshalBodyLength(OnTheWire(p));
  }

  // Reading back succeeds exactly when the packet fits the 16-bit length of the frame header.
  lemma {:induction false} RoundTripIffFits(p: Packet)
    ensures Unmarshal(Marshal(p)) == Ok(OnTheWire(p)) <==> Fits(p)
  {
    hide Unmarshal, Marshal, Fits, OnTheWire;
    var data := Marshal(p);
    if Fits(p) {
      RoundTrip(p, []);
      assert data + [] == data;
    } else if Unmarshal(data) == Ok(OnTheWire(p)) {
      UnmarshalledPacketsFit(data);
      OnTheWireFits(p);
    }
  }

  // ------------------------------------------------------------------ the octets themselves

  function TlvsLength(ts: seq<Tlv>): nat {
    if ts == [] then 0 else 3 + |ts[0].value| + TlvsLength(ts[1..])
  }

  // The octets of a TLV: its kind, the length of its value with the low octet first, the value.
  function TlvOctets(t: Tlv): seq<Byte>
    requires |t.value| < 0x1_0000
  {
    [t.kind, |t.value| % 0x100, |t.value| / 0x100] + t.value
  }

  // They follow one another without gaps.
  lemma {:induction false} TlvsFollow(ts: seq<Tlv>, i: nat)
    requires i < |ts| && FitTlvs(ts)
    ensures MarshalTlvs(ts) == MarshalTlvs(ts[..i]) + TlvOctets(ts[i]) + MarshalTlvs(ts[i + 1..])
  {
    hide TlvOctets, MarshalTlv;
    assert MarshalTlv(ts[0]) == TlvOctets(ts[0]) by {
      OneTlv(ts[0]);
    }
    if i == 0 {
      assert ts[..0] == [];
    } else {
      TlvsFollow(ts[1..], i - 1);
      assert ts[..i][1..] == ts[1..][..i - 1] && ts[1..][i..] == ts[i + 1..];
      HeadersJoin(MarshalTlv(ts[0]), MarshalTlvs(ts[1..][..i - 1]), TlvOctets(ts[i]));
      HeadersJoin(MarshalTlv(ts[0]), MarshalTlvs(ts[1..][..i - 1]) + TlvOctets(ts[i]), MarshalTlvs(ts[i + 1..]));
    }
  }

  lemma {:induction false} OneTlv(t: Tlv)
    requires |t.value| < 0x1_0000
    ensures MarshalTlv(t) == TlvOctets(t)
  {
  }

  lemma {:induction false} TlvsLengthIsTheirLength(ts: seq<Tlv>)
    ensures |MarshalTlvs(ts)| == TlvsLength(ts)
  {
    if ts != [] {
      TlvsLengthIsTheirLength(ts[1..]);
    }
  }

  lemma {:induction false} HeadersJoin(a: seq<Byte>, b: seq<Byte>, c: seq<Byte>)
    ensures a + (b + c) == (a + b) + c
  {
  }

  // The octets before n octets of TLVs. Control service: marker, length of what follows the marker, no
  // frame flags, service, client; control flags, one octet of transaction ID, message, n.
  function CtlOctets(clientID: Byte, flags: Byte, tx: Byte, messageID: U16, n: nat): seq<Byte>
    requires n + 11 < 0x1_0000
  {
    [0x01, (n + 11) % 0x100, (n + 11) / 0x100, 0x00, 0x00, clientID,
     flags, tx, messageID % 0x100, messageID / 0x100, n % 0x100, n / 0x100]
  }

  // Other services: the same with two octets of transaction ID, so one more follows the marker.
  function ServiceOctets(service: Byte, clientID: Byte, flags: Byte, tx: U16, messageID: U16, n: nat): seq<Byte>
    requires n + 12 < 0x1_0000
  {
    [0x01, (n + 12) % 0x100, (n + 12) / 0x100, 0x00, service, clientID,
     flags, tx % 0x100, tx / 0x100, messageID % 0x100, messageID / 0x100, n % 0x100, n / 0x100]
  }

  lemma {:induction false} CtlHeadersAre(clientID: Byte, flags: Byte, tx: Byte, messageID: U16, n: nat)
    requires n + 11 < 0x1_0000
    ensures MarshalFrameHeader(0x00, clientID, n + 6) + CtlHeader(flags, tx, messageID, n)
         == CtlOctets(clientID, flags, tx, messageID, n)
  {
  }

  lemma {:induction false} ServiceHeadersAre(service: Byte, clientID: Byte, flags: Byte, tx: U16, messageID: U16,
      n: nat)
    requires n + 12 < 0x1_0000
    ensures MarshalFrameHeader(service, clientID, n + 7) + ServiceHeader(flags, tx, messageID, n)
         == ServiceOctets(service, clientID, flags, tx, messageID, n)
  {
  }

  // The wide outer header names the service in two octets.
  lemma {:induction false} WideHeaderIs(service: U16, clientID: Byte, bodyLen: nat)
    requires service > 0xFF && bodyLen + 6 < 0x1_0000
    ensures MarshalFrameHeader(service, clientID, bodyLen)
         == [0x02, (bodyLen + 6) % 0x100, (bodyLen + 6) / 0x100, 0x00, service % 0x100, service / 0x100, clientID]
  {
  }

  // What a packet is marshalled to: those octets with the flags of a request, and the TLVs.
  lemma {:induction false} MarshalledOctets(p: Packet)
    requires Fits(p)
    ensures var n := TlvsLength(p.tlvs);
            if p.serviceType == 0x00 then
              && n + 11 < 0x1_0000
              && Marshal(p) == CtlOctets(p.clientID, 0x00, p.transactionID % 0x100, p.messageID, n)
                               + MarshalTlvs(p.tlvs)
            else
              && n + 12 < 0x1_0000
              && Marshal(p) == ServiceOctets(p.serviceType, p.clientID, 0x00, p.transactionID, p.messageID, n)
                               + MarshalTlvs(p.tlvs)
  {
    MarshalBodyLength(p);
    TlvsLengthIsTheirLength(p.tlvs);
    MarshalBodyOfFitting(p);
    hide MarshalBody, MarshalTlvs, MarshalFrameHeader, CtlHeader, ServiceHeader, CtlOctets, ServiceOctets;
    var n := TlvsLength(p.tlvs);
    if p.serviceType == 0x00 {
      CtlHeadersAre(p.clientID, 0x00, p.transactionID % 0x100, p.messageID, n);
      HeadersJoin(MarshalFrameHeader(p.serviceType, p.clientID, n + 6),
                  CtlHeader(0x00, p.transactionID % 0x100, p.messageID, n), MarshalTlvs(p.tlvs));
    } else {
      ServiceHeadersAre(p.serviceType, p.clientID, 0x00, p.transactionID, p.messageID, n);
      HeadersJoin(MarshalFrameHeader(p.serviceType, p.clientID, n + 7),
                  ServiceHeader(0x00, p.transactionID, p.messageID, n), MarshalTlvs(p.tlvs));
    }
  }

  // The flags of a control frame mark an indication with 2 and a response with 1, those of other
  // services with 4 and 2.
  lemma {:induction false} FlagValues()
    ensures !HasBit1(0) && !HasBit1(1) && HasBit1(2) && HasBit1(3)
    ensures !HasBit2(0) && !HasBit2(2) && HasBit2(4) && HasBit2(6)
  {
  }

  lemma {:induction false} ParsesBack(ts: seq<Tlv>)
    requires FitTlvs(ts)
    ensures TlvsOf(MarshalTlvs(ts)) == Parsed(ts, true)
  {
    TlvRoundTrip(ts, []);
    assert MarshalTlvs(ts) + [] == MarshalTlvs(ts);
  }

  lemma {:induction false} ServiceBodies(service: Byte, clientID: Byte, body: seq<Byte>)
    requires service != 0x00
    ensures UnmarshalBody(service, clientID, body) == UnmarshalServiceBody(service, clientID, body)
  {
    hide UnmarshalServiceBody;
  }

  // A frame that ends with its body.
  lemma {:induction false} UnmarshalWholeFrame(service: Byte, clientID: Byte, body: seq<Byte>)
    requires |body| + 5 < 0x1_0000
    ensures Unmarshal(MarshalFrameHeader(service, clientID, |body|) + body) == UnmarshalBody(service, clientID, body)
  {
    hide Unmarshal, UnmarshalBody, MarshalFrameHeader;
    assert body + [] == body;
    UnmarshalFrame(service, clientID, body, [], MarshalFrameHeader(service, clientID, |body|) + (body + []));
  }

  // What the modem sends is read as those octets say.
  lemma {:induction false} IncomingFrames(service: Byte, clientID: Byte, flags: Byte, tx: U16, messageID: U16,
      ts: seq<Tlv>)
    requires FitTlvs(ts) && TlvsLength(ts) + 12 < 0x1_0000 && service != 0x00
    ensures tx < 0x100 ==>
              Unmarshal(CtlOctets(clientID, flags, tx, messageID, TlvsLength(ts)) + MarshalTlvs(ts)) ==
              Ok(Packet(0x00, clientID, tx, messageID, HasBit1(flags), ts))
    ensures Unmarshal(ServiceOctets(service, clientID, flags, tx, messageID, TlvsLength(ts)) + MarshalTlvs(ts)) ==
            Ok(Packet(service, clientID, tx, messageID, HasBit2(flags), ts))
  {
    hide CtlOctets, ServiceOctets, MarshalTlvs, TlvsOf, Unmarshal, HasBit1, HasBit2;
    TlvsLengthIsTheirLength(ts);
    ParsesBack(ts);
    if tx < 0x100 {
      IncomingCtl(clientID, flags, tx, messageID, ts);
    }
    IncomingService(service, clientID, flags, tx, messageID, ts);
  }

  lemma {:induction false} IncomingCtl(clientID: Byte, flags: Byte, tx: Byte, messageID: U16, ts: seq<Tlv>)
    requires |MarshalTlvs(ts)| == TlvsLength(ts) && TlvsOf(MarshalTlvs(ts)) == Parsed(ts, true)
    requires TlvsLength(ts) + 11 < 0x1_0000
    ensures Unmarshal(CtlOctets(clientID, flags, tx, messageID, TlvsLength(ts)) + MarshalTlvs(ts)) ==
            Ok(Packet(0x00, clientID, tx, messageID, HasBit1(flags), ts))
  {
    var n := TlvsLength(ts);
    var body := CtlHeader(flags, tx, messageID, n) + MarshalTlvs(ts);
    assert |body| == n + 6;
    hide TlvsOf, MarshalTlvs, Unmarshal, UnmarshalCtlBody, CtlHeader, CtlOctets, MarshalFrameHeader;
    CtlBodyDecodes(0x00, clientID, body, flags, tx, messageID, MarshalTlvs(ts), ts);
    CtlHeadersAre(clientID, flags, tx, messageID, n);
    HeadersJoin(MarshalFrameHeader(0x00, clientID, n + 6), CtlHeader(flags, tx, messageID, n), MarshalTlvs(ts));
    UnmarshalWholeFrame(0x00, clientID, body);
  }

  lemma {:induction false} IncomingService(service: Byte, clientID: Byte, flags: Byte, tx: U16, messageID: U16,
      ts: seq<Tlv>)
    requires |MarshalTlvs(ts)| == TlvsLength(ts) && TlvsOf(MarshalTlvs(ts)) == Parsed(ts, true)
    requires TlvsLength(ts) + 12 < 0x1_0000 && service != 0x00
    ensures Unmarshal(ServiceOctets(service, clientID, flags, tx, messageID, TlvsLength(ts)) + MarshalTlvs(ts)) ==
            Ok(Packet(service, clientID, tx, messageID, HasBit2(flags), ts))
  {
    var n := TlvsLength(ts);
    var body := ServiceHeader(flags, tx, messageID, n) + MarshalTlvs(ts);
    assert |body| == n + 7;
    hide TlvsOf, MarshalTlvs, Unmarshal, UnmarshalBody, UnmarshalServiceBody;
    hide ServiceHeader, ServiceOctets, MarshalFrameHeader, HasBit2;
    ServiceBodyDecodes(service, clientID, body, flags, tx, messageID, MarshalTlvs(ts), ts);
    ServiceHeadersAre(service, clientID, flags, tx, messageID, n);
    HeadersJoin(MarshalFrameHeader(service, clientID, n + 7), ServiceHeader(flags, tx, messageID, n), MarshalTlvs(ts));
    UnmarshalWholeFrame(service, clientID, body);
    ServiceBodies(service, clientID, body);
  }

  // ------------------------------------------------------------------ control-service TLV 0x01

  function EncodeServiceOnly(service: U16): Tlv {
    if service <= 0xFF then Tlv(0x01, [service]) else Tlv(0x01, PutU16(service))
  }

  function DecodeServiceOnly(v: seq<Byte>): Option<U16> {
    if |v| == 1 then Some(v[0])
    else if |v| == 2 then Some(GetU16(v[0], v[1]))
    else None
  }

  function EncodeServiceClientID(service: U16, clientID: Byte): Tlv {
    if service <= 0xFF then Tlv(0x01, [service, clientID]) else Tlv(0x01, PutU16(service) + [clientID])
  }

  function DecodeServiceClientID(v: seq<Byte>): Option<(U16, Byte)> {
    if |v| == 2 then Some((v[0], v[1]))
    else if |v| == 3 then Some((GetU16(v[0], v[1]), v[2]))
    else None
  }

  // Both directions: decoding undoes encoding, and a decoded value is what was encoded unless the
  // sender used the wide form for a service that fits one octet.
  lemma {:induction false} ServiceTlvRoundTrip(service: U16, clientID: Byte, v: seq<Byte>)
    ensures DecodeServiceOnly(EncodeServiceOnly(service).value) == Some(service)
    ensures DecodeServiceClientID(EncodeServiceClientID(service, clientID).value) == Some((service, clientID))
    ensures DecodeServiceOnly(v) == Some(service) && !(|v| == 2 && v[1] == 0) ==> v == EncodeServiceOnly(service).value
    ensures DecodeServiceClientID(v) == Some((service, clientID)) && !(|v| == 3 && v[1] == 0)
            ==> v == EncodeServiceClientID(service, clientID).value
  {
  }
}
