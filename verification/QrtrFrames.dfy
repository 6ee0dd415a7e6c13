// The control service that pkg/qmi/qrtr_transport_linux.go simulates, against the client's own
// parsers of pkg/qmi/frame.go and pkg/qmi/ctl.go.

module QrtrFrames {
  import opened Bytes
  import opened QmiFrame
  import opened Wrappers

  const CTL_GET_VERSION_INFO: U16 := 0x0021
  const CTL_GET_CLIENT_ID: U16 := 0x0022
  const CTL_RELEASE_CLIENT_ID: U16 := 0x0023
  const CTL_SYNC: U16 := 0x0027
  const MALFORMED_MSG: U16 := 0x0001
  const DEVICE_NOT_READY: U16 := 0x0005

  // ------------------------------------------------------------------ stripping and rebuilding

  datatype Stripped = Stripped(service: U16, clientID: Byte, body: seq<Byte>)

  // The part of Write that removes the outer header.
  function Strip(frame: seq<Byte>): Result<Stripped> {
    match UnmarshalFrameHeader(frame)
    case Error => Error
    case Ok(fh) =>
      if |frame| < fh.headerSize then Error
      else Ok(Stripped(fh.serviceType, fh.clientID, frame[fh.headerSize..]))
  }

  // rebuildFrame.
  function Rebuild(service: U16, clientID: Byte, sdu: seq<Byte>): seq<Byte> {
    MarshalFrameHeader(service, clientID, |sdu|) + sdu
  }

  // Any service, narrow or wide, any body, also one too long for the length field.
  lemma StripUndoesRebuild(service: U16, clientID: Byte, sdu: seq<Byte>)
    ensures Strip(Rebuild(service, clientID, sdu)) == Ok(Stripped(service, clientID, sdu))
  {
    hide ToU16;
    var frame := Rebuild(service, clientID, sdu);
    if service <= 0xFF {
      HeaderSplits(MarshalFrameHeader(service, clientID, |sdu|), sdu, QMUX_HEADER_SIZE);
    } else {
      PutGet(service);
      HeaderSplits(MarshalFrameHeader(service, clientID, |sdu|), sdu, QRTR_HEADER_SIZE);
    }
  }

  lemma PutGet(n: U16)
    ensures |PutU16(n)| == 2 && GetU16(PutU16(n)[0], PutU16(n)[1]) == n
  {
  }

  lemma HeaderSplits(header: seq<Byte>, sdu: seq<Byte>, n: nat)
    requires |header| == n
    ensures (header + sdu)[n..] == sdu && forall i | 0 <= i < n :: (header + sdu)[i] == header[i]
  {
  }

  lemma RebuildUndoesStrip(p: Packet)
    ensures var s := Strip(Marshal(p)); s.Ok? && Rebuild(s.value.service, s.value.clientID, s.value.body) == Marshal(p)
  {
    hide MarshalBody, Strip, MarshalFrameHeader;
    StripUndoesRebuild(p.serviceType, p.clientID, MarshalBody(p));
  }

  // ------------------------------------------------------------------ control requests

  datatype CtlRequest = CtlRequest(tx: Byte, messageID: U16, tlvs: seq<Tlv>)

  // The part of handleCTLWrite before the dispatch.
  function ParseCtlRequest(body: seq<Byte>): Result<CtlRequest> {
    if |body| < CTL_HEADER_SIZE then Error
    else
      var length := GetU16(body[4], body[5]);
      var tlvData := body[CTL_HEADER_SIZE..];
      if length > |tlvData| then Error
      else
        var parsed := TlvsOf(tlvData[..length]);
        if !parsed.ok then Error
        else Ok(CtlRequest(body[1], GetU16(body[2], body[3]), parsed.tlvs))
  }

  // The simulation reads what the client marshals.
  lemma RequestArrives(p: Packet)
    requires Fits(p) && p.serviceType == SERVICE_CONTROL
    ensures Strip(Marshal(p)).Ok? && Strip(Marshal(p)).value.service == SERVICE_CONTROL
    ensures ParseCtlRequest(Strip(Marshal(p)).value.body) ==
            Ok(CtlRequest(p.transactionID % 0x100, p.messageID, p.tlvs))
  {
    hide MarshalBody, MarshalFrameHeader, Strip;
    StripUndoesRebuild(p.serviceType, p.clientID, MarshalBody(p));
    BodyParses(p);
  }

  lemma BodyParses(p: Packet)
    requires Fits(p) && p.serviceType == SERVICE_CONTROL
    ensures ParseCtlRequest(MarshalBody(p)) == Ok(CtlRequest(p.transactionID % 0x100, p.messageID, p.tlvs))
  {
    TlvAreaRoundTrip(p);
    MarshalBodyOfFitting(p);
    CtlHeaderFields(MarshalBody(p), 0x00, p.transactionID % 0x100, p.messageID, MarshalTlvs(p.tlvs));
    WholeBodyParses(MarshalBody(p), p.tlvs);
  }

  lemma WholeBodyParses(body: seq<Byte>, ts: seq<Tlv>)
    requires |body| >= CTL_HEADER_SIZE && GetU16(body[4], body[5]) == |body| - CTL_HEADER_SIZE
    requires TlvsOf(body[CTL_HEADER_SIZE..]) == Parsed(ts, true)
    ensures ParseCtlRequest(body) == Ok(CtlRequest(body[1], GetU16(body[2], body[3]), ts))
  {
    var tlvData := body[CTL_HEADER_SIZE..];
    assert tlvData[..|tlvData|] == tlvData;
  }

  // ------------------------------------------------------------------ control responses

  const SUCCESS_RESULT := Tlv(0x02, [0x00, 0x00, 0x00, 0x00])

  function ErrorResult(code: U16): Tlv {
    Tlv(0x02, [0x01, 0x00, code % 0x100, code / 0x100])
  }

  // marshalCTLResponseFrame.
  function CtlResponse(tx: Byte, messageID: U16, ts: seq<Tlv>): seq<Byte> {
    var tlvBytes := MarshalTlvs(ts);
    var body := CtlHeader(0x01, tx, messageID, ToU16(|tlvBytes|)) + tlvBytes;
    MarshalFrameHeader(SERVICE_CONTROL, 0, |body|) + body
  }

  // Its octets: a control frame without a client, marked as a response.
  lemma ResponseOctets(tx: Byte, messageID: U16, ts: seq<Tlv>)
    requires TlvsLength(ts) + 11 < 0x1_0000
    ensures CtlResponse(tx, messageID, ts) == CtlOctets(0x00, 0x01, tx, messageID, TlvsLength(ts)) + MarshalTlvs(ts)
  {
    var n := TlvsLength(ts);
    TlvsLengthIsTheirLength(ts);
    assert |CtlHeader(0x01, tx, messageID, n)| == 6;
    hide MarshalFrameHeader, CtlHeader, CtlOctets, MarshalTlvs, TlvsLength;
    CtlHeadersAre(0x00, 0x01, tx, messageID, n);
    HeadersJoin(MarshalFrameHeader(0x00, 0x00, n + 6), CtlHeader(0x01, tx, messageID, n), MarshalTlvs(ts));
  }

  // GetResultCode.
  function ResultCode(p: Packet): Option<(U16, U16)> {
    match FindTlv(p.tlvs, 0x02)
    case None => None
    case Some(t) =>
      if |t.value| < 4 then None else Some((GetU16(t.value[0], t.value[1]), GetU16(t.value[2], t.value[3])))
  }

  // The client reads a synthesised response as the TLVs that were put into it.
  lemma ResponseDecodes(tx: Byte, messageID: U16, ts: seq<Tlv>)
    requires FitTlvs(ts) && |MarshalTlvs(ts)| + 11 < 0x1_0000
    ensures Unmarshal(CtlResponse(tx, messageID, ts)) == Ok(Packet(SERVICE_CONTROL, 0, tx, messageID, false, ts))
  {
    hide MarshalTlvs, TlvsOf, Unmarshal, MarshalFrameHeader, CtlHeader;
    var tlvBytes := MarshalTlvs(ts);
    var body := CtlHeader(0x01, tx, messageID, |tlvBytes|) + tlvBytes;
    TlvRoundTrip(ts, []);
    assert tlvBytes + [] == tlvBytes;
    CtlHeaderFields(body, 0x01, tx, messageID, tlvBytes);
    CtlBodyDecodes(SERVICE_CONTROL, 0, body, 0x01, tx, messageID, tlvBytes, ts);
    assert body + [] == body;
    UnmarshalFrame(SERVICE_CONTROL, 0, body, [], CtlResponse(tx, messageID, ts));
  }

  // A reply that carries only a result reads as just that.
  lemma ResultReplyDecodes(tx: Byte, messageID: U16, result: Tlv)
    requires result.kind == 0x02 && |result.value| == 4
    ensures var r := Unmarshal(CtlResponse(tx, messageID, [result]));
            && r == Ok(Packet(SERVICE_CONTROL, 0, tx, messageID, false, [result]))
            && ResultCode(r.value) ==
               Some((GetU16(result.value[0], result.value[1]), GetU16(result.value[2], result.value[3])))
  {
    hide Unmarshal, CtlResponse, MarshalTlvs;
    MarshalOne(result);
    ResponseDecodes(tx, messageID, [result]);
  }

  // An error reply carries its code through.
  lemma ErrorReplyDecodes(tx: Byte, messageID: U16, code: U16)
    ensures var r := Unmarshal(CtlResponse(tx, messageID, [ErrorResult(code)]));
            && r.Ok? && r.value.transactionID == tx && r.value.messageID == messageID && !r.value.isIndication
            && ResultCode(r.value) == Some((1, code))
  {
    hide Unmarshal, CtlResponse;
    ResultReplyDecodes(tx, messageID, ErrorResult(code));
  }

  lemma MarshalOne(t: Tlv)
    ensures MarshalTlvs([t]) == MarshalTlv(t)
  {
    assert MarshalTlvs([]) == [];
    assert MarshalTlv(t) + [] == MarshalTlv(t);
  }

  lemma MarshalTwo(t: Tlv, u: Tlv)
    ensures MarshalTlvs([t, u]) == MarshalTlv(t) + MarshalTlv(u)
  {
    assert [t, u][1..] == [u];
    MarshalOne(u);
  }

  // The client gets the service and the client ID that were allocated for it, under its own
  // transaction ID and with a success result.
  lemma AllocationReplyDecodes(tx: Byte, service: U16, cid: Byte)
    ensures var ts := [SUCCESS_RESULT, EncodeServiceClientID(service, cid)];
            var r := Unmarshal(CtlResponse(tx, CTL_GET_CLIENT_ID, ts));
            && r.Ok? && r.value.transactionID == tx && r.value.messageID == CTL_GET_CLIENT_ID && !r.value.isIndication
            && ResultCode(r.value) == Some((0, 0))
            && FindTlv(r.value.tlvs, 0x01).Some?
            && DecodeServiceClientID(FindTlv(r.value.tlvs, 0x01).value.value) == Some((service, cid))
  {
    hide Unmarshal, CtlResponse, FindTlv, DecodeServiceClientID, EncodeServiceClientID, MarshalTlvs;
    var t := EncodeServiceClientID(service, cid);
    ServiceTlvRoundTrip(service, cid, []);
    ServiceTlvShape(service, cid);
    MarshalTwo(SUCCESS_RESULT, t);
    ResponseDecodes(tx, CTL_GET_CLIENT_ID, [SUCCESS_RESULT, t]);
    FindSecond(SUCCESS_RESULT, t);
  }

  lemma ServiceTlvShape(service: U16, cid: Byte)
    ensures EncodeServiceClientID(service, cid).kind == 0x01 && |EncodeServiceClientID(service, cid).value| <= 3
  {
  }

  lemma FindSecond(t: Tlv, u: Tlv)
    requires t.kind != u.kind
    ensures FindTlv([t, u], t.kind) == Some(t) && FindTlv([t, u], u.kind) == Some(u)
  {
    assert [t, u][1..] == [u];
    assert FindTlv([u], u.kind) == Some(u);
  }

  // ------------------------------------------------------------------ the version list

  datatype ServiceVersion = ServiceVersion(serviceType: Byte, major: U16, minor: U16)

  const ENTRY_SIZE := 5

  function EntryBytes(v: ServiceVersion): seq<Byte> {
    [v.serviceType] + PutU16(v.major) + PutU16(v.minor)
  }

  function ListBytes(vs: seq<ServiceVersion>): seq<Byte> {
    if vs == [] then [] else ListBytes(vs[..|vs| - 1]) + EntryBytes(vs[|vs| - 1])
  }

  function VersionAt(value: seq<Byte>, i: nat): ServiceVersion
    requires 1 + (i + 1) * ENTRY_SIZE <= |value|
  {
    var offset := 1 + i * ENTRY_SIZE;
    ServiceVersion(value[offset], GetU16(value[offset + 1], value[offset + 2]),
                   GetU16(value[offset + 3], value[offset + 4]))
  }

  function VersionsIn(value: seq<Byte>, count: nat): (vs: seq<ServiceVersion>)
    requires 1 + count * ENTRY_SIZE <= |value|
    ensures |vs| == count && forall i | 0 <= i < count :: vs[i] == VersionAt(value, i)
  {
    seq(count, i requires 0 <= i < count => VersionAt(value, i))
  }

  // What parseServiceVersionList returns.
  function VersionList(ts: seq<Tlv>): Result<seq<ServiceVersion>> {
    match FindTlv(ts, 0x01)
    case None => Error
    case Some(t) =>
      if |t.value| < 1 || |t.value| < 1 + t.value[0] * ENTRY_SIZE then Error
      else Ok(VersionsIn(t.value, t.value[0]))
  }

  method ParseServiceVersionList(ts: seq<Tlv>) returns (r: Result<seq<ServiceVersion>>)
    ensures r == VersionList(ts)
  {
    var tlv := FindTlv(ts, 0x01);
    if tlv.None? {
      return Error;
    }
    var value := tlv.value.value;
    if |value| < 1 {
      return Error;
    }
    var count := value[0];
    if |value| < 1 + count * ENTRY_SIZE {
      return Error;
    }
    var versions: seq<ServiceVersion> := [];
    for i := 0 to count
      invariant |versions| == i
      invariant forall k | 0 <= k < i :: versions[k] == VersionAt(value, k)
    {
      var offset := 1 + i * ENTRY_SIZE;
      versions := versions + [ServiceVersion(value[offset], GetU16(value[offset + 1], value[offset + 2]),
                                             GetU16(value[offset + 3], value[offset + 4]))];
    }
    assert versions == VersionsIn(value, count);
    return Ok(versions);
  }

  // What ServiceVersionMap returns: later entries win.
  function VersionMap(vs: seq<ServiceVersion>): map<Byte, ServiceVersion> {
    if vs == [] then map[] else VersionMap(vs[..|vs| - 1])[vs[|vs| - 1].serviceType := vs[|vs| - 1]]
  }

  method ServiceVersionMap(vs: seq<ServiceVersion>) returns (m: map<Byte, ServiceVersion>)
    ensures m == VersionMap(vs)
  {
    m := map[];
    for i := 0 to |vs|
      invariant m == VersionMap(vs[..i])
    {
      assert vs[..i + 1][..i] == vs[..i];
      m := m[vs[i].serviceType := vs[i]];
    }
    assert vs[..|vs|] == vs;
  }

  // ------------------------------------------------------------------ the simulated list

  // The table the version response should describe: the learned services that fit one octet.
  function Described(majors: map<U16, U16>): map<Byte, ServiceVersion> {
    map id: Byte | id in majors :: ServiceVersion(id, majors[id], 0)
  }

  // Each entry of the table once, in some order.
  ghost predicate Lists(vs: seq<ServiceVersion>, table: map<Byte, ServiceVersion>) {
    && (forall i, j | 0 <= i < j < |vs| :: vs[i].serviceType != vs[j].serviceType)
    && (forall i | 0 <= i < |vs| :: vs[i].serviceType in table && vs[i] == table[vs[i].serviceType])
    && |vs| == |table|
  }

  function VersionTlv(vs: seq<ServiceVersion>): Tlv {
    Tlv(0x01, [|vs| % 0x100] + ListBytes(vs))
  }

  function VersionReply(tx: Byte, vs: seq<ServiceVersion>): seq<Byte> {
    CtlResponse(tx, CTL_GET_VERSION_INFO, [SUCCESS_RESULT, VersionTlv(vs)])
  }

  // handleGetVersionInfo on the services learned so far; Go walks the map in any order. The client
  // makes exactly these services of the frame, unless all 256 eight-bit ones are present.
  method GetVersionInfo(tx: Byte, majors: map<U16, U16>) returns (frame: seq<Byte>)
    ensures ClientTable(frame) == Some(Described(majors)) <==> |Described(majors)| != 0x100
    ensures var r := Unmarshal(frame);
            && r.Ok? && r.value.transactionID == tx
            && r.value.messageID == CTL_GET_VERSION_INFO && !r.value.isIndication
            && ResultCode(r.value) == Some((0, 0))
    ensures exists vs :: Lists(vs, Described(majors)) && frame == VersionReply(tx, vs)
  {
    var pending := majors.Keys;
    var entries: seq<Byte> := [];
    var count: nat := 0;
    hide CtlResponse, EntryBytes;
    ghost var vs: seq<ServiceVersion> := [];
    ghost var done: set<Byte> := {};
    while pending != {}
      invariant pending <= majors.Keys
      invariant entries == ListBytes(vs) && count == |vs| == |done|
      invariant forall i | 0 <= i < |vs| ::
                  && vs[i].serviceType in done && vs[i].serviceType in majors
                  && vs[i] == ServiceVersion(vs[i].serviceType, majors[vs[i].serviceType], 0)
      invariant forall i, j | 0 <= i < j < |vs| :: vs[i].serviceType != vs[j].serviceType
      invariant forall id: Byte :: id in done <==> id in majors && id !in pending
      decreases |pending|
    {
      var id: U16 :| id in pending;
      pending := pending - {id};
      if id <= 0xFF {
        var v := ServiceVersion(id, majors[id], 0);
        assert (vs + [v])[..|vs|] == vs;
        entries := entries + EntryBytes(v);
        count := count + 1;
        vs := vs + [v];
        done := done + {id};
      }
    }
    assert done == Described(majors).Keys;
    frame := CtlResponse(tx, CTL_GET_VERSION_INFO, [SUCCESS_RESULT, Tlv(0x01, [count % 0x100] + entries)]);
    assert Lists(vs, Described(majors)) && frame == VersionReply(tx, vs);
    SimulationAgrees(tx, vs, Described(majors));
  }

  // ------------------------------------------------------------------ agreement

  lemma {:induction false} ListBytesLength(vs: seq<ServiceVersion>)
    ensures |ListBytes(vs)| == |vs| * ENTRY_SIZE
  {
    if vs != [] {
      ListBytesLength(vs[..|vs| - 1]);
    }
  }

  lemma {:induction false} ListBytesAt(vs: seq<ServiceVersion>, i: nat)
    requires i < |vs|
    ensures |ListBytes(vs)| == |vs| * ENTRY_SIZE
    ensures ListBytes(vs)[i * ENTRY_SIZE..(i + 1) * ENTRY_SIZE] == EntryBytes(vs[i])
  {
    ListBytesLength(vs);
    var front := vs[..|vs| - 1];
    ListBytesLength(front);
    if i < |vs| - 1 {
      ListBytesAt(front, i);
      assert ListBytes(vs)[i * ENTRY_SIZE..(i + 1) * ENTRY_SIZE] ==
             ListBytes(front)[i * ENTRY_SIZE..(i + 1) * ENTRY_SIZE];
    }
  }

  lemma EntryRoundTrip(value: seq<Byte>, i: nat, v: ServiceVersion)
    requires 1 + (i + 1) * ENTRY_SIZE <= |value|
    requires value[1..][i * ENTRY_SIZE..(i + 1) * ENTRY_SIZE] == EntryBytes(v)
    ensures VersionAt(value, i) == v
  {
    var e := value[1..][i * ENTRY_SIZE..(i + 1) * ENTRY_SIZE];
    assert forall k | 0 <= k < ENTRY_SIZE :: e[k] == value[1 + i * ENTRY_SIZE + k];
  }

  // The parser reads the list back when its length fits the count octet.
  lemma VersionTlvReadsBack(vs: seq<ServiceVersion>)
    requires |vs| <= 0xFF
    ensures VersionList([SUCCESS_RESULT, VersionTlv(vs)]) == Ok(vs)
  {
    hide ListBytes, FindTlv, VersionAt, VersionsIn;
    var value := VersionTlv(vs).value;
    FindSecond(SUCCESS_RESULT, VersionTlv(vs));
    ListBytesLength(vs);
    forall i | 0 <= i < |vs|
      ensures VersionAt(value, i) == vs[i]
    {
      ListBytesAt(vs, i);
      assert value[1..] == ListBytes(vs);
      EntryRoundTrip(value, i, vs[i]);
    }
    assert VersionsIn(value, |vs|) == vs;
  }

  // An entry for each service makes the map.
  lemma {:induction false} MapOfListed(vs: seq<ServiceVersion>, k: Byte)
    requires forall i, j | 0 <= i < j < |vs| :: vs[i].serviceType != vs[j].serviceType
    ensures k in VersionMap(vs) <==> exists i :: 0 <= i < |vs| && vs[i].serviceType == k
    ensures k in VersionMap(vs) ==> VersionMap(vs)[k] in vs && VersionMap(vs)[k].serviceType == k
  {
    if vs != [] {
      MapOfListed(vs[..|vs| - 1], k);
    }
  }

  lemma ListedKeys(vs: seq<ServiceVersion>, table: map<Byte, ServiceVersion>)
    requires Lists(vs, table)
    ensures forall k <- table :: exists i :: 0 <= i < |vs| && vs[i].serviceType == k
  {
    var listed := set i | 0 <= i < |vs| :: vs[i].serviceType;
    DistinctCount(vs, listed);
    Subset(listed, table.Keys);
  }

  lemma {:induction false} DistinctCount(vs: seq<ServiceVersion>, listed: set<Byte>)
    requires forall i, j | 0 <= i < j < |vs| :: vs[i].serviceType != vs[j].serviceType
    requires listed == set i | 0 <= i < |vs| :: vs[i].serviceType
    ensures |listed| == |vs|
  {
    if vs != [] {
      var front := vs[..|vs| - 1];
      var last := vs[|vs| - 1].serviceType;
      var rest := set i | 0 <= i < |front| :: front[i].serviceType;
      assert listed == rest + {last};
      DistinctCount(front, rest);
    }
  }

  lemma {:induction false} Subset(a: set<Byte>, b: set<Byte>)
    requires a <= b && |a| == |b|
    ensures a == b
  {
    if a != {} {
      var x :| x in a;
      Subset(a - {x}, b - {x});
    }
  }

  lemma ListedMakesTheMap(vs: seq<ServiceVersion>, table: map<Byte, ServiceVersion>)
    requires Lists(vs, table)
    ensures VersionMap(vs) == table
  {
    hide VersionMap;
    ListedKeys(vs, table);
    forall k: Byte
      ensures k in VersionMap(vs) <==> k in table
      ensures k in table ==> VersionMap(vs)[k] == table[k]
    {
      MapOfListed(vs, k);
    }
  }

  lemma VersionTlvFits(vs: seq<ServiceVersion>)
    requires |vs| <= 0x100
    ensures var ts := [SUCCESS_RESULT, VersionTlv(vs)]; FitTlvs(ts) && |MarshalTlvs(ts)| + 11 < 0x1_0000
  {
    hide ListBytes, MarshalTlvs;
    ListBytesLength(vs);
    MarshalTwo(SUCCESS_RESULT, VersionTlv(vs));
  }

  // With a full table of 256 services the count octet is zero and the list reads as empty.
  lemma FullTableReadsEmpty(vs: seq<ServiceVersion>)
    requires |vs| == 0x100
    ensures VersionList([SUCCESS_RESULT, VersionTlv(vs)]) == Ok([])
  {
    hide ListBytes, FindTlv;
    FindSecond(SUCCESS_RESULT, VersionTlv(vs));
  }

  // What the client makes of a version response: the map of its parsed list.
  function TableOf(p: Packet): Option<map<Byte, ServiceVersion>> {
    match VersionList(p.tlvs) case Error => None case Ok(vs) => Some(VersionMap(vs))
  }

  function ClientTable(frame: seq<Byte>): Option<map<Byte, ServiceVersion>> {
    match Unmarshal(frame) case Error => None case Ok(p) => TableOf(p)
  }

  // Whatever order the services are listed in, the client ends up with exactly the simulated table,
  // unless all 256 eight-bit services are present.
  lemma SimulationAgrees(tx: Byte, vs: seq<ServiceVersion>, table: map<Byte, ServiceVersion>)
    requires Lists(vs, table)
    ensures ClientTable(VersionReply(tx, vs)) == Some(table) <==> |table| != 0x100
    ensures var r := Unmarshal(VersionReply(tx, vs));
            && r.Ok? && r.value.transactionID == tx
            && r.value.messageID == CTL_GET_VERSION_INFO && !r.value.isIndication
            && ResultCode(r.value) == Some((0, 0))
  {
    hide VersionList, VersionMap, Unmarshal, CtlResponse, VersionTlv, Lists, FitTlvs, MarshalTlvs;
    ListedLength(vs, table);
    TableBound(table);
    VersionTlvFits(vs);
    ResponseDecodes(tx, CTL_GET_VERSION_INFO, [SUCCESS_RESULT, VersionTlv(vs)]);
    if |table| != 0x100 {
      VersionTlvReadsBack(vs);
      ListedMakesTheMap(vs, table);
    } else {
      FullTableReadsEmpty(vs);
      EmptyMap();
      assert VersionMap([]) != table;
    }
  }

  lemma ListedLength(vs: seq<ServiceVersion>, table: map<Byte, ServiceVersion>)
    requires Lists(vs, table)
    ensures |vs| == |table|
  {
  }

  lemma EmptyMap()
    ensures |VersionMap([])| == 0
  {
  }

  // A table of eight-bit services never has more than 256 entries.
  lemma TableBound(table: map<Byte, ServiceVersion>)
    ensures |table| <= 0x100
  {
    SubsetSize(table.Keys, OctetsBelow(0x100));
  }

  function OctetsBelow(n: nat): (octets: set<Byte>)
    requires n <= 0x100
    ensures |octets| == n && forall b: Byte :: b in octets <==> b < n
  {
    if n == 0 then {} else OctetsBelow(n - 1) + {n - 1 as Byte}
  }

  lemma {:induction false} SubsetSize(a: set<Byte>, b: set<Byte>)
    requires a <= b
    ensures |a| <= |b|
  {
    if a != {} {
      var x :| x in a;
      SubsetSize(a - {x}, b - {x});
    }
  }
}
