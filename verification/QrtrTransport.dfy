// The client sockets of pkg/qmi/qrtr_transport_linux.go: allocation, release, closing and routing.
// What the kernel answers is supplied by the caller; `created` and `shut` are the sockets opened and
// closed so far.

module QrtrTransport {
  import opened Bytes
  import opened QmiFrame
  import opened QrtrFrames
  import opened Wrappers

  datatype QrtrClient = QrtrClient(clientID: Byte, sock: nat)

  // Answers met by an allocation: whether the service was found, the socket, and the timeout call.
  datatype AllocateHooks = AllocateHooks(resolved: bool, socket: Option<nat>, timeoutOk: bool)

  // What a write leads to: a synthesised frame for the reader, or octets sent to a socket.
  datatype Written = Reply(frame: seq<Byte>) | SentTo(sock: nat, sdu: seq<Byte>)

  function NextCid(cid: Byte): Byte {
    if cid == 0xFF then 1 else cid + 1
  }

  function CidAfter(cid: Byte, n: nat): Byte {
    if n == 0 then cid else NextCid(CidAfter(cid, n - 1))
  }

  lemma {:induction false} CidsGoRound(cid: Byte, n: nat)
    requires cid > 0
    ensures CidAfter(cid, n) == 1 + (cid - 1 + n) % 255
  {
    if n > 0 {
      CidsGoRound(cid, n - 1);
    }
  }

  // Client IDs are never zero, and one comes back only after 255 allocations.
  lemma CidsRepeatAfter255(cid: Byte, i: nat, j: nat)
    requires 0 < i < j
    ensures CidAfter(cid, i) != 0
    ensures CidAfter(cid, i) == CidAfter(cid, j) <==> (j - i) % 255 == 0
  {
    hide CidAfter;
    CidOne(cid);
    CidSplit(cid, 1, i - 1);
    CidSplit(cid, 1, j - 1);
    CidsGoRound(CidAfter(cid, 1), i - 1);
    CidsGoRound(CidAfter(cid, 1), j - 1);
    SameRemainder(CidAfter(cid, 1) - 1 + i - 1, j - i);
  }

  lemma SameRemainder(a: nat, d: nat)
    ensures (a + d) % 255 == a % 255 <==> d % 255 == 0
  {
  }

  lemma CidOne(cid: Byte)
    ensures CidAfter(cid, 1) == NextCid(cid)
  {
    assert CidAfter(cid, 0) == cid;
  }

  lemma {:induction false} CidSplit(cid: Byte, a: nat, b: nat)
    ensures CidAfter(cid, a + b) == CidAfter(CidAfter(cid, a), b)
  {
    if b > 0 {
      CidSplit(cid, a, b - 1);
    }
  }

  function RequestedService(ts: seq<Tlv>): Option<U16> {
    match FindTlv(ts, 0x01) case None => None case Some(t) => DecodeServiceOnly(t.value)
  }

  function ReleasedService(ts: seq<Tlv>): Option<U16> {
    match FindTlv(ts, 0x01)
    case None => None
    case Some(t) => match DecodeServiceClientID(t.value) case None => None case Some((service, _)) => Some(service)
  }

  // The service asked for is the one the client put into its request.
  lemma RequestsNameTheirService(service: U16, cid: Byte)
    ensures RequestedService([EncodeServiceOnly(service)]) == Some(service)
    ensures ReleasedService([EncodeServiceClientID(service, cid)]) == Some(service)
  {
    hide DecodeServiceOnly, DecodeServiceClientID;
    ServiceTlvRoundTrip(service, cid, []);
  }

  function Sockets(clients: map<U16, QrtrClient>): set<nat> {
    set service | service in clients :: clients[service].sock
  }

  ghost predicate Distinct(clients: map<U16, QrtrClient>) {
    forall s, t | s in clients && t in clients && s != t :: clients[s].sock != clients[t].sock
  }

  // The outcome of an allocation: refused with a reply, failed without one, or done.
  datatype Allocation = Refused(code: U16) | Failed | Done(service: U16, sock: nat)

  function AllocationOf(closed: bool, ts: seq<Tlv>, hooks: AllocateHooks): Allocation {
    var service := RequestedService(ts);
    if service.None? then Refused(MALFORMED_MSG)
    else if !hooks.resolved then Refused(DEVICE_NOT_READY)
    else if hooks.socket.None? || !hooks.timeoutOk then Failed
    else if closed then Refused(DEVICE_NOT_READY)
    else Done(service.value, hooks.socket.value)
  }

  class Transport {
    var closed: bool
    var clients: map<U16, QrtrClient>
    var nextCID: Byte
    ghost var created: set<nat>
    ghost var shut: set<nat>

    // Every open socket belongs to exactly one client, and every other socket has been closed.
    ghost predicate Valid()
      reads this
    {
      && (closed ==> clients == map[])
      && Sockets(clients) !! shut
      && Sockets(clients) + shut == created
      && Distinct(clients)
    }

    constructor ()
      ensures Valid() && !closed && clients == map[] && nextCID == 0 && created == {}
    {
      closed, clients, nextCID, created, shut := false, map[], 0, {}, {};
    }

    // Closing a socket takes one that is open: it is closed once.
    method Shut(sock: nat)
      requires sock in created && sock !in shut
      modifies this`shut
      ensures shut == old(shut) + {sock}
    {
      shut := shut + {sock};
    }

    method AllocateCID() returns (cid: Byte)
      modifies this`nextCID
      ensures cid == nextCID == NextCid(old(nextCID)) && cid != 0
    {
      nextCID := (nextCID + 1) % 0x100;
      if nextCID == 0 {
        nextCID := 1;
      }
      cid := nextCID;
    }

    method AllocateClientID(tx: Byte, ts: seq<Tlv>, hooks: AllocateHooks) returns (r: Result<seq<Byte>>)
      requires Valid()
      requires hooks.socket.Some? ==> hooks.socket.value !in created
      modifies this`clients, this`nextCID, this`created, this`shut
      ensures Valid()
      ensures match AllocationOf(closed, ts, hooks)
              case Refused(code) =>
                r == Ok(CtlResponse(tx, CTL_GET_CLIENT_ID, [ErrorResult(code)])) && clients == old(clients)
              case Failed => r.Error? && clients == old(clients)
              case Done(service, sock) =>
                && r == Ok(CtlResponse(tx, CTL_GET_CLIENT_ID,
                                       [SUCCESS_RESULT, EncodeServiceClientID(service, nextCID)]))
                && nextCID == NextCid(old(nextCID))
                && clients == old(clients)[service := QrtrClient(nextCID, sock)]
                && shut == old(shut) + (if service in old(clients) then {old(clients)[service].sock} else {})
    {
      hide CtlResponse, Sockets;
      var service := RequestedService(ts);
      if service.None? {
        return Ok(CtlResponse(tx, CTL_GET_CLIENT_ID, [ErrorResult(MALFORMED_MSG)]));
      }
      if !hooks.resolved {
        return Ok(CtlResponse(tx, CTL_GET_CLIENT_ID, [ErrorResult(DEVICE_NOT_READY)]));
      }
      if hooks.socket.None? {
        return Error;
      }
      var sock := hooks.socket.value;
      created := created + {sock};
      if !hooks.timeoutOk {
        Shut(sock);
        return Error;
      }
      var cid := AllocateCID();
      if closed {
        Shut(sock);
        return Ok(CtlResponse(tx, CTL_GET_CLIENT_ID, [ErrorResult(DEVICE_NOT_READY)]));
      }
      Install(service.value, QrtrClient(cid, sock));
      return Ok(CtlResponse(tx, CTL_GET_CLIENT_ID, [SUCCESS_RESULT, EncodeServiceClientID(service.value, cid)]));
    }

    method Install(service: U16, c: QrtrClient)
      requires !closed && c.sock in created && c.sock !in shut && c.sock !in Sockets(clients)
      requires Sockets(clients) !! shut && Sockets(clients) + shut + {c.sock} == created
      requires Distinct(clients)
      modifies this`clients, this`shut
      ensures Valid()
      ensures clients == old(clients)[service := c]
      ensures shut == old(shut) + (if service in old(clients) then {old(clients)[service].sock} else {})
    {
      hide Sockets, Distinct;
      SocketsAfterInstall(clients, service, c);
      if service in clients {
        Shut(clients[service].sock);
      }
      clients := clients[service := c];
    }

    method ReleaseClientID(tx: Byte, ts: seq<Tlv>) returns (r: Result<seq<Byte>>)
      requires Valid()
      modifies this`clients, this`shut
      ensures Valid()
      ensures var service := ReleasedService(ts);
              && r == Ok(CtlResponse(tx, CTL_RELEASE_CLIENT_ID,
                                     [if service.None? then ErrorResult(MALFORMED_MSG) else SUCCESS_RESULT]))
              && clients == (if service.None? then old(clients) else old(clients) - {service.value})
              && shut == old(shut) + (if service.Some? && service.value in old(clients)
                                      then {old(clients)[service.value].sock} else {})
    {
      hide CtlResponse;
      var service := ReleasedService(ts);
      if service.None? {
        return Ok(CtlResponse(tx, CTL_RELEASE_CLIENT_ID, [ErrorResult(MALFORMED_MSG)]));
      }
      if service.value in clients {
        SocketsAfterRemoval(clients, service.value);
        var c := clients[service.value];
        clients := clients - {service.value};
        Shut(c.sock);
      }
      return Ok(CtlResponse(tx, CTL_RELEASE_CLIENT_ID, [SUCCESS_RESULT]));
    }

    // handleDataWrite: routed by service, whatever the client ID.
    method WriteData(service: U16, body: seq<Byte>) returns (r: Result<Written>)
      requires Valid()
      ensures r == if service in clients then Ok(SentTo(clients[service].sock, body)) else Error
      ensures r.Ok? ==> r.value.sock in created && r.value.sock !in shut
    {
      if service !in clients {
        return Error;
      }
      assert clients[service].sock in Sockets(clients);
      return Ok(SentTo(clients[service].sock, body));
    }

    // Close: every socket ever opened has been closed once.
    method Close()
      requires Valid()
      modifies this`closed, this`clients, this`shut
      ensures Valid() && closed && clients == map[] && shut == created
    {
      hide Sockets, Distinct;
      closed := true;
      var pending: map<U16, QrtrClient> := clients;
      while pending.Keys != {}
        invariant Distinct(pending)
        invariant Sockets(pending) !! shut && Sockets(pending) + shut == created
        invariant closed
        decreases |pending|
      {
        var service: U16 :| service in pending.Keys;
        SocketsAfterRemoval(pending, service);
        Shut(pending[service].sock);
        pending := pending - {service};
      }
      NoSockets(pending);
      clients := map[];
      NoSockets(clients);
    }
  }

  lemma NoSockets(clients: map<U16, QrtrClient>)
    requires clients.Keys == {}
    ensures Sockets(clients) == {} && Distinct(clients)
  {
  }

  lemma SocketsAfterInstall(clients: map<U16, QrtrClient>, service: U16, c: QrtrClient)
    requires Distinct(clients)
    requires c.sock !in Sockets(clients)
    ensures Sockets(clients[service := c])
         == Sockets(clients) + {c.sock} - (if service in clients then {clients[service].sock} else {})
    ensures Distinct(clients[service := c])
    ensures service in clients ==> clients[service].sock in Sockets(clients)
  {
    forall s <- clients
      ensures clients[s].sock in Sockets(clients)
    {
    }
    var after := clients[service := c];
    forall x
      ensures x in Sockets(after) <==>
                x in Sockets(clients) + {c.sock} && !(service in clients && x == clients[service].sock)
    {
      if x == c.sock {
        assert after[service].sock == x;
      } else if x in Sockets(clients) && !(service in clients && x == clients[service].sock) {
        var s :| s in clients && clients[s].sock == x;
        assert after[s].sock == x;
      }
    }
  }

  lemma SocketsAfterRemoval(clients: map<U16, QrtrClient>, service: U16)
    requires Distinct(clients)
    requires service in clients
    ensures Sockets(clients - {service}) == Sockets(clients) - {clients[service].sock}
    ensures clients[service].sock in Sockets(clients)
    ensures Distinct(clients - {service})
  {
    var after := clients - {service};
    forall x
      ensures x in Sockets(after) <==> x in Sockets(clients) && x != clients[service].sock
    {
      if x in Sockets(clients) && x != clients[service].sock {
        var s :| s in clients && clients[s].sock == x;
        assert after[s].sock == x;
      }
    }
  }

  // ------------------------------------------------------------------ write and dispatch

  // What a control request is answered with, given what an allocation would come to and the client ID
  // it would use; Error stands for a failed write.
  ghost predicate Answers(request: CtlRequest, allocation: Allocation, cid: Byte, majors: map<U16, U16>,
                          r: Result<Written>)
  {
    var tx, ts := request.tx, request.tlvs;
    if request.messageID == CTL_SYNC then
      r == Ok(Reply(CtlResponse(tx, CTL_SYNC, [SUCCESS_RESULT])))
    else if request.messageID == CTL_GET_VERSION_INFO then
      r.Ok? && r.value.Reply? && VersionAnswer(tx, majors, r.value.frame)
    else if request.messageID == CTL_GET_CLIENT_ID then
      match allocation
      case Refused(code) => r == Ok(Reply(CtlResponse(tx, CTL_GET_CLIENT_ID, [ErrorResult(code)])))
      case Failed => r.Error?
      case Done(service, _) =>
        r == Ok(Reply(CtlResponse(tx, CTL_GET_CLIENT_ID, [SUCCESS_RESULT, EncodeServiceClientID(service, cid)])))
    else if request.messageID == CTL_RELEASE_CLIENT_ID then
      r == Ok(Reply(CtlResponse(tx, CTL_RELEASE_CLIENT_ID,
                                [if ReleasedService(ts).None? then ErrorResult(MALFORMED_MSG) else SUCCESS_RESULT])))
    else
      r.Error?
  }

  // The client reads the frame as a successful response to its version request, and its table is the
  // learned one unless all 256 eight-bit services are present.
  ghost predicate VersionAnswer(tx: Byte, majors: map<U16, U16>, frame: seq<Byte>) {
    var p := Unmarshal(frame);
    && p.Ok? && p.value.transactionID == tx && p.value.messageID == CTL_GET_VERSION_INFO && !p.value.isIndication
    && ResultCode(p.value) == Some((0, 0))
    && (TableOf(p.value) == Some(Described(majors)) <==> |Described(majors)| != 0x100)
  }

  // The clients after a control request.
  function ClientsAfter(clients: map<U16, QrtrClient>, request: CtlRequest, allocation: Allocation, cid: Byte)
    : map<U16, QrtrClient>
  {
    if request.messageID == CTL_GET_CLIENT_ID && allocation.Done? then
      clients[allocation.service := QrtrClient(cid, allocation.sock)]
    else if request.messageID == CTL_RELEASE_CLIENT_ID && ReleasedService(request.tlvs).Some? then
      clients - {ReleasedService(request.tlvs).value}
    else
      clients
  }

  // handleCTLWrite after the header and the TLVs are read.
  method HandleCtl(t: Transport, request: CtlRequest, hooks: AllocateHooks, majors: map<U16, U16>)
    returns (r: Result<Written>)
    requires t.Valid()
    requires hooks.socket.Some? ==> hooks.socket.value !in t.created
    modifies t`clients, t`nextCID, t`created, t`shut
    ensures t.Valid()
    ensures var allocation := AllocationOf(t.closed, request.tlvs, hooks);
            && Answers(request, allocation, t.nextCID, majors, r)
            && t.clients == ClientsAfter(old(t.clients), request, allocation, t.nextCID)
            && (request.messageID == CTL_GET_CLIENT_ID && allocation.Done? ==> t.nextCID == NextCid(old(t.nextCID)))
  {
    hide CtlResponse, AllocationOf, ReleasedService, Unmarshal;
    var CtlRequest(tx, messageID, ts) := request;
    if messageID == CTL_SYNC {
      return Ok(Reply(CtlResponse(tx, CTL_SYNC, [SUCCESS_RESULT])));
    } else if messageID == CTL_GET_VERSION_INFO {
      var reply := GetVersionInfo(tx, majors);
      return Ok(Reply(reply));
    } else if messageID == CTL_GET_CLIENT_ID {
      var reply := t.AllocateClientID(tx, ts, hooks);
      return if reply.Ok? then Ok(Reply(reply.value)) else Error;
    } else if messageID == CTL_RELEASE_CLIENT_ID {
      var reply := t.ReleaseClientID(tx, ts);
      return Ok(Reply(reply.value));
    }
    return Error;
  }

  // Write: the control service is simulated, the rest goes to the socket of its service.
  method Write(t: Transport, frame: seq<Byte>, hooks: AllocateHooks, majors: map<U16, U16>) returns (r: Result<Written>)
    requires t.Valid()
    requires hooks.socket.Some? ==> hooks.socket.value !in t.created
    modifies t`clients, t`nextCID, t`created, t`shut
    ensures t.Valid()
    ensures Strip(frame).Error? ==> r.Error? && t.clients == old(t.clients)
    ensures Strip(frame).Ok? && Strip(frame).value.service != SERVICE_CONTROL ==>
              && t.clients == old(t.clients)
              && r == if Strip(frame).value.service in t.clients
                      then Ok(SentTo(t.clients[Strip(frame).value.service].sock, Strip(frame).value.body))
                      else Error
    ensures Strip(frame).Ok? && Strip(frame).value.service == SERVICE_CONTROL ==>
              match ParseCtlRequest(Strip(frame).value.body)
              case Error => r.Error? && t.clients == old(t.clients)
              case Ok(request) =>
                var allocation := AllocationOf(t.closed, request.tlvs, hooks);
                && Answers(request, allocation, t.nextCID, majors, r)
                && t.clients == ClientsAfter(old(t.clients), request, allocation, t.nextCID)
                && (request.messageID == CTL_GET_CLIENT_ID && allocation.Done? ==> t.nextCID == NextCid(old(t.nextCID)))
  {
    hide Strip, ParseCtlRequest, Answers, AllocationOf, ClientsAfter;
    var stripped := Strip(frame);
    if stripped.Error? {
      return Error;
    }
    var (service, body) := (stripped.value.service, stripped.value.body);
    if service != SERVICE_CONTROL {
      r := t.WriteData(service, body);
      return;
    }
    var request := ParseCtlRequest(body);
    if request.Error? {
      return Error;
    }
    r := HandleCtl(t, request.value, hooks, majors);
  }

  // ------------------------------------------------------------------ end to end

  // The allocated service and client ID a response carries.
  function AllocatedID(p: Packet): Option<(U16, Byte)> {
    match FindTlv(p.tlvs, 0x01) case None => None case Some(t) => DecodeServiceClientID(t.value)
  }

  // What the client decodes of an answer.
  ghost predicate Decoded(request: CtlRequest, r: Result<Written>) {
    r.Ok? ==>
      && r.value.Reply? && Unmarshal(r.value.frame).Ok?
      && var p := Unmarshal(r.value.frame).value;
         && p.transactionID == request.tx && p.messageID == request.messageID && !p.isIndication
         && ResultCode(p).Some?
  }

  function CodeOf(r: Result<Written>): Option<(U16, U16)> {
    if r.Ok? && r.value.Reply? && Unmarshal(r.value.frame).Ok? then ResultCode(Unmarshal(r.value.frame).value) else None
  }

  lemma SyncDecodes(request: CtlRequest, allocation: Allocation, cid: Byte, majors: map<U16, U16>, r: Result<Written>)
    requires Answers(request, allocation, cid, majors, r)
    requires request.messageID == CTL_SYNC || request.messageID == CTL_GET_VERSION_INFO
    ensures Decoded(request, r) && r.Ok? && CodeOf(r) == Some((0, 0))
  {
    hide Unmarshal, CtlResponse, ResultCode;
    ResultReplyDecodes(request.tx, request.messageID, SUCCESS_RESULT);
  }

  lemma AllocationDecodes(request: CtlRequest, allocation: Allocation, cid: Byte, majors: map<U16, U16>,
      r: Result<Written>)
    requires Answers(request, allocation, cid, majors, r) && request.messageID == CTL_GET_CLIENT_ID
    ensures Decoded(request, r) && (r.Error? <==> allocation.Failed?)
    ensures allocation.Refused? ==> CodeOf(r) == Some((1, allocation.code))
    ensures allocation.Done? ==>
              && CodeOf(r) == Some((0, 0))
              && AllocatedID(Unmarshal(r.value.frame).value) == Some((allocation.service, cid))
  {
    hide Unmarshal, CtlResponse, ResultCode, FindTlv, DecodeServiceClientID;
    if allocation.Refused? {
      ErrorReplyDecodes(request.tx, request.messageID, allocation.code);
    } else if allocation.Done? {
      AllocationReplyDecodes(request.tx, allocation.service, cid);
    }
  }

  lemma ReleaseDecodes(request: CtlRequest, allocation: Allocation, cid: Byte, majors: map<U16, U16>,
      r: Result<Written>)
    requires Answers(request, allocation, cid, majors, r) && request.messageID == CTL_RELEASE_CLIENT_ID
    ensures Decoded(request, r) && r.Ok?
    ensures CodeOf(r) == Some(if ReleasedService(request.tlvs).None? then (1, MALFORMED_MSG) else (0, 0))
  {
    hide Unmarshal, CtlResponse, ResultCode;
    ErrorReplyDecodes(request.tx, request.messageID, MALFORMED_MSG);
    ResultReplyDecodes(request.tx, request.messageID, SUCCESS_RESULT);
  }

  lemma AnswersDecode(request: CtlRequest, allocation: Allocation, cid: Byte, majors: map<U16, U16>, r: Result<Written>)
    requires Answers(request, allocation, cid, majors, r)
    ensures Decoded(request, r)
  {
    hide Decoded, Unmarshal, CtlResponse;
    if request.messageID == CTL_SYNC || request.messageID == CTL_GET_VERSION_INFO {
      SyncDecodes(request, allocation, cid, majors, r);
    } else if request.messageID == CTL_GET_CLIENT_ID {
      AllocationDecodes(request, allocation, cid, majors, r);
    } else if request.messageID == CTL_RELEASE_CLIENT_ID {
      ReleaseDecodes(request, allocation, cid, majors, r);
    } else {
      NothingDecodes(request, r);
    }
  }

  lemma NothingDecodes(request: CtlRequest, r: Result<Written>)
    requires r.Error?
    ensures Decoded(request, r)
  {
  }

  // What the client reads when it sends a control packet over the transport: the packet is marshalled
  // and written, and the reply unmarshalled. Error means that no reply comes.
  method Request(t: Transport, p: Packet, hooks: AllocateHooks, majors: map<U16, U16>)
    returns (response: Result<Packet>)
    requires t.Valid() && Fits(p) && p.serviceType == SERVICE_CONTROL
    requires hooks.socket.Some? ==> hooks.socket.value !in t.created
    modifies t`clients, t`nextCID, t`created, t`shut
    ensures t.Valid()
    // A response belongs to the request; syncs, version queries and releases always get one.
    ensures response.Ok? ==>
              && response.value.transactionID == p.transactionID % 0x100 && response.value.messageID == p.messageID
              && !response.value.isIndication && ResultCode(response.value).Some?
    ensures p.messageID == CTL_SYNC ==> response.Ok? && ResultCode(response.value) == Some((0, 0))
    // The client's service table is the learned one, unless all 256 eight-bit services are present.
    ensures p.messageID == CTL_GET_VERSION_INFO ==>
              && response.Ok? && ResultCode(response.value) == Some((0, 0))
              && (TableOf(response.value) == Some(Described(majors)) <==> |Described(majors)| != 0x100)
    // An allocation gives the client a nonzero ID for the service it asked for, with a socket behind it,
    // or says why not.
    ensures p.messageID == CTL_GET_CLIENT_ID ==>
              match AllocationOf(t.closed, p.tlvs, hooks)
              case Refused(code) =>
                response.Ok? && ResultCode(response.value) == Some((1, code)) && t.clients == old(t.clients)
              case Failed => response.Error? && t.clients == old(t.clients)
              case Done(service, sock) =>
                && response.Ok? && ResultCode(response.value) == Some((0, 0))
                && AllocatedID(response.value) == Some((service, t.nextCID)) && t.nextCID != 0
                && t.clients == old(t.clients)[service := QrtrClient(t.nextCID, sock)]
    // A release takes the client of its service away.
    ensures p.messageID == CTL_RELEASE_CLIENT_ID && ReleasedService(p.tlvs).Some? ==>
              && response.Ok? && ResultCode(response.value) == Some((0, 0))
              && t.clients == old(t.clients) - {ReleasedService(p.tlvs).value}
  {
    hide Strip, ParseCtlRequest, Marshal, Answers, Unmarshal, CtlResponse, Fits, AllocationOf, ResultCode, AllocatedID;
    RequestArrives(p);
    var written := Write(t, Marshal(p), hooks, majors);
    ghost var request := CtlRequest(p.transactionID % 0x100, p.messageID, p.tlvs);
    ghost var allocation := AllocationOf(t.closed, p.tlvs, hooks);
    AnswersDecode(request, allocation, t.nextCID, majors, written);
    if p.messageID == CTL_SYNC || p.messageID == CTL_GET_VERSION_INFO {
      SyncDecodes(request, allocation, t.nextCID, majors, written);
    } else if p.messageID == CTL_GET_CLIENT_ID {
      AllocationDecodes(request, allocation, t.nextCID, majors, written);
    } else if p.messageID == CTL_RELEASE_CLIENT_ID {
      ReleaseDecodes(request, allocation, t.nextCID, majors, written);
    }
    VersionDecodes(request, allocation, t.nextCID, majors, written);
    if written.Error? || !written.value.Reply? {
      return Error;
    }
    response := Unmarshal(written.value.frame);
  }

  lemma VersionDecodes(request: CtlRequest, allocation: Allocation, cid: Byte, majors: map<U16, U16>,
      r: Result<Written>)
    requires Answers(request, allocation, cid, majors, r)
    ensures request.messageID == CTL_GET_VERSION_INFO ==>
              && r.Ok? && r.value.Reply? && Unmarshal(r.value.frame).Ok?
              && (TableOf(Unmarshal(r.value.frame).value) == Some(Described(majors)) <==> |Described(majors)| != 0x100)
  {
    hide Unmarshal, CtlResponse, ResultCode, TableOf;
  }

  // The allocation and the release of a service, as the client asks for them.
  lemma ClientRequestsAreMet(service: U16, cid: Byte, closed: bool, hooks: AllocateHooks)
    ensures ReleasedService([EncodeServiceClientID(service, cid)]) == Some(service)
    ensures !closed && hooks.resolved && hooks.socket.Some? && hooks.timeoutOk ==>
              AllocationOf(closed, [EncodeServiceOnly(service)], hooks) == Done(service, hooks.socket.value)
    ensures hooks.resolved && (hooks.socket.None? || !hooks.timeoutOk) ==>
              AllocationOf(closed, [EncodeServiceOnly(service)], hooks) == Failed
    ensures !hooks.resolved || (closed && hooks.socket.Some? && hooks.timeoutOk) ==>
              AllocationOf(closed, [EncodeServiceOnly(service)], hooks) == Refused(DEVICE_NOT_READY)
  {
    RequestsNameTheirService(service, cid);
    hide RequestedService, ReleasedService;
  }
}
