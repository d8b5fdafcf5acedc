/**
 The vsock multiplexer as a transition system on values: one function per handler.

 Everything the host does is an argument: connect results, bytes read from a socket, the schedule of
 partial sends, socket errors and the clock. `Log` holds history variables (unbounded counters and byte
 streams); they are updated beside the 32-bit fields and no handler branches on them.
 */
module MuxSpec {
  import opened Machine
  import opened Wire

  const OP_REQUEST: u16 := 1
  const OP_RESPONSE: u16 := 2
  const OP_RST: u16 := 3
  const OP_SHUTDOWN: u16 := 4
  const OP_RW: u16 := 5
  const OP_CREDIT_UPDATE: u16 := 6
  const OP_CREDIT_REQUEST: u16 := 7
  const SHUTDOWN_RCV: u32 := 1
  const SHUTDOWN_SEND: u32 := 2

  const BUF_ALLOC: u32 := 256 * 1024
  const MAX_CHUNK: nat := 16 * 1024
  const MAX_PAYLOAD: nat := 64 * 1024
  const MAX_CONNS: nat := 128
  const MAX_PREFETCH: nat := 64 * 1024
  const FIRST_PORT: u32 := 1024
  const PORT_TRIES: nat := 60_000
  /** Both deadlines are two seconds; the clock counts milliseconds. */
  const REQUEST_TIMEOUT: nat := 2000
  const SHUTDOWN_TIMEOUT: nat := 2000

  datatype Flow = Flow(guestPort: u32, hostPort: u32)

  datatype OutPkt = OutPkt(flow: Flow, op: u16, flags: u32, data: seq<u8>)

  function Ctrl(f: Flow, op: u16, flags: u32): OutPkt {
    OutPkt(f, op, flags, [])
  }

  datatype Phase = WaitGuest | Established

  /** History of one connection. */
  datatype Log = Log(
    id: nat,              // connections are numbered in order of creation
    hostInit: bool,       // created by a host CONNECT line
    queued: seq<u8>,      // every byte put into RW packets for the guest
    delivered: seq<u8>,   // every RW byte written into a guest buffer
    guestFwd: nat,        // the guest's own forward counter, unwrapped
    honest: bool,         // every header so far was that of a guest keeping the credit rules
    accepted: seq<u8>,    // every RW byte taken from the guest
    written: seq<u8>,     // every byte the host socket took
    okLine: seq<u8>,      // the OK line, once due
    announced: nat,       // unwrapped `last_fwd_sent`
    covered: nat,         // unwrapped fwd_cnt of the last delivered header
    requestOut: nat,      // REQUEST, RESPONSE and RW packets delivered
    responseOut: nat,
    rwOut: nat,
    sendBits: nat,        // SHUTDOWN packets delivered with the SEND / RCV bit
    recvBits: nat,
    shutWr: nat,          // SHUT_WR calls on the host socket
    shutWrote: seq<u8>,   // what the socket had taken when SHUT_WR was issued
    shutEarly: bool,      // SHUT_WR was issued before the guest answered
    said: nat,            // SHUTDOWN packets announced to the guest
    connectedSince: bool, // a pending connect completed since the last announcement
    polite: bool)         // no guest byte went past the buffer announced by the last header

  datatype Conn = Conn(
    phase: Phase, connecting: bool,
    peerBufAlloc: u32, peerFwdCnt: u32, sentToGuest: u32,
    received: u32, fwdCnt: u32, lastFwdSent: u32, bufAlloc: u32,
    toHost: seq<u8>, okPending: seq<u8>, prefetched: seq<u8>,
    localShutSend: bool, localShutRecv: bool, peerShutSend: bool, peerShutRecv: bool,
    hostWriteShut: bool, expiry: Option<nat>, log: Log)

  function NewConn(phase: Phase, id: nat, hostInit: bool): Conn {
    Conn(phase, false, 0, 0, 0, 0, 0, 0, BUF_ALLOC, [], [], [], false, false, false, false, false, None,
         Log(id, hostInit, [], [], 0, true, [], [], [], 0, 0, 0, 0, 0, 0, 0, 0, [], false, 0, false, true))
  }

  /** One packet as the guest received it: header, payload, and the size of the buffer used. */
  datatype Delivery = Delivery(flow: Flow, op: u16, hdr: Header, payload: seq<u8>, avail: nat)

  datatype State = State(
    guestCid: u64, incoming: seq<seq<u8>>, conns: map<Flow, Conn>, nextHostPort: u32,
    outCtrl: seq<OutPkt>, outData: seq<OutPkt>,
    nextId: nat, wire: seq<Delivery>)

  function Init(guestCid: u64): State {
    State(guestCid, [], map[], FIRST_PORT, [], [], 0, [])
  }

  // ---- credit arithmetic ----

  function PeerAvail(c: Conn): u32 {
    SatSub(c.peerBufAlloc, Sub32(c.sentToGuest, c.peerFwdCnt))
  }

  function LocalFree(c: Conn): u32 {
    SatSub(c.bufAlloc, Sub32(c.received, c.fwdCnt))
  }

  function Threshold(c: Conn): nat {
    Max(c.bufAlloc / 4, 4096)
  }

  // ---- queues ----

  function OfFlow(q: seq<OutPkt>, f: Flow): seq<OutPkt> {
    if q == [] then [] else if q[0].flow == f then [q[0]] + OfFlow(q[1..], f) else OfFlow(q[1..], f)
  }

  function WithoutFlow(q: seq<OutPkt>, f: Flow): seq<OutPkt> {
    if q == [] then [] else if q[0].flow != f then [q[0]] + WithoutFlow(q[1..], f) else WithoutFlow(q[1..], f)
  }

  function WithoutRst(q: seq<OutPkt>, f: Flow): seq<OutPkt> {
    if q == [] then []
    else if q[0].flow == f && q[0].op == OP_RST then WithoutRst(q[1..], f)
    else [q[0]] + WithoutRst(q[1..], f)
  }

  predicate Queued(q: seq<OutPkt>, f: Flow, op: u16) {
    exists i :: 0 <= i < |q| && q[i].flow == f && q[i].op == op
  }

  function Payload(q: seq<OutPkt>): seq<u8> {
    if q == [] then [] else q[0].data + Payload(q[1..])
  }

  /** RW packets carrying `data` in pieces of at most MAX_CHUNK bytes. */
  function Chunks(f: Flow, data: seq<u8>): seq<OutPkt>
    decreases |data|
  {
    if data == [] then []
    else
      var n := Min(|data|, MAX_CHUNK);
      [OutPkt(f, OP_RW, 0, data[..n])] + Chunks(f, data[n..])
  }

  function SetConn(s: State, f: Flow, c: Conn): State {
    s.(conns := s.conns[f := c])
  }

  function Enqueue(s: State, p: OutPkt): State {
    if p.op == OP_RW then s.(outData := s.outData + [p]) else s.(outCtrl := s.outCtrl + [p])
  }

  function EnqueueRst(s: State, f: Flow): State {
    Enqueue(s.(outCtrl := WithoutRst(s.outCtrl, f)), Ctrl(f, OP_RST, 0))
  }

  function DropConn(s: State, f: Flow, rst: bool): State {
    var s1 := s.(conns := s.conns - {f},
                 outCtrl := WithoutFlow(s.outCtrl, f),
                 outData := WithoutFlow(s.outData, f));
    if rst then EnqueueRst(s1, f) else s1
  }

  // ---- credit packets and half-close ----

  function RequestCredit(s: State, f: Flow): State {
    if Queued(s.outCtrl, f, OP_CREDIT_REQUEST) then s else Enqueue(s, Ctrl(f, OP_CREDIT_REQUEST, 0))
  }

  function Forwarded(c: Conn): int {
    |c.log.accepted| - |c.toHost|
  }

  function Announce(c: Conn): Conn {
    c.(lastFwdSent := c.fwdCnt, log := c.log.(announced := if Forwarded(c) < 0 then 0 else Forwarded(c)))
  }

  /** Queue a CREDIT_UPDATE unless one is queued already. */
  function EnqueueCredit(s: State, f: Flow): State {
    if Queued(s.outCtrl, f, OP_CREDIT_UPDATE) then s
    else
      var s1 := if f in s.conns then SetConn(s, f, Announce(s.conns[f])) else s;
      Enqueue(s1, Ctrl(f, OP_CREDIT_UPDATE, 0))
  }

  function MaybeCredit(s: State, f: Flow): State {
    if f !in s.conns then s
    else if Sub32(s.conns[f].fwdCnt, s.conns[f].lastFwdSent) < Threshold(s.conns[f]) then s
    else EnqueueCredit(s, f)
  }

  function ShutFlags(c: Conn, recv: bool, send: bool): u32 {
    (if send && !c.localShutSend then SHUTDOWN_SEND else 0) + (if recv && !c.localShutRecv then SHUTDOWN_RCV else 0)
  }

  function LocalShut(c: Conn, recv: bool, send: bool, now: nat): Conn {
    c.(localShutSend := c.localShutSend || send,
       localShutRecv := c.localShutRecv || recv,
       expiry := Some(now + SHUTDOWN_TIMEOUT),
       log := c.log.(said := c.log.said + 1, connectedSince := false))
  }

  function MarkLocalShut(s: State, f: Flow, recv: bool, send: bool, now: nat): State {
    if f !in s.conns then s
    else
      var c := s.conns[f];
      if c.phase == WaitGuest then DropConn(s, f, true)
      else
        var flags := ShutFlags(c, recv, send);
        if flags == 0 then s
        else Enqueue(SetConn(s, f, LocalShut(c, recv, send, now)), Ctrl(f, OP_SHUTDOWN, flags))
  }

  // ---- host to guest ----

  predicate CanSend(c: Conn) {
    c.phase == Established && !c.localShutSend && !c.peerShutRecv
  }

  /** Keep what fits of `data` for later. */
  function Stash(c: Conn, data: seq<u8>): Conn {
    c.(prefetched := c.prefetched + data[..Min(|data|, SatSub(MAX_PREFETCH, |c.prefetched|))])
  }

  /** The connection after `chunk` went into RW packets. */
  function SendChunk(c: Conn, chunk: seq<u8>): Conn {
    c.(sentToGuest := Add32(c.sentToGuest, |chunk|), log := c.log.(queued := c.log.queued + chunk))
  }

  /**
   The net effect of `ingest`: as much of `data` as the peer has credit for becomes RW packets, the
   rest is stashed and credit is asked for.
   */
  function Ingest(s: State, f: Flow, data: seq<u8>): State {
    if f !in s.conns || data == [] then s
    else
      var c := s.conns[f];
      if !CanSend(c) then SetConn(s, f, Stash(c, data))
      else
        var k := Min(|data|, PeerAvail(c));
        var c1 := SendChunk(c, data[..k]);
        var s1 := SetConn(s, f, c1).(outData := s.outData + Chunks(f, data[..k]));
        if k == |data| then s1
        else RequestCredit(SetConn(s1, f, Stash(c1, data[k..])), f)
  }

  // ---- guest to host ----

  /** One result of the send system call: `Sent(n)` takes at most n bytes, `Refused` is any error. */
  datatype Send = Sent(n: nat) | Refused

  datatype Flushed = Flushed(conn: Conn, rest: seq<Send>, ok: bool)

  function TakeOk(c: Conn, n: nat): Conn
    requires n <= |c.okPending|
  {
    c.(okPending := c.okPending[n..], log := c.log.(written := c.log.written + c.okPending[..n]))
  }

  function TakeToHost(c: Conn, n: nat): Conn
    requires n <= |c.toHost|
  {
    c.(toHost := c.toHost[n..], fwdCnt := Add32(c.fwdCnt, n),
       log := c.log.(written := c.log.written + c.toHost[..n]))
  }

  /** `flush_ok` under a schedule of send results; a schedule that runs out counts as an error. */
  function FlushOk(c: Conn, sends: seq<Send>): Flushed
    decreases |sends|
  {
    if c.okPending == [] then Flushed(c, sends, true)
    else if sends == [] then Flushed(c, [], false)
    else if sends[0].Refused? || sends[0].n == 0 then Flushed(c, sends[1..], false)
    else FlushOk(TakeOk(c, Min(sends[0].n, |c.okPending|)), sends[1..])
  }

  /** `flush_to_host` under a schedule of send results. */
  function FlushToHost(c: Conn, sends: seq<Send>): Flushed
    decreases |sends|
  {
    if c.toHost == [] then Flushed(c, sends, true)
    else if sends == [] then Flushed(c, [], false)
    else if sends[0].Refused? || sends[0].n == 0 then Flushed(c, sends[1..], false)
    else FlushToHost(TakeToHost(c, Min(sends[0].n, |c.toHost|)), sends[1..])
  }

  function FlushBoth(c: Conn, sends: seq<Send>): Flushed {
    var r := FlushOk(c, sends);
    if r.ok then FlushToHost(r.conn, r.rest) else r
  }

  /** Close the host socket for writing once the guest is done sending and all of it is out. */
  function ShutWrite(c: Conn): Conn {
    if c.peerShutSend && c.toHost == [] && !c.hostWriteShut
    then c.(hostWriteShut := true,
            log := c.log.(shutWr := c.log.shutWr + 1, shutWrote := c.log.written, shutEarly := c.phase == WaitGuest))
    else c
  }

  function FlushConn(s: State, f: Flow, sends: seq<Send>, now: nat): State {
    if f !in s.conns then s
    else
      var r := FlushBoth(s.conns[f], sends);
      if !r.ok then MarkLocalShut(SetConn(s, f, r.conn), f, true, true, now)
      else
        var c := ShutWrite(r.conn);
        if c.okPending != [] then SetConn(s, f, c)
        else MaybeCredit(Ingest(SetConn(s, f, c.(prefetched := [])), f, c.prefetched), f)
  }

  /** The guest answered: the OK line is due. */
  function Answered(f: Flow, c: Conn): Conn {
    var ok := OkLine(f.hostPort);
    c.(phase := Established, expiry := None, okPending := ok, log := c.log.(okLine := ok))
  }

  function OnResponse(s: State, f: Flow, sends: seq<Send>, now: nat): State {
    if f !in s.conns || s.conns[f].phase != WaitGuest then s
    else FlushConn(SetConn(s, f, Answered(f, s.conns[f])), f, sends, now)
  }

  predicate HasRecv(flags: u32) {
    flags % 2 == 1
  }

  predicate HasSend(flags: u32) {
    flags / 2 % 2 == 1
  }

  /** The guest's SHUTDOWN bits; a guest that stops receiving also ends the sending here. */
  function PeerShut(c: Conn, flags: u32): Conn {
    c.(peerShutRecv := c.peerShutRecv || HasRecv(flags),
       localShutSend := c.localShutSend || HasRecv(flags),
       peerShutSend := c.peerShutSend || HasSend(flags))
  }

  function OnShutdown(s: State, f: Flow, flags: u32, sends: seq<Send>, now: nat): State {
    if f !in s.conns then s
    else FlushConn(SetConn(s, f, PeerShut(s.conns[f], flags)), f, sends, now)
  }

  predicate AcceptsRw(c: Conn) {
    c.phase == Established && !c.localShutRecv && !c.peerShutSend
  }

  function TakeRw(c: Conn, data: seq<u8>): Conn {
    c.(received := Add32(c.received, |data|), toHost := c.toHost + data,
       log := c.log.(accepted := c.log.accepted + data,
                     polite := c.log.polite && |c.log.accepted| + |data| <= c.log.covered + c.bufAlloc))
  }

  function OnRw(s: State, f: Flow, data: seq<u8>, sends: seq<Send>, now: nat): State {
    if data == [] || f !in s.conns || !AcceptsRw(s.conns[f]) then s
    else if Wrap(|data|) > LocalFree(s.conns[f]) then DropConn(s, f, true)
    else FlushConn(SetConn(s, f, TakeRw(s.conns[f], data)), f, sends, now)
  }

  // ---- guest packets ----

  datatype Connect = Done | Pending | Fail

  /** The host's part in handling one guest packet: the connect result, send results and the clock. */
  datatype Host = Host(connect: Connect, sends: seq<Send>, now: nat)

  /** A connection the guest asked for, its host socket connected or about to be. */
  function GuestConn(id: nat, hdr: Header, host: Host): Conn {
    var c := NewConn(Established, id, false);
    var c1 := c.(peerBufAlloc := hdr.bufAlloc, peerFwdCnt := hdr.fwdCnt,
                 log := c.log.(guestFwd := hdr.fwdCnt, honest := hdr.fwdCnt == 0));
    if host.connect == Done then c1 else c1.(connecting := true, expiry := Some(host.now + REQUEST_TIMEOUT))
  }

  /** `connect` is `Fail` also when no socket or path could be made. */
  function OnGuestRequest(s: State, f: Flow, hdr: Header, host: Host): State {
    if f in s.conns then DropConn(s, f, true)
    else if hdr.len != 0 || host.connect == Fail then EnqueueRst(s, f)
    else
      var s1 := SetConn(s.(nextId := s.nextId + 1), f, GuestConn(s.nextId, hdr, host));
      if host.connect == Done then Enqueue(s1, Ctrl(f, OP_RESPONSE, 0)) else s1
  }

  /** The guest's forward counter as far as `fwdCnt` shows it moved. */
  function UnwrapFwd(c: Conn, fwdCnt: u32): nat {
    c.log.guestFwd + Sub32(fwdCnt, c.peerFwdCnt)
  }

  /** Record the credit fields of a header; `honest` judges them against the credit rules. */
  function NoteCredit(c: Conn, hdr: Header): Conn {
    var g := UnwrapFwd(c, hdr.fwdCnt);
    c.(peerBufAlloc := hdr.bufAlloc, peerFwdCnt := hdr.fwdCnt,
       log := c.log.(guestFwd := g,
                     honest := c.log.honest && g <= |c.log.delivered| && c.peerBufAlloc <= hdr.bufAlloc))
  }

  function HdrFlow(hdr: Header): Flow {
    Flow(hdr.srcPort, hdr.dstPort)
  }

  /** The part of `handle_guest_pkt` that acts on a live connection. */
  function Dispatch(s: State, f: Flow, hdr: Header, data: seq<u8>, host: Host): State {
    if hdr.op == OP_RESPONSE then OnResponse(s, f, host.sends, host.now)
    else if hdr.op == OP_RST then DropConn(s, f, false)
    else if hdr.op == OP_SHUTDOWN then OnShutdown(s, f, hdr.flags, host.sends, host.now)
    else if hdr.op == OP_RW then
      if |data| > MAX_PAYLOAD then DropConn(s, f, true) else OnRw(s, f, data, host.sends, host.now)
    else if hdr.op == OP_CREDIT_REQUEST then EnqueueCredit(s, f)
    else s
  }

  function HandleGuestPkt(s: State, hdr: Header, data: seq<u8>, host: Host): State {
    var f := HdrFlow(hdr);
    if hdr.srcCid != s.guestCid || hdr.dstCid != HOST_CID then s
    else if hdr.kind != TYPE_STREAM then if hdr.op != OP_RST then EnqueueRst(s, f) else s
    else if hdr.op == OP_REQUEST then OnGuestRequest(s, f, hdr, host)
    else if f !in s.conns then if hdr.op != OP_RST then EnqueueRst(s, f) else s
    else Dispatch(SetConn(s, f, NoteCredit(s.conns[f], hdr)), f, hdr, data, host)
  }

  /** A TX chain as `pull_tx` reads it: too short for a header, broken, or a packet. */
  datatype TxChain = Short | Damaged(flow: Flow) | Packet(hdr: Header, data: seq<u8>)

  function ReadChain(raw: seq<u8>): (chain: TxChain)
    ensures chain.Packet? ==> |chain.data| == chain.hdr.len <= MAX_PAYLOAD
  {
    if |raw| < HDR_LEN then Short
    else
      var hdr := Parse(raw[..HDR_LEN]);
      if hdr.len > MAX_PAYLOAD || |raw| < HDR_LEN + hdr.len then Damaged(HdrFlow(hdr))
      else Packet(hdr, raw[HDR_LEN..HDR_LEN + hdr.len])
  }

  /** One iteration of `pull_tx`. */
  function GuestChain(s: State, chain: TxChain, host: Host): State {
    match chain
    case Short => s
    case Damaged(f) => DropConn(s, f, true)
    case Packet(hdr, data) => HandleGuestPkt(s, hdr, data, host)
  }

  /** The used length `pull_tx` reports for a chain. */
  function ChainUsed(chain: TxChain): nat {
    if chain.Packet? then HDR_LEN + |chain.data| else 0
  }

  // ---- host sockets ----

  /** Result of reading a socket: data, end of file, try again, or another error. */
  datatype Read = Bytes(data: seq<u8>) | Eof | Again | Broken

  function OnHostEof(s: State, f: Flow, now: nat): State {
    if f in s.conns && s.conns[f].phase == WaitGuest then DropConn(s, f, true)
    else MarkLocalShut(s, f, false, true, now)
  }

  /** At most MAX_CHUNK bytes come from one read; reading none is end of file. */
  function ReadConn(s: State, f: Flow, read: Read, now: nat): State {
    if f !in s.conns then s
    else match read {
      case Bytes(data) =>
        if data == [] then OnHostEof(s, f, now) else Ingest(s, f, data[..Min(|data|, MAX_CHUNK)])
      case Eof => OnHostEof(s, f, now)
      case Again => s
      case Broken => MarkLocalShut(s, f, true, true, now)
    }
  }

  function ConnectDone(c: Conn): Conn {
    c.(connecting := false, expiry := None, log := c.log.(connectedSince := true))
  }

  function FinishConnect(s: State, f: Flow, ok: bool): State {
    if f !in s.conns then s
    else if !ok then DropConn(s, f, true)
    else Enqueue(SetConn(s, f, ConnectDone(s.conns[f])), Ctrl(f, OP_RESPONSE, 0))
  }

  /** What poll reported for a connection's socket and what the calls on it returned. */
  datatype Ready = Ready(readable: bool, writable: bool, read: Read, connectOk: bool, sends: seq<Send>, now: nat)

  function OnConnFd(s: State, f: Flow, r: Ready): State {
    if f !in s.conns then s
    else
      var s1 := if r.readable then ReadConn(s, f, r.read, r.now) else s;
      if f !in s1.conns || !r.writable then s1
      else if s1.conns[f].connecting then FinishConnect(s1, f, r.connectOk)
      else FlushConn(s1, f, r.sends, r.now)
  }

  // ---- host-initiated connections ----

  function AcceptOne(s: State): State {
    if |s.incoming| + |s.conns| >= MAX_CONNS then s else s.(incoming := s.incoming + [[]])
  }

  function RemoveAt<T>(q: seq<T>, i: nat): (r: seq<T>)
    requires i < |q|
    ensures |r| == |q| - 1
  {
    q[..i] + q[i + 1..]
  }

  function IndexOfNewline(buf: seq<u8>): (i: nat)
    ensures i <= |buf|
    ensures i < |buf| ==> buf[i] == 10
    ensures forall j :: 0 <= j < i ==> buf[j] != 10
  {
    if buf == [] || buf[0] == 10 then 0 else 1 + IndexOfNewline(buf[1..])
  }

  function HostPorts(s: State): set<u32> {
    set f | f in s.conns :: f.hostPort
  }

  function NextPort(port: u32): u32 {
    if port == MAX_U32 then FIRST_PORT else port + 1
  }

  datatype Alloc = Alloc(port: Option<u32>, next: u32)

  /** `alloc_host_port` with the given number of tries left. */
  function AllocPort(next: u32, live: set<u32>, tries: nat): Alloc
    decreases tries
  {
    if tries == 0 then Alloc(None, next)
    else if next < FIRST_PORT || next in live then AllocPort(NextPort(next), live, tries - 1)
    else Alloc(Some(next), NextPort(next))
  }

  /** A connection a host CONNECT line asked for; `rest` followed the line. */
  function HostConn(id: nat, rest: seq<u8>, now: nat): Conn {
    NewConn(WaitGuest, id, true).(prefetched := rest, expiry := Some(now + REQUEST_TIMEOUT))
  }

  /** Give a host connection to `guestPort` a fresh host port and ask the guest for it. */
  function OpenHostConn(s: State, guestPort: u32, rest: seq<u8>, now: nat): State {
    var a := AllocPort(s.nextHostPort, HostPorts(s), PORT_TRIES);
    var s1 := s.(nextHostPort := a.next);
    if a.port == None then s1
    else
      var f := Flow(guestPort, a.port.value);
      if f in s1.conns then EnqueueRst(s1, f)
      else Enqueue(SetConn(s1.(nextId := s.nextId + 1), f, HostConn(s.nextId, rest, now)), Ctrl(f, OP_REQUEST, 0))
  }

  function FinishIncoming(s: State, i: nat, now: nat): State
    requires i < |s.incoming|
  {
    var buf := s.incoming[i];
    var s1 := s.(incoming := RemoveAt(s.incoming, i));
    var nl := IndexOfNewline(buf);
    if nl == |buf| then s1
    else
      match ParseConnect(StripCr(buf[..nl]))
      case None => s1
      case Some(guestPort) => OpenHostConn(s1, guestPort, buf[nl + 1..], now)
  }

  /** At most 64 bytes come from one read of a socket still sending its CONNECT line. */
  function ReadIncoming(s: State, i: nat, read: Read, now: nat): State {
    if i >= |s.incoming| then s
    else match read {
      case Bytes(data) =>
        if data == [] then s.(incoming := RemoveAt(s.incoming, i))
        else
          var buf := s.incoming[i] + data[..Min(|data|, 64)];
          if IndexOfNewline(buf) < |buf| then FinishIncoming(s.(incoming := s.incoming[i := buf]), i, now)
          else if |buf| > 64 then s.(incoming := RemoveAt(s.incoming, i))
          else s.(incoming := s.incoming[i := buf])
      case Eof => s.(incoming := RemoveAt(s.incoming, i))
      case Again => s
      case Broken => s.(incoming := RemoveAt(s.incoming, i))
    }
  }

  // ---- deadlines and resets ----

  predicate Expired(c: Conn, now: nat) {
    c.expiry.Some? && c.expiry.value <= now
  }

  /** `check_timeouts`, visiting the flows in the order the hash map happens to give. */
  function DropExpired(s: State, order: seq<Flow>, now: nat): State
    decreases |order|
  {
    if order == [] then s
    else
      var f := order[0];
      var s1 := if f in s.conns && Expired(s.conns[f], now) then DropConn(s, f, true) else s;
      DropExpired(s1, order[1..], now)
  }

  function KillConnections(s: State): State {
    s.(incoming := [], conns := map[], outCtrl := [], outData := [])
  }

  // ---- delivery into guest buffers ----

  predicate HasOut(s: State) {
    s.outCtrl != [] || s.outData != []
  }

  /** The packet `pop_out` takes: control before data. */
  function Front(s: State): OutPkt
    requires HasOut(s)
  {
    if s.outCtrl != [] then s.outCtrl[0] else s.outData[0]
  }

  function PopFront(s: State): State
    requires HasOut(s)
  {
    if s.outCtrl != [] then s.(outCtrl := s.outCtrl[1..]) else s.(outData := s.outData[1..])
  }

  function PushFront(s: State, p: OutPkt): State {
    if p.op == OP_RW then s.(outData := [p] + s.outData) else s.(outCtrl := [p] + s.outCtrl)
  }

  /** The header `push_rx` stamps on a packet of flow `p.flow` carrying `payload`. */
  function StampedHeader(s: State, p: OutPkt, payload: seq<u8>): Header {
    Header(HOST_CID, s.guestCid, p.flow.hostPort, p.flow.guestPort, Wrap(|payload|), TYPE_STREAM, p.op, p.flags,
           if p.flow in s.conns then s.conns[p.flow].bufAlloc else 0,
           if p.flow in s.conns then s.conns[p.flow].fwdCnt else 0)
  }

  /** What delivering `payload` of packet `p` adds to the history of its connection. */
  function NoteDelivered(c: Conn, p: OutPkt, payload: seq<u8>): Conn {
    var isRw := p.op == OP_RW;
    var isShut := p.op == OP_SHUTDOWN;
    c.(log := c.log.(
      delivered := c.log.delivered + (if isRw then payload else []),
      covered := if Forwarded(c) < 0 then 0 else Forwarded(c),
      requestOut := c.log.requestOut + (if p.op == OP_REQUEST then 1 else 0),
      responseOut := c.log.responseOut + (if p.op == OP_RESPONSE then 1 else 0),
      rwOut := c.log.rwOut + (if isRw then 1 else 0),
      sendBits := c.log.sendBits + (if isShut && HasSend(p.flags) then 1 else 0),
      recvBits := c.log.recvBits + (if isShut && HasRecv(p.flags) then 1 else 0)))
  }

  /** Whether a buffer of `avail` bytes can take a piece of packet `p`. */
  predicate Fits(p: OutPkt, avail: nat) {
    avail >= HDR_LEN && (p.op == OP_RW || |p.data| <= avail - HDR_LEN)
  }

  /** One successful iteration of `push_rx`: as much of the front packet as the buffer holds. */
  function Deliver(s: State, avail: nat): State
    requires HasOut(s) && Fits(Front(s), avail)
  {
    var p := Front(s);
    var n := Min(|p.data|, avail - HDR_LEN);
    var s1 := PopFront(s);
    var s2 := if n < |p.data| then PushFront(s1, p.(data := p.data[n..])) else s1;
    var s3 := if p.flow in s2.conns
              then SetConn(s2, p.flow, NoteDelivered(s2.conns[p.flow], p, p.data[..n])) else s2;
    s3.(wire := s.wire + [Delivery(p.flow, p.op, StampedHeader(s, p, p.data[..n]), p.data[..n], avail)])
  }

  /** A guest receive buffer of `avail` bytes; one that cannot take the front packet changes nothing. */
  function RxBuffer(s: State, avail: nat): State {
    if HasOut(s) && Fits(Front(s), avail) then Deliver(s, avail) else s
  }

  /** `push_rx` over the available buffers: new state, used lengths, and buffers left in the ring. */
  datatype Pushed = Pushed(mux: State, used: seq<nat>, left: seq<nat>)

  function PushRx(s: State, bufs: seq<nat>): Pushed
    decreases |bufs|
  {
    if bufs == [] || !HasOut(s) then Pushed(s, [], bufs)
    else if !Fits(Front(s), bufs[0]) then Pushed(s, [0], bufs[1..])
    else
      var n := Min(|Front(s).data|, bufs[0] - HDR_LEN);
      var r := PushRx(Deliver(s, bufs[0]), bufs[1..]);
      r.(used := [HDR_LEN + n] + r.used)
  }

  // ---- runs ----

  datatype Event =
    | Accept
    | IncomingReady(i: nat, read: Read, now: nat)
    | ConnReady(flow: Flow, ready: Ready)
    | GuestTx(chain: TxChain, host: Host)
    | GuestRx(avail: nat)
    | Timeouts(order: seq<Flow>, now: nat)
    | TransportDown

  function Step(s: State, e: Event): State {
    match e
    case Accept => AcceptOne(s)
    case IncomingReady(i, read, now) => ReadIncoming(s, i, read, now)
    case ConnReady(f, ready) => OnConnFd(s, f, ready)
    case GuestTx(chain, host) => GuestChain(s, chain, host)
    case GuestRx(avail) => RxBuffer(s, avail)
    case Timeouts(order, now) => DropExpired(s, order, now)
    case TransportDown => KillConnections(s)
  }

  function Run(s: State, es: seq<Event>): State {
    if es == [] then s else Step(Run(s, es[..|es| - 1]), es[|es| - 1])
  }
}
