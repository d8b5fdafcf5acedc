/** Byte formats of the vsock device: the 44-byte packet header and the `CONNECT` line. */
module Wire {
  import opened Machine

  const HDR_LEN: nat := 44
  const HOST_CID: u64 := 2
  const TYPE_STREAM: u16 := 1

  datatype Header = Header(
    srcCid: u64, dstCid: u64, srcPort: u32, dstPort: u32, len: u32,
    kind: u16, op: u16, flags: u32, bufAlloc: u32, fwdCnt: u32)

  // ---- little-endian integers ----

  function Pow256(n: nat): nat {
    if n == 0 then 1 else 256 * Pow256(n - 1)
  }

  function ToLe(x: nat, n: nat): (r: seq<u8>)
    ensures |r| == n
  {
    if n == 0 then [] else [x % 256] + ToLe(x / 256, n - 1)
  }

  function FromLe(raw: seq<u8>): nat {
    if raw == [] then 0 else raw[0] + 256 * FromLe(raw[1..])
  }

  lemma {:induction false} LeRoundTrip(x: nat, n: nat)
    requires x < Pow256(n)
    ensures FromLe(ToLe(x, n)) == x
  {
    if n != 0 {
      LeRoundTrip(x / 256, n - 1);
      assert ToLe(x, n)[1..] == ToLe(x / 256, n - 1);
    }
  }

  lemma {:induction false} LeBytesRoundTrip(raw: seq<u8>)
    ensures FromLe(raw) < Pow256(|raw|)
    ensures ToLe(FromLe(raw), |raw|) == raw
  {
    if raw != [] {
      LeBytesRoundTrip(raw[1..]);
      assert FromLe(raw) / 256 == FromLe(raw[1..]) && FromLe(raw) % 256 == raw[0];
    }
  }

  lemma Pow256Values()
    ensures Pow256(2) == 0x1_0000 && Pow256(4) == M32 && Pow256(8) == 0x1_0000_0000_0000_0000
  {
    assert Pow256(1) == 256;
    assert Pow256(3) == 256 * Pow256(2);
    assert Pow256(5) == 256 * Pow256(4);
    assert Pow256(6) == 256 * Pow256(5);
    assert Pow256(7) == 256 * Pow256(6);
  }

  // ---- the packet header ----

  /** `raw[at..at + |part|].copy_from_slice(part)`. */
  function Splice(raw: seq<u8>, at: nat, part: seq<u8>): (r: seq<u8>)
    requires at + |part| <= |raw|
    ensures |r| == |raw|
  {
    raw[..at] + part + raw[at + |part|..]
  }

  /** The bytes `OutPkt::header` produces, field by field at its fixed offset. */
  function Serialize(h: Header): (raw: seq<u8>)
    ensures |raw| == HDR_LEN
  {
    var raw := seq(HDR_LEN, _ => 0);
    var raw := Splice(raw, 0, ToLe(h.srcCid, 8));
    var raw := Splice(raw, 8, ToLe(h.dstCid, 8));
    var raw := Splice(raw, 16, ToLe(h.srcPort, 4));
    var raw := Splice(raw, 20, ToLe(h.dstPort, 4));
    var raw := Splice(raw, 24, ToLe(h.len, 4));
    var raw := Splice(raw, 28, ToLe(h.kind, 2));
    var raw := Splice(raw, 30, ToLe(h.op, 2));
    var raw := Splice(raw, 32, ToLe(h.flags, 4));
    var raw := Splice(raw, 36, ToLe(h.bufAlloc, 4));
    Splice(raw, 40, ToLe(h.fwdCnt, 4))
  }

  function LeAt(raw: seq<u8>, at: nat, n: nat): (x: nat)
    requires at + n <= |raw|
    ensures x < Pow256(n)
  {
    LeBytesRoundTrip(raw[at..at + n]);
    FromLe(raw[at..at + n])
  }

  /** `Header::parse`. */
  function Parse(raw: seq<u8>): Header
    requires |raw| == HDR_LEN
  {
    Pow256Values();
    Header(LeAt(raw, 0, 8), LeAt(raw, 8, 8), LeAt(raw, 16, 4), LeAt(raw, 20, 4), LeAt(raw, 24, 4),
           LeAt(raw, 28, 2), LeAt(raw, 30, 2), LeAt(raw, 32, 4), LeAt(raw, 36, 4), LeAt(raw, 40, 4))
  }

  /** The fields tile the 44 bytes: no gap, no overlap, nothing left of the zero fill. */
  lemma SerializeTiles(h: Header)
    ensures Serialize(h) ==
            ToLe(h.srcCid, 8) + ToLe(h.dstCid, 8) + ToLe(h.srcPort, 4) + ToLe(h.dstPort, 4) + ToLe(h.len, 4)
            + ToLe(h.kind, 2) + ToLe(h.op, 2) + ToLe(h.flags, 4) + ToLe(h.bufAlloc, 4) + ToLe(h.fwdCnt, 4)
  {
    var z := seq(HDR_LEN, _ => 0);
    var p := ToLe(h.srcCid, 8);
    assert Splice(z, 0, p) == p + z[8..];
    TileNext(z, p, ToLe(h.dstCid, 8)); p := p + ToLe(h.dstCid, 8);
    TileNext(z, p, ToLe(h.srcPort, 4)); p := p + ToLe(h.srcPort, 4);
    TileNext(z, p, ToLe(h.dstPort, 4)); p := p + ToLe(h.dstPort, 4);
    TileNext(z, p, ToLe(h.len, 4)); p := p + ToLe(h.len, 4);
    TileNext(z, p, ToLe(h.kind, 2)); p := p + ToLe(h.kind, 2);
    TileNext(z, p, ToLe(h.op, 2)); p := p + ToLe(h.op, 2);
    TileNext(z, p, ToLe(h.flags, 4)); p := p + ToLe(h.flags, 4);
    TileNext(z, p, ToLe(h.bufAlloc, 4)); p := p + ToLe(h.bufAlloc, 4);
    TileNext(z, p, ToLe(h.fwdCnt, 4)); p := p + ToLe(h.fwdCnt, 4);
    assert p + z[44..] == p;
  }

  /** Splicing right behind a finished prefix extends that prefix. */
  lemma TileNext(z: seq<u8>, done: seq<u8>, part: seq<u8>)
    requires |done| + |part| <= |z|
    ensures Splice(done + z[|done|..], |done|, part) == (done + part) + z[|done + part|..]
  {
  }

  /** A field read back from a string it tiles, given what stands before and after it. */
  lemma FieldAt(raw: seq<u8>, pre: seq<u8>, x: nat, n: nat, post: seq<u8>)
    requires raw == pre + (ToLe(x, n) + post) && x < Pow256(n)
    ensures LeAt(raw, |pre|, n) == x
    ensures raw == (pre + ToLe(x, n)) + post
  {
    LeRoundTrip(x, n);
    assert raw[|pre|..|pre| + n] == ToLe(x, n);
  }

  /** `Header::parse` undoes `OutPkt::header` for every field value. */
  lemma ParseSerialize(h: Header)
    ensures Parse(Serialize(h)) == h
  {
    var raw := Serialize(h);
    var p9 := ToLe(h.fwdCnt, 4);
    var p8 := ToLe(h.bufAlloc, 4) + p9;
    var p7 := ToLe(h.flags, 4) + p8;
    var p6 := ToLe(h.op, 2) + p7;
    var p5 := ToLe(h.kind, 2) + p6;
    var p4 := ToLe(h.len, 4) + p5;
    var p3 := ToLe(h.dstPort, 4) + p4;
    var p2 := ToLe(h.srcPort, 4) + p3;
    var p1 := ToLe(h.dstCid, 8) + p2;
    assert raw == [] + (ToLe(h.srcCid, 8) + p1) by { SerializeTiles(h); }
    Pow256Values();
    var pre: seq<u8> := [];
    FieldAt(raw, pre, h.srcCid, 8, p1); pre := pre + ToLe(h.srcCid, 8);
    FieldAt(raw, pre, h.dstCid, 8, p2); pre := pre + ToLe(h.dstCid, 8);
    FieldAt(raw, pre, h.srcPort, 4, p3); pre := pre + ToLe(h.srcPort, 4);
    FieldAt(raw, pre, h.dstPort, 4, p4); pre := pre + ToLe(h.dstPort, 4);
    FieldAt(raw, pre, h.len, 4, p5); pre := pre + ToLe(h.len, 4);
    FieldAt(raw, pre, h.kind, 2, p6); pre := pre + ToLe(h.kind, 2);
    FieldAt(raw, pre, h.op, 2, p7); pre := pre + ToLe(h.op, 2);
    FieldAt(raw, pre, h.flags, 4, p8); pre := pre + ToLe(h.flags, 4);
    FieldAt(raw, pre, h.bufAlloc, 4, p9); pre := pre + ToLe(h.bufAlloc, 4);
    assert p9 == p9 + [];
    FieldAt(raw, pre, h.fwdCnt, 4, []);
  }

  /** Every 44-byte string is the encoding of exactly the header it parses to. */
  lemma SerializeParse(raw: seq<u8>)
    requires |raw| == HDR_LEN
    ensures Serialize(Parse(raw)) == raw
  {
    var h := Parse(raw);
    assert ToLe(h.srcCid, 8) == raw[0..8] by { LeBytesRoundTrip(raw[0..8]); }
    assert ToLe(h.dstCid, 8) == raw[8..16] by { LeBytesRoundTrip(raw[8..16]); }
    assert ToLe(h.srcPort, 4) == raw[16..20] by { LeBytesRoundTrip(raw[16..20]); }
    assert ToLe(h.dstPort, 4) == raw[20..24] by { LeBytesRoundTrip(raw[20..24]); }
    assert ToLe(h.len, 4) == raw[24..28] by { LeBytesRoundTrip(raw[24..28]); }
    assert ToLe(h.kind, 2) == raw[28..30] by { LeBytesRoundTrip(raw[28..30]); }
    assert ToLe(h.op, 2) == raw[30..32] by { LeBytesRoundTrip(raw[30..32]); }
    assert ToLe(h.flags, 4) == raw[32..36] by { LeBytesRoundTrip(raw[32..36]); }
    assert ToLe(h.bufAlloc, 4) == raw[36..40] by { LeBytesRoundTrip(raw[36..40]); }
    assert ToLe(h.fwdCnt, 4) == raw[40..44] by { LeBytesRoundTrip(raw[40..44]); }
    SerializeTiles(h);
    SlicesTile(raw);
  }

  lemma SlicesTile(raw: seq<u8>)
    requires |raw| == HDR_LEN
    ensures raw[0..8] + raw[8..16] + raw[16..20] + raw[20..24] + raw[24..28]
            + raw[28..30] + raw[30..32] + raw[32..36] + raw[36..40] + raw[40..44] == raw
  {
    Join(raw, 8, 16); Join(raw, 16, 20); Join(raw, 20, 24); Join(raw, 24, 28); Join(raw, 28, 30);
    Join(raw, 30, 32); Join(raw, 32, 36); Join(raw, 36, 40); Join(raw, 40, 44);
  }

  lemma Join(raw: seq<u8>, a: nat, b: nat)
    requires a <= b <= |raw|
    ensures raw[0..a] + raw[a..b] == raw[0..b]
  {
  }

  // ---- the CONNECT line ----

  function Ascii(s: string): (r: seq<u8>)
    ensures |r| == |s|
  {
    seq(|s|, i requires 0 <= i < |s| => s[i] as int % 256)
  }

  predicate IsDigit(b: u8) {
    48 <= b <= 57
  }

  predicate AllDigits(s: seq<u8>) {
    forall i :: 0 <= i < |s| ==> IsDigit(s[i])
  }

  /** The number a digit string denotes, most significant digit first. */
  function DigitsValue(s: seq<u8>): nat
    requires AllDigits(s)
  {
    if s == [] then 0 else 10 * DigitsValue(s[..|s| - 1]) + (s[|s| - 1] - 48)
  }

  /** Decimal printing, as in `format!("{port}")`. */
  function Decimal(n: nat): (s: seq<u8>)
    ensures s != [] && AllDigits(s)
  {
    if n < 10 then [48 + n] else Decimal(n / 10) + [48 + n % 10]
  }

  lemma {:induction false} DecimalValue(n: nat)
    ensures DigitsValue(Decimal(n)) == n
  {
    if n < 10 {
      assert DigitsValue([]) == 0;
    } else {
      DecimalValue(n / 10);
      assert Decimal(n)[..|Decimal(n)| - 1] == Decimal(n / 10);
    }
  }

  function ConnectPrefix(): (r: seq<u8>)
    ensures r == [67, 79, 78, 78, 69, 67, 84, 32]
  {
    Ascii("CONNECT ")
  }

  /** `parse_connect`. */
  function ParseConnect(line: seq<u8>): Option<u32> {
    if !(ConnectPrefix() <= line) then None
    else
      var rest := line[8..];
      if rest == [] || !AllDigits(rest) then None
      else if DigitsValue(rest) >= M32 || DigitsValue(rest) == 0 then None
      else Some(DigitsValue(rest))
  }

  /** A line is accepted exactly when it is `CONNECT ` and the digits of a port in 1..2^32-1. */
  lemma ParseConnectAccepts(line: seq<u8>, port: u32)
    ensures ParseConnect(line) == Some(port) <==>
            port != 0 && exists ds: seq<u8> {:trigger AllDigits(ds)} ::
                           ds != [] && AllDigits(ds) && line == ConnectPrefix() + ds && DigitsValue(ds) == port
  {
    if ParseConnect(line) == Some(port) {
      var ds := line[8..];
      assert line == ConnectPrefix() + ds && AllDigits(ds);
    }
    forall ds: seq<u8> | ds != [] && AllDigits(ds) && line == ConnectPrefix() + ds && DigitsValue(ds) == port && port != 0
      ensures ParseConnect(line) == Some(port)
    {
      assert line[8..] == ds;
    }
  }

  /** So parsing inverts printing for every port a caller may name. */
  lemma ParseConnectInvertsPrinting(port: u32)
    ensures ParseConnect(ConnectPrefix() + Decimal(port)) == if port == 0 then None else Some(port)
  {
    DecimalValue(port);
    var line := ConnectPrefix() + Decimal(port);
    assert line[8..] == Decimal(port);
  }

  /** The acknowledgement line `on_response` queues for the host. */
  function OkLine(hostPort: u32): seq<u8> {
    Ascii("OK ") + Decimal(hostPort) + [10]
  }

  /** It is `OK `, the decimal digits of the port without leading zeros, and a newline. */
  lemma OkLineFormat(hostPort: u32) returns (ds: seq<u8>)
    ensures OkLine(hostPort) == [79, 75, 32] + ds + [10]
    ensures ds != [] && (forall i :: 0 <= i < |ds| ==> 48 <= ds[i] <= 57) && DigitsValue(ds) == hostPort
    ensures ds[0] == 48 ==> hostPort == 0 && |ds| == 1
  {
    ds := Decimal(hostPort);
    DecimalValue(hostPort);
    NoLeadingZero(hostPort);
    assert Ascii("OK ") == [79, 75, 32];
  }

  lemma {:induction false} NoLeadingZero(n: nat)
    ensures Decimal(n)[0] == 48 ==> n == 0
  {
    if n >= 10 {
      NoLeadingZero(n / 10);
    }
  }

  // ---- the line a connecting host sends ----

  /** Without the carriage return it may end in. */
  function StripCr(line: seq<u8>): seq<u8> {
    if line != [] && line[|line| - 1] == 13 then line[..|line| - 1] else line
  }

  /** The line is `CONNECT `, the digits of `port` and nothing else, or those and a carriage return. */
  predicate NamesPort(line: seq<u8>, ds: seq<u8>, port: u32) {
    && ds != [] && AllDigits(ds) && DigitsValue(ds) == port && port != 0
    && (line == ConnectPrefix() + ds || line == ConnectPrefix() + ds + [13])
  }

  lemma LinePorts(line: seq<u8>)
    ensures forall p: u32 :: ParseConnect(StripCr(line)) == Some(p) <==> exists ds :: NamesPort(line, ds, p)
  {
    forall p: u32 ensures ParseConnect(StripCr(line)) == Some(p) <==> exists ds :: NamesPort(line, ds, p) {
      LinePort(line, p);
    }
  }

  /** Both endings name the same port, and no other line names any. */
  lemma LinePort(line: seq<u8>, port: u32)
    ensures ParseConnect(StripCr(line)) == Some(port) <==> exists ds :: NamesPort(line, ds, port)
  {
    ParseConnectAccepts(StripCr(line), port);
    if ParseConnect(StripCr(line)) == Some(port) {
      var ds :| ds != [] && AllDigits(ds) && StripCr(line) == ConnectPrefix() + ds && DigitsValue(ds) == port;
      if line != StripCr(line) {
        assert line == StripCr(line) + [13];
      }
      assert NamesPort(line, ds, port);
    }
    if ds :| NamesPort(line, ds, port) {
      assert IsDigit(ds[|ds| - 1]);
      assert StripCr(line) == ConnectPrefix() + ds;
    }
  }
}
