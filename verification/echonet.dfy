/**
 * The ECHONET Lite frame codec of echonet.js: object identities (EOJ), the
 * format-1 frame (EHD1 = 0x10, EHD2 = 0x81), its serialisation into an
 * exactly-sized buffer, its parsing back from bytes, and the class-specific
 * interpretation of property payloads (EDT).
 */
module Echonet {
  import opened Wrappers
  import opened Utils

  // ================================================================ EchonetObject

  /** An ECHONET Lite object identity: class group code, class code, instance code. */
  datatype EchonetObject = EchonetObject(classGroupCode: uint8, classCode: uint8, instanceCode: uint8)

  /** The controller: this Wi-SUN node itself. */
  const Controller := EchonetObject(0x05, 0xFF, 0x01)
  /** The low-voltage smart electric energy meter, instance 1. */
  const SmartMeter := EchonetObject(0x02, 0x88, 0x01)
  /** The node profile object of a general node. */
  const NodeProfile := EchonetObject(0x0E, 0xF0, 0x01)

  /** `EchonetObject.equals`: compares the three codes in turn. */
  function Equals(a: EchonetObject, b: EchonetObject): (r: bool)
    ensures r <==> a == b
  {
    if a.classGroupCode != b.classGroupCode then false
    else if a.classCode != b.classCode then false
    else a.instanceCode == b.instanceCode
  }

  /** Two identities that differ only in their instance code are not equal. */
  lemma InstanceCodeDistinguishes(a: EchonetObject, i: uint8)
    requires i != a.instanceCode
    ensures !Equals(a, a.(instanceCode := i))
    ensures Equals(a, a) && (Equals(a, a.(instanceCode := i)) == Equals(a.(instanceCode := i), a))
  {
  }

  // ================================================================ Frame values

  /** One (EPC, PDC, EDT) triple; a preset's `EDT: null` is the empty payload. */
  datatype Property = Property(epc: uint8, pdc: uint8, edt: seq<uint8>)

  /** The part of a frame that its bytes carry besides the fixed header. */
  datatype FrameData = FrameData(seoj: EchonetObject, deoj: EchonetObject, esv: uint8, properties: seq<Property>)

  const EHD1: uint8 := 0x10
  const EHD2: uint8 := 0x81
  /** EHD1, EHD2, TID (2), SEOJ (3), DEOJ (3), ESV, OPC. */
  const HeaderSize: nat := 12

  /** Every EDT is exactly PDC bytes long. */
  predicate PayloadsMatch(ps: seq<Property>)
  {
    forall i :: 0 <= i < |ps| ==> |ps[i].edt| == ps[i].pdc
  }

  /** A frame the wire format can carry faithfully: OPC fits a byte and every EDT is PDC bytes long. */
  predicate WellFormed(f: FrameData)
  {
    |f.properties| < 256 && PayloadsMatch(f.properties)
  }

  /** Σ (2 + PDC): the bytes the properties take after the header. */
  function WireSize(ps: seq<Property>): nat
  {
    if ps == [] then 0 else 2 + ps[0].pdc + WireSize(ps[1..])
  }

  /** Byte `k` of a property's payload as `toBuffer` stores it: a missing EDT element is stored as 0. */
  function EdtByte(p: Property, k: nat): uint8
  {
    if k < |p.edt| then p.edt[k] else 0
  }

  /** The PDC payload bytes `toBuffer` writes: EDT[k] where EDT has one, else 0. */
  function Payload(p: Property): (b: seq<uint8>)
    ensures |b| == p.pdc
  {
    seq(p.pdc, k requires 0 <= k < p.pdc => EdtByte(p, k))
  }

  function PropertyBytes(p: Property): seq<uint8>
  {
    [p.epc, p.pdc] + Payload(p)
  }

  function PropertiesBytes(ps: seq<Property>): seq<uint8>
  {
    if ps == [] then [] else PropertyBytes(ps[0]) + PropertiesBytes(ps[1..])
  }

  function HeaderBytes(f: FrameData): seq<uint8>
  {
    [EHD1, EHD2, 0x00, 0x00,
     f.seoj.classGroupCode, f.seoj.classCode, f.seoj.instanceCode,
     f.deoj.classGroupCode, f.deoj.classCode, f.deoj.instanceCode,
     f.esv, |f.properties| % 256]
  }

  /** The bytes `Frame.toBuffer` produces for a frame. */
  function Encode(f: FrameData): seq<uint8>
  {
    HeaderBytes(f) + PropertiesBytes(f.properties)
  }

  datatype DecodeError = Truncated

  /**
   * The property loop of `Frame.from`: reads `count` triples starting at
   * `pos`, each advancing by 2 + PDC, appending to `acc`; yields the
   * properties and the position after the last one.
   */
  function DecodeProperties(buf: seq<uint8>, pos: nat, count: nat, acc: seq<Property>)
    : Result<(seq<Property>, nat), DecodeError>
    decreases count
  {
    if count == 0 then Success((acc, pos))
    else if pos + 2 > |buf| then Failure(Truncated)
    else
      var pdc := buf[pos + 1];
      if pos + 2 + pdc > |buf| then Failure(Truncated)
      else DecodeProperties(buf, pos + 2 + pdc, count - 1, acc + [Property(buf[pos], pdc, buf[pos + 2..pos + 2 + pdc])])
  }

  /**
   * The frame `Frame.from` parses out of `buf`. Bytes 0..3 (EHD1, EHD2, TID)
   * are not kept; byte 11 is only the number of triples to read. A buffer
   * shorter than the lengths it declares is rejected.
   */
  function Decode(buf: seq<uint8>): Result<FrameData, DecodeError>
  {
    if |buf| < HeaderSize then Failure(Truncated)
    else
      match DecodeProperties(buf, HeaderSize, buf[11], [])
      case Failure(e) => Failure(e)
      case Success((ps, _)) =>
        Success(FrameData(EchonetObject(buf[4], buf[5], buf[6]), EchonetObject(buf[7], buf[8], buf[9]), buf[10], ps))
  }

  // ---------------------------------------------------------------- lemmas on the wire format

  lemma {:induction false} WireSizeAppend(a: seq<Property>, b: seq<Property>)
    ensures WireSize(a + b) == WireSize(a) + WireSize(b)
    decreases |a|
  {
    if a != [] {
      WireSizeAppend(a[1..], b);
      assert (a + b)[0] == a[0];
      assert (a + b)[1..] == a[1..] + b;
      assert WireSize(a + b) == 2 + a[0].pdc + WireSize(a[1..] + b);
    } else {
      assert a + b == b;
    }
  }

  lemma {:induction false} PropertiesBytesAppend(a: seq<Property>, b: seq<Property>)
    ensures PropertiesBytes(a + b) == PropertiesBytes(a) + PropertiesBytes(b)
    decreases |a|
  {
    if a != [] {
      PropertiesBytesAppend(a[1..], b);
      assert (a + b)[0] == a[0];
      assert (a + b)[1..] == a[1..] + b;
      var x := PropertyBytes(a[0]);
      assert PropertiesBytes(a + b) == x + PropertiesBytes(a[1..] + b);
      assert PropertiesBytes(a) == x + PropertiesBytes(a[1..]);
    } else {
      assert a + b == b;
    }
  }

  lemma {:induction false} PropertiesBytesLength(ps: seq<Property>)
    ensures |PropertiesBytes(ps)| == WireSize(ps)
    decreases |ps|
  {
    if ps != [] {
      PropertiesBytesLength(ps[1..]);
    }
  }

  /** `toBuffer` returns exactly 12 + Σ (2 + PDC) bytes. */
  lemma EncodeLength(f: FrameData)
    ensures |Encode(f)| == HeaderSize + WireSize(f.properties)
  {
    PropertiesBytesLength(f.properties);
  }

  /** Concatenation puts its middle operand at offset |a|. */
  lemma SliceOfMiddle<T>(a: seq<T>, b: seq<T>, c: seq<T>)
    ensures (a + b + c)[|a|..|a| + |b|] == b
    ensures forall k :: 0 <= k < |b| ==> (a + b + c)[|a| + k] == b[k]
  {
    assert (a + b + c)[|a|..|a| + |b|] == b;
  }

  /** The encoding with property `j` singled out. */
  lemma EncodeSplitAt(f: FrameData, j: nat)
    requires j < |f.properties|
    ensures var ps := f.properties;
      Encode(f) == (HeaderBytes(f) + PropertiesBytes(ps[..j])) + PropertyBytes(ps[j]) + PropertiesBytes(ps[j + 1..])
  {
    var ps := f.properties;
    var rest := [ps[j]] + ps[j + 1..];
    assert ps == ps[..j] + rest;
    PropertiesBytesAppend(ps[..j], rest);
    assert rest[0] == ps[j] && rest[1..] == ps[j + 1..];
    assert PropertiesBytes(rest) == PropertyBytes(ps[j]) + PropertiesBytes(ps[j + 1..]);
  }

  /** The first twelve bytes of the encoding are the header. */
  lemma EncodeHeader(f: FrameData)
    ensures |Encode(f)| >= HeaderSize && Encode(f)[..HeaderSize] == HeaderBytes(f)
  {
  }

  /** Byte `2 + t` of a property's encoding is payload byte `t`. */
  lemma PropertyBytesAt(p: Property, t: nat)
    requires t < p.pdc
    ensures PropertyBytes(p)[2 + t] == EdtByte(p, t)
  {
  }

  /** Property `j` of `Encode(f)`, byte by byte: it starts at `at` = 12 + WireSize(properties[..j]). */
  lemma EncodedPropertyAt(f: FrameData, j: nat, at: nat)
    requires j < |f.properties| && at == HeaderSize + WireSize(f.properties[..j])
    ensures at + 2 + f.properties[j].pdc <= |Encode(f)|
    ensures Encode(f)[at] == f.properties[j].epc && Encode(f)[at + 1] == f.properties[j].pdc
    ensures forall t :: 0 <= t < f.properties[j].pdc ==> Encode(f)[at + 2 + t] == EdtByte(f.properties[j], t)
  {
    var ps := f.properties;
    var p := ps[j];
    var before := HeaderBytes(f) + PropertiesBytes(ps[..j]);
    PropertiesBytesLength(ps[..j]);
    EncodeSplitAt(f, j);
    var pb := PropertyBytes(p);
    var whole := before + pb + PropertiesBytes(ps[j + 1..]);
    SliceOfMiddle(before, pb, PropertiesBytes(ps[j + 1..]));
    assert |before| == at && Encode(f) == whole;
    assert pb[0] == p.epc && pb[1] == p.pdc;
    assert whole[at + 0] == pb[0] && whole[at + 1] == pb[1];
    forall t | 0 <= t < p.pdc
      ensures Encode(f)[at + 2 + t] == EdtByte(p, t)
    {
      PropertyBytesAt(p, t);
      assert whole[at + (2 + t)] == pb[2 + t];
    }
  }

  /**
   * The layout of `toBuffer`'s output: the fixed header, SEOJ, DEOJ, ESV and
   * OPC, then property `j` at offset 12 + WireSize(properties[..j]) as EPC,
   * PDC and PDC payload bytes (EDT, or 0 past its end), with no padding.
   */
  lemma EncodeLayout(f: FrameData, j: nat)
    requires j < |f.properties|
    ensures var b := Encode(f); var p := f.properties[j]; var at := HeaderSize + WireSize(f.properties[..j]);
      |b| == HeaderSize + WireSize(f.properties) &&
      b[..4] == [0x10, 0x81, 0x00, 0x00] &&
      b[4..7] == [f.seoj.classGroupCode, f.seoj.classCode, f.seoj.instanceCode] &&
      b[7..10] == [f.deoj.classGroupCode, f.deoj.classCode, f.deoj.instanceCode] &&
      b[10] == f.esv && b[11] == |f.properties| % 256 &&
      at + 2 + p.pdc <= |b| && b[at] == p.epc && b[at + 1] == p.pdc &&
      forall t :: 0 <= t < p.pdc ==> b[at + 2 + t] == EdtByte(p, t)
  {
    var b := Encode(f);
    EncodeLength(f);
    EncodeHeader(f);
    var h := b[..HeaderSize];
    assert h == HeaderBytes(f);
    assert b[..4] == h[..4] == [0x10, 0x81, 0x00, 0x00];
    assert b[4..7] == h[4..7] == [f.seoj.classGroupCode, f.seoj.classCode, f.seoj.instanceCode];
    assert b[7..10] == h[7..10] == [f.deoj.classGroupCode, f.deoj.classCode, f.deoj.instanceCode];
    assert b[10] == h[10] && b[11] == h[11];
    EncodedPropertyAt(f, j, HeaderSize + WireSize(f.properties[..j]));
  }

  /**
   * `buf` holds the triples of `ps` one after the other from `pos` on: EPC,
   * PDC, then exactly the PDC bytes of EDT.
   */
  ghost predicate EncodedAt(buf: seq<uint8>, pos: nat, ps: seq<Property>)
    decreases |ps|
  {
    ps == [] ||
    (pos + 2 + ps[0].pdc <= |buf| && |ps[0].edt| == ps[0].pdc &&
     buf[pos] == ps[0].epc && buf[pos + 1] == ps[0].pdc &&
     (forall t :: 0 <= t < ps[0].pdc ==> buf[pos + 2 + t] == ps[0].edt[t]) &&
     EncodedAt(buf, pos + 2 + ps[0].pdc, ps[1..]))
  }

  /** The property loop reads back triples laid out as `EncodedAt` says. */
  lemma {:induction false} DecodeEncodedAt(buf: seq<uint8>, pos: nat, ps: seq<Property>, acc: seq<Property>)
    requires EncodedAt(buf, pos, ps)
    ensures DecodeProperties(buf, pos, |ps|, acc) == Success((acc + ps, pos + WireSize(ps)))
    decreases |ps|
  {
    if ps == [] {
      assert acc + ps == acc;
    } else {
      var p := ps[0];
      assert buf[pos + 2..pos + 2 + p.pdc] == p.edt;
      assert Property(buf[pos], buf[pos + 1], buf[pos + 2..pos + 2 + buf[pos + 1]]) == p;
      DecodeEncodedAt(buf, pos + 2 + p.pdc, ps[1..], acc + [p]);
      ConsTail(acc, ps);
    }
  }

  /** Encoded well-formed triples, wherever they sit in a buffer, are laid out as `EncodedAt` says. */
  lemma {:induction false} EncodedAtOfBytes(buf: seq<uint8>, pos: nat, ps: seq<Property>, w: seq<uint8>)
    requires PayloadsMatch(ps) && w == PropertiesBytes(ps) && pos + |w| <= |buf|
    requires forall k :: 0 <= k < |w| ==> buf[pos + k] == w[k]
    ensures EncodedAt(buf, pos, ps)
    decreases |ps|
  {
    if ps != [] {
      var p := ps[0];
      var tail := PropertiesBytes(ps[1..]);
      var next := pos + 2 + p.pdc;
      PayloadOfWellFormed(p);
      assert w == [p.epc, p.pdc] + p.edt + tail;
      assert buf[pos] == w[0] && buf[pos + 1] == w[1];
      forall t | 0 <= t < p.pdc
        ensures buf[pos + 2 + t] == p.edt[t]
      {
        assert buf[pos + (2 + t)] == w[2 + t];
      }
      forall k | 0 <= k < |tail|
        ensures buf[next + k] == tail[k]
      {
        assert buf[pos + (2 + p.pdc + k)] == w[2 + p.pdc + k];
      }
      EncodedAtOfBytes(buf, next, ps[1..], tail);
    }
  }

  /** Decoding the encoding of a property list, wherever it sits in a buffer, gives the list back. */
  lemma DecodePropertiesOfEncoding(buf: seq<uint8>, prefix: seq<uint8>, ps: seq<Property>, rest: seq<uint8>, acc: seq<Property>)
    requires PayloadsMatch(ps) && buf == prefix + PropertiesBytes(ps) + rest
    ensures DecodeProperties(buf, |prefix|, |ps|, acc) == Success((acc + ps, |prefix| + WireSize(ps)))
  {
    SliceOfMiddle(prefix, PropertiesBytes(ps), rest);
    EncodedAtOfBytes(buf, |prefix|, ps, PropertiesBytes(ps));
    DecodeEncodedAt(buf, |prefix|, ps, acc);
  }

  lemma ConsTail<T>(acc: seq<T>, xs: seq<T>)
    requires xs != []
    ensures acc + [xs[0]] + xs[1..] == acc + xs
  {
    assert xs == [xs[0]] + xs[1..];
  }

  lemma PayloadOfWellFormed(p: Property)
    requires |p.edt| == p.pdc
    ensures Payload(p) == p.edt && PropertyBytes(p) == [p.epc, p.pdc] + p.edt
  {
  }

  /** A buffer that starts with the header of `f` and then holds its triples decodes to `f`. */
  lemma DecodeOfParts(buf: seq<uint8>, f: FrameData, rest: seq<uint8>)
    requires WellFormed(f) && buf == HeaderBytes(f) + PropertiesBytes(f.properties) + rest
    ensures Decode(buf) == Success(f)
  {
    var ps := f.properties;
    var h := HeaderBytes(f);
    DecodePropertiesOfEncoding(buf, h, ps, rest, []);
    assert [] + ps == ps;
    assert buf[..HeaderSize] == h;
    assert buf[11] == h[11] == |ps|;
    assert buf[4] == h[4] && buf[5] == h[5] && buf[6] == h[6];
    assert buf[7] == h[7] && buf[8] == h[8] && buf[9] == h[9] && buf[10] == h[10];
  }

  /** Round trip: `Frame.from(f.toBuffer())` gives back SEOJ, DEOJ, ESV and the properties, in order. */
  lemma DecodeEncode(f: FrameData)
    requires WellFormed(f)
    ensures Decode(Encode(f)) == Success(f)
  {
    assert Encode(f) == HeaderBytes(f) + PropertiesBytes(f.properties) + [];
    DecodeOfParts(Encode(f), f, []);
  }

  /** Bytes after the encoded frame are ignored. */
  lemma DecodeIgnoresTrailingBytes(f: FrameData, rest: seq<uint8>)
    requires WellFormed(f)
    ensures Decode(Encode(f) + rest) == Success(f)
  {
    DecodeOfParts(Encode(f) + rest, f, rest);
  }

  /** Bytes 0..3 (EHD1, EHD2, TID) play no part in decoding. */
  lemma DecodeIgnoresHeaderBytes(buf: seq<uint8>, h: seq<uint8>)
    requires |buf| >= 4 && |h| == 4
    ensures Decode(h + buf[4..]) == Decode(buf)
  {
    var buf' := h + buf[4..];
    assert |buf'| == |buf|;
    assert forall k :: 4 <= k < |buf| ==> buf'[k] == buf[k];
    if |buf| >= HeaderSize {
      DecodePropertiesSameTail(buf', buf, HeaderSize, buf[11], []);
    }
  }

  lemma {:induction false} DecodePropertiesSameTail(b1: seq<uint8>, b2: seq<uint8>, pos: nat, count: nat, acc: seq<Property>)
    requires |b1| == |b2| && forall k :: pos <= k < |b1| ==> b1[k] == b2[k]
    ensures DecodeProperties(b1, pos, count, acc) == DecodeProperties(b2, pos, count, acc)
    decreases count
  {
    if count > 0 && pos + 2 <= |b1| {
      var pdc := b1[pos + 1];
      if pos + 2 + pdc <= |b1| {
        assert b1[pos + 2..pos + 2 + pdc] == b2[pos + 2..pos + 2 + pdc];
        DecodePropertiesSameTail(b1, b2, pos + 2 + pdc, count - 1, acc + [Property(b1[pos], pdc, b1[pos + 2..pos + 2 + pdc])]);
      }
    }
  }

  /** What a successful property loop read: exactly `count` triples, laid out from `pos` as `EncodedAt` says. */
  lemma {:induction false} DecodePropertiesRead(buf: seq<uint8>, pos: nat, count: nat, acc: seq<Property>)
    requires DecodeProperties(buf, pos, count, acc).Success?
    ensures var (ps, end) := DecodeProperties(buf, pos, count, acc).value;
      |ps| == |acc| + count && ps[..|acc|] == acc &&
      EncodedAt(buf, pos, ps[|acc|..]) && end == pos + WireSize(ps[|acc|..])
    decreases count
  {
    var (ps, end) := DecodeProperties(buf, pos, count, acc).value;
    if count == 0 {
      assert ps[|acc|..] == [];
    } else {
      var pdc := buf[pos + 1];
      var p := Property(buf[pos], pdc, buf[pos + 2..pos + 2 + pdc]);
      DecodePropertiesRead(buf, pos + 2 + pdc, count - 1, acc + [p]);
      assert ps[..|acc|] == ps[..|acc| + 1][..|acc|];
      var read := ps[|acc|..];
      assert read[0] == p && read[1..] == ps[|acc| + 1..];
      assert forall t :: 0 <= t < pdc ==> buf[pos + 2 + t] == p.edt[t];
      assert EncodedAt(buf, pos, read);
      assert WireSize(read) == 2 + pdc + WireSize(ps[|acc| + 1..]);
    }
  }

  /** Triples laid out as `EncodedAt` says are well formed, and the buffer holds their encoding byte for byte. */
  lemma {:induction false} BytesOfEncodedAt(buf: seq<uint8>, pos: nat, ps: seq<Property>)
    requires pos <= |buf| && EncodedAt(buf, pos, ps)
    ensures PayloadsMatch(ps) && pos + WireSize(ps) <= |buf| && |PropertiesBytes(ps)| == WireSize(ps)
    ensures forall k :: 0 <= k < WireSize(ps) ==> buf[pos + k] == PropertiesBytes(ps)[k]
    decreases |ps|
  {
    PropertiesBytesLength(ps);
    if ps != [] {
      var p := ps[0];
      var next := pos + 2 + p.pdc;
      var tail := PropertiesBytes(ps[1..]);
      BytesOfEncodedAt(buf, next, ps[1..]);
      PayloadOfWellFormed(p);
      var w := PropertiesBytes(ps);
      assert w == [p.epc, p.pdc] + p.edt + tail;
      forall k | 0 <= k < WireSize(ps)
        ensures buf[pos + k] == w[k]
      {
        if k < 2 {
        } else if k < 2 + p.pdc {
          assert buf[pos + 2 + (k - 2)] == p.edt[k - 2];
        } else {
          assert buf[next + (k - 2 - p.pdc)] == tail[k - 2 - p.pdc];
        }
      }
      forall i | 0 <= i < |ps|
        ensures |ps[i].edt| == ps[i].pdc
      {
        if i > 0 {
          assert ps[i] == ps[1..][i - 1];
        }
      }
    }
  }

  /**
   * Every successful decode reads OPC = buf[11] well-formed triples, and
   * re-encoding the result reproduces the buffer up to the end of the
   * last property, except that EHD1, EHD2 and TID come out as 0x10 0x81 0x00 0x00.
   */
  lemma EncodeDecode(buf: seq<uint8>)
    requires Decode(buf).Success?
    ensures var f := Decode(buf).value;
      WellFormed(f) && |f.properties| == buf[11] &&
      HeaderSize + WireSize(f.properties) <= |buf| &&
      Encode(f) == [EHD1, EHD2, 0x00, 0x00] + buf[4..HeaderSize + WireSize(f.properties)]
  {
    var (ps, _) := DecodeProperties(buf, HeaderSize, buf[11], []).value;
    DecodePropertiesRead(buf, HeaderSize, buf[11], []);
    assert ps[0..] == ps;
    var f := FrameData(EchonetObject(buf[4], buf[5], buf[6]), EchonetObject(buf[7], buf[8], buf[9]), buf[10], ps);
    assert Decode(buf).value == f;
    EncodeOfRead(buf, f);
  }

  /** A frame whose header fields and triples are those `buf` holds is well formed, and encodes to a prefix of `buf`. */
  lemma EncodeOfRead(buf: seq<uint8>, f: FrameData)
    requires |buf| >= HeaderSize && |f.properties| == buf[11] && EncodedAt(buf, HeaderSize, f.properties)
    requires f.seoj == EchonetObject(buf[4], buf[5], buf[6]) && f.deoj == EchonetObject(buf[7], buf[8], buf[9]) && f.esv == buf[10]
    ensures WellFormed(f) && HeaderSize + WireSize(f.properties) <= |buf|
    ensures Encode(f) == [EHD1, EHD2, 0x00, 0x00] + buf[4..HeaderSize + WireSize(f.properties)]
  {
    BytesOfEncodedAt(buf, HeaderSize, f.properties);
    var hb := HeaderBytes(f);
    forall k | 4 <= k < HeaderSize
      ensures hb[k] == buf[k]
    {
    }
    EncodeMatches(f, buf);
  }

  /** A frame whose header agrees with `buf` from byte 4 on and whose triples follow in `buf` encodes to that prefix. */
  lemma EncodeMatches(f: FrameData, buf: seq<uint8>)
    requires HeaderSize + WireSize(f.properties) <= |buf| && |PropertiesBytes(f.properties)| == WireSize(f.properties)
    requires forall k :: 4 <= k < HeaderSize ==> HeaderBytes(f)[k] == buf[k]
    requires forall k :: 0 <= k < WireSize(f.properties) ==> buf[HeaderSize + k] == PropertiesBytes(f.properties)[k]
    ensures Encode(f) == [EHD1, EHD2, 0x00, 0x00] + buf[4..HeaderSize + WireSize(f.properties)]
  {
    var end := HeaderSize + WireSize(f.properties);
    var hb, pb := HeaderBytes(f), PropertiesBytes(f.properties);
    var e := Encode(f);
    var r := [EHD1, EHD2, 0x00, 0x00] + buf[4..end];
    assert |e| == |r| == end;
    forall t | 0 <= t < end
      ensures e[t] == r[t]
    {
      if t < 4 {
        assert e[t] == hb[t];
      } else {
        assert r[t] == buf[4..end][t - 4] == buf[t];
        if t < HeaderSize {
          assert e[t] == hb[t];
        } else {
          assert e[t] == pb[t - HeaderSize];
          assert buf[HeaderSize + (t - HeaderSize)] == pb[t - HeaderSize];
        }
      }
    }
  }

  /** From `pos` on, `buf` ends inside the triples of `ps`, and every PDC it still holds is the one of `ps`. */
  ghost predicate CutAt(buf: seq<uint8>, pos: nat, ps: seq<Property>)
    decreases |ps|
  {
    ps != [] &&
    (pos + 2 <= |buf| ==> buf[pos + 1] == ps[0].pdc) &&
    (pos + 2 + ps[0].pdc <= |buf| ==> CutAt(buf, pos + 2 + ps[0].pdc, ps[1..]))
  }

  /** The property loop fails on a cut-off list instead of returning part of it. */
  lemma {:induction false} DecodeCutAt(buf: seq<uint8>, pos: nat, ps: seq<Property>, acc: seq<Property>)
    requires CutAt(buf, pos, ps)
    ensures DecodeProperties(buf, pos, |ps|, acc).Failure?
    decreases |ps|
  {
    var pdc := ps[0].pdc;
    if pos + 2 + pdc <= |buf| {
      DecodeCutAt(buf, pos + 2 + pdc, ps[1..], acc + [Property(buf[pos], pdc, buf[pos + 2..pos + 2 + pdc])]);
    }
  }

  /** A buffer that ends inside encoded triples is cut off as `CutAt` says. */
  lemma {:induction false} CutAtOfBytes(buf: seq<uint8>, pos: nat, ps: seq<Property>, w: seq<uint8>)
    requires w == PropertiesBytes(ps) && pos <= |buf| < pos + |w|
    requires forall k :: 0 <= k < |buf| - pos ==> buf[pos + k] == w[k]
    ensures CutAt(buf, pos, ps)
    decreases |ps|
  {
    var p := ps[0];
    var tail := PropertiesBytes(ps[1..]);
    var next := pos + 2 + p.pdc;
    assert w == [p.epc, p.pdc] + Payload(p) + tail;
    if pos + 2 <= |buf| {
      assert buf[pos + 1] == w[1];
    }
    if next <= |buf| {
      forall k | 0 <= k < |buf| - next
        ensures buf[next + k] == tail[k]
      {
        assert buf[pos + (2 + p.pdc + k)] == w[2 + p.pdc + k];
      }
      CutAtOfBytes(buf, next, ps[1..], tail);
    }
  }

  /** A frame whose encoding is cut short anywhere fails to decode. */
  lemma DecodeRejectsTruncated(f: FrameData, k: nat)
    requires WellFormed(f) && k < |Encode(f)|
    ensures Decode(Encode(f)[..k]).Failure?
  {
    if k >= HeaderSize {
      var b := Encode(f)[..k];
      var w := PropertiesBytes(f.properties);
      assert b[11] == HeaderBytes(f)[11] == |f.properties|;
      forall t | 0 <= t < |b| - HeaderSize
        ensures b[HeaderSize + t] == w[t]
      {
        assert b[HeaderSize + t] == Encode(f)[HeaderSize + t];
      }
      CutAtOfBytes(b, HeaderSize, f.properties, w);
      DecodeCutAt(b, HeaderSize, f.properties, []);
    }
  }

  // ================================================================ Frame presets

  /** ESV 0x62: property value read request. */
  const ReadRequest: uint8 := 0x62

  /** A preset: the controller asks the smart meter for one property, with no payload. */
  function Preset(epc: uint8): FrameData
  {
    FrameData(Controller, SmartMeter, ReadRequest, [Property(epc, 0, [])])
  }

  /** The presets: instantaneous power (E7), cumulative energy forward (EA) and reverse (EB). */
  const InstantaneousPowerRequest := Preset(0xE7)
  const ForwardEnergyRequest := Preset(0xEA)
  const ReverseEnergyRequest := Preset(0xEB)

  /** Each preset is the 14-byte request `10 81 0000 05FF01 028801 62 01 EPC 00`, and reads back as itself. */
  lemma PresetBytes(epc: uint8)
    ensures Encode(Preset(epc)) == [0x10, 0x81, 0x00, 0x00, 0x05, 0xFF, 0x01, 0x02, 0x88, 0x01, 0x62, 0x01, epc, 0x00]
    ensures Decode(Encode(Preset(epc))) == Success(Preset(epc))
  {
    var f := Preset(epc);
    assert Payload(f.properties[0]) == [];
    assert PropertiesBytes(f.properties[1..]) == [];
    DecodeEncode(f);
  }

  // ================================================================ Frame

  /** An ECHONET Lite frame object; its setters and `addProperty` keep OPC equal to the property count. */
  class Frame {
    var ehd1: uint8
    var ehd2: uint8
    var tid: seq<uint8>
    var seoj: EchonetObject
    var deoj: EchonetObject
    var esv: uint8
    var opc: nat
    var properties: seq<Property>

    /** Nothing assigns EHD1, EHD2 or TID after construction, and OPC always counts the properties. */
    ghost predicate Valid()
      reads this
    {
      ehd1 == EHD1 && ehd2 == EHD2 && tid == [0x00, 0x00] && opc == |properties|
    }

    function Data(): FrameData
      reads this
    {
      FrameData(seoj, deoj, esv, properties)
    }

    constructor ()
      ensures Valid()
      ensures Data() == FrameData(EchonetObject(0, 0, 0), EchonetObject(0, 0, 0), 0, [])
    {
      ehd1, ehd2, tid := EHD1, EHD2, [0x00, 0x00];
      seoj, deoj := EchonetObject(0, 0, 0), EchonetObject(0, 0, 0);
      esv, opc, properties := 0, 0, [];
    }

    /** The `properties` setter. */
    method SetProperties(ps: seq<Property>)
      requires Valid()
      modifies this
      ensures Valid() && opc == |ps|
      ensures Data() == old(Data()).(properties := ps)
    {
      properties := ps;
      opc := |properties|;
    }

    /** `addProperty`: appends one triple at the end and recounts OPC. */
    method AddProperty(epc: uint8, pdc: uint8, edt: seq<uint8>)
      requires Valid()
      modifies this
      ensures Valid() && opc == old(opc) + 1
      ensures Data() == old(Data()).(properties := old(properties) + [Property(epc, pdc, edt)])
    {
      properties := properties + [Property(epc, pdc, edt)];
      opc := |properties|;
    }

    /** `Frame.create`: a frame with the given objects, service and properties. */
    static method Create(seoj: EchonetObject, deoj: EchonetObject, esv: uint8, ps: seq<Property>) returns (frame: Frame)
      ensures fresh(frame) && frame.Valid() && frame.opc == |ps|
      ensures frame.Data() == FrameData(seoj, deoj, esv, ps)
    {
      frame := new Frame();
      frame.seoj := seoj;
      frame.deoj := deoj;
      frame.esv := esv;
      frame.SetProperties(ps);
    }

    /** `toBuffer`: sizes the buffer first, then fills it through a running index. */
    method ToBuffer() returns (buffer: array<uint8>)
      requires Valid()
      ensures fresh(buffer)
      ensures buffer[..] == Encode(Data())
    {
      var length := BufferLength();
      buffer := new uint8[length];
      ghost var f := Data();
      ghost var encoding := Encode(f);
      EncodeLength(f);
      WriteHeader(buffer);
      var i := 12;
      assert encoding[..HeaderSize] == HeaderBytes(f);
      assert forall t :: 0 <= t < i ==> buffer[t] == encoding[t];

      var j := 0;
      while j < opc
        invariant 0 <= j <= opc
        invariant buffer.Length == |encoding|
        invariant i == HeaderSize + WireSize(properties[..j]) <= buffer.Length
        invariant forall t :: 0 <= t < i ==> buffer[t] == encoding[t]
      {
        var property := properties[j];
        assert f.properties == properties;
        EncodedPropertyAt(f, j, i);
        i := WriteProperty(buffer, i, property, encoding);
        assert properties[..j + 1] == properties[..j] + [property];
        WireSizeAppend(properties[..j], [property]);
        j := j + 1;
      }
      assert properties[..j] == properties;
      assert i == buffer.Length;
      forall t | 0 <= t < |encoding|
        ensures buffer[..][t] == encoding[t]
      {
        assert buffer[t] == encoding[t];
      }
      assert Data() == f;
    }

    /** The first loop of `toBuffer`: the header size plus two bytes and PDC bytes per property. */
    method BufferLength() returns (length: nat)
      ensures length == HeaderSize + WireSize(properties)
    {
      length := 1 + 1 + 2 + 3 + 3 + 1 + 1;
      var n := 0;
      while n < |properties|
        invariant 0 <= n <= |properties|
        invariant length == HeaderSize + WireSize(properties[..n])
      {
        assert properties[..n + 1] == properties[..n] + [properties[n]];
        WireSizeAppend(properties[..n], [properties[n]]);
        length := length + 2 + properties[n].pdc;
        n := n + 1;
      }
      assert properties[..n] == properties;
    }

    /** The first twelve stores of `toBuffer`: EHD1, EHD2, TID, SEOJ, DEOJ, ESV and OPC (one byte). */
    method WriteHeader(buffer: array<uint8>)
      requires Valid() && buffer.Length >= HeaderSize
      modifies buffer
      ensures forall t :: 0 <= t < HeaderSize ==> buffer[t] == HeaderBytes(Data())[t]
      ensures forall t :: HeaderSize <= t < buffer.Length ==> buffer[t] == old(buffer[t])
    {
      ghost var h := HeaderBytes(Data());
      buffer[0], buffer[1], buffer[2], buffer[3] := ehd1, ehd2, tid[0], tid[1];
      buffer[4], buffer[5], buffer[6] := seoj.classGroupCode, seoj.classCode, seoj.instanceCode;
      buffer[7], buffer[8], buffer[9] := deoj.classGroupCode, deoj.classCode, deoj.instanceCode;
      buffer[10], buffer[11] := esv, opc % 256;
      assert buffer[..HeaderSize] == h;
    }

    /**
     * The body of `toBuffer`'s property loop: EPC, PDC, then PDC bytes of EDT
     * from `at` on. Given that `expected` holds exactly those bytes there,
     * the buffer agrees with `expected` up to the end of the property.
     */
    static method WriteProperty(buffer: array<uint8>, at: nat, property: Property, ghost expected: seq<uint8>)
      returns (i: nat)
      requires at + 2 + property.pdc <= buffer.Length && at + 2 + property.pdc <= |expected|
      requires expected[at] == property.epc && expected[at + 1] == property.pdc
      requires forall t :: 0 <= t < property.pdc ==> expected[at + 2 + t] == EdtByte(property, t)
      requires forall t :: 0 <= t < at ==> buffer[t] == expected[t]
      modifies buffer
      ensures i == at + 2 + property.pdc
      ensures forall t :: 0 <= t < i ==> buffer[t] == expected[t]
    {
      i := at;
      buffer[i] := property.epc;
      i := i + 1;
      buffer[i] := property.pdc;
      i := i + 1;
      var k := 0;
      while k < property.pdc
        invariant 0 <= k <= property.pdc && i == at + 2 + k
        invariant forall t :: 0 <= t < i ==> buffer[t] == expected[t]
      {
        assert expected[i] == EdtByte(property, k) by {
          assert expected[at + 2 + k] == EdtByte(property, k);
        }
        buffer[i] := EdtByte(property, k);
        i := i + 1;
        k := k + 1;
      }
    }

    /**
     * `Frame.from`: walks the buffer with a running index and adds each
     * triple with `addProperty`. The model rejects a buffer shorter than
     * the lengths it declares instead of reading past its end.
     */
    static method From(buffer: seq<uint8>) returns (r: Result<Frame, DecodeError>)
      ensures r.Success? <==> Decode(buffer).Success?
      ensures r.Success? ==> fresh(r.value) && r.value.Valid() && r.value.Data() == Decode(buffer).value
    {
      var frame := new Frame();
      if |buffer| < HeaderSize {
        return Failure(Truncated);
      }
      // bytes 0..3 land in ad-hoc properties EHD1, EHD2 and TID that nothing reads
      var i := 4;
      frame.seoj := EchonetObject(buffer[i], buffer[i + 1], buffer[i + 2]);
      i := i + 3;
      frame.deoj := EchonetObject(buffer[i], buffer[i + 1], buffer[i + 2]);
      i := i + 3;
      frame.esv := buffer[i];
      i := i + 1;
      var declared := buffer[i];
      i := i + 1;

      var read := frame.ReadProperties(buffer, i, declared);
      if read.Failure? {
        return Failure(read.error);
      }
      // the OPC-mismatch report cannot fire: AddProperty keeps OPC == |properties|
      r := Success(frame);
    }

    /**
     * The loop of `Frame.from`: `count` EPC, PDC, EDT triples from `pos` on,
     * each appended with `addProperty`.
     */
    method ReadProperties(buffer: seq<uint8>, pos: nat, count: nat) returns (r: Result<nat, DecodeError>)
      requires Valid()
      modifies this
      ensures Valid()
      ensures r.Success? <==> DecodeProperties(buffer, pos, count, old(properties)).Success?
      ensures r.Success? ==> Data() == old(Data()).(properties := DecodeProperties(buffer, pos, count, old(properties)).value.0)
      ensures r.Success? ==> r.value == DecodeProperties(buffer, pos, count, old(properties)).value.1
    {
      var i: nat := pos;
      var j: nat := 0;
      while j < count
        invariant 0 <= j <= count
        invariant Valid() && Data() == old(Data()).(properties := properties)
        invariant DecodeProperties(buffer, pos, count, old(properties)) == DecodeProperties(buffer, i, count - j, properties)
      {
        if i + 2 > |buffer| {
          return Failure(Truncated);
        }
        var epc := buffer[i];
        var pdc := buffer[i + 1];
        i := i + 2;
        if i + pdc > |buffer| {
          return Failure(Truncated);
        }
        var edt := buffer[i..i + pdc];
        i := i + pdc;
        AddProperty(epc, pdc, edt);
        j := j + 1;
      }
      r := Success(i);
    }
  }

  // ================================================================ parseProperty

  /** The values `parseProperty` produces; the unit is fixed by the kind (W, kWh, none). */
  datatype Reading =
    | InstantaneousPower(watts: int)
    | CumulativeEnergy(reverse: bool, year: nat, month: uint8, day: uint8,
                       hour: uint8, minute: uint8, second: uint8, value: nat)
    | InstanceList(instances: seq<ListedObject>)

  /**
   * One entry of the 0xD5 instance list. Each code is the EDT byte it is read
   * from, or `None` where EDT ends before it: the `undefined` that indexing
   * past the end of an array yields.
   */
  datatype ListedObject = ListedObject(classGroupCode: Option<uint8>, classCode: Option<uint8>, instanceCode: Option<uint8>)

  /**
   * `invalid EPC` errors, and the RangeError of a DataView read beyond a short
   * meter payload (EPC 0xE7, 0xEA, 0xEB). The 0xD5 list only indexes EDT and
   * never fails.
   */
  datatype ParseError = InvalidEpc(epc: uint8) | ShortPayload

  /** Big-endian unsigned value of a byte sequence. */
  function BigEndian(bytes: seq<uint8>): nat
  {
    if bytes == [] then 0 else BigEndian(bytes[..|bytes| - 1]) * 256 + bytes[|bytes| - 1]
  }

  /** `DataView.getInt32(0)`: the big-endian two's-complement value of four bytes. */
  function Int32(bytes: seq<uint8>): int
    requires |bytes| == 4
  {
    var u := BigEndian(bytes);
    if u >= 0x8000_0000 then u - 0x1_0000_0000 else u
  }

  predicate IsMeter(eoj: EchonetObject)
  {
    eoj.classGroupCode == 0x02 && eoj.classCode == 0x88
  }

  predicate IsNodeProfile(eoj: EchonetObject)
  {
    eoj.classGroupCode == 0x0E && eoj.classCode == 0xF0 && (eoj.instanceCode == 0x01 || eoj.instanceCode == 0x02)
  }

  /** `EDT[k]`: the byte, or `undefined` past the end. */
  function EdtAt(edt: seq<uint8>, k: nat): Option<uint8>
  {
    if k < |edt| then Some(edt[k]) else None
  }

  /** The i-th identity of the 0xD5 list, read from EDT[3i+1..3i+4). */
  function Listed(edt: seq<uint8>, i: nat): ListedObject
  {
    ListedObject(EdtAt(edt, 3 * i + 1), EdtAt(edt, 3 * i + 2), EdtAt(edt, 3 * i + 3))
  }

  /**
   * The instance list of EPC 0xD5: EDT[0] entries. An empty EDT has
   * `undefined` as its count, and `i < undefined` never holds.
   */
  function Instances(edt: seq<uint8>): seq<ListedObject>
  {
    if edt == [] then [] else seq(edt[0], i requires 0 <= i < edt[0] => Listed(edt, i))
  }

  function Cumulative(reverse: bool, edt: seq<uint8>): Reading
    requires |edt| >= 11
  {
    CumulativeEnergy(reverse, BigEndian(edt[0..2]), edt[2], edt[3], edt[4], edt[5], edt[6], BigEndian(edt[7..11]))
  }

  /**
   * What `Frame.parseProperty(eoj, property)` yields: `None` for `null`,
   * `Failure` for a thrown error.
   */
  function Interpret(eoj: EchonetObject, p: Property): Result<Option<Reading>, ParseError>
  {
    if IsMeter(eoj) then
      if p.epc == 0xE7 then
        if |p.edt| < 4 then Failure(ShortPayload) else Success(Some(InstantaneousPower(Int32(p.edt[..4]))))
      else if p.epc == 0xEA || p.epc == 0xEB then
        if |p.edt| < 11 then Failure(ShortPayload) else Success(Some(Cumulative(p.epc == 0xEB, p.edt)))
      else Failure(InvalidEpc(p.epc))
    else if IsNodeProfile(eoj) then
      if p.epc == 0xD5 then
        Success(Some(InstanceList(Instances(p.edt))))
      else Failure(InvalidEpc(p.epc))
    else Success(None)
  }

  /** `Frame.parseProperty`; the 0xD5 branch collects the instances in a loop. */
  method ParseProperty(eoj: EchonetObject, property: Property) returns (r: Result<Option<Reading>, ParseError>)
    ensures r == Interpret(eoj, property)
  {
    var edt := property.edt;
    if eoj.classGroupCode == 0x02 {
      if eoj.classCode == 0x88 {
        if property.epc == 0xE7 {
          if |edt| < 4 {
            return Failure(ShortPayload);
          }
          return Success(Some(InstantaneousPower(Int32(edt[..4]))));
        } else if property.epc == 0xEA || property.epc == 0xEB {
          if |edt| < 11 {
            return Failure(ShortPayload);
          }
          return Success(Some(Cumulative(property.epc == 0xEB, edt)));
        }
        return Failure(InvalidEpc(property.epc));
      }
    } else if eoj.classGroupCode == 0x0E {
      if eoj.classCode == 0xF0 && (eoj.instanceCode == 0x01 || eoj.instanceCode == 0x02) {
        if property.epc == 0xD5 {
          var instances: seq<ListedObject> := [];
          if edt != [] {
            var i := 0;
            while i < edt[0]
              invariant 0 <= i <= edt[0]
              invariant instances == Instances(edt)[..i]
            {
              instances := instances + [ListedObject(EdtAt(edt, i * 3 + 1), EdtAt(edt, i * 3 + 2), EdtAt(edt, i * 3 + 3))];
              i := i + 1;
            }
            assert instances == Instances(edt);
          }
          return Success(Some(InstanceList(instances)));
        }
        return Failure(InvalidEpc(property.epc));
      }
    }
    return Success(None);
  }

  // ---------------------------------------------------------------- lemmas on parseProperty

  lemma BigEndian2(b: seq<uint8>)
    requires |b| == 2
    ensures BigEndian(b) == (b[0] as int) * 0x100 + b[1]
  {
    assert b[..1] == [b[0]];
    assert b[..1][..0] == [];
    assert BigEndian(b[..1]) == b[0];
  }

  lemma BigEndian4(b: seq<uint8>)
    requires |b| == 4
    ensures BigEndian(b) == (b[0] as int) * 0x100_0000 + (b[1] as int) * 0x1_0000 + (b[2] as int) * 0x100 + b[3]
  {
    BigEndian2(b[..2]);
    assert b[..3][..2] == b[..2];
    assert b[..4][..3] == b[..3];
  }

  /** EPC 0xE7 on the meter: the big-endian signed 32-bit value of EDT[0..4), in W. */
  lemma InstantaneousPowerValue(eoj: EchonetObject, p: Property)
    requires IsMeter(eoj) && p.epc == 0xE7 && |p.edt| >= 4
    ensures Interpret(eoj, p).Success? && Interpret(eoj, p).value.Some?
    ensures var w := Interpret(eoj, p).value.value.watts; var e := p.edt;
      -0x8000_0000 <= w < 0x8000_0000 &&
      w == (e[0] as int) * 0x100_0000 + (e[1] as int) * 0x1_0000 + (e[2] as int) * 0x100 + e[3]
           - (if e[0] >= 0x80 then 0x1_0000_0000 else 0)
  {
    BigEndian4(p.edt[..4]);
  }

  /** Example: a payload 00 00 01 F4 reads as 500 W, and FF FF FF FF as -1 W. */
  lemma InstantaneousPowerExamples()
    ensures Interpret(SmartMeter, Property(0xE7, 4, [0x00, 0x00, 0x01, 0xF4])) == Success(Some(InstantaneousPower(500)))
    ensures Interpret(SmartMeter, Property(0xE7, 4, [0xFF, 0xFF, 0xFF, 0xFF])) == Success(Some(InstantaneousPower(-1)))
  {
    InstantaneousPowerValue(SmartMeter, Property(0xE7, 4, [0x00, 0x00, 0x01, 0xF4]));
    InstantaneousPowerValue(SmartMeter, Property(0xE7, 4, [0xFF, 0xFF, 0xFF, 0xFF]));
  }

  /**
   * EPC 0xEA / 0xEB on the meter: year = big-endian EDT[0..2), then month,
   * day, hour, minute, second from EDT[2..7), then the big-endian unsigned
   * 32-bit value of EDT[7..11).
   */
  lemma CumulativeEnergyValue(eoj: EchonetObject, p: Property)
    requires IsMeter(eoj) && (p.epc == 0xEA || p.epc == 0xEB) && |p.edt| >= 11
    ensures Interpret(eoj, p).Success? && Interpret(eoj, p).value.Some?
    ensures var c := Interpret(eoj, p).value.value; var e := p.edt;
      c.CumulativeEnergy? && c.reverse == (p.epc == 0xEB) &&
      c.year == (e[0] as int) * 256 + e[1] && c.month == e[2] && c.day == e[3] &&
      c.hour == e[4] && c.minute == e[5] && c.second == e[6] &&
      c.value == (e[7] as int) * 0x100_0000 + (e[8] as int) * 0x1_0000 + (e[9] as int) * 0x100 + e[10] &&
      c.value < 0x1_0000_0000
  {
    BigEndian2(p.edt[0..2]);
    BigEndian4(p.edt[7..11]);
  }

  /**
   * EPC 0xD5 on a node profile never fails: it yields EDT[0] entries (none for
   * an empty EDT), in order. The codes of the i-th entry are EDT[3i+1],
   * EDT[3i+2] and EDT[3i+3], each `undefined` where EDT ends before it; a
   * payload of 1 + 3·EDT[0] bytes gives every entry all three codes.
   */
  lemma InstanceListValue(eoj: EchonetObject, p: Property)
    requires IsNodeProfile(eoj) && p.epc == 0xD5
    ensures Interpret(eoj, p).Success? && Interpret(eoj, p).value.Some?
    ensures var list := Interpret(eoj, p).value.value.instances; var e := p.edt;
      |list| == (if e == [] then 0 else e[0] as int) &&
      (forall i :: 0 <= i < |list| ==>
        list[i].classGroupCode == EdtAt(e, 3 * i + 1) &&
        list[i].classCode == EdtAt(e, 3 * i + 2) &&
        list[i].instanceCode == EdtAt(e, 3 * i + 3)) &&
      (e != [] && |e| >= 1 + 3 * (e[0] as int) ==>
        forall i :: 0 <= i < |list| ==>
          list[i] == ListedObject(Some(e[3 * i + 1]), Some(e[3 * i + 2]), Some(e[3 * i + 3])))
  {
  }

  /**
   * Examples: a count of one with no codes yields one entry whose codes are
   * all `undefined`; 01 02 88 01 yields the smart meter's identity.
   */
  lemma InstanceListExamples()
    ensures Interpret(NodeProfile, Property(0xD5, 1, [1])) == Success(Some(InstanceList([ListedObject(None, None, None)])))
    ensures Interpret(NodeProfile, Property(0xD5, 4, [1, 0x02, 0x88, 0x01])) ==
      Success(Some(InstanceList([ListedObject(Some(0x02), Some(0x88), Some(0x01))])))
  {
    assert Instances([1]) == [Listed([1], 0)];
    assert Instances([1, 0x02, 0x88, 0x01]) == [Listed([1, 0x02, 0x88, 0x01], 0)];
  }

  /**
   * Which identities `parseProperty` rejects: an unknown EPC on the meter or
   * on a node profile throws; every other object yields `null`; only a meter
   * reading shorter than its DataView reads throws for its length.
   */
  lemma InterpretOutcome(eoj: EchonetObject, p: Property)
    ensures Interpret(eoj, p) == Failure(InvalidEpc(p.epc)) <==>
      (IsMeter(eoj) && p.epc != 0xE7 && p.epc != 0xEA && p.epc != 0xEB) ||
      (IsNodeProfile(eoj) && p.epc != 0xD5)
    ensures Interpret(eoj, p) == Success(None) <==> !IsMeter(eoj) && !IsNodeProfile(eoj)
    ensures Interpret(eoj, p) == Failure(ShortPayload) <==>
      IsMeter(eoj) && ((p.epc == 0xE7 && |p.edt| < 4) || ((p.epc == 0xEA || p.epc == 0xEB) && |p.edt| < 11))
  {
  }
}
