/**
 * The QMI message codec of the mock sensor server.
 *
 * A message is a 7-byte header (type, transaction id, message id, length; all
 * little-endian) followed by TLVs (type, 16-bit length, value). Array values carry a
 * second 16-bit length of their own. Every append rewrites the header's length.
 */
module Qmi {
  import opened Common
  import opened Bytes

  datatype ValueType = INT | ARRAY | SEQUENCE
  datatype MessageType = REQUEST | RESPONSE | INDICATION | UNKNOWN

  datatype Header = Header(kind: MessageType, transaction: int, message: int, length: int)

  /** A decoded TLV value: an integer, or the bytes of an array. */
  datatype Value = Number(n: nat) | Data(bytes: seq<byte>)

  /** Outcome of a TLV search; an empty message makes the header parse raise IndexError. */
  datatype Parsed = IndexError | Absent | Found(tag: int, length: int, value: Value)

  datatype Tlv = Tlv(id: int, value: seq<byte>, kind: ValueType)

  function TypeByte(kind: MessageType): Option<byte> {
    match kind
    case REQUEST => Some(0)
    case RESPONSE => Some(2)
    case INDICATION => Some(4)
    case UNKNOWN => None
  }

  function ParseHeader(m: seq<byte>): Option<Header> {
    if m == [] then None
    else
      var kind := if m[0] == 0 then REQUEST else if m[0] == 2 then RESPONSE
                  else if m[0] == 4 then INDICATION else UNKNOWN;
      Some(Header(kind, FromBytes(Slice(m, 1, 3)), FromBytes(Slice(m, 3, 5)), FromBytes(Slice(m, 5, 7))))
  }

  function GenerateHeader(kind: MessageType, transaction: int, message: int): Option<seq<byte>> {
    var k :- TypeByte(kind);
    var t :- ToBytes(transaction, 2);
    var i :- ToBytes(message, 2);
    var m := [k] + t + i;
    var l :- ToBytes(|m| + 2, 2);
    Some(m + l)
  }

  function GenerateTlv(m: seq<byte>, id: int, value: seq<byte>, kind: ValueType): Option<seq<byte>> {
    var tag :- ToBytes(id, 1);
    var outer :- ToBytes(if kind.ARRAY? then |value| + 2 else |value|, 2);
    var inner :- if kind.ARRAY? then ToBytes(|value|, 2) else Some([]);
    var grown := m + tag + outer + inner + value;
    var length :- ToBytes(|grown| - 7, 2);
    Some(Slice(grown, 0, 5) + length + Tail(grown, 7))
  }

  // ---------------------------------------------------------------------
  // What a search for a TLV means: split into frames, take the first match.
  // ---------------------------------------------------------------------

  /** One TLV as read off the wire; `whole` says its declared value really is present. */
  datatype Frame = Frame(tag: int, length: int, raw: seq<byte>, whole: bool)

  function FrameAt(body: seq<byte>): (f: Frame)
    requires body != []
    ensures f.length >= 0
  {
    var length := FromBytes(Slice(body, 1, 3));
    Frame(body[0], length, Slice(body, 3, 3 + length), 3 + length <= |body|)
  }

  function Frames(body: seq<byte>): seq<Frame>
    decreases |body|
  {
    if body == [] then []
    else [FrameAt(body)] + Frames(Tail(body, 3 + FrameAt(body).length))
  }

  function FirstWith(fs: seq<Frame>, tag: int): Option<Frame> {
    if fs == [] then None
    else if fs[0].tag == tag then Some(fs[0])
    else FirstWith(fs[1..], tag)
  }

  function Decode(raw: seq<byte>, kind: ValueType): Value {
    if kind.ARRAY? then Data(Tail(raw, 2)) else Number(FromBytes(raw))
  }

  /** The frames of a message, its header stripped. */
  function MessageFrames(m: seq<byte>): seq<Frame> {
    Frames(Tail(m, 7))
  }

  /** What a reader makes of the frame found, if any. */
  function AsRead(found: Option<Frame>, kind: ValueType): Parsed {
    match found
    case None => Absent
    case Some(f) => Found(f.tag, f.length, Decode(f.raw, kind))
  }

  function Lookup(m: seq<byte>, tag: int, kind: ValueType): Parsed {
    if m == [] then IndexError else AsRead(FirstWith(MessageFrames(m), tag), kind)
  }

  lemma FirstWithCons(f: Frame, rest: seq<Frame>, tag: int)
    ensures FirstWith([f] + rest, tag) == if f.tag == tag then Some(f) else FirstWith(rest, tag)
  {
    assert ([f] + rest)[1..] == rest;
  }

  lemma {:induction false} FirstAfter(seen: seq<Frame>, fs: seq<Frame>, tag: int)
    ensures FirstWith(seen + fs, tag) == if FirstWith(seen, tag).Some? then FirstWith(seen, tag) else FirstWith(fs, tag)
  {
    if seen == [] {
      assert seen + fs == fs;
    } else {
      assert (seen + fs)[1..] == seen[1..] + fs;
      FirstAfter(seen[1..], fs, tag);
    }
  }

  lemma OneByte(b: byte)
    ensures FromBytes([b]) == b
  {
  }

  /** The frames read so far, none of the type looked for, and those of the remaining bytes make up the message. */
  predicate Scanned(m: seq<byte>, seen: seq<Frame>, rest: seq<byte>, tag: int) {
    MessageFrames(m) == seen + Frames(rest) && FirstWith(seen, tag) == None
  }

  lemma ScanStart(m: seq<byte>, tag: int)
    ensures Scanned(m, [], Tail(m, 7), tag)
  {
    assert [] + Frames(Tail(m, 7)) == Frames(Tail(m, 7));
  }

  /** The bytes still to be scanned, as the scan finds them by their offset. */
  predicate Remains(tlvs: seq<byte>, offset: nat, rest: seq<byte>) {
    rest == Tail(tlvs, offset)
  }

  /** What an iteration of the scan reads is the first frame of the remaining bytes. */
  lemma ReadFrame(tlvs: seq<byte>, offset: nat, rest: seq<byte>, tag: int, length: nat, raw: seq<byte>)
    returns (f: Frame)
    requires offset < |tlvs| && Remains(tlvs, offset, rest)
    requires tag == FromBytes(Slice(tlvs, offset, 1 + offset))
    requires length == FromBytes(Slice(tlvs, 1 + offset, 3 + offset))
    requires raw == Slice(tlvs, 3 + offset, 3 + length + offset)
    ensures rest != [] && f == FrameAt(rest) && f.tag == tag && f.length == length && f.raw == raw
    ensures Remains(tlvs, offset + 1 + 2 + length, Tail(rest, 3 + f.length))
  {
    f := FrameAt(rest);
    assert Slice(tlvs, offset, 1 + offset) == [rest[0]];
    OneByte(rest[0]);
    assert Slice(rest, 1, 3) == Slice(tlvs, 1 + offset, 3 + offset);
    assert Slice(rest, 3, 3 + length) == Slice(tlvs, 3 + offset, 3 + length + offset);
  }

  lemma SeenGrows(seen: seq<Frame>, f: Frame, next: seq<Frame>)
    ensures seen + ([f] + next) == seen + [f] + next && [f] + [] == [f]
  {
  }

  lemma ScanSkips(m: seq<byte>, seen: seq<Frame>, rest: seq<byte>, tag: int, f: Frame)
    requires Scanned(m, seen, rest, tag) && rest != [] && f == FrameAt(rest) && f.tag != tag
    ensures Scanned(m, seen + [f], Tail(rest, 3 + f.length), tag)
  {
    SeenGrows(seen, f, Frames(Tail(rest, 3 + f.length)));
    FirstAfter(seen, [f], tag);
    FirstWithCons(f, [], tag);
  }

  lemma ScanMatches(m: seq<byte>, seen: seq<Frame>, rest: seq<byte>, tag: int, kind: ValueType, f: Frame)
    requires Scanned(m, seen, rest, tag) && m != [] && rest != [] && f == FrameAt(rest) && f.tag == tag
    ensures Lookup(m, tag, kind) == Found(tag, f.length, Decode(f.raw, kind))
  {
    FirstAfter(seen, Frames(rest), tag);
    FirstWithCons(f, Frames(Tail(rest, 3 + f.length)), tag);
  }

  lemma ScanEnds(m: seq<byte>, seen: seq<Frame>, tag: int, kind: ValueType)
    requires Scanned(m, seen, [], tag) && m != []
    ensures Lookup(m, tag, kind) == Absent
  {
    FirstAfter(seen, [], tag);
  }

  /** The server's scan, on any bytes at all: it terminates and finds exactly the first match. */
  method ParseTlv(message: seq<byte>, tlv: int, valueType: ValueType) returns (r: Parsed)
    ensures r == Lookup(message, tlv, valueType)
  {
    var header := ParseHeader(message);
    if header.None? {
      return IndexError;
    }
    var tlvs := Tail(message, 7);
    ghost var seen, rest := [], tlvs;
    ScanStart(message, tlv);
    var offset := 0;
    while offset < |tlvs|
      invariant 0 <= offset
      invariant Remains(tlvs, offset, rest)
      invariant Scanned(message, seen, rest, tlv)
      decreases |tlvs| - offset
    {
      var tlvType := FromBytes(Slice(tlvs, offset, 1 + offset));
      var tlvLength := FromBytes(Slice(tlvs, 1 + offset, 3 + offset));
      var tlvValue := Slice(tlvs, 3 + offset, 3 + tlvLength + offset);
      ghost var frame := ReadFrame(tlvs, offset, rest, tlvType, tlvLength, tlvValue);
      offset := offset + 1 + 2 + tlvLength;

      var value: Value;
      match valueType {
        case INT | SEQUENCE => value := Number(FromBytes(tlvValue));
        case ARRAY => value := Data(Tail(tlvValue, 2));
      }
      if tlv != tlvType {
        ScanSkips(message, seen, rest, tlv, frame);
        seen, rest := seen + [frame], Tail(rest, 3 + frame.length);
        continue;
      }
      ScanMatches(message, seen, rest, tlv, valueType, frame);
      return Found(tlvType, tlvLength, value);
    }
    ScanEnds(message, seen, tlv, valueType);
    return Absent;
  }

  /** Two bytes, the low one first. */
  function Word(low: byte, high: byte): nat {
    low as int + 256 * high as int
  }

  /** The header fields by their bytes. */
  lemma HeaderByBytes(m: seq<byte>)
    requires |m| >= 7
    ensures ParseHeader(m) == Some(Header(
              if m[0] == 0 then REQUEST else if m[0] == 2 then RESPONSE else if m[0] == 4 then INDICATION else UNKNOWN,
              Word(m[1], m[2]), Word(m[3], m[4]), Word(m[5], m[6])))
  {
    assert Slice(m, 1, 3) == [m[1], m[2]] && Slice(m, 3, 5) == [m[3], m[4]] && Slice(m, 5, 7) == [m[5], m[6]];
    TwoBytes(m[1], m[2]);
    TwoBytes(m[3], m[4]);
    TwoBytes(m[5], m[6]);
  }

  /** A frame by its bytes: type, length, value; and the value of an array without its first two bytes. */
  lemma FrameByBytes(body: seq<byte>)
    requires |body| >= 3
    ensures var f := FrameAt(body);
            var n := Word(body[1], body[2]);
            && f.tag == body[0] && f.length == n
            && f.raw == (if 3 + n <= |body| then body[3..3 + n] else body[3..])
            && Decode(f.raw, ARRAY) == Data(if |f.raw| >= 2 then f.raw[2..] else [])
            && Decode(f.raw, INT) == Decode(f.raw, SEQUENCE) == Number(FromBytes(f.raw))
  {
    assert Slice(body, 1, 3) == [body[1], body[2]];
    TwoBytes(body[1], body[2]);
  }

  // ---------------------------------------------------------------------
  // Building messages: a header, then any number of appended TLVs.
  // ---------------------------------------------------------------------

  function Append(m: seq<byte>, tlvs: seq<Tlv>): Option<seq<byte>>
    decreases |tlvs|
  {
    if tlvs == [] then Some(m)
    else
      var next :- GenerateTlv(m, tlvs[0].id, tlvs[0].value, tlvs[0].kind);
      Append(next, tlvs[1..])
  }

  function Build(kind: MessageType, transaction: int, message: int, tlvs: seq<Tlv>): Option<seq<byte>> {
    var h :- GenerateHeader(kind, transaction, message);
    Append(h, tlvs)
  }

  /** The value bytes a TLV puts on the wire, the array length included. */
  function WireValue(t: Tlv): seq<byte> {
    if t.kind.ARRAY? then LittleEndian(|t.value|, 2) + t.value else t.value
  }

  function TagByte(id: int): byte { if 0 <= id < 256 then id else 0 }

  /** A TLV on the wire (its id is a byte whenever the TLV fits). */
  function Wire(t: Tlv): seq<byte> {
    [TagByte(t.id)] + LittleEndian(|WireValue(t)|, 2) + WireValue(t)
  }

  predicate Fits(tlvs: seq<Tlv>, used: nat) {
    used <= 65535 &&
    (tlvs == [] ||
     (0 <= tlvs[0].id < 256 && Fits(tlvs[1..], used + 3 + |WireValue(tlvs[0])|)))
  }

  function Body(tlvs: seq<Tlv>): seq<byte> {
    if tlvs == [] then [] else Wire(tlvs[0]) + Body(tlvs[1..])
  }

  lemma {:induction false} BodyFits(tlvs: seq<Tlv>, used: nat)
    requires Fits(tlvs, used)
    ensures used + |Body(tlvs)| <= 65535
  {
    if tlvs != [] {
      BodyFits(tlvs[1..], used + 3 + |WireValue(tlvs[0])|);
    }
  }

  /** The first TLV with the given id, as the caller appended it. */
  function FirstTlv(tlvs: seq<Tlv>, id: int): Option<Tlv> {
    if tlvs == [] then None
    else if tlvs[0].id == id then Some(tlvs[0])
    else FirstTlv(tlvs[1..], id)
  }

  /** The first five header bytes: type and both identifiers. */
  function HeaderPrefix(k: byte, transaction: nat, message: nat): (h: seq<byte>)
    ensures |h| == 5
  {
    [k] + LittleEndian(transaction, 2) + LittleEndian(message, 2)
  }

  /** A message: header prefix, length field, and the bytes behind the header. */
  function Message(prefix: seq<byte>, length: nat, body: seq<byte>): (m: seq<byte>)
    requires |prefix| == 5
    ensures |m| == 7 + |body|
  {
    prefix + LittleEndian(length, 2) + body
  }

  lemma MessageParts(prefix: seq<byte>, length: nat, body: seq<byte>)
    requires |prefix| == 5
    ensures var m := Message(prefix, length, body);
            m[..5] == prefix && m[7..] == body && Tail(m, 7) == body
  {
  }

  predicate TlvFits(t: Tlv, used: int) {
    0 <= t.id < 256 && used + 3 + |WireValue(t)| <= 65535
  }

  lemma GenerateTlvRefuses(m: seq<byte>, t: Tlv)
    requires |m| >= 7 && !TlvFits(t, |m| - 7)
    ensures GenerateTlv(m, t.id, t.value, t.kind) == None
  {
  }

  lemma TlvFields(t: Tlv)
    requires 0 <= t.id < 256 && |WireValue(t)| <= 65535
    ensures ToBytes(t.id, 1) == Some([t.id])
    ensures ToBytes(if t.kind.ARRAY? then |t.value| + 2 else |t.value|, 2) == Some(LittleEndian(|WireValue(t)|, 2))
    ensures t.kind.ARRAY? ==> ToBytes(|t.value|, 2) == Some(LittleEndian(|t.value|, 2))
  {
    Pow256Values();
    assert LittleEndian(t.id, 1) == [t.id % 256] + LittleEndian(t.id / 256, 0);
    assert t.id % 256 == t.id && [t.id] + LittleEndian(t.id / 256, 0) == [t.id];
  }

  lemma LengthField(n: int)
    requires 0 <= n <= 65535
    ensures ToBytes(n, 2) == Some(LittleEndian(n, 2))
  {
  }

  /** Bytes added at the end leave the header's fields where they are. */
  lemma PatchedParts(m: seq<byte>, w: seq<byte>)
    requires |m| >= 7
    ensures Slice(m + w, 0, 5) == m[..5]
    ensures Tail(m + w, 7) == m[7..] + w
  {
  }

  lemma WireParts(m: seq<byte>, t: Tlv, inner: seq<byte>)
    requires 0 <= t.id < 256 && inner == if t.kind.ARRAY? then LittleEndian(|t.value|, 2) else []
    ensures m + [t.id] + LittleEndian(|WireValue(t)|, 2) + inner + t.value == m + Wire(t)
  {
  }

  /** Appending to any message with a full header: the TLV's bytes at the end, the length patched. */
  lemma GenerateTlvBytes(m: seq<byte>, t: Tlv)
    requires |m| >= 7 && TlvFits(t, |m| - 7)
    ensures GenerateTlv(m, t.id, t.value, t.kind) ==
            Some(m[..5] + LittleEndian(|m + Wire(t)| - 7, 2) + (m[7..] + Wire(t)))
  {
    TlvFields(t);
    WireParts(m, t, if t.kind.ARRAY? then LittleEndian(|t.value|, 2) else []);
    LengthField(|m + Wire(t)| - 7);
    PatchedParts(m, Wire(t));
  }

  lemma GenerateTlvAppends(h: seq<byte>, length: nat, body: seq<byte>, t: Tlv)
    requires |h| == 5
    ensures GenerateTlv(Message(h, length, body), t.id, t.value, t.kind) ==
            if TlvFits(t, |body|) then Some(Message(h, |body + Wire(t)|, body + Wire(t))) else None
  {
    var m := Message(h, length, body);
    MessageParts(h, length, body);
    if !TlvFits(t, |body|) {
      GenerateTlvRefuses(m, t);
    } else {
      GenerateTlvBytes(m, t);
    }
  }

  lemma AppendStep(h: seq<byte>, length: nat, body: seq<byte>, tlvs: seq<Tlv>)
    requires |h| == 5 && tlvs != []
    ensures Append(Message(h, length, body), tlvs) ==
            if TlvFits(tlvs[0], |body|)
            then Append(Message(h, |body + Wire(tlvs[0])|, body + Wire(tlvs[0])), tlvs[1..])
            else None
  {
    GenerateTlvAppends(h, length, body, tlvs[0]);
  }

  lemma BodyCons(body: seq<byte>, tlvs: seq<Tlv>)
    requires tlvs != []
    ensures body + Wire(tlvs[0]) + Body(tlvs[1..]) == body + Body(tlvs)
    ensures |body + Wire(tlvs[0])| + |Body(tlvs[1..])| == |body| + |Body(tlvs)|
    ensures tlvs[1..] == [] ==> body + Wire(tlvs[0]) == body + Body(tlvs)
  {
  }

  /** TLVs that fit are appended in order, byte for byte, and the length field follows. */
  lemma {:induction false} AppendBytes(h: seq<byte>, length: nat, body: seq<byte>, tlvs: seq<Tlv>)
    requires |h| == 5 && Fits(tlvs, |body|)
    ensures tlvs == [] ==> Append(Message(h, length, body), tlvs) == Some(Message(h, length, body))
    ensures tlvs != [] ==> Append(Message(h, length, body), tlvs) ==
                           Some(Message(h, |body| + |Body(tlvs)|, body + Body(tlvs)))
    decreases |tlvs|
  {
    if tlvs != [] {
      var rest := tlvs[1..];
      var body' := body + Wire(tlvs[0]);
      AppendStep(h, length, body, tlvs);
      AppendBytes(h, |body'|, body', rest);
      BodyCons(body, tlvs);
    }
  }

  lemma {:induction false} AppendRefuses(h: seq<byte>, length: nat, body: seq<byte>, tlvs: seq<Tlv>)
    requires |h| == 5 && |body| <= 65535 && !Fits(tlvs, |body|)
    ensures Append(Message(h, length, body), tlvs) == None
    decreases |tlvs|
  {
    AppendStep(h, length, body, tlvs);
    if TlvFits(tlvs[0], |body|) {
      var body' := body + Wire(tlvs[0]);
      AppendRefuses(h, |body'|, body', tlvs[1..]);
    }
  }

  predicate HeaderFits(kind: MessageType, transaction: int, message: int) {
    kind != UNKNOWN && 0 <= transaction < 65536 && 0 <= message < 65536
  }

  lemma GenerateHeaderBytes(kind: MessageType, transaction: int, message: int)
    ensures GenerateHeader(kind, transaction, message).Some? <==> HeaderFits(kind, transaction, message)
    ensures HeaderFits(kind, transaction, message) ==>
              GenerateHeader(kind, transaction, message) ==
              Some(Message(HeaderPrefix(TypeByte(kind).value, transaction, message), 7, []))
  {
    Pow256Values();
    if HeaderFits(kind, transaction, message) {
      var h := HeaderPrefix(TypeByte(kind).value, transaction, message);
      assert h + LittleEndian(7, 2) + [] == h + LittleEndian(7, 2);
    }
  }

  lemma MessageHeader(kind: MessageType, transaction: nat, message: nat, length: nat, body: seq<byte>)
    requires HeaderFits(kind, transaction, message) && length < 65536
    ensures ParseHeader(Message(HeaderPrefix(TypeByte(kind).value, transaction, message), length, body))
         == Some(Header(kind, transaction, message, length))
  {
    Pow256Values();
    var m := Message(HeaderPrefix(TypeByte(kind).value, transaction, message), length, body);
    assert Slice(m, 1, 3) == LittleEndian(transaction, 2);
    assert Slice(m, 3, 5) == LittleEndian(message, 2);
    assert Slice(m, 5, 7) == LittleEndian(length, 2);
    LittleEndianDecodes(transaction, 2);
    LittleEndianDecodes(message, 2);
    LittleEndianDecodes(length, 2);
  }

  lemma WireFrame(t: Tlv, rest: seq<byte>)
    requires 0 <= t.id < 256 && |WireValue(t)| <= 65535
    ensures Frames(Wire(t) + rest) == [Frame(t.id, |WireValue(t)|, WireValue(t), true)] + Frames(rest)
  {
    Pow256Values();
    var b := Wire(t) + rest;
    var n := |WireValue(t)|;
    LittleEndianDecodes(n, 2);
    assert Slice(b, 1, 3) == LittleEndian(n, 2);
    assert Slice(b, 3, 3 + n) == WireValue(t);
    assert Tail(b, 3 + n) == rest;
  }

  lemma WireFirst(t: Tlv, rest: seq<byte>, id: int)
    requires 0 <= t.id < 256 && |WireValue(t)| <= 65535
    ensures FirstWith(Frames(Wire(t) + rest), id) ==
            if t.id == id then Some(Frame(id, |WireValue(t)|, WireValue(t), true))
            else FirstWith(Frames(rest), id)
  {
    WireFrame(t, rest);
    FirstWithCons(Frame(t.id, |WireValue(t)|, WireValue(t), true), Frames(rest), id);
  }

  /** Searching the built bytes finds the first appended TLV of that id, whatever the other values contain. */
  lemma {:induction false} BodyLookup(tlvs: seq<Tlv>, used: nat, id: int)
    requires Fits(tlvs, used)
    ensures FirstWith(Frames(Body(tlvs)), id) ==
            match FirstTlv(tlvs, id)
            case None => None
            case Some(t) => Some(Frame(id, |WireValue(t)|, WireValue(t), true))
  {
    if tlvs != [] {
      var n := |WireValue(tlvs[0])|;
      assert n <= 65535 by { BodyFits(tlvs, used); }
      BodyLookup(tlvs[1..], used + 3 + n, id);
      WireFirst(tlvs[0], Body(tlvs[1..]), id);
    }
  }

  /** What the reader gets back for a TLV written as `t` and read as `kind`. */
  function ReadBack(t: Tlv, kind: ValueType): Parsed {
    Found(t.id, |WireValue(t)|, Decode(WireValue(t), kind))
  }

  lemma ReadBackOwnKind(t: Tlv)
    ensures ReadBack(t, t.kind) ==
            if t.kind.ARRAY? then Found(t.id, |t.value| + 2, Data(t.value))
            else Found(t.id, |t.value|, Number(FromBytes(t.value)))
  {
    if t.kind.ARRAY? {
      assert Tail(WireValue(t), 2) == t.value;
    }
  }

  /** The bytes a caller ends up with: exactly when everything fits, the TLVs in order behind the header. */
  lemma BuildBytes(kind: MessageType, transaction: int, message: int, tlvs: seq<Tlv>)
    ensures Build(kind, transaction, message, tlvs) ==
            if HeaderFits(kind, transaction, message) && Fits(tlvs, 0)
            then Some(Message(HeaderPrefix(TypeByte(kind).value, transaction, message),
                              if tlvs == [] then 7 else |Body(tlvs)|, Body(tlvs)))
            else None
  {
    GenerateHeaderBytes(kind, transaction, message);
    if HeaderFits(kind, transaction, message) {
      var h := HeaderPrefix(TypeByte(kind).value, transaction, message);
      if Fits(tlvs, 0) {
        AppendBytes(h, 7, [], tlvs);
        assert [] + Body(tlvs) == Body(tlvs);
      } else {
        AppendRefuses(h, 7, [], tlvs);
      }
    }
  }

  lemma MessageLookup(h: seq<byte>, length: nat, tlvs: seq<Tlv>, id: int, read: ValueType)
    requires |h| == 5 && Fits(tlvs, 0)
    ensures Lookup(Message(h, length, Body(tlvs)), id, read) ==
            match FirstTlv(tlvs, id) case None => Absent case Some(t) => ReadBack(t, read)
  {
    BodyLookup(tlvs, 0, id);
    FirstTlvId(tlvs, id);
    MessageParts(h, length, Body(tlvs));
  }

  /**
   * Round trip. A message is produced exactly when header and TLVs fit their fields. Then
   * the header parses back, its length is the total length minus 7 once a TLV was added (and
   * 7 before), and a search for any id returns the first TLV appended with it, or nothing.
   */
  lemma RoundTrip(kind: MessageType, transaction: int, message: int, tlvs: seq<Tlv>)
    ensures Build(kind, transaction, message, tlvs).Some? <==>
            HeaderFits(kind, transaction, message) && Fits(tlvs, 0)
    ensures var b := Build(kind, transaction, message, tlvs);
            b.Some? ==>
              && ParseHeader(b.value) ==
                 Some(Header(kind, transaction, message, if tlvs == [] then 7 else |b.value| - 7))
              && forall id: int, read ::
                   Lookup(b.value, id, read) ==
                   match FirstTlv(tlvs, id) case None => Absent case Some(t) => ReadBack(t, read)
  {
    BuildBytes(kind, transaction, message, tlvs);
    if HeaderFits(kind, transaction, message) && Fits(tlvs, 0) {
      var h := HeaderPrefix(TypeByte(kind).value, transaction, message);
      var length := if tlvs == [] then 7 else |Body(tlvs)|;
      BodyFits(tlvs, 0);
      MessageHeader(kind, transaction, message, length, Body(tlvs));
      forall id: int, read
        ensures Lookup(Message(h, length, Body(tlvs)), id, read) ==
                match FirstTlv(tlvs, id) case None => Absent case Some(t) => ReadBack(t, read)
      {
        MessageLookup(h, length, tlvs, id, read);
      }
    }
  }

  lemma {:induction false} FirstTlvId(tlvs: seq<Tlv>, id: int)
    ensures FirstTlv(tlvs, id).Some? ==> FirstTlv(tlvs, id).value.id == id && FirstTlv(tlvs, id).value in tlvs
    ensures FirstTlv(tlvs, id).None? ==> forall t <- tlvs :: t.id != id
  {
    if tlvs != [] { FirstTlvId(tlvs[1..], id); }
  }

  // ---------------------------------------------------------------------
  // Appending to arbitrary bytes.
  // ---------------------------------------------------------------------

  lemma WholeFrameStays(body: seq<byte>, more: seq<byte>)
    requires body != [] && FrameAt(body).whole
    ensures var f := FrameAt(body);
            var rest := Tail(body, 3 + f.length);
            Frames(body) == [f] + Frames(rest) && Frames(body + more) == [f] + Frames(rest + more)
  {
    var n := 3 + FrameAt(body).length;
    assert Slice(body + more, 1, 3) == Slice(body, 1, 3);
    assert Slice(body + more, 3, n) == Slice(body, 3, n);
    assert Tail(body + more, n) == Tail(body, n) + more;
  }

  /** Behind the whole frames of a message nothing is left, or a frame that is cut off. */
  predicate LeftOver(whole: seq<Frame>, tail: seq<byte>) {
    (forall f <- whole :: f.whole) && (tail != [] ==> !FrameAt(tail).whole)
  }

  /** The bytes of the frame a message ends in the middle of, if there is one. */
  function CutTail(body: seq<byte>): seq<byte>
    decreases |body|
  {
    if body == [] || !FrameAt(body).whole then body else CutTail(Tail(body, 3 + FrameAt(body).length))
  }

  /** Frames without and with more bytes behind: the same whole ones, then those of what is left over. */
  predicate Splits(fs: seq<Frame>, gs: seq<Frame>, more: seq<byte>, whole: seq<Frame>, tail: seq<byte>) {
    LeftOver(whole, tail) && fs == whole + Frames(tail) && gs == whole + Frames(tail + more)
  }

  lemma SplitStep(f: Frame, fs: seq<Frame>, gs: seq<Frame>, more: seq<byte>, whole: seq<Frame>, tail: seq<byte>)
    requires f.whole && Splits(fs, gs, more, whole, tail)
    ensures Splits([f] + fs, [f] + gs, more, [f] + whole, tail)
  {
    FrameAssoc(f, whole, Frames(tail));
    FrameAssoc(f, whole, Frames(tail + more));
  }

  lemma FrameAssoc(f: Frame, fs: seq<Frame>, gs: seq<Frame>)
    ensures [f] + (fs + gs) == [f] + fs + gs
  {
  }

  lemma SplitEnd(body: seq<byte>, more: seq<byte>)
    requires body == [] || !FrameAt(body).whole
    ensures Splits(Frames(body), Frames(body + more), more, [], body)
  {
    assert [] + Frames(body) == Frames(body) && [] + Frames(body + more) == Frames(body + more);
  }

  /** More bytes leave the whole frames alone. */
  lemma {:induction false} FramesSplit(body: seq<byte>, more: seq<byte>) returns (whole: seq<Frame>, tail: seq<byte>)
    ensures tail == CutTail(body)
    ensures Splits(Frames(body), Frames(body + more), more, whole, tail)
    decreases |body|
  {
    if body == [] || !FrameAt(body).whole {
      whole, tail := [], body;
      SplitEnd(body, more);
    } else {
      var f := FrameAt(body);
      var rest := Tail(body, 3 + f.length);
      whole, tail := FramesSplit(rest, more);
      WholeFrameStays(body, more);
      SplitStep(f, Frames(rest), Frames(rest + more), more, whole, tail);
      whole := [f] + whole;
    }
  }

  lemma {:induction false} FirstIsMember(fs: seq<Frame>, tag: int)
    ensures FirstWith(fs, tag).Some? ==> FirstWith(fs, tag).value in fs
  {
    if fs != [] { FirstIsMember(fs[1..], tag); }
  }

  /** A cut-off frame is the last one. */
  lemma AtCutFrame(tail: seq<byte>, more: seq<byte>, tag: int)
    requires tail != [] && !FrameAt(tail).whole
    ensures FirstWith(Frames(tail), tag) == if FrameAt(tail).tag == tag then Some(FrameAt(tail)) else None
    ensures FrameAt(tail).tag == tag ==> FirstWith(Frames(tail + more), tag) == Some(FrameAt(tail + more))
  {
    assert Frames(tail)[1..] == [];
  }

  /**
   * For arbitrary bytes followed by more bytes, a match stays as it is exactly when it was found
   * whole. A match cut off by the end of the message swallows what follows; a reader misses that
   * exactly when the added bytes go unnoticed.
   */
  lemma FoundFrameStable(body: seq<byte>, more: seq<byte>, tag: int, read: ValueType)
    requires FirstWith(Frames(body), tag).Some? && |more| >= 3
    ensures FirstWith(Frames(body), tag).value.whole <==>
            FirstWith(Frames(body + more), tag) == FirstWith(Frames(body), tag)
    ensures AsRead(FirstWith(Frames(body + more), tag), read) == AsRead(FirstWith(Frames(body), tag), read) <==>
            FirstWith(Frames(body), tag).value.whole || Unnoticed(CutTail(body), more, read)
  {
    var whole, tail := FramesSplit(body, more);
    FirstAfter(whole, Frames(tail), tag);
    FirstAfter(whole, Frames(tail + more), tag);
    FirstIsMember(whole, tag);
    if FirstWith(whole, tag) == None {
      AtCutFrame(tail, more, tag);
      CutFrameRead(tail, more, read);
    }
  }

  predicate Zeros(b: seq<byte>) {
    b == [] || (b[0] == 0 && Zeros(b[1..]))
  }

  /** How many of the added bytes complete the cut-off frame's type and length. */
  function LengthGap(tail: seq<byte>): nat {
    if |tail| < 3 then 3 - |tail| else 0
  }

  /** The added bytes that become part of the cut-off frame's value, its length staying the same. */
  function Gained(tail: seq<byte>, more: seq<byte>): seq<byte>
    requires tail != [] && !FrameAt(tail).whole
  {
    Slice(more, LengthGap(tail), 3 + FrameAt(tail).length - |tail|)
  }

  /**
   * A reader does not notice added bytes when those completing the length are zero, and those
   * completing the value are zero (for an integer) or within the two bytes it skips (for an array).
   */
  predicate Unnoticed(tail: seq<byte>, more: seq<byte>, read: ValueType) {
    && tail != [] && !FrameAt(tail).whole
    && Zeros(Slice(more, 0, LengthGap(tail)))
    && if read.ARRAY? then |FrameAt(tail).raw + Gained(tail, more)| <= 2 else Zeros(Gained(tail, more))
  }

  lemma CutFrameRead(tail: seq<byte>, more: seq<byte>, read: ValueType)
    requires tail != [] && !FrameAt(tail).whole && |more| >= 3
    ensures FrameAt(tail + more) != FrameAt(tail)
    ensures AsRead(Some(FrameAt(tail + more)), read) == AsRead(Some(FrameAt(tail)), read) <==>
            Unnoticed(tail, more, read)
  {
    CutLength(tail, more);
    if FrameAt(tail + more).length == FrameAt(tail).length {
      CutValue(tail, more);
      GainedRead(FrameAt(tail).raw, Gained(tail, more), read);
    }
  }

  /** When a value has grown without its reader noticing. */
  lemma GainedRead(raw: seq<byte>, extra: seq<byte>, read: ValueType)
    requires raw == [] || extra != []
    ensures Decode(raw + extra, read) == Decode(raw, read) <==>
            if read.ARRAY? then |raw + extra| <= 2 else Zeros(extra)
  {
    if read.ARRAY? {
      if |raw + extra| > 2 {
        assert |Tail(raw + extra, 2)| != |Tail(raw, 2)|;
      }
    } else {
      FromBytesExtends(raw, extra);
    }
  }

  lemma CutLength(tail: seq<byte>, more: seq<byte>)
    requires tail != [] && |more| >= 3
    ensures FrameAt(tail + more).length == FrameAt(tail).length <==> Zeros(Slice(more, 0, LengthGap(tail)))
  {
    var all := tail + more;
    if |tail| == 1 {
      assert Slice(tail, 1, 3) == [];
      assert Slice(all, 1, 3) == [more[0], more[1]] == Slice(more, 0, 2);
      ZeroBytes(Slice(more, 0, 2));
    } else if |tail| == 2 {
      assert Slice(tail, 1, 3) == [tail[1]];
      OneByte(tail[1]);
      assert Slice(all, 1, 3) == [tail[1], more[0]];
      TwoBytes(tail[1], more[0]);
      assert Slice(more, 0, 1) == [more[0]];
    } else {
      assert Slice(all, 1, 3) == Slice(tail, 1, 3);
      assert Slice(more, 0, 0) == [];
    }
  }

  lemma TwoBytes(a: byte, b: byte)
    ensures FromBytes([a, b]) == a + 256 * b
  {
    assert [a, b][1..] == [b];
    OneByte(b);
  }

  /** A value cut off by the end of the message goes on into the bytes that follow. */
  lemma CutValue(tail: seq<byte>, more: seq<byte>)
    requires tail != [] && !FrameAt(tail).whole && |more| >= 3
    requires FrameAt(tail + more).length == FrameAt(tail).length
    ensures FrameAt(tail + more).raw == FrameAt(tail).raw + Gained(tail, more)
    ensures FrameAt(tail).raw == [] || Gained(tail, more) != []
    ensures Gained(tail, more) == [] ==> FrameAt(tail + more).whole
  {
    ValueParts(tail, more, FrameAt(tail).length);
  }

  lemma ValueParts(tail: seq<byte>, more: seq<byte>, n: nat)
    requires tail != [] && 3 + n > |tail|
    ensures Slice(tail + more, 3, 3 + n) == Slice(tail, 3, 3 + n) + Slice(more, LengthGap(tail), 3 + n - |tail|)
    ensures |tail| < 3 ==> Slice(tail, 3, 3 + n) == []
  {
    if |tail| >= 3 {
      assert Slice(tail, 3, 3 + n) == tail[3..];
    }
  }

  lemma {:induction false} FromBytesExtends(a: seq<byte>, b: seq<byte>)
    ensures FromBytes(a + b) == FromBytes(a) <==> Zeros(b)
  {
    if a == [] {
      assert a + b == b;
      ZeroBytes(b);
    } else {
      assert (a + b)[1..] == a[1..] + b;
      FromBytesExtends(a[1..], b);
    }
  }

  lemma {:induction false} ZeroBytes(b: seq<byte>)
    ensures FromBytes(b) == 0 <==> Zeros(b)
  {
    if b != [] {
      ZeroBytes(b[1..]);
    }
  }

  /**
   * Appending a TLV to any message, read with any value type: an earlier successful lookup gives
   * the same again if and only if the frame it found was complete, or the TLV's bytes go
   * unnoticed in it. The frame itself is the same if and only if it was complete; and for a TLV
   * with a non-zero id reading an integer always notices.
   */
  lemma AppendKeepsLookup(m: seq<byte>, t: Tlv, tag: int, read: ValueType)
    requires GenerateTlv(m, t.id, t.value, t.kind).Some?
    requires FirstWith(MessageFrames(m), tag).Some?
    ensures var m' := GenerateTlv(m, t.id, t.value, t.kind).value;
            var found := FirstWith(MessageFrames(m), tag).value;
            && (Lookup(m', tag, read) == Lookup(m, tag, read) <==>
                found.whole || Unnoticed(CutTail(Tail(m, 7)), Wire(t), read))
            && (found.whole <==> FirstWith(MessageFrames(m'), tag) == FirstWith(MessageFrames(m), tag))
            && (t.id != 0 && read.INT? ==> (found.whole <==> Lookup(m', tag, read) == Lookup(m, tag, read)))
  {
    assert |m| > 7;
    assert TlvFits(t, |m| - 7) by { if !TlvFits(t, |m| - 7) { GenerateTlvRefuses(m, t); } }
    GenerateTlvBytes(m, t);
    var m' := GenerateTlv(m, t.id, t.value, t.kind).value;
    assert Tail(m', 7) == m[7..] + Wire(t);
    assert Tail(m, 7) == m[7..];
    FoundFrameStable(m[7..], Wire(t), tag, read);
    if t.id != 0 { NonZeroIdNoticed(CutTail(m[7..]), t); }
  }

  lemma NonZeroIdNoticed(tail: seq<byte>, t: Tlv)
    requires 0 < t.id < 256
    ensures !Unnoticed(tail, Wire(t), INT)
  {
    var more := Wire(t);
    assert more[0] != 0;
    if tail != [] && !FrameAt(tail).whole {
      if |tail| < 3 {
        assert Slice(more, 0, LengthGap(tail))[0] == more[0];
      } else {
        assert Gained(tail, more)[0] == more[0];
      }
    }
  }
}
