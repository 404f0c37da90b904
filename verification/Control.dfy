/**
 * The sensor server's QMI messages: parsing a client's control request, and the
 * control reply and indications it sends back.
 */
module Control {
  import opened Common
  import opened Bytes
  import opened Qmi

  const CLIENT_ID := 1
  const CONTROL := 0x20
  const SUCCESS_TLV := 0x2
  const REPORT_TYPE_TLV := 0x10
  const CLIENT_TLV := 0x10
  const DATA_TLV := 0x1
  const SMALL_REPORT := 0x21
  const LARGE_REPORT := 0x22
  const REPORT_CLIENT_TLV := 0x1
  const REPORT_DATA_TLV := 0x2

  datatype ReportType = SMALL | LARGE

  /** The exceptions the parser can raise: no header byte, a failed assertion, a missing TLV, an unknown report type. */
  datatype ControlInput =
    | Understood(report: ReportType, data: seq<byte>, transaction: int)
    | NoHeader
    | AssertionError
    | MissingTlv
    | UnknownReport

  function ParseMessageControlInput(m: seq<byte>): ControlInput {
    match ParseHeader(m)
    case None => NoHeader
    case Some(h) =>
      if h.kind != REQUEST || h.message != CONTROL then AssertionError
      else
        var report := Lookup(m, REPORT_TYPE_TLV, INT);
        if !report.Found? then MissingTlv
        else if report.value != Number(0) && report.value != Number(1) then UnknownReport
        else
          var data := Lookup(m, DATA_TLV, ARRAY);
          if !data.Found? then MissingTlv
          else Understood(if report.value == Number(0) then SMALL else LARGE, data.value.bytes, h.transaction)
  }

  /** The integer and the array a reader sees in the first TLV of an id. */
  function IntegerOf(tlvs: seq<Tlv>, id: int): Option<nat> {
    match FirstTlv(tlvs, id) case None => None case Some(t) => Some(FromBytes(WireValue(t)))
  }

  function ArrayOf(tlvs: seq<Tlv>, id: int): Option<seq<byte>> {
    match FirstTlv(tlvs, id) case None => None case Some(t) => Some(Tail(WireValue(t), 2))
  }

  /**
   * Every request a client can build, with the report-type and data TLVs anywhere among
   * others: what the server understands is decided by the first TLV of each id alone.
   */
  lemma ControlRequestUnderstood(kind: MessageType, transaction: int, message: int, tlvs: seq<Tlv>)
    requires Build(kind, transaction, message, tlvs).Some?
    ensures ParseMessageControlInput(Build(kind, transaction, message, tlvs).value) ==
            if kind != REQUEST || message != 0x20 then AssertionError
            else match IntegerOf(tlvs, 0x10)
              case None => MissingTlv
              case Some(n) =>
                if n > 1 then UnknownReport
                else match ArrayOf(tlvs, 0x1)
                  case None => MissingTlv
                  case Some(d) => Understood(if n == 0 then SMALL else LARGE, d, transaction)
  {
    RoundTrip(kind, transaction, message, tlvs);
    var m := Build(kind, transaction, message, tlvs).value;
    assert Lookup(m, REPORT_TYPE_TLV, INT) ==
           match FirstTlv(tlvs, REPORT_TYPE_TLV) case None => Absent case Some(t) => ReadBack(t, INT);
    assert Lookup(m, DATA_TLV, ARRAY) ==
           match FirstTlv(tlvs, DATA_TLV) case None => Absent case Some(t) => ReadBack(t, ARRAY);
  }

  /** In particular a report type written as a 4-byte integer and a payload written as an array arrive unchanged. */
  lemma ControlRequestArrives(transaction: int, tlvs: seq<Tlv>, report: ReportType, payload: seq<byte>)
    requires Build(REQUEST, transaction, CONTROL, tlvs).Some?
    requires FirstTlv(tlvs, REPORT_TYPE_TLV) ==
             Some(Tlv(REPORT_TYPE_TLV, LittleEndian(if report.SMALL? then 0 else 1, 4), INT))
    requires FirstTlv(tlvs, DATA_TLV) == Some(Tlv(DATA_TLV, payload, ARRAY))
    ensures ParseMessageControlInput(Build(REQUEST, transaction, CONTROL, tlvs).value) ==
            Understood(report, payload, transaction)
  {
    ControlRequestUnderstood(REQUEST, transaction, CONTROL, tlvs);
    var n := if report.SMALL? then 0 else 1;
    Pow256Values();
    LittleEndianDecodes(n, 4);
    ReadBackOwnKind(Tlv(DATA_TLV, payload, ARRAY));
    assert IntegerOf(tlvs, REPORT_TYPE_TLV) == Some(n);
  }

  // ---------------------------------------------------------------------
  // Replies
  // ---------------------------------------------------------------------

  function GenerateMessageControlOutput(transaction: int): Option<seq<byte>> {
    var m :- GenerateHeader(RESPONSE, transaction, CONTROL);
    var m :- GenerateTlv(m, SUCCESS_TLV, LittleEndian(0, 2) + LittleEndian(0, 2), SEQUENCE);
    GenerateTlv(m, CLIENT_TLV, LittleEndian(CLIENT_ID, 4), INT)
  }

  function GenerateReportIndication(message: int, clientWidth: nat, data: seq<byte>, transaction: int)
    : Option<seq<byte>>
  {
    var m :- GenerateHeader(INDICATION, transaction, message);
    var m :- GenerateTlv(m, REPORT_CLIENT_TLV, LittleEndian(CLIENT_ID, clientWidth), INT);
    GenerateTlv(m, REPORT_DATA_TLV, data, ARRAY)
  }

  function GenerateReportLargeIndication(data: seq<byte>, transaction: int): Option<seq<byte>> {
    GenerateReportIndication(LARGE_REPORT, 8, data, transaction)
  }

  function GenerateReportSmallIndication(data: seq<byte>, transaction: int): Option<seq<byte>> {
    GenerateReportIndication(SMALL_REPORT, 4, data, transaction)
  }

  function IndicationTlvs(clientWidth: nat, data: seq<byte>): seq<Tlv> {
    [Tlv(REPORT_CLIENT_TLV, LittleEndian(CLIENT_ID, clientWidth), INT), Tlv(REPORT_DATA_TLV, data, ARRAY)]
  }

  lemma AppendTwo(m: seq<byte>, s: Tlv, t: Tlv)
    ensures Append(m, [s, t]) ==
            match GenerateTlv(m, s.id, s.value, s.kind)
            case None => None
            case Some(n) => GenerateTlv(n, t.id, t.value, t.kind)
  {
    assert [s, t][1..] == [t] && [t][1..] == [];
    match GenerateTlv(m, s.id, s.value, s.kind)
    case None =>
    case Some(n) =>
      assert Append(n, [t]) == GenerateTlv(n, t.id, t.value, t.kind) by {
        var r := GenerateTlv(n, t.id, t.value, t.kind);
        if r.Some? { assert Append(r.value, []) == r; }
      }
  }

  lemma {:induction false} OneFits(w: nat)
    requires w > 0
    ensures 1 < Pow256(w)
  {
  }

  /**
   * An indication is produced exactly when the transaction id fits 16 bits and the payload
   * leaves room for the two TLVs; then the client finds its id and the exact payload.
   */
  lemma IndicationDelivers(message: int, clientWidth: nat, data: seq<byte>, transaction: int)
    requires 0 <= message < 65536 && clientWidth > 0
    ensures GenerateReportIndication(message, clientWidth, data, transaction).Some? <==>
            0 <= transaction < 65536 && |data| + clientWidth + 8 <= 65535
    ensures var r := GenerateReportIndication(message, clientWidth, data, transaction);
            r.Some? ==>
              && ParseHeader(r.value) == Some(Header(INDICATION, transaction, message, |r.value| - 7))
              && Lookup(r.value, 0x1, INT) == Found(0x1, clientWidth, Number(1))
              && Lookup(r.value, 0x2, ARRAY) == Found(0x2, |data| + 2, Data(data))
  {
    var tlvs := IndicationTlvs(clientWidth, data);
    OneFits(clientWidth);
    IndicationIsBuilt(message, clientWidth, data, transaction);
    RoundTrip(INDICATION, transaction, message, tlvs);
    assert tlvs[1..] == [tlvs[1]] && tlvs[1..][1..] == [];
    assert FirstTlv(tlvs, REPORT_CLIENT_TLV) == Some(tlvs[0]);
    assert FirstTlv(tlvs, REPORT_DATA_TLV) == FirstTlv(tlvs[1..], REPORT_DATA_TLV) == Some(tlvs[1]);
    LittleEndianDecodes(CLIENT_ID, clientWidth);
    ReadBackOwnKind(tlvs[0]);
    ReadBackOwnKind(tlvs[1]);
    FitsTwo(tlvs);
  }

  /** The two kinds of report: how much payload each can carry, and that it arrives unchanged. */
  lemma ReportsDeliver(data: seq<byte>, transaction: int)
    requires 0 <= transaction < 65536
    ensures var r := GenerateReportLargeIndication(data, transaction);
            if |data| <= 65519 then
              && r.Some? && ParseHeader(r.value) == Some(Header(INDICATION, transaction, 0x22, |data| + 16))
              && Lookup(r.value, 0x2, ARRAY) == Found(0x2, |data| + 2, Data(data))
            else r == None
    ensures var r := GenerateReportSmallIndication(data, transaction);
            if |data| <= 65523 then
              && r.Some? && ParseHeader(r.value) == Some(Header(INDICATION, transaction, 0x21, |data| + 12))
              && Lookup(r.value, 0x2, ARRAY) == Found(0x2, |data| + 2, Data(data))
            else r == None
  {
    IndicationDelivers(LARGE_REPORT, 8, data, transaction);
    IndicationDelivers(SMALL_REPORT, 4, data, transaction);
    if |data| <= 65519 { IndicationLength(LARGE_REPORT, 8, data, transaction); }
    if |data| <= 65523 { IndicationLength(SMALL_REPORT, 4, data, transaction); }
  }

  lemma IndicationLength(message: int, clientWidth: nat, data: seq<byte>, transaction: int)
    requires GenerateReportIndication(message, clientWidth, data, transaction).Some?
    ensures |GenerateReportIndication(message, clientWidth, data, transaction).value| == 15 + clientWidth + |data|
  {
    var tlvs := IndicationTlvs(clientWidth, data);
    IndicationIsBuilt(message, clientWidth, data, transaction);
    BuildBytes(INDICATION, transaction, message, tlvs);
    assert tlvs[1..] == [tlvs[1]] && tlvs[1..][1..] == [];
    assert Qmi.Body(tlvs[1..]) == Wire(tlvs[1]) + Qmi.Body([]);
  }

  lemma IndicationIsBuilt(message: int, clientWidth: nat, data: seq<byte>, transaction: int)
    ensures GenerateReportIndication(message, clientWidth, data, transaction) ==
            Build(INDICATION, transaction, message, IndicationTlvs(clientWidth, data))
  {
    var tlvs := IndicationTlvs(clientWidth, data);
    match GenerateHeader(INDICATION, transaction, message)
    case None =>
    case Some(m) => AppendTwo(m, tlvs[0], tlvs[1]);
  }

  lemma FitsTwo(tlvs: seq<Tlv>)
    requires |tlvs| == 2 && 0 <= tlvs[0].id < 256 && 0 <= tlvs[1].id < 256
    ensures Fits(tlvs, 0) <==> 6 + |WireValue(tlvs[0])| + |WireValue(tlvs[1])| <= 65535
  {
    assert tlvs[1..][1..] == [];
    assert Fits(tlvs[1..], 3 + |WireValue(tlvs[0])|) <==>
           3 + |WireValue(tlvs[0])| <= 65535 && Fits([], 6 + |WireValue(tlvs[0])| + |WireValue(tlvs[1])|);
  }

  /** The reply to a control request carries success (0) and the client id, under the request's transaction id. */
  lemma ControlReplySucceeds(transaction: int)
    ensures GenerateMessageControlOutput(transaction).Some? <==> 0 <= transaction < 65536
    ensures var r := GenerateMessageControlOutput(transaction);
            r.Some? ==>
              && ParseHeader(r.value) == Some(Header(RESPONSE, transaction, 0x20, |r.value| - 7))
              && Lookup(r.value, 0x2, SEQUENCE) == Found(0x2, 4, Number(0))
              && Lookup(r.value, 0x10, INT) == Found(0x10, 4, Number(1))
  {
    var zeros := LittleEndian(0, 2) + LittleEndian(0, 2);
    var tlvs := [Tlv(SUCCESS_TLV, zeros, SEQUENCE), Tlv(CLIENT_TLV, LittleEndian(CLIENT_ID, 4), INT)];
    Pow256Values();
    assert GenerateMessageControlOutput(transaction) == Build(RESPONSE, transaction, CONTROL, tlvs) by {
      match GenerateHeader(RESPONSE, transaction, CONTROL)
      case None =>
      case Some(m) => AppendTwo(m, tlvs[0], tlvs[1]);
    }
    RoundTrip(RESPONSE, transaction, CONTROL, tlvs);
    assert tlvs[1..] == [tlvs[1]] && tlvs[1..][1..] == [];
    assert FirstTlv(tlvs, CLIENT_TLV) == FirstTlv(tlvs[1..], CLIENT_TLV) == Some(tlvs[1]);
    LittleEndianDecodes(CLIENT_ID, 4);
    assert FromBytes(zeros) == 0 by {
      assert zeros == LittleEndian(0, 4) by {
        assert LittleEndian(0, 4) == [0] + ([0] + LittleEndian(0, 2));
      }
      LittleEndianDecodes(0, 4);
    }
    ReadBackOwnKind(tlvs[0]);
    ReadBackOwnKind(tlvs[1]);
    FitsTwo(tlvs);
  }
}
