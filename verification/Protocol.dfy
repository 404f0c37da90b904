/** Messages exchanged with the sensor core, after Protobuf decoding. */
module Protocol {
  import opened Common
  import opened Attributes

  /** The pseudo sensor answering discovery requests. */
  const SUID := Uid(0xABAB_ABAB_ABAB_ABAB, 0xABAB_ABAB_ABAB_ABAB)

  const REQUEST_GET_ATTRIBUTES := 1
  const REQUEST_DISABLE := 10
  const REQUEST_SUID := 512
  const REQUEST_ENABLE_CONTINUOUS := 513
  const REQUEST_ENABLE_ON_CHANGE := 514

  const RESPONSE_GET_ATTRIBUTES := 128
  /** One number, two meanings: a discovery response from SUID, a configuration update from any other sensor. */
  const RESPONSE_SUID := 768
  const RESPONSE_ENABLE := 768
  const REPORT_PROXIMITY := 769
  const REPORT_MEASUREMENT := 1025

  const REGISTRY := "registry"
  const MAX_RETRIES := 100

  datatype SuidResponse = SuidResponse(dataType: string, uids: seq<Uid>)

  /** The vendor-specific proximity struct: whether it has the expected size, and its near field. */
  datatype Davinci = Davinci(sized: bool, near: bool)

  /**
   * The bytes of a message body, as far as anybody looks at them: what each decoder makes of
   * them. None (or false) is a failed decode.
   */
  datatype Payload = Payload(
    suid: Option<SuidResponse>,
    attributes: Option<seq<Attr>>,
    config: bool,
    acceleration: Option<seq<real>>,
    near: Option<bool>,
    davinci: Option<Davinci>)

  const GARBAGE := Payload(None, None, false, None, None, None)

  datatype Body = Body(id: nat, payload: Payload)

  /** One body as the "report" signal carries it. */
  datatype Report = Report(id: nat, uid: Uid, payload: Payload)

  datatype RequestBody = FindType(dataType: string) | NoUpdates | Rate(hz: real) | Empty

  /** A request as sent; `task` is the task its completion callback gets, if any. */
  datatype Request = Request(uid: Uid, id: nat, body: RequestBody, task: Option<nat>)
}
