/** The report records that the keyboard, mouse and consumer-control code hand to
    the serial transport, and the constants that fill their header bytes.

    Every outbound effect of the HID layer is one call of the transport's
    `write_message` with a filled-in device report: a report id, a report type,
    the payload length and the payload.  The transport itself (framing,
    escaping, timing) is not part of this model; each call is recorded as one
    `Report` appended to a log.
 */
module HidReport {

  /** A C `signed char`: the relative mouse movement and wheel values. */
  newtype int8 = x: int | -128 <= x < 128

  /** Capacity of the data part of a device report (`HID_DEV_DATA_LEN`). */
  const DevDataLen: nat := 8

  /** Payload lengths of the keyboard and mouse input reports. */
  const KeyboardInReportLen: bv8 := 8
  const MouseInReportLen: bv8 := 4

  /** Report ids, matching the ids of the report descriptor's collections. */
  const ReportIdMouseIn: bv8 := 1
  const ReportIdKeyIn: bv8 := 2
  const ReportIdConsumerIn: bv8 := 3

  /** The report type of every report this layer sends (`HID_REPORT_TYPE_INPUT`). */
  const ReportTypeInput: bv8 := 1

  /** Number of key slots in a boot-keyboard report. */
  const KeySlots: nat := 6

  /** The payload, as the abstract record the source copies into the report. */
  datatype Payload =
    | KeyPayload(modifiers: bv8, keys: seq<bv8>)
    | MousePayload(buttons: bv8, x: int8, y: int8, wheel: int8)
    | ConsumerPayload(data: seq<bv8>)

  /** One device report handed to the transport. */
  datatype Report = Report(id: bv8, reportType: bv8, len: bv8, payload: Payload)

  /** The report a keyboard sends for the given modifier byte and key slots. */
  function KeyboardReport(modifiers: bv8, keys: seq<bv8>): (r: Report)
    ensures r.id == 2 && r.reportType == 1 && r.len as nat <= DevDataLen
    ensures r.payload.KeyPayload? && r.payload.keys == keys
  {
    Report(ReportIdKeyIn, ReportTypeInput, KeyboardInReportLen, KeyPayload(modifiers, keys))
  }

  /** The report a mouse sends for the given button byte and movement. */
  function MouseReport(buttons: bv8, x: int8, y: int8, wheel: int8): (r: Report)
    ensures r.id == 1 && r.reportType == 1 && r.len as nat <= DevDataLen
    ensures r.payload.MousePayload? && r.payload.buttons == buttons
  {
    Report(ReportIdMouseIn, ReportTypeInput, MouseInReportLen, MousePayload(buttons, x, y, wheel))
  }

  /** The report a consumer-control command sends: the first `|data|` bytes of
      the consumer-control buffer. */
  function ConsumerReport(data: seq<bv8>): (r: Report)
    requires |data| <= DevDataLen
    ensures r.id == 3 && r.reportType == 1 && r.len as int == |data|
  {
    Report(ReportIdConsumerIn, ReportTypeInput, |data| as bv8, ConsumerPayload(data))
  }
}
