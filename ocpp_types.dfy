/**
 * The values exchanged by an OCPP 1.5 central system: the inbound requests
 * a charge point sends, the responses the central system returns, and the
 * user record the authorization decision reads.
 *
 * Times are milliseconds since the epoch (Joda `DateTime.getMillis()` and
 * `java.sql.Timestamp`); enumerations such as a connector status or a
 * firmware status are carried as their protocol value strings.
 */
module OcppTypes {
  import opened Wrappers

  /** A Java `int`. */
  type Int32 = x: int | -0x8000_0000 <= x <= 0x7FFF_FFFF

  /** A point in time, in milliseconds. */
  type Millis = int

  const MillisPerHour: int := 3_600_000

  datatype OcppVersion = V12 | V15

  // ---------------------------------------------------------------------------
  // Authorization
  // ---------------------------------------------------------------------------

  datatype AuthorizationStatus = Accepted | Blocked | Expired | Invalid | ConcurrentTx

  /** What the central system tells a charge point about an idTag. */
  datatype IdTagInfo = IdTagInfo(
    status: AuthorizationStatus,
    expiryDate: Option<Millis>,
    parentIdTag: Option<string>)

  /** The user store's record for one idTag. */
  datatype UserRecord = UserRecord(
    inTransaction: bool,
    blocked: bool,
    expiryDate: Option<Millis>,
    parentIdTag: Option<string>)

  // ---------------------------------------------------------------------------
  // Metering
  // ---------------------------------------------------------------------------

  /** One timestamped meter reading; the sampled values are opaque here. */
  datatype MeterValue = MeterValue(timestamp: Millis, values: seq<string>)

  /** A container of meter values attached to a stop; it carries no meaning of its own. */
  datatype TransactionData = TransactionData(values: seq<MeterValue>)

  // ---------------------------------------------------------------------------
  // Requests (a list-valued field is "set" exactly when it is non-empty)
  // ---------------------------------------------------------------------------

  datatype BootNotificationRequest = BootNotificationRequest(
    chargePointVendor: string,
    chargePointModel: string,
    chargePointSerialNumber: Option<string>,
    chargeBoxSerialNumber: Option<string>,
    firmwareVersion: Option<string>,
    iccid: Option<string>,
    imsi: Option<string>,
    meterType: Option<string>,
    meterSerialNumber: Option<string>)

  datatype FirmwareStatusNotificationRequest = FirmwareStatusNotificationRequest(status: string)

  datatype DiagnosticsStatusNotificationRequest = DiagnosticsStatusNotificationRequest(status: string)

  datatype StatusNotificationRequest = StatusNotificationRequest(
    connectorId: Int32,
    status: string,
    errorCode: string,
    info: Option<string>,
    timestamp: Option<Millis>,
    vendorId: Option<string>,
    vendorErrorCode: Option<string>)

  datatype MeterValuesRequest = MeterValuesRequest(
    connectorId: Int32,
    transactionId: Option<Int32>,
    values: seq<MeterValue>)

  datatype StartTransactionRequest = StartTransactionRequest(
    connectorId: Int32,
    idTag: string,
    timestamp: Millis,
    meterStart: Int32,
    reservationId: Option<Int32>)

  datatype StopTransactionRequest = StopTransactionRequest(
    transactionId: Int32,
    idTag: Option<string>,
    timestamp: Millis,
    meterStop: Int32,
    transactionData: seq<TransactionData>)

  datatype AuthorizeRequest = AuthorizeRequest(idTag: string)

  // ---------------------------------------------------------------------------
  // Responses (the status, meter-values, firmware and diagnostics responses are empty)
  // ---------------------------------------------------------------------------

  datatype RegistrationStatus = RegistrationAccepted | RegistrationRejected

  datatype BootNotificationResponse = BootNotificationResponse(
    status: RegistrationStatus,
    currentTime: Millis,
    heartbeatInterval: Int32)

  datatype StartTransactionResponse = StartTransactionResponse(
    idTagInfo: IdTagInfo,
    transactionId: Option<Int32>)

  datatype StopTransactionResponse = StopTransactionResponse(idTagInfo: Option<IdTagInfo>)

  datatype HeartbeatResponse = HeartbeatResponse(currentTime: Millis)

  datatype AuthorizeResponse = AuthorizeResponse(idTagInfo: IdTagInfo)
}
