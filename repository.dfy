/**
 * The two repositories the central system talks to, as abstract state.
 * Their storage code is not part of this model: each repository method
 * says what the central system's call leaves recorded, and where the
 * storage's answer is decided by that code (whether a chargebox update
 * succeeded, which key a new transaction gets) the answer is a parameter.
 */
module Repository {
  import opened Wrappers
  import opened OcppTypes

  /** What a successful boot notification records about a chargebox. */
  datatype Registration = Registration(
    endpointAddress: string,
    version: OcppVersion,
    boot: BootNotificationRequest,
    lastContact: Millis)

  /** The chargebox row as far as this core writes it. */
  datatype Chargebox = Chargebox(
    registration: Option<Registration>,
    lastHeartbeat: Option<Millis>,
    firmwareStatus: Option<string>,
    diagnosticsStatus: Option<string>)

  /** A chargebox nothing has been recorded for. */
  const UnknownChargebox := Chargebox(None, None, None, None)

  datatype Transaction = Transaction(
    chargeBoxId: string,
    connectorId: Int32,
    idTag: string,
    startTimestamp: Millis,
    startMeterValue: string,
    reservationId: Option<Int32>)

  /** The stop fields written onto a transaction. */
  datatype TransactionStop = TransactionStop(stopTimestamp: Millis, stopMeterValue: string)

  /** One entry of the append-only connector status log. */
  datatype ConnectorStatus = ConnectorStatus(
    chargeBoxId: string,
    connectorId: Int32,
    status: string,
    timestamp: Millis,
    errorCode: string,
    errorInfo: Option<string>,
    vendorId: Option<string>,
    vendorErrorCode: Option<string>)

  /** One meter-value write: a live report of a connector, or the values attached to a stop. */
  datatype MeterValuesWrite =
    | ConnectorMeterValues(chargeBoxId: string, connectorId: Int32, liveTransactionId: Option<Int32>, values: seq<MeterValue>)
    | TransactionMeterValues(chargeBoxId: string, transactionId: Int32, values: seq<MeterValue>)

  class OcppServiceRepository {
    var chargeboxes: map<string, Chargebox>
    var transactions: map<Int32, Transaction>
    var transactionStops: map<Int32, TransactionStop>
    var connectorStatuses: seq<ConnectorStatus>
    var meterValueWrites: seq<MeterValuesWrite>

    constructor ()
      ensures chargeboxes == map[] && transactions == map[] && transactionStops == map[]
      ensures connectorStatuses == [] && meterValueWrites == []
    {
      chargeboxes, transactions, transactionStops := map[], map[], map[];
      connectorStatuses, meterValueWrites := [], [];
    }

    /** The recorded state of chargebox `id`. */
    function ChargeboxOf(id: string): Chargebox
      reads this
    {
      if id in chargeboxes then chargeboxes[id] else UnknownChargebox
    }

    /**
     * `updateChargebox`: records the boot data, the endpoint address and the
     * contact time when the storage reports success (`stored`); a failed
     * update records nothing. The answer is `stored`.
     */
    method UpdateChargebox(endpointAddress: string, version: OcppVersion, boot: BootNotificationRequest,
                           chargeBoxId: string, now: Millis, stored: bool) returns (isRegistered: bool)
      modifies this`chargeboxes
      ensures isRegistered == stored
      ensures chargeboxes == if stored
        then old(chargeboxes)[chargeBoxId := old(ChargeboxOf(chargeBoxId)).(
               registration := Some(Registration(endpointAddress, version, boot, now)))]
        else old(chargeboxes)
    {
      isRegistered := stored;
      if stored {
        var registration := Registration(endpointAddress, version, boot, now);
        chargeboxes := chargeboxes[chargeBoxId := ChargeboxOf(chargeBoxId).(registration := Some(registration))];
      }
    }

    /** `updateChargeboxFirmwareStatus`: overwrites the firmware status only. */
    method UpdateChargeboxFirmwareStatus(chargeBoxId: string, status: string)
      modifies this`chargeboxes
      ensures chargeboxes == old(chargeboxes)[chargeBoxId := old(ChargeboxOf(chargeBoxId)).(firmwareStatus := Some(status))]
    {
      chargeboxes := chargeboxes[chargeBoxId := ChargeboxOf(chargeBoxId).(firmwareStatus := Some(status))];
    }

    /** `updateChargeboxDiagnosticsStatus`: overwrites the diagnostics status only. */
    method UpdateChargeboxDiagnosticsStatus(chargeBoxId: string, status: string)
      modifies this`chargeboxes
      ensures chargeboxes == old(chargeboxes)[chargeBoxId := old(ChargeboxOf(chargeBoxId)).(diagnosticsStatus := Some(status))]
    {
      chargeboxes := chargeboxes[chargeBoxId := ChargeboxOf(chargeBoxId).(diagnosticsStatus := Some(status))];
    }

    /** `updateChargeboxHeartbeat`: overwrites the last heartbeat time only. */
    method UpdateChargeboxHeartbeat(chargeBoxId: string, timestamp: Millis)
      modifies this`chargeboxes
      ensures chargeboxes == old(chargeboxes)[chargeBoxId := old(ChargeboxOf(chargeBoxId)).(lastHeartbeat := Some(timestamp))]
    {
      chargeboxes := chargeboxes[chargeBoxId := ChargeboxOf(chargeBoxId).(lastHeartbeat := Some(timestamp))];
    }

    /** `insertConnectorStatus15`: appends one event to the status log. */
    method InsertConnectorStatus15(event: ConnectorStatus)
      modifies this`connectorStatuses
      ensures connectorStatuses == old(connectorStatuses) + [event]
    {
      connectorStatuses := connectorStatuses + [event];
    }

    /** `insertMeterValues15`: one write of a connector's live meter values. */
    method InsertMeterValues15(chargeBoxId: string, connectorId: Int32, values: seq<MeterValue>, transactionId: Option<Int32>)
      modifies this`meterValueWrites
      ensures meterValueWrites == old(meterValueWrites) + [ConnectorMeterValues(chargeBoxId, connectorId, transactionId, values)]
    {
      meterValueWrites := meterValueWrites + [ConnectorMeterValues(chargeBoxId, connectorId, transactionId, values)];
    }

    /** `insertMeterValuesOfTransaction`: one write of the meter values attached to a stop. */
    method InsertMeterValuesOfTransaction(chargeBoxId: string, transactionId: Int32, values: seq<MeterValue>)
      modifies this`meterValueWrites
      ensures meterValueWrites == old(meterValueWrites) + [TransactionMeterValues(chargeBoxId, transactionId, values)]
    {
      meterValueWrites := meterValueWrites + [TransactionMeterValues(chargeBoxId, transactionId, values)];
    }

    /**
     * `insertTransaction15`: the storage either generates a new key `generatedKey`
     * to the new row or fails (`None`), in which case nothing is recorded.
     */
    method InsertTransaction15(chargeBoxId: string, connectorId: Int32, idTag: string, startTimestamp: Millis,
                               startMeterValue: string, reservationId: Option<Int32>, generatedKey: Option<Int32>)
      returns (transactionId: Option<Int32>)
      requires generatedKey.Some? ==>  // a generated key names a new row, with no stop recorded under it
               generatedKey.value !in transactions && generatedKey.value !in transactionStops
      modifies this`transactions
      ensures transactionId == generatedKey
      ensures forall id :: id in old(transactions) ==> id in transactions && transactions[id] == old(transactions)[id]
      ensures transactions == if generatedKey.Some?
        then old(transactions)[generatedKey.value := Transaction(chargeBoxId, connectorId, idTag, startTimestamp, startMeterValue, reservationId)]
        else old(transactions)
    {
      transactionId := generatedKey;
      if generatedKey.Some? {
        transactions := transactions[generatedKey.value := Transaction(chargeBoxId, connectorId, idTag, startTimestamp, startMeterValue, reservationId)];
      }
    }

    /** `updateTransaction`: records the stop time and stop meter value of `transactionId`. */
    method UpdateTransaction(transactionId: Int32, stopTimestamp: Millis, stopMeterValue: string)
      modifies this`transactionStops
      ensures transactionStops == old(transactionStops)[transactionId := TransactionStop(stopTimestamp, stopMeterValue)]
    {
      transactionStops := transactionStops[transactionId := TransactionStop(stopTimestamp, stopMeterValue)];
    }
  }

  /** The user store, keyed by idTag; the central system only reads it. */
  class UserRepository {
    var users: map<string, UserRecord>

    constructor (users: map<string, UserRecord>)
      ensures this.users == users
    {
      this.users := users;
    }
  }
}
