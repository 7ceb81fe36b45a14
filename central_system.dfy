/**
 * The inbound side of an OCPP 1.5 central system: one handler per message
 * a charge point sends. Each handler reads the user store, makes its calls
 * into the OCPP repository and builds the response. The current time is
 * read once per call and passed in as `now`.
 */
module CentralSystem {
  import opened Wrappers
  import opened OcppTypes
  import opened Decimal
  import opened Authorization
  import opened MeterData
  import opened Repository

  class CentralSystemService15Server {
    const ocppServiceRepository: OcppServiceRepository
    const userRepository: UserRepository
    /** The configured heartbeat interval handed to booting charge points. */
    const heartbeatInterval: Int32
    /** The configured validity, in hours, of an accepted idTag. */
    const hoursToExpire: Int32

    constructor (ocppServiceRepository: OcppServiceRepository, userRepository: UserRepository,
                 heartbeatInterval: Int32, hoursToExpire: Int32)
      ensures this.ocppServiceRepository == ocppServiceRepository && this.userRepository == userRepository
      ensures this.heartbeatInterval == heartbeatInterval && this.hoursToExpire == hoursToExpire
    {
      this.ocppServiceRepository := ocppServiceRepository;
      this.userRepository := userRepository;
      this.heartbeatInterval := heartbeatInterval;
      this.hoursToExpire := hoursToExpire;
    }

    /** Every meter reading stored on a transaction reads back as an integer. */
    ghost predicate MeterReadingsAreDecimal()
      reads ocppServiceRepository
    {
      && (forall id :: id in ocppServiceRepository.transactions ==>
            ParseDecimal(ocppServiceRepository.transactions[id].startMeterValue).Some?)
      && (forall id :: id in ocppServiceRepository.transactionStops ==>
            ParseDecimal(ocppServiceRepository.transactionStops[id].stopMeterValue).Some?)
    }

    /** `bootNotification`: records the boot and answers with the storage's verdict, the time and the interval. */
    method BootNotification(parameters: BootNotificationRequest, chargeBoxIdentity: string,
                            endpointAddress: string, now: Millis, stored: bool)
      returns (response: BootNotificationResponse)
      modifies ocppServiceRepository
      ensures response.status == (if stored then RegistrationAccepted else RegistrationRejected)
      ensures response.currentTime == now && response.heartbeatInterval == heartbeatInterval
      ensures ocppServiceRepository.chargeboxes == if stored
        then old(ocppServiceRepository.chargeboxes)[chargeBoxIdentity :=
               old(ocppServiceRepository.ChargeboxOf(chargeBoxIdentity)).(
                 registration := Some(Registration(endpointAddress, V15, parameters, now)))]
        else old(ocppServiceRepository.chargeboxes)
      ensures unchanged(ocppServiceRepository`transactions, ocppServiceRepository`transactionStops,
                        ocppServiceRepository`connectorStatuses, ocppServiceRepository`meterValueWrites)
    {
      var isRegistered := ocppServiceRepository.UpdateChargebox(endpointAddress, V15, parameters, chargeBoxIdentity, now, stored);
      var status := if isRegistered then RegistrationAccepted else RegistrationRejected;
      response := BootNotificationResponse(status, now, heartbeatInterval);
    }

    /** `firmwareStatusNotification`: overwrites the chargebox's firmware status and nothing else. */
    method FirmwareStatusNotification(parameters: FirmwareStatusNotificationRequest, chargeBoxIdentity: string)
      modifies ocppServiceRepository
      ensures ocppServiceRepository.chargeboxes == old(ocppServiceRepository.chargeboxes)[chargeBoxIdentity :=
                old(ocppServiceRepository.ChargeboxOf(chargeBoxIdentity)).(firmwareStatus := Some(parameters.status))]
      ensures ocppServiceRepository.ChargeboxOf(chargeBoxIdentity).registration == old(ocppServiceRepository.ChargeboxOf(chargeBoxIdentity).registration)
      ensures ocppServiceRepository.ChargeboxOf(chargeBoxIdentity).lastHeartbeat == old(ocppServiceRepository.ChargeboxOf(chargeBoxIdentity).lastHeartbeat)
      ensures ocppServiceRepository.ChargeboxOf(chargeBoxIdentity).diagnosticsStatus == old(ocppServiceRepository.ChargeboxOf(chargeBoxIdentity).diagnosticsStatus)
      ensures unchanged(ocppServiceRepository`transactions, ocppServiceRepository`transactionStops,
                        ocppServiceRepository`connectorStatuses, ocppServiceRepository`meterValueWrites)
    {
      ocppServiceRepository.UpdateChargeboxFirmwareStatus(chargeBoxIdentity, parameters.status);
    }

    /**
     * `statusNotification`: appends exactly one connector status event; its
     * time is the message's timestamp when set and `now` otherwise.
     */
    method StatusNotification(parameters: StatusNotificationRequest, chargeBoxIdentity: string, now: Millis)
      modifies ocppServiceRepository
      // The first and third clauses follow from the second; they spell out, on purpose, that exactly
      // one event is appended and where its timestamp comes from.
      ensures |ocppServiceRepository.connectorStatuses| == |old(ocppServiceRepository.connectorStatuses)| + 1
      ensures ocppServiceRepository.connectorStatuses == old(ocppServiceRepository.connectorStatuses) + [
                ConnectorStatus(chargeBoxIdentity, parameters.connectorId, parameters.status,
                                parameters.timestamp.GetOr(now), parameters.errorCode, parameters.info,
                                parameters.vendorId, parameters.vendorErrorCode)]
      ensures var event := ocppServiceRepository.connectorStatuses[|ocppServiceRepository.connectorStatuses| - 1];
              event.timestamp == (if parameters.timestamp.Some? then parameters.timestamp.value else now)
      ensures unchanged(ocppServiceRepository`chargeboxes, ocppServiceRepository`transactions,
                        ocppServiceRepository`transactionStops, ocppServiceRepository`meterValueWrites)
    {
      var timestamp: Millis;
      if parameters.timestamp.Some? {
        timestamp := parameters.timestamp.value;
      } else {
        timestamp := now;
      }
      var event := ConnectorStatus(chargeBoxIdentity, parameters.connectorId, parameters.status, timestamp,
                                   parameters.errorCode, parameters.info, parameters.vendorId, parameters.vendorErrorCode);
      ocppServiceRepository.InsertConnectorStatus15(event);
    }

    /** `meterValues`: one write of the reported values if there are any, no write otherwise. */
    method MeterValues(parameters: MeterValuesRequest, chargeBoxIdentity: string)
      modifies ocppServiceRepository
      ensures ocppServiceRepository.meterValueWrites == old(ocppServiceRepository.meterValueWrites) +
                (if |parameters.values| > 0
                 then [ConnectorMeterValues(chargeBoxIdentity, parameters.connectorId, parameters.transactionId, parameters.values)]
                 else [])
      // Follows from the clause above; spelled out on purpose: no values, no write.
      ensures |parameters.values| == 0 ==> unchanged(ocppServiceRepository`meterValueWrites)
      ensures unchanged(ocppServiceRepository`chargeboxes, ocppServiceRepository`transactions,
                        ocppServiceRepository`transactionStops, ocppServiceRepository`connectorStatuses)
    {
      if |parameters.values| > 0 {
        ocppServiceRepository.InsertMeterValues15(chargeBoxIdentity, parameters.connectorId, parameters.values, parameters.transactionId);
      }
    }

    /** `diagnosticsStatusNotification`: overwrites the chargebox's diagnostics status and nothing else. */
    method DiagnosticsStatusNotification(parameters: DiagnosticsStatusNotificationRequest, chargeBoxIdentity: string)
      modifies ocppServiceRepository
      ensures ocppServiceRepository.chargeboxes == old(ocppServiceRepository.chargeboxes)[chargeBoxIdentity :=
                old(ocppServiceRepository.ChargeboxOf(chargeBoxIdentity)).(diagnosticsStatus := Some(parameters.status))]
      ensures ocppServiceRepository.ChargeboxOf(chargeBoxIdentity).registration == old(ocppServiceRepository.ChargeboxOf(chargeBoxIdentity).registration)
      ensures ocppServiceRepository.ChargeboxOf(chargeBoxIdentity).lastHeartbeat == old(ocppServiceRepository.ChargeboxOf(chargeBoxIdentity).lastHeartbeat)
      ensures ocppServiceRepository.ChargeboxOf(chargeBoxIdentity).firmwareStatus == old(ocppServiceRepository.ChargeboxOf(chargeBoxIdentity).firmwareStatus)
      ensures unchanged(ocppServiceRepository`transactions, ocppServiceRepository`transactionStops,
                        ocppServiceRepository`connectorStatuses, ocppServiceRepository`meterValueWrites)
    {
      ocppServiceRepository.UpdateChargeboxDiagnosticsStatus(chargeBoxIdentity, parameters.status);
    }

    /**
     * `startTransaction`: authorizes the idTag and inserts a transaction only
     * when it is accepted. The response always carries the authorization and
     * carries a transaction id exactly when the insert returned one.
     */
    method StartTransaction(parameters: StartTransactionRequest, chargeBoxIdentity: string, now: Millis,
                            generatedKey: Option<Int32>)
      returns (response: StartTransactionResponse)
      requires generatedKey.Some? ==>  // the storage's key is new: no row and no stop recorded under it
               && generatedKey.value !in ocppServiceRepository.transactions
               && generatedKey.value !in ocppServiceRepository.transactionStops
      modifies ocppServiceRepository
      ensures response.idTagInfo == CreateIdTagInfo(userRepository.users, parameters.idTag, now, hoursToExpire)
      ensures response.transactionId == if response.idTagInfo.status == Accepted then generatedKey else None
      ensures ocppServiceRepository.transactions == if response.transactionId.Some?
        then old(ocppServiceRepository.transactions)[response.transactionId.value :=
               Transaction(chargeBoxIdentity, parameters.connectorId, parameters.idTag, parameters.timestamp,
                           IntToDecimal(parameters.meterStart), parameters.reservationId)]
        else old(ocppServiceRepository.transactions)
      ensures forall id :: id in old(ocppServiceRepository.transactions) ==>
                id in ocppServiceRepository.transactions
                && ocppServiceRepository.transactions[id] == old(ocppServiceRepository.transactions)[id]
      ensures ocppServiceRepository.transactions != old(ocppServiceRepository.transactions) ==>
                && parameters.idTag in userRepository.users
                && var record := userRepository.users[parameters.idTag];
                   !record.inTransaction && !record.blocked && !IsExpired(record, now)
      ensures unchanged(ocppServiceRepository`chargeboxes, ocppServiceRepository`transactionStops,
                        ocppServiceRepository`connectorStatuses, ocppServiceRepository`meterValueWrites)
      ensures old(MeterReadingsAreDecimal()) ==> MeterReadingsAreDecimal()
    {
      var idTag := parameters.idTag;
      var idTagInfo := CreateIdTagInfo(userRepository.users, idTag, now, hoursToExpire);
      response := StartTransactionResponse(idTagInfo, None);
      if idTagInfo.status == Accepted {
        var startMeterValue := IntToDecimal(parameters.meterStart);
        var transactionId := ocppServiceRepository.InsertTransaction15(
          chargeBoxIdentity, parameters.connectorId, idTag, parameters.timestamp, startMeterValue,
          parameters.reservationId, generatedKey);
        if transactionId.Some? {
          response := response.(transactionId := transactionId);
        }
        ParseIntToDecimal(parameters.meterStart);
        AcceptedExactly(userRepository.users, idTag, now, hoursToExpire);
      }
    }

    /**
     * `stopTransaction`: writes the stop fields once, writes all attached
     * meter values in one call when there are any, and authorizes the idTag
     * when one was supplied.
     */
    method StopTransaction(parameters: StopTransactionRequest, chargeBoxIdentity: string, now: Millis)
      returns (response: StopTransactionResponse)
      modifies ocppServiceRepository
      ensures ocppServiceRepository.transactionStops == old(ocppServiceRepository.transactionStops)[
                parameters.transactionId := TransactionStop(parameters.timestamp, IntToDecimal(parameters.meterStop))]
      ensures ocppServiceRepository.meterValueWrites == old(ocppServiceRepository.meterValueWrites) +
                (if |parameters.transactionData| > 0
                 then [TransactionMeterValues(chargeBoxIdentity, parameters.transactionId, Flatten(parameters.transactionData))]
                 else [])
      ensures response.idTagInfo.Some? <==> parameters.idTag.Some?
      ensures parameters.idTag.Some? ==>
                response.idTagInfo == Some(CreateIdTagInfo(userRepository.users, parameters.idTag.value, now, hoursToExpire))
      ensures unchanged(ocppServiceRepository`chargeboxes, ocppServiceRepository`transactions,
                        ocppServiceRepository`connectorStatuses)
      ensures old(MeterReadingsAreDecimal()) ==> MeterReadingsAreDecimal()
    {
      var transactionId := parameters.transactionId;
      var stopMeterValue := IntToDecimal(parameters.meterStop);
      ocppServiceRepository.UpdateTransaction(transactionId, parameters.timestamp, stopMeterValue);
      ParseIntToDecimal(parameters.meterStop);

      if |parameters.transactionData| > 0 {
        var combinedList := CombineTransactionData(parameters.transactionData);
        ocppServiceRepository.InsertMeterValuesOfTransaction(chargeBoxIdentity, transactionId, combinedList);
      }

      if parameters.idTag.Some? {
        var idTagInfo := CreateIdTagInfo(userRepository.users, parameters.idTag.value, now, hoursToExpire);
        response := StopTransactionResponse(Some(idTagInfo));
      } else {
        response := StopTransactionResponse(None);
      }
    }

    /** `heartbeat`: records `now` as the chargebox's last heartbeat and answers with that same `now`. */
    method Heartbeat(chargeBoxIdentity: string, now: Millis) returns (response: HeartbeatResponse)
      modifies ocppServiceRepository
      ensures response.currentTime == now
      ensures ocppServiceRepository.ChargeboxOf(chargeBoxIdentity).lastHeartbeat == Some(response.currentTime)
      ensures ocppServiceRepository.chargeboxes == old(ocppServiceRepository.chargeboxes)[chargeBoxIdentity :=
                old(ocppServiceRepository.ChargeboxOf(chargeBoxIdentity)).(lastHeartbeat := Some(now))]
      ensures unchanged(ocppServiceRepository`transactions, ocppServiceRepository`transactionStops,
                        ocppServiceRepository`connectorStatuses, ocppServiceRepository`meterValueWrites)
    {
      ocppServiceRepository.UpdateChargeboxHeartbeat(chargeBoxIdentity, now);
      response := HeartbeatResponse(now);
    }

    /** `authorize`: answers with the authorization of the idTag and changes nothing. */
    method Authorize(parameters: AuthorizeRequest, now: Millis) returns (response: AuthorizeResponse)
      ensures response.idTagInfo == CreateIdTagInfo(userRepository.users, parameters.idTag, now, hoursToExpire)
      ensures response.idTagInfo.status == PolicyStatus(userRepository.users, parameters.idTag, now)
    {
      var idTagInfo := CreateIdTagInfo(userRepository.users, parameters.idTag, now, hoursToExpire);
      CreateIdTagInfoFollowsPolicyOrder(userRepository.users, parameters.idTag, now, hoursToExpire);
      response := AuthorizeResponse(idTagInfo);
    }
  }
}
