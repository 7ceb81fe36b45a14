/**
 * A client of the central system: what a caller can conclude from the
 * handlers' contracts alone about one charging session.
 */
module Scenarios {
  import opened Wrappers
  import opened OcppTypes
  import opened Decimal
  import opened MeterData
  import opened Repository
  import opened CentralSystem

  /**
   * A free idTag starts a session with meter reading 100 and stops it with
   * 500 and two batches of samples: the ledger keeps "100" and "500" as
   * written, and the stop's samples arrive in one write, in batch order.
   */
  method StartStopSession(t1: MeterValue, t2: MeterValue, t3: MeterValue)
    returns (startMeterValue: string, stopMeterValue: string, lastWrite: MeterValuesWrite)
    ensures startMeterValue == "100" && stopMeterValue == "500"
    ensures lastWrite == TransactionMeterValues("CB-1", 7, [t1, t2, t3])
  {
    var repository := new OcppServiceRepository();
    var users := new UserRepository(map["TAG-1" := UserRecord(false, false, None, None)]);
    var server := new CentralSystemService15Server(repository, users, 60, 2);

    var started := server.StartTransaction(StartTransactionRequest(1, "TAG-1", 1000, 100, None), "CB-1", 1000, Some(7));
    assert started.transactionId == Some(7);

    var batches := [TransactionData([t1, t2]), TransactionData([t3])];
    var stopped := server.StopTransaction(StopTransactionRequest(7, None, 5000, 500, batches), "CB-1", 5000);
    assert stopped.idTagInfo == None;

    assert Flatten(batches) == [t1, t2, t3] by {
      assert Flatten(batches[1..][1..]) == [];
    }
    assert NatToDecimal(100) == "100" by {
      assert NatToDecimal(10) == "10";
    }
    assert NatToDecimal(500) == "500" by {
      assert NatToDecimal(50) == "50";
    }
    startMeterValue := repository.transactions[7].startMeterValue;
    stopMeterValue := repository.transactionStops[7].stopMeterValue;
    lastWrite := repository.meterValueWrites[|repository.meterValueWrites| - 1];
  }
}
