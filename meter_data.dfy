/**
 * Meter values attached to a stop arrive grouped in `TransactionData`
 * batches. The central system flattens them, in batch order, into one list
 * and writes that list with a single repository call. The flattening
 * concatenates; it does not sort by time.
 */
module MeterData {
  import opened OcppTypes

  /** The meter values of all batches, batch after batch, each in its own order. */
  function Flatten(batches: seq<TransactionData>): seq<MeterValue> {
    if batches == [] then [] else batches[0].values + Flatten(batches[1..])
  }

  /** The number of meter values over all batches. */
  function TotalValues(batches: seq<TransactionData>): nat {
    if batches == [] then 0 else |batches[0].values| + TotalValues(batches[1..])
  }

  /**
   * The loop of `stopTransaction` that collects every batch's values into
   * one list with `addAll`.
   */
  method CombineTransactionData(transactionData: seq<TransactionData>) returns (combinedList: seq<MeterValue>)
    ensures combinedList == Flatten(transactionData)
    ensures |combinedList| == TotalValues(transactionData)
  {
    combinedList := [];
    for i := 0 to |transactionData|
      invariant combinedList == Flatten(transactionData[..i])
    {
      FlattenSnoc(transactionData[..i], transactionData[i]);
      assert transactionData[..i + 1] == transactionData[..i] + [transactionData[i]];
      combinedList := combinedList + transactionData[i].values;
    }
    assert transactionData[..|transactionData|] == transactionData;
    FlattenLength(transactionData);
  }

  /** Adding one batch at the end adds its values at the end. */
  lemma {:induction false} FlattenSnoc(batches: seq<TransactionData>, last: TransactionData)
    ensures Flatten(batches + [last]) == Flatten(batches) + last.values
  {
    if batches != [] {
      assert (batches + [last])[1..] == batches[1..] + [last];
      FlattenSnoc(batches[1..], last);
    }
  }

  /** The flattened list is as long as all batches together. */
  lemma {:induction false} FlattenLength(batches: seq<TransactionData>)
    ensures |Flatten(batches)| == TotalValues(batches)
  {
    if batches != [] {
      FlattenLength(batches[1..]);
    }
  }

  /**
   * Order is preserved: value `j` of batch `i` sits in the flattened list
   * after every value of the batches before `i` and after values `0..j` of
   * its own batch.
   */
  lemma {:induction false} FlattenAt(batches: seq<TransactionData>, i: nat, j: nat)
    requires i < |batches| && j < |batches[i].values|
    ensures TotalValues(batches[..i]) + j < |Flatten(batches)|
    ensures Flatten(batches)[TotalValues(batches[..i]) + j] == batches[i].values[j]
  {
    FlattenLength(batches);
    if i == 0 {
      assert batches[..0] == [];
    } else {
      var rest := batches[1..];
      assert rest[..i - 1] == batches[1..i];
      assert batches[..i][1..] == batches[1..i];
      FlattenAt(rest, i - 1, j);
    }
  }

  /** A value occurs in the flattened list exactly when it occurs in some batch. */
  lemma {:induction false} FlattenMembership(batches: seq<TransactionData>, v: MeterValue)
    ensures v in Flatten(batches) <==> exists i :: 0 <= i < |batches| && v in batches[i].values
  {
    if batches != [] {
      FlattenMembership(batches[1..], v);
      if v in Flatten(batches[1..]) {
        var i :| 0 <= i < |batches[1..]| && v in batches[1..][i].values;
        assert v in batches[i + 1].values;
      }
      if exists i :: 0 <= i < |batches| && v in batches[i].values {
        var i :| 0 <= i < |batches| && v in batches[i].values;
        if i > 0 {
          assert v in batches[1..][i - 1].values;
        }
      }
    }
  }
}
