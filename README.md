# OCPP 1.5 central system: inbound message handling

This project models, in Dafny, the inbound side of an OCPP 1.5 central
system (the Open Charge Alliance's Open Charge Point Protocol): the service
that receives boot, status, meter, heartbeat, authorize and
start/stop-transaction messages from charge points. It covers two parts.

- **Authorization decision** (`Authorization`). `createIdTagInfo` turns an
  idTag, the user store and the current time into an `IdTagInfo`. The
  checks run in priority order: unknown idTag, then in a transaction, then
  blocked, then expired, else accepted. Only an accepted idTag gets an
  expiry date (`now` plus the configured hours) and its parent idTag. The
  model is a pure function. Lemmas state which outcome wins when several
  conditions hold. A second definition, an ordered rule list where the
  first match wins, is proved to decide the same status.
- **Message handlers** (`CentralSystem`). The handlers are methods of
  `CentralSystemService15Server`. They change the abstract state of
  `OcppServiceRepository` (`Repository`): chargebox fields, the
  transaction table, the stop fields, an append-only connector status log
  and an append-only log of meter-value writes. Each handler's contract
  says which repository writes happen, what they record and what stays
  unchanged.

Supporting modules:

- `Decimal` models `Integer.toString`, which renders meter readings as
  strings. It comes with a parser, and the parser is proved to read every
  rendering back to the same integer, so the rendering is injective.
- `MeterData` specifies how the batches of meter values attached to a stop
  are flattened. `CombineTransactionData` is the `addAll` loop, proved
  against that specification.
- `Scenarios` is a client. It shows what the handler contracts alone let a
  caller conclude about one start/stop session.

Times are integer milliseconds, and each handler receives the current time
as its `now` parameter. `bootNotification` (line 53) and `heartbeat` (line
194) read the clock once. `statusNotification` reads it once, at line 100,
and only when the message has no timestamp. Only `createIdTagInfo` reads
it twice in one request: at line 241 for the expiry check, when the record has an expiry date, and at line 250
for the granted expiry. That second read happens when start, stop or
authorize accepts a known idTag that is free, unblocked and unexpired. The
model uses a single instant for both reads, so the expiry check and the
granted expiry date are computed from the same time.

Three facts about `CentralSystemService15_Server.java` shape the model:

- `stopTransaction` concatenates the meter values of its batches in batch
  order. It does not sort them by time.
- `CentralSystemService15_Server.java` does not make `updateChargebox` an
  upsert; what that call does with an unknown chargebox is decided by
  storage code outside this model.
- `CentralSystemService15_Server.java` does not reject a second stop of the
  same transaction; it calls `updateTransaction` every time.

## Model

| member | source | states |
|---|---|---|
| `Authorization.CreateIdTagInfo` | src/main/java/de/rwth/idsg/steve/service/CentralSystemService15_Server.java:225-262 | a non-ACCEPTED outcome carries neither expiry date nor parent idTag; an ACCEPTED one implies a user record exists, and carries expiry `now + hoursToExpire` hours and the record's parent idTag |
| `Authorization.UnknownIdTagIsInvalid` | src/main/java/de/rwth/idsg/steve/service/CentralSystemService15_Server.java:256-258 | an idTag without a user record yields exactly INVALID with no expiry date and no parent idTag, whatever the idTag |
| `Authorization.InTransactionWins` | src/main/java/de/rwth/idsg/steve/service/CentralSystemService15_Server.java:233-235 | a record in a transaction yields CONCURRENT_TX, whatever its blocked flag and expiry date |
| `Authorization.BlockedBeatsExpiry` | src/main/java/de/rwth/idsg/steve/service/CentralSystemService15_Server.java:237-239 | a record not in a transaction but blocked yields BLOCKED, whatever its expiry date |
| `Authorization.ExpiredExactly` | src/main/java/de/rwth/idsg/steve/service/CentralSystemService15_Server.java:241-243 | EXPIRED if and only if the record exists, is not in a transaction, is not blocked, has an expiry date and `now` is strictly after it |
| `Authorization.ExpiryInstantIsNotExpired` | src/main/java/de/rwth/idsg/steve/service/CentralSystemService15_Server.java:241 | `now` equal to the expiry date is not expired (the comparison is strict) |
| `Authorization.AcceptedExactly` | src/main/java/de/rwth/idsg/steve/service/CentralSystemService15_Server.java:245-255 | ACCEPTED if and only if no earlier rule applies; then expiry is `now + hoursToExpire * 3600000` ms and the parent idTag is present exactly when the record has one, and equals it |
| `Authorization.FirstMatchIsFirstFiring` | src/main/java/de/rwth/idsg/steve/service/CentralSystemService15_Server.java:233-243 | in an ordered rule list the first rule that fires decides the status |
| `Authorization.FirstMatchNoneFires` | src/main/java/de/rwth/idsg/steve/service/CentralSystemService15_Server.java:245-247 | when no rule fires the status is ACCEPTED |
| `Authorization.CreateIdTagInfoFollowsPolicyOrder` | src/main/java/de/rwth/idsg/steve/service/CentralSystemService15_Server.java:225-262 | the if/else chain gives the same status as the rule list [in transaction, blocked, expired] evaluated first-match-wins, with INVALID for an unknown idTag |
| `Decimal.NatToDecimal` | src/main/java/de/rwth/idsg/steve/service/CentralSystemService15_Server.java:145 | the rendering of a magnitude is a non-empty digit string, one digit exactly for values below 10, with no leading zero |
| `Decimal.IntToDecimal` | src/main/java/de/rwth/idsg/steve/service/CentralSystemService15_Server.java:162 | the rendering is non-empty and starts with '-' exactly for negative numbers |
| `Decimal.DigitsOfNatToDecimal` | src/main/java/de/rwth/idsg/steve/service/CentralSystemService15_Server.java:145 | the digits of a rendered magnitude denote that magnitude |
| `Decimal.ParseIntToDecimal` | src/main/java/de/rwth/idsg/steve/service/CentralSystemService15_Server.java:145 | parsing the rendering of any integer gives that integer back (round trip) |
| `Decimal.IntToDecimalInjective` | src/main/java/de/rwth/idsg/steve/service/CentralSystemService15_Server.java:162 | two meter readings with the same stored string are equal |
| `MeterData.CombineTransactionData` | src/main/java/de/rwth/idsg/steve/service/CentralSystemService15_Server.java:175-178 | the list built by the `addAll` loop is the in-order concatenation of all batches' values, as long as all batches together |
| `MeterData.FlattenSnoc` | src/main/java/de/rwth/idsg/steve/service/CentralSystemService15_Server.java:176-177 | appending one more batch appends exactly its values at the end |
| `MeterData.FlattenLength` | src/main/java/de/rwth/idsg/steve/service/CentralSystemService15_Server.java:175-178 | the flattened list's length is the sum of the batch lengths |
| `MeterData.FlattenAt` | src/main/java/de/rwth/idsg/steve/service/CentralSystemService15_Server.java:175-178 | value `j` of batch `i` is at position (values in batches before `i`) + `j`: batch order and order within a batch are preserved |
| `MeterData.FlattenMembership` | src/main/java/de/rwth/idsg/steve/service/CentralSystemService15_Server.java:175-178 | a value is in the flattened list if and only if it is in some batch |
| `Repository.OcppServiceRepository.UpdateChargebox` | src/main/java/de/rwth/idsg/steve/service/CentralSystemService15_Server.java:55-67 | the answer is the storage's verdict; on success the chargebox's registration holds address, version 1.5, boot data and `now`; on failure nothing changes |
| `Repository.OcppServiceRepository.UpdateChargeboxFirmwareStatus` | src/main/java/de/rwth/idsg/steve/service/CentralSystemService15_Server.java:82 | only the firmware status of that chargebox is overwritten |
| `Repository.OcppServiceRepository.UpdateChargeboxDiagnosticsStatus` | src/main/java/de/rwth/idsg/steve/service/CentralSystemService15_Server.java:127 | only the diagnostics status of that chargebox is overwritten |
| `Repository.OcppServiceRepository.UpdateChargeboxHeartbeat` | src/main/java/de/rwth/idsg/steve/service/CentralSystemService15_Server.java:195 | only the last heartbeat of that chargebox is overwritten |
| `Repository.OcppServiceRepository.InsertConnectorStatus15` | src/main/java/de/rwth/idsg/steve/service/CentralSystemService15_Server.java:105-106 | exactly one event is appended to the status log |
| `Repository.OcppServiceRepository.InsertMeterValues15` | src/main/java/de/rwth/idsg/steve/service/CentralSystemService15_Server.java:117 | exactly one connector meter-value write is appended |
| `Repository.OcppServiceRepository.InsertMeterValuesOfTransaction` | src/main/java/de/rwth/idsg/steve/service/CentralSystemService15_Server.java:179 | exactly one transaction meter-value write is appended |
| `Repository.OcppServiceRepository.InsertTransaction15` | src/main/java/de/rwth/idsg/steve/service/CentralSystemService15_Server.java:146-147 | the answer is the storage's key or none; a key the storage generates is new (no transaction row and no recorded stop under it), so a row is recorded under it exactly when there is one and every existing row is kept |
| `Repository.OcppServiceRepository.UpdateTransaction` | src/main/java/de/rwth/idsg/steve/service/CentralSystemService15_Server.java:163 | the stop time and stop meter value are recorded for that transaction id |
| `CentralSystem.CentralSystemService15Server.BootNotification` | src/main/java/de/rwth/idsg/steve/service/CentralSystemService15_Server.java:45-75 | status ACCEPTED if and only if `updateChargebox` returned true, else REJECTED; the response always carries `now` and the configured heartbeat interval; only the chargebox registration may change |
| `CentralSystem.CentralSystemService15Server.FirmwareStatusNotification` | src/main/java/de/rwth/idsg/steve/service/CentralSystemService15_Server.java:77-84 | overwrites the firmware status; the chargebox's other fields and all other repository state are unchanged |
| `CentralSystem.CentralSystemService15Server.StatusNotification` | src/main/java/de/rwth/idsg/steve/service/CentralSystemService15_Server.java:86-109 | appends exactly one connector status event with the message's fields; its timestamp is the message timestamp when set, otherwise `now` |
| `CentralSystem.CentralSystemService15Server.MeterValues` | src/main/java/de/rwth/idsg/steve/service/CentralSystemService15_Server.java:111-120 | one meter-value write if and only if the message has values; otherwise the meter log is unchanged |
| `CentralSystem.CentralSystemService15Server.DiagnosticsStatusNotification` | src/main/java/de/rwth/idsg/steve/service/CentralSystemService15_Server.java:122-129 | overwrites the diagnostics status; the chargebox's other fields and all other repository state are unchanged |
| `CentralSystem.CentralSystemService15Server.StartTransaction` | src/main/java/de/rwth/idsg/steve/service/CentralSystemService15_Server.java:131-154 | the response carries the authorization result; a transaction is inserted only when it is ACCEPTED, with the decimal rendering of `meterStart`; the response has a transaction id exactly when the insert returned one, and it is that id; an inserted transaction's idTag is known, free, unblocked and unexpired; existing transactions are kept; stored meter readings stay decimal |
| `CentralSystem.CentralSystemService15Server.StopTransaction` | src/main/java/de/rwth/idsg/steve/service/CentralSystemService15_Server.java:156-189 | the stop fields of the given id get the timestamp and the decimal rendering of `meterStop`; with transaction data there is exactly one meter write, holding the batches flattened in order, and none without; authorization info is returned if and only if an idTag was supplied |
| `CentralSystem.CentralSystemService15Server.Heartbeat` | src/main/java/de/rwth/idsg/steve/service/CentralSystemService15_Server.java:191-198 | writes `now` as the chargebox's last heartbeat and returns that same `now`; nothing else changes |
| `CentralSystem.CentralSystemService15Server.Authorize` | src/main/java/de/rwth/idsg/steve/service/CentralSystemService15_Server.java:200-208 | returns the authorization of the idTag, whose status is the first-match policy decision, and changes nothing |
| `Scenarios.StartStopSession` | src/main/java/de/rwth/idsg/steve/service/CentralSystemService15_Server.java:131-189 | starting at meter 100 and stopping at 500 with batches [t1,t2] and [t3] stores "100" and "500" and writes [t1,t2,t3] in one call |

## Left out

- SOAP and WS-Addressing plumbing (lines 41, 49-51) are not modelled. The endpoint address is an input string of `BootNotification`.
- Spring and JAX-WS wiring and every logging call are not modelled. `Authorize` drops the chargebox identity, which the source only logs. `Heartbeat` drops its request, which is empty.
- `dataTransfer` (lines 211-219) is not modelled. It only logs and returns an empty response.
- The storage code behind `OcppServiceRepository` and `UserRepository` is not part of this model. Two answers come from that code: the boolean of `updateChargebox` and the key of `insertTransaction15`. The model takes both as parameters (`stored`, `generatedKey`). A failed write is modelled as recording nothing.
- The model does not claim that `updateChargebox` inserts an unknown chargebox.
- The model does not claim that a second stop of the same transaction is rejected. `UpdateTransaction` overwrites the stop fields.
- Chargebox rows are not checked for existence. A status or heartbeat write for an unknown chargebox is recorded in the model. Whether the storage does the same is not modelled.
- Stop fields are not tied to an existing transaction row. `UpdateTransaction` records a stop under any transaction id, including one with no row in the transaction table. Whether the storage writes anything for an unknown id is not modelled.
- `CentralSystemService15_Server.java` never sets or clears the user store's in-transaction flag. The model only reads it, in `CreateIdTagInfo`; setting or clearing it is not modelled. Check-and-set atomicity and concurrent requests are not modelled either.
- Separate clock reads within one request are not modelled. Each handler uses one `now`.
- Joda `DateTime`, `java.sql.Timestamp` and the clock are replaced by integer milliseconds.
- Authorization.CreateIdTagInfo: the `long` overflow of `plusHours` is not modelled; Joda raises an error beyond the range of a `long`, and the model's integers are unbounded.
- `OcppConstants.getHeartbeatInterval()` and `getHoursToExpire()` are constructor parameters of the server.
- Protocol enumerations (connector status, error code, firmware and diagnostics status) are carried as their `value()` strings.
- Mandatory message fields are assumed present. The null dereferences the source would raise on a missing one are not modelled.
- `ParseDecimal` is the model's own inverse of `Integer.toString`. It also accepts leading zeros and "-0", and it is not a model of `Integer.parseInt`.
