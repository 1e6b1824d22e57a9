# MaLo handover and termination bookkeeping, modelled in Dafny

This project models the decision logic of an EDC (Eclipse Dataspace
Connector) extension set. The extensions coordinate the change of supplier
for an energy metering point (a *MaLo*, "Marktlokation"). A MaLo record holds:

- `maLo`, `name` and `address`;
- an optional supplier (`lieferant`), a supplier-side `contract` and a
  new-provider-side `vertrag`;
- its supply history `belieferungen`, a list of segments
  `{von, bis, lieferant: {name, connector, dataContract}}`.

The model covers:

- **Handover provisioner** (`HandoverProvisioner`, grid operator). It
  selects the supply segments still running at a requested new start. It
  asks each of their suppliers for an end date under a per-conflict
  correlation key. It merges the answers it finds into the history, writes
  the record back, and succeeds only if every conflict was answered.
- **Supplier-change provisioner** (`SupplierChangeProvisioner`). It computes
  how long the MaLo is supplied. If that is past today, it asks the current
  supplier to end supply at the requested date and succeeds if the answer
  blob is listed.
- **Termination rule** (`Cancellation`) and the two sources that apply it:
  - `LfMaLoDataSourceFactory` measures from today;
  - `MakoChainTransferDataSourceFactory` measures from the stored contract end.

  On acceptance they overwrite the contract end, and the source streams that
  date back.
- **Supply-history append** (`TransferMaLoSourceFactory`). It appends one
  segment for the new supplier and forwards only `maLo`, `name` and `address`.
- **Status checkers** (`MaLoStatusChecker`, `NewProviderStatusChecker`). A
  transfer is complete once its answer blob is listed. An unanswered transfer
  is terminated after more than 300000 ms.
- **Sink factories**. Type tests, required destination properties, default
  blob names and endpoint strings, in these modules:
  - `NbMaLoSinkFactory`, `LfMaLoDataSinkFactory`, `TransferMaLoSinkFactory`;
  - `SupplierChangeTransferDataSinkFactory`, `MakoChainTransferDataSinkFactory`;
  - their shared parts in `SinkCommon`.
- **Resource-definition generator** (`MaLoProvisionerBuilderGenerator`).

How the outside world is modelled:

- Blob storage is the class `Records.BlobStore`, holding the MaLo records
  by container and name and whether the temporary container was deleted.
- The EDC control plane is `Records.ControlPlane`, holding the transfer
  requests initiated and the transfer processes cancelled.
- A transfer process is `Records.TransferProcess`.
- Inputs:
  - the blob listings seen after the waits;
  - today's date and the current time in milliseconds;
  - SAS tokens and random ids.
- Dates are parsed `(year, month, day)` triples. They are ordered as
  `LocalDate.isBefore` orders them, with Gregorian month lengths. A triple
  that is not a calendar date stands for text `LocalDate.parse` rejects.
- `equalsIgnoreCase` is modelled as equality after lower-casing ASCII letters.

Points where the code behaves differently from what one might expect, and
which the model follows:

- A segment conflicts when the requested start is *strictly* before its
  `bis`, not when `bis >= start`. A segment ending on the requested start is
  not a conflict.
- `requestedEndDate` is parsed (line 69), so text that is not a date aborts
  the run with an exception before any effect. Otherwise it plays no part in
  the decision.
- The requested dates and every segment's `bis` are parsed before anything
  is sent or written. One that does not parse raises a
  `DateTimeParseException`, and nothing has changed. The same holds for the
  supplier change: its requested date (line 68) and every `bis` (line 75).
- With some answers missing, the record is still written back with the
  answers that did arrive (line 170 runs before the test at line 174). It is
  not left unchanged on failure.
- There is a single five-second wait followed by one listing, not a polling
  loop. The model takes that one listing as input.
- The write-back loop of `malonetzbetr/MaLoProvisioner.java` lines 160-164
  compares two `von` strings with `==`. `conflicts` holds the very segment
  objects of `belieferungen` (line 78; `put` returns the same object), and
  `getString` returns the stored string instance. So the test holds exactly
  at the conflict's own slot, and line 162 stores there the object that is
  already there, which changes nothing. The merge takes effect through that
  shared object. The model updates the segment a conflict index points to,
  and has no loop for lines 160-164.
- In `supplierchange/MaLoProvisioner.java`, `getJSONObject("lieferant")`
  throws when the record has no supplier. The `lieferantAlt != null` test is
  therefore always true, and a record without supplier ends in an exception.
- Both cancellation sources parse the request's date (line 42) before
  checking that the source blob exists (line 45). A missing or malformed date
  is therefore reported before a missing blob.

The match count of the handover provisioner needs a caveat. It counts listed
blobs, not answered conflicts. `SuccessIffAllAnswered` proves that the two
agree when the listed names are distinct ignoring case.
`CaseVariantsCanStandInForAnAnswer` shows that two case variants of one
answer can make a run with an unanswered conflict succeed.

Paths below are relative to the repository root.

## Model

| member | source | states |
|---|---|---|
| Common.ToLower | extensions/distributor/src/main/java/org/eclipse/edc/malonetzbetr/MaLoProvisioner.java:153 | lower-casing keeps the length and folds each character independently, the basis of `equalsIgnoreCase` |
| Common.NatToString | extensions/distributor/src/main/java/org/eclipse/edc/malonetzbetr/MaLoProvisioner.java:123 | the decimal text of a conflict ordinal is non-empty, all digits, and one digit long exactly for ordinals below 10 |
| Common.NatToStringInjective | extensions/distributor/src/main/java/org/eclipse/edc/malonetzbetr/MaLoProvisioner.java:123 | distinct ordinals have distinct decimal texts |
| Common.ScanIgnoringCase | extensions/distributor/src/main/java/org/eclipse/edc/supplierchange/MaLoProvisioner.java:165-167 | the early-return scan over a blob listing finds a match exactly when some listed name equals the expected one ignoring case |
| Common.JavaText | extensions/distributor/src/main/java/org/eclipse/edc/supplierchange/TransferMaLoSinkFactory.java:60 | string concatenation renders a null reference as "null" and a present string as itself |
| Dates.LengthOfMonth | extensions/provider/src/main/java/org/eclipse/edc/makochain/TransferDataSourceFactory.java:57 | month lengths: 28-31 days, 29 exactly in February of a Gregorian leap year, 30 exactly in April, June, September and November |
| Dates.BeforeIsStrictTotalOrder | extensions/distributor/src/main/java/org/eclipse/edc/malonetzbetr/MaLoProvisioner.java:77 | `isBefore` is irreflexive, transitive, asymmetric and total on distinct dates |
| Dates.LastDayOfMonth | extensions/provider/src/main/java/org/eclipse/edc/makochain/TransferDataSourceFactory.java:57 | the last day of a month is a valid date of the same month, not before any valid date of that month |
| Dates.LastDayOfYear | extensions/provider/src/main/java/org/eclipse/edc/makochain/TransferDataSourceFactory.java:60 | December 31 is a valid date not before any valid date of its year |
| Records.AssetId | extensions/distributor/src/main/java/org/eclipse/edc/malonetzbetr/MaLoProvisioner.java:99 | the asset name starts with "MaLo_", has a `_` right after the MaLo id, and is six characters longer than its two parts |
| Records.GetProperty | extensions/distributor/src/main/java/org/eclipse/edc/malonetzbetr/NbMaLoSinkFactory.java:40-43 | a property lookup is null exactly when the key is absent, and otherwise its stored value |
| Records.TransferProcess.TransitionTerminated | extensions/provider/src/main/java/org/eclipse/edc/malolieferant/MaLoStatusChecker.java:34 | terminating sets the state to terminated and records the given error detail |
| HandoverProvisioner.CanProvision | extensions/distributor/src/main/java/org/eclipse/edc/malonetzbetr/MaLoProvisioner.java:50-53 | only MaLo resource definitions are provisioned here |
| HandoverProvisioner.CanDeprovision | extensions/distributor/src/main/java/org/eclipse/edc/malonetzbetr/MaLoProvisioner.java:55-58 | only MaLo provisioned resources are deprovisioned here |
| HandoverProvisioner.Deprovision | extensions/distributor/src/main/java/org/eclipse/edc/malonetzbetr/MaLoProvisioner.java:191-197 | deprovisioning always succeeds and names the transfer process |
| HandoverProvisioner.ConflictIndices | extensions/distributor/src/main/java/org/eclipse/edc/malonetzbetr/MaLoProvisioner.java:74-80 | the conflicts are exactly the segments whose `bis` is strictly after the requested start, in history order, each once |
| HandoverProvisioner.SelectConflicts | extensions/distributor/src/main/java/org/eclipse/edc/malonetzbetr/MaLoProvisioner.java:71-80 | the selection loop parses every segment end and, when all parse, computes exactly that set of conflicts; it reports a failed parse iff some end is not a date |
| HandoverProvisioner.BoundaryIsNoConflict | extensions/distributor/src/main/java/org/eclipse/edc/malonetzbetr/MaLoProvisioner.java:77 | a segment ending on the requested start is no conflict; ending on the next calendar day of the same month it is |
| HandoverProvisioner.DuplicatesKept | extensions/distributor/src/main/java/org/eclipse/edc/malonetzbetr/MaLoProvisioner.java:74-80 | two identical conflicting segments are both conflicts; nothing is deduplicated |
| HandoverProvisioner.KeysOfDistinctOrdinalsDiffer | extensions/distributor/src/main/java/org/eclipse/edc/malonetzbetr/MaLoProvisioner.java:123 | correlation keys with different ordinals never match each other ignoring case, whatever the supplier names |
| HandoverProvisioner.Keys | extensions/distributor/src/main/java/org/eclipse/edc/malonetzbetr/MaLoProvisioner.java:153 | there is one key per conflict, "MaLo_" + maLo + "_" + supplier + "_temp" + its position |
| HandoverProvisioner.KeysDistinct | extensions/distributor/src/main/java/org/eclipse/edc/malonetzbetr/MaLoProvisioner.java:123 | no two keys of one run are equal ignoring case, even for repeated suppliers |
| HandoverProvisioner.HandoverRequests | extensions/distributor/src/main/java/org/eclipse/edc/malonetzbetr/MaLoProvisioner.java:94-139 | a run issues exactly one request per conflict |
| HandoverProvisioner.RequestsPerConflict | extensions/distributor/src/main/java/org/eclipse/edc/malonetzbetr/MaLoProvisioner.java:94-139 | request `k` goes to its supplier's connector under that supplier's contract, is dated at the requested start and is answered under key `k`; no two requests share an answer blob ignoring case |
| HandoverProvisioner.FirstMatchFrom | extensions/distributor/src/main/java/org/eclipse/edc/malonetzbetr/MaLoProvisioner.java:152-153 | a blob answers the first conflict whose key it equals ignoring case, or none if no key matches |
| HandoverProvisioner.MatchIsUnique | extensions/distributor/src/main/java/org/eclipse/edc/malonetzbetr/MaLoProvisioner.java:151-167 | with the run's keys, a blob matching key `k` answers exactly conflict `k` |
| HandoverProvisioner.Collect | extensions/distributor/src/main/java/org/eclipse/edc/malonetzbetr/MaLoProvisioner.java:150-168 | merging keeps the history's length and counts at most one match per listed blob |
| HandoverProvisioner.CollectResponses | extensions/distributor/src/main/java/org/eclipse/edc/malonetzbetr/MaLoProvisioner.java:150-168 | the nested loops with `break` compute the count and merged history of the per-blob merge |
| HandoverProvisioner.LastAnswer | extensions/distributor/src/main/java/org/eclipse/edc/malonetzbetr/MaLoProvisioner.java:157-159 | a conflict's new end date is that of a listed blob answering it, and there is none when no blob answers it |
| HandoverProvisioner.CollectedHistory | extensions/distributor/src/main/java/org/eclipse/edc/malonetzbetr/MaLoProvisioner.java:157-164 | non-conflict segments are unchanged; a conflict's segment gets the end date of the last blob answering it and keeps its `bis` when unanswered |
| HandoverProvisioner.CollectIdempotent | extensions/distributor/src/main/java/org/eclipse/edc/malonetzbetr/MaLoProvisioner.java:159 | merging the same answers twice changes nothing more: end dates are overwritten, not accumulated |
| HandoverProvisioner.CountTrue | extensions/distributor/src/main/java/org/eclipse/edc/malonetzbetr/MaLoProvisioner.java:174 | a count of flags equals their number iff all are set, and is zero iff none is |
| HandoverProvisioner.CountIsAnswered | extensions/distributor/src/main/java/org/eclipse/edc/malonetzbetr/MaLoProvisioner.java:150-168 | with listed names distinct ignoring case, the match count equals the number of answered conflicts |
| HandoverProvisioner.FlagIffAnswered | extensions/distributor/src/main/java/org/eclipse/edc/malonetzbetr/MaLoProvisioner.java:153 | a conflict is answered iff some listed name equals its key ignoring case |
| HandoverProvisioner.SuccessIffAllAnswered | extensions/distributor/src/main/java/org/eclipse/edc/malonetzbetr/MaLoProvisioner.java:174-186 | with listed names distinct ignoring case, the success test holds iff every conflict's key is listed |
| HandoverProvisioner.CaseVariantsCanStandInForAnAnswer | extensions/distributor/src/main/java/org/eclipse/edc/malonetzbetr/MaLoProvisioner.java:150-174 | two case variants of the first key count twice: a two-conflict run passes the test while the second conflict was never answered and keeps its end date |
| HandoverProvisioner.Provision | extensions/distributor/src/main/java/org/eclipse/edc/malonetzbetr/MaLoProvisioner.java:61-189 | missing record: exception and nothing changes. A requested start, requested end or segment end that is not a date: DateTimeParseException and nothing changes. No conflict: success with the record unwritten and no request, temporary container deleted. Otherwise: one request per conflict, merged record written back, container deleted, then success iff the count equals the number of conflicts, else FATAL_ERROR "Lieferant alt Failed to respond" |
| SupplierChangeProvisioner.CanProvision | extensions/distributor/src/main/java/org/eclipse/edc/supplierchange/MaLoProvisioner.java:49-52 | only MaLo resource definitions are provisioned here |
| SupplierChangeProvisioner.CanDeprovision | extensions/distributor/src/main/java/org/eclipse/edc/supplierchange/MaLoProvisioner.java:54-57 | only MaLo provisioned resources are deprovisioned here |
| SupplierChangeProvisioner.Deprovision | extensions/distributor/src/main/java/org/eclipse/edc/supplierchange/MaLoProvisioner.java:193-198 | deprovisioning always succeeds and echoes the transfer process id |
| SupplierChangeProvisioner.SuppliedUntil | extensions/distributor/src/main/java/org/eclipse/edc/supplierchange/MaLoProvisioner.java:69-79 | `lastDelivery` is the maximum of today and all `bis`: never before today, no `bis` after it, and either today or some `bis` |
| SupplierChangeProvisioner.SuppliedUntilTodayIffNoLaterEnd | extensions/distributor/src/main/java/org/eclipse/edc/supplierchange/MaLoProvisioner.java:83 | `lastDelivery` equals today iff no segment ends after today |
| SupplierChangeProvisioner.LastDelivery | extensions/distributor/src/main/java/org/eclipse/edc/supplierchange/MaLoProvisioner.java:70-79 | the loop parses every segment end and, when all parse, computes that maximum; it reports a failed parse iff some end is not a date |
| SupplierChangeProvisioner.TerminationRequest | extensions/distributor/src/main/java/org/eclipse/edc/supplierchange/MaLoProvisioner.java:99-132 | the request goes to the current supplier's connector under its contract; its answer blob is assetId + "_temp", dated at `lastDelivery`, with `end_date` the requested date |
| SupplierChangeProvisioner.Provision | extensions/distributor/src/main/java/org/eclipse/edc/supplierchange/MaLoProvisioner.java:60-190 | no supplier: exception. A requested date or segment end that is not a date: DateTimeParseException, nothing sent, container kept. Supplied only until today: success, nothing sent, container kept. Otherwise exactly one request and the container deleted; success with the record unmerged iff the answer blob is listed ignoring case, else the transfer process is cancelled and FATAL_ERROR "no evaluation" returned. The stored record is never written |
| Cancellation.CancelAllowed | extensions/provider/src/main/java/org/eclipse/edc/malolieferant/LfMaLoDataSourceFactory.java:55-65 | only cycles "m" and "y" can allow a termination, and only at a date after the reference |
| Cancellation.MonthlyIffLaterMonth | extensions/provider/src/main/java/org/eclipse/edc/makochain/TransferDataSourceFactory.java:56-58 | cycle "m": allowed iff the termination date lies in a later calendar month than the reference |
| Cancellation.YearlyIffLaterYear | extensions/provider/src/main/java/org/eclipse/edc/makochain/TransferDataSourceFactory.java:59-61 | cycle "y": allowed iff the termination date lies in a later year than the reference |
| Cancellation.OtherCyclesNeverAllowed | extensions/provider/src/main/java/org/eclipse/edc/malolieferant/LfMaLoDataSourceFactory.java:62-64 | any other cycle text never allows termination |
| Cancellation.AllowedIsUpwardClosed | extensions/provider/src/main/java/org/eclipse/edc/malolieferant/LfMaLoDataSourceFactory.java:57-60 | a date that may be terminated at stays allowed when moved later |
| Cancellation.YearlyImpliesMonthly | extensions/provider/src/main/java/org/eclipse/edc/malolieferant/LfMaLoDataSourceFactory.java:56-61 | every date allowed for a yearly contract is allowed for a monthly one |
| LfMaLoDataSourceFactory.CanHandle | extensions/provider/src/main/java/org/eclipse/edc/malolieferant/LfMaLoDataSourceFactory.java:32-34 | handled iff the source type lower-cases to "malo_lfr" |
| LfMaLoDataSourceFactory.WithContractEnd | extensions/provider/src/main/java/org/eclipse/edc/malolieferant/LfMaLoDataSourceFactory.java:73-74 | only `contract.contractEnd` changes |
| LfMaLoDataSourceFactory.Decision | extensions/provider/src/main/java/org/eclipse/edc/malolieferant/LfMaLoDataSourceFactory.java:51-81 | on a present record and a parsed date: success(true) iff the contract is present, its stored end parses and the cancellation rule allows the date relative to today; an accepted date is after today |
| LfMaLoDataSourceFactory.Validate | extensions/provider/src/main/java/org/eclipse/edc/malolieferant/LfMaLoDataSourceFactory.java:36-82 | missing or malformed date: exception. Missing blob: "Source … does not exist!". Missing contract or unparsable stored end: exception. Otherwise the rule is applied relative to today; if allowed, the contract end becomes the date and the result is success(true), else "Kündigung nicht möglich" with the record untouched |
| LfMaLoDataSourceFactory.CreateSource | extensions/provider/src/main/java/org/eclipse/edc/malolieferant/LfMaLoDataSourceFactory.java:85-92 | the payload's only key is `end_date`, the stored contract end; the part is named after the source blob |
| LfMaLoDataSourceFactory.CreateSourceSendsAcceptedDate | extensions/provider/src/main/java/org/eclipse/edc/malolieferant/LfMaLoDataSourceFactory.java:73-91 | after an accepted termination the source streams exactly the accepted date |
| LfMaLoDataSourceFactory.DecisionIgnoresStoredEnd | extensions/provider/src/main/java/org/eclipse/edc/malolieferant/LfMaLoDataSourceFactory.java:53-67 | `validate`'s decision on two records that differ only in a parseable stored contract end is the same; so a date accepted and written back is accepted again |
| MakoChainTransferDataSourceFactory.CanHandle | extensions/provider/src/main/java/org/eclipse/edc/makochain/TransferDataSourceFactory.java:32-34 | handled iff the source type lower-cases to "malo_lfr" |
| MakoChainTransferDataSourceFactory.WithVertragEnd | extensions/provider/src/main/java/org/eclipse/edc/makochain/TransferDataSourceFactory.java:73-74 | only `vertrag.contractEnd` changes |
| MakoChainTransferDataSourceFactory.Validate | extensions/provider/src/main/java/org/eclipse/edc/makochain/TransferDataSourceFactory.java:36-82 | the same error order as the supplier's source; the rule is applied relative to the stored `vertrag` end, so an accepted date is strictly after it and becomes the new end; otherwise "Kündigung nicht möglich" with the record untouched |
| MakoChainTransferDataSourceFactory.CreateSource | extensions/provider/src/main/java/org/eclipse/edc/makochain/TransferDataSourceFactory.java:85-92 | the payload's only key is `end_date`, the stored `vertrag` end; the part is named after the source blob |
| MakoChainTransferDataSourceFactory.CreateSourceSendsAcceptedDate | extensions/provider/src/main/java/org/eclipse/edc/makochain/TransferDataSourceFactory.java:73-91 | after an accepted termination the source streams exactly the accepted date |
| MakoChainTransferDataSourceFactory.MonthlyVertragNeedsLaterMonth | extensions/provider/src/main/java/org/eclipse/edc/makochain/TransferDataSourceFactory.java:56-58 | a monthly `vertrag` ends only in a later month than its stored end, so the accepted date cannot be accepted again |
| TransferMaLoSourceFactory.CanHandle | extensions/distributor/src/main/java/org/eclipse/edc/supplierchange/TransferMaLoSourceFactory.java:31-33 | handled iff the source type lower-cases to "malo" |
| TransferMaLoSourceFactory.Validate | extensions/distributor/src/main/java/org/eclipse/edc/supplierchange/TransferMaLoSourceFactory.java:36-46 | success iff the source blob exists, else "Source … does not exist!" |
| TransferMaLoSourceFactory.NewSegment | extensions/distributor/src/main/java/org/eclipse/edc/supplierchange/TransferMaLoSourceFactory.java:55-62 | the new segment runs from start_date to end_date for the named supplier at the callback address, with an empty data contract |
| TransferMaLoSourceFactory.WithSegmentAppended | extensions/distributor/src/main/java/org/eclipse/edc/supplierchange/TransferMaLoSourceFactory.java:63-64 | the history grows by one at the end, earlier segments and all other fields unchanged |
| TransferMaLoSourceFactory.Projection | extensions/distributor/src/main/java/org/eclipse/edc/supplierchange/TransferMaLoSourceFactory.java:71-74 | the payload has exactly the keys `maLo`, `name`, `address` with the record's values |
| TransferMaLoSourceFactory.ProjectionIgnoresHistory | extensions/distributor/src/main/java/org/eclipse/edc/supplierchange/TransferMaLoSourceFactory.java:71-74 | the supply history never influences the payload |
| TransferMaLoSourceFactory.AppendsKeepOrder | extensions/distributor/src/main/java/org/eclipse/edc/supplierchange/TransferMaLoSourceFactory.java:63 | successive appends leave the history as the original followed by the new segments in order |
| TransferMaLoSourceFactory.CreateSource | extensions/distributor/src/main/java/org/eclipse/edc/supplierchange/TransferMaLoSourceFactory.java:48-77 | missing blob: exception and nothing stored. Otherwise the record with the appended segment is stored first; the result is the projected payload named after the source blob, or an exception if `name` or `address` is not an object |
| MaLoStatusChecker.TimeoutIsStrict | extensions/provider/src/main/java/org/eclipse/edc/malolieferant/MaLoStatusChecker.java:33 | exactly 300000 ms is no timeout; 300001 ms is |
| MaLoStatusChecker.IsComplete | extensions/provider/src/main/java/org/eclipse/edc/malolieferant/MaLoStatusChecker.java:24-37 | complete iff a listed name equals the destination blobname ignoring case; a complete transfer is never touched; otherwise false, and terminated with "no response from vnb" iff timed out |
| NewProviderStatusChecker.Unanswered | extensions/provider/src/main/java/org/eclipse/edc/makochain/NewProviderStatusChecker.java:29-31 | an unanswered transfer is terminated with "no response from vnb" iff timed out, else untouched |
| NewProviderStatusChecker.IsComplete | extensions/provider/src/main/java/org/eclipse/edc/makochain/NewProviderStatusChecker.java:21-33 | as written: complete iff a listed name is the very object of the destination blobname; otherwise false, with termination on timeout. When every listed name is a fresh object it never completes, and it terminates the process iff the timeout has passed |
| NewProviderStatusChecker.IdentityMissesListedAnswer | extensions/provider/src/main/java/org/eclipse/edc/makochain/NewProviderStatusChecker.java:25 | an answer listed under exactly the expected text is missed by identity and found by text |
| NewProviderStatusChecker.IsCompleteByText | extensions/provider/src/main/java/org/eclipse/edc/makochain/NewProviderStatusChecker.java:21-33 | corrected: complete iff a listed name has the destination blobname's text |
| NewProviderStatusChecker.TextMatchExtendsIdentityMatch | extensions/provider/src/main/java/org/eclipse/edc/makochain/NewProviderStatusChecker.java:25 | every identity match is a text match, so the correction only adds completions |
| SinkCommon.AccountEndpoint | extensions/distributor/src/main/java/org/eclipse/edc/malonetzbetr/NbMaLoSinkFactory.java:60 | the endpoint is "http://azurite:10000/" followed by the account text, which can be read back from it |
| SinkCommon.AccountEndpointInjective | extensions/distributor/src/main/java/org/eclipse/edc/malonetzbetr/NbMaLoSinkFactory.java:60 | distinct accounts get distinct endpoints |
| SinkCommon.ContainerUrl | extensions/distributor/src/main/java/org/eclipse/edc/supplierchange/TransferDataSinkFactory.java:60 | the container URL is the account endpoint followed by "/", the container and the SAS token |
| SinkCommon.RequireCoordinates | extensions/distributor/src/main/java/org/eclipse/edc/malonetzbetr/NbMaLoSinkFactory.java:44-47 | success iff blobname, container, sasToken and account are present, else "DataDestination has missing Attributes" |
| NbMaLoSinkFactory.CanHandle | extensions/distributor/src/main/java/org/eclipse/edc/malonetzbetr/NbMaLoSinkFactory.java:33-35 | handled iff the source type lower-cases to "malo" |
| NbMaLoSinkFactory.Validate | extensions/distributor/src/main/java/org/eclipse/edc/malonetzbetr/NbMaLoSinkFactory.java:38-48 | success iff all four destination properties are present, else "DataDestination has missing Attributes" |
| NbMaLoSinkFactory.CreateSink | extensions/distributor/src/main/java/org/eclipse/edc/malonetzbetr/NbMaLoSinkFactory.java:51-74 | the sink targets the account endpoint, token, container and blobname, is named after the blobname and keeps the request id and partition size |
| NbMaLoSinkFactory.ValidatedSinkTargetsDestination | extensions/distributor/src/main/java/org/eclipse/edc/malonetzbetr/NbMaLoSinkFactory.java:38-74 | a validated destination yields a sink addressing exactly its four coordinates, with no "null" in it |
| LfMaLoDataSinkFactory.CanHandle | extensions/provider/src/main/java/org/eclipse/edc/malolieferant/LfMaLoDataSinkFactory.java:33-35 | handled iff the source type lower-cases to "malo_lfr" |
| LfMaLoDataSinkFactory.Validate | extensions/provider/src/main/java/org/eclipse/edc/malolieferant/LfMaLoDataSinkFactory.java:38-48 | success iff all four destination properties are present, else "DataDestination has missing Attributes" |
| LfMaLoDataSinkFactory.CreateSink | extensions/provider/src/main/java/org/eclipse/edc/malolieferant/LfMaLoDataSinkFactory.java:51-73 | the sink targets the account endpoint, token, container and blobname, is named after the blobname and keeps the request id and partition size |
| LfMaLoDataSinkFactory.AnswerLandsWhereRequested | extensions/provider/src/main/java/org/eclipse/edc/malolieferant/LfMaLoDataSinkFactory.java:51-73 | a validated answer is written to the requested blob, container and account unchanged |
| TransferMaLoSinkFactory.CanHandle | extensions/distributor/src/main/java/org/eclipse/edc/supplierchange/TransferMaLoSinkFactory.java:35-38 | handled iff the source type lower-cases to "malo" |
| TransferMaLoSinkFactory.Validate | extensions/distributor/src/main/java/org/eclipse/edc/supplierchange/TransferMaLoSinkFactory.java:41-44 | every destination is accepted |
| TransferMaLoSinkFactory.EffectiveBlobname | extensions/distributor/src/main/java/org/eclipse/edc/supplierchange/TransferMaLoSinkFactory.java:54-56 | a present blobname is kept; a missing one becomes "Transferred MaLo Reqest Id: " followed by the request id |
| TransferMaLoSinkFactory.DefaultNamesDistinguishRequests | extensions/distributor/src/main/java/org/eclipse/edc/supplierchange/TransferMaLoSinkFactory.java:54-56 | default names of distinct requests differ |
| TransferMaLoSinkFactory.CreateSink | extensions/distributor/src/main/java/org/eclipse/edc/supplierchange/TransferMaLoSinkFactory.java:47-72 | the sink targets the container URL with the effective blob name and is named after it |
| TransferMaLoSinkFactory.UrlOfCompleteDestination | extensions/distributor/src/main/java/org/eclipse/edc/supplierchange/TransferMaLoSinkFactory.java:59-61 | with all coordinates present the URL is exactly "http://azurite:10000/" + account + "/" + container + token |
| SupplierChangeTransferDataSinkFactory.CanHandle | extensions/distributor/src/main/java/org/eclipse/edc/supplierchange/TransferDataSinkFactory.java:38-41 | handled iff the source type lower-cases to "azurestorage" |
| SupplierChangeTransferDataSinkFactory.Validate | extensions/distributor/src/main/java/org/eclipse/edc/supplierchange/TransferDataSinkFactory.java:44-46 | every destination is accepted |
| SupplierChangeTransferDataSinkFactory.EffectiveBlobname | extensions/distributor/src/main/java/org/eclipse/edc/supplierchange/TransferDataSinkFactory.java:57-59 | a present blobname is kept; a missing one becomes "Copy" |
| SupplierChangeTransferDataSinkFactory.CreateSink | extensions/distributor/src/main/java/org/eclipse/edc/supplierchange/TransferDataSinkFactory.java:49-79 | the sink targets the URL of line 60 with the effective blob name and is named after it |
| SupplierChangeTransferDataSinkFactory.UnnamedCopiesShareABlob | extensions/distributor/src/main/java/org/eclipse/edc/supplierchange/TransferDataSinkFactory.java:57-68 | requests without blobname to the same destination write the same blob "Copy" |
| MakoChainTransferDataSinkFactory.CanHandle | extensions/provider/src/main/java/org/eclipse/edc/makochain/TransferDataSinkFactory.java:33-36 | handled iff the source type lower-cases to "malo" |
| MakoChainTransferDataSinkFactory.Validate | extensions/provider/src/main/java/org/eclipse/edc/makochain/TransferDataSinkFactory.java:38-41 | every destination is accepted |
| MakoChainTransferDataSinkFactory.EffectiveBlobname | extensions/provider/src/main/java/org/eclipse/edc/makochain/TransferDataSinkFactory.java:51-53 | a present blobname is kept; a missing one becomes "Copy" |
| MakoChainTransferDataSinkFactory.CreateSink | extensions/provider/src/main/java/org/eclipse/edc/makochain/TransferDataSinkFactory.java:44-70 | the endpoint is the text of the "sastoken" property ("null" when absent); the sink is named after the effective blob name |
| MakoChainTransferDataSinkFactory.CamelCaseTokenIsIgnored | extensions/provider/src/main/java/org/eclipse/edc/makochain/TransferDataSinkFactory.java:49-58 | a token under "sasToken" is not read: without "sastoken" the endpoint is "null" whatever "sasToken" holds |
| MaLoProvisionerBuilderGenerator.CanGenerate | extensions/distributor/src/main/java/org/eclipse/edc/supplierchange/MaLoProvisionerBuilderGenerator.java:64-69 | null arguments raise, in argument order and with their messages; otherwise true iff the asset type lower-cases to "malo" |
| MaLoProvisionerBuilderGenerator.Generate | extensions/distributor/src/main/java/org/eclipse/edc/supplierchange/MaLoProvisionerBuilderGenerator.java:35-61 | no definition iff the blob is missing; otherwise it carries the stored record, the "temp-container" container and the request's date, or 2023-04-18 when absent |
| MaLoProvisionerBuilderGenerator.DefaultRequestDateIsValid | extensions/distributor/src/main/java/org/eclipse/edc/supplierchange/MaLoProvisionerBuilderGenerator.java:58 | the default request date is a valid calendar date |
| MaLoProvisionerBuilderGenerator.LoggedProperties | extensions/distributor/src/main/java/org/eclipse/edc/supplierchange/MaLoProvisionerBuilderGenerator.java:50-52 | as written: the logged text is always "" |
| MaLoProvisionerBuilderGenerator.LoggedPropertiesLoseEntries | extensions/distributor/src/main/java/org/eclipse/edc/supplierchange/MaLoProvisionerBuilderGenerator.java:50-52 | any request with a property should log non-empty text |
| MaLoProvisionerBuilderGenerator.AccumulatedProperties | extensions/distributor/src/main/java/org/eclipse/edc/supplierchange/MaLoProvisionerBuilderGenerator.java:50-52 | corrected: the loop accumulates `value-key|` for every property in iteration order |
| MaLoProvisionerBuilderGenerator.RenderedPropertiesAppend | extensions/distributor/src/main/java/org/eclipse/edc/supplierchange/MaLoProvisionerBuilderGenerator.java:51 | the accumulated text of two property runs is the concatenation of their texts |

## Left out

- Thread sleeps, `CompletableFuture`s and the webservices: the model takes the blob listing seen after the wait as an input.
- Azure I/O (download, upload, `exists`, `listBlobs`, `delete`, container creation, HTTP headers) is reduced to `BlobStore`; SAS token generation is an input, and the handover provisioner uses one token for all requests where the code generates one per request.
- EDC control-plane calls (`initiateConsumerRequest`, `transferProcessService.cancel`) are recorded in `ControlPlane`; their results and the guard of `transitionTerminated` against already-final states are not modelled.
- JSON parsing and serialisation and date parsing: records are typed values; a date text is its parsed triple; `createSource` of the supply-history source takes the start and end dates as dates, so a missing or non-date property (which org.json would drop or store as text) is not modelled.
- The resource id `"" + maLo.hashCode()` of provisioned resources, random UUIDs and logging.
- Non-ASCII case folding of `equalsIgnoreCase`.
- Java `long` overflow of `createdAt + 300000` in the status checkers.
- The optional `dataContract` write-back of the operator's webservice is not part of this model.
- HandoverProvisioner.Provision: the merged record's text formatting (`toString(4)`) and the JSON key order are not modelled.

## Findings

| source | as written | input that shows it | evidently intended | confidence | as-written member | corrected member |
|---|---|---|---|---|---|---|
| extensions/provider/src/main/java/org/eclipse/edc/makochain/NewProviderStatusChecker.java:25 | compares the listed blob name and the destination's blobname with `==`, i.e. object identity | a listing holding a blob named exactly like the destination blobname, read fresh from storage: no match, the result is false and the transfer is terminated after five minutes | compare the texts with `equals` (exact text) | high; not executed | NewProviderStatusChecker.IsComplete, NewProviderStatusChecker.IdentityMissesListedAnswer | NewProviderStatusChecker.IsCompleteByText, NewProviderStatusChecker.TextMatchExtendsIdentityMatch |
| extensions/distributor/src/main/java/org/eclipse/edc/supplierchange/MaLoProvisionerBuilderGenerator.java:50-52 | builds the logged property text with `concat` and drops its result | a request with the single property date=2023-05-01: the logged text is "" | log `value-key|` for every property | high; not executed | MaLoProvisionerBuilderGenerator.LoggedProperties, MaLoProvisionerBuilderGenerator.LoggedPropertiesLoseEntries | MaLoProvisionerBuilderGenerator.AccumulatedProperties, MaLoProvisionerBuilderGenerator.RenderedPropertiesAppend |
