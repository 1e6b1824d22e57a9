/** The supplier's cancellation source (`malolieferant.LfMaLoDataSourceFactory`).
    Asked by the grid operator to end supply at a date, it checks the
    supplier-side `contract` against today's period, records the new end on
    success and streams that end date back. */
module LfMaLoDataSourceFactory {
  import opened Common
  import opened Dates
  import opened Records
  import opened Cancellation

  /** `canHandle`: the source type is "MaLo_lfr" in any letter case. */
  predicate CanHandle(source: DataAddress)
    ensures CanHandle(source) <==> source.kind.Some? && ToLower(source.kind.value) == "malo_lfr"
  {
    assert ToLower("MaLo_lfr") == "malo_lfr";
    TypeIs("MaLo_lfr", source)
  }

  /** The record with its `contract.contractEnd` replaced and nothing else
      changed. */
  function WithContractEnd(m: MaLo, end: Date): (r: MaLo)
    requires m.contract.Some?
    ensures r.contract == Some(m.contract.value.(contractEnd := end))
    ensures r.(contract := m.contract) == m
  {
    m.(contract := Some(m.contract.value.(contractEnd := end)))
  }

  /** The decision `validate` takes on a present record (lines 51-80) once
      the requested date `k` has parsed: the contract must be present and its
      stored end must parse, and then the cancellation rule alone decides. */
  function Decision(m: MaLo, k: Date, today: Date): (r: Result<bool>)
    requires ValidDate(today)
    ensures r.Success? <==>
      m.contract.Some? && ValidDate(m.contract.value.contractEnd) && CancelAllowed(m.contract.value.cyclePeriod, today, k)
    ensures r.Success? ==> r.value && IsBefore(today, k)
  {
    if m.contract.None? then Raised("JSONException: JSONObject[\"contract\"] not found.")
    else if !ValidDate(m.contract.value.contractEnd) then Raised("DateTimeParseException")
    else if CancelAllowed(m.contract.value.cyclePeriod, today, k) then Success(true)
    else Failure("Kündigung nicht möglich")
  }

  /** `validate` (lines 36-82). `date` is the request's "date" property; a
      present date that is not a calendar date is text `LocalDate.parse`
      rejects. `today` is `LocalDate.now()`. The stored contract end is
      parsed but plays no part in the decision. */
  method Validate(store: BlobStore, source: BlobId, date: Option<Date>, today: Date) returns (r: Result<bool>)
    requires ValidDate(today)
    modifies store
    ensures store.tempContainerDeleted == old(store.tempContainerDeleted)
    ensures r.Success? ==> r.value
    ensures date.None? ==> r == Raised("NullPointerException: text") && store.records == old(store.records)
    ensures date.Some? && !ValidDate(date.value) ==>
      r == Raised("DateTimeParseException") && store.records == old(store.records)
    ensures date.Some? && ValidDate(date.value) && source !in old(store.records) ==>
      r == Failure("Source " + source.blobname + " does not exist!") && store.records == old(store.records)
    ensures date.Some? && ValidDate(date.value) && source in old(store.records) ==>
      var m := old(store.records)[source];
      && r == Decision(m, date.value, today)
      && (m.contract.None? ==>
            r == Raised("JSONException: JSONObject[\"contract\"] not found.") && store.records == old(store.records))
      && (m.contract.Some? && !ValidDate(m.contract.value.contractEnd) ==>
            r == Raised("DateTimeParseException") && store.records == old(store.records))
      && (m.contract.Some? && ValidDate(m.contract.value.contractEnd) ==>
            && (CancelAllowed(m.contract.value.cyclePeriod, today, date.value) ==>
                  r == Success(true) && store.records == old(store.records)[source := WithContractEnd(m, date.value)])
            && (!CancelAllowed(m.contract.value.cyclePeriod, today, date.value) ==>
                  r == Failure("Kündigung nicht möglich") && store.records == old(store.records)))
  {
    if date.None? {
      return Raised("NullPointerException: text");
    }
    if !ValidDate(date.value) {
      return Raised("DateTimeParseException");
    }
    var kuendigungDate := date.value;
    if source !in store.records {
      return Failure("Source " + source.blobname + " does not exist!");
    }
    var maLo := store.records[source];
    if maLo.contract.None? {
      return Raised("JSONException: JSONObject[\"contract\"] not found.");
    }
    var contract := maLo.contract.value;
    if !ValidDate(contract.contractEnd) {
      return Raised("DateTimeParseException");
    }
    var contractCancelOk := CancelAllowed(contract.cyclePeriod, today, kuendigungDate);
    if contractCancelOk {
      store.records := store.records[source := WithContractEnd(maLo, kuendigungDate)];
      return Success(true);
    } else {
      return Failure("Kündigung nicht möglich");
    }
  }

  /** `createSource` (lines 85-92): a payload whose only key is `end_date`,
      the stored contract end, named after the source blob. */
  function CreateSource(records: map<BlobId, MaLo>, source: BlobId): (r: Result<SourcePart>)
    ensures r.Success? <==> source in records && records[source].contract.Some?
    ensures r.Success? ==> r.value.name == source.blobname && r.value.payload.Keys == {"end_date"}
    ensures r.Success? ==> r.value.payload["end_date"] == JDate(records[source].contract.value.contractEnd)
  {
    if source !in records then Raised("BlobStorageException: BlobNotFound")
    else if records[source].contract.None? then Raised("JSONException: JSONObject[\"contract\"] not found.")
    else Success(SourcePart(map["end_date" := JDate(records[source].contract.value.contractEnd)], source.blobname))
  }

  /** After a successful `validate`, `createSource` streams exactly the
      accepted termination date back. */
  lemma CreateSourceSendsAcceptedDate(records: map<BlobId, MaLo>, source: BlobId, k: Date)
    requires source in records && records[source].contract.Some?
    ensures CreateSource(records[source := WithContractEnd(records[source], k)], source)
      == Success(SourcePart(map["end_date" := JDate(k)], source.blobname))
  {
  }

  /** The stored contract end is parsed but does not steer the decision:
      two records that differ only in a parseable stored end get the same
      answer. In particular, validating the same date again after it was
      accepted and written back is accepted again. */
  lemma DecisionIgnoresStoredEnd(m: MaLo, end: Date, k: Date, today: Date)
    requires ValidDate(today) && m.contract.Some?
    requires ValidDate(m.contract.value.contractEnd) && ValidDate(end)
    ensures Decision(WithContractEnd(m, end), k, today) == Decision(m, k, today)
  {
  }
}
