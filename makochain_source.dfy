/** The new provider's cancellation source (`makochain.TransferDataSourceFactory`).
    It applies the termination rule to the `vertrag` object, measured from
    the contract's own stored end rather than from today. */
module MakoChainTransferDataSourceFactory {
  import opened Common
  import opened Dates
  import opened Records
  import opened Cancellation

  /** `canHandle`: the source type is "MaLo_lfr" in any letter case. */
  predicate CanHandle(source: DataAddress)
    ensures CanHandle(source) <==> source.kind.Some? && ToLower(source.kind.value) == "malo_lfr"
  {
    assert ToLower("MaLo_lfr") == "malo_lfr";
    TypeIs("MaLo_lfr", source)
  }

  /** The record with its `vertrag.contractEnd` replaced and nothing else
      changed. */
  function WithVertragEnd(m: MaLo, end: Date): (r: MaLo)
    requires m.vertrag.Some?
    ensures r.vertrag == Some(m.vertrag.value.(contractEnd := end))
    ensures r.(vertrag := m.vertrag) == m
  {
    m.(vertrag := Some(m.vertrag.value.(contractEnd := end)))
  }

  /** `validate` (lines 36-82), with the same reading of `date` as the
      supplier's source. The reference is the stored `vertrag.contractEnd`,
      so every accepted termination moves the stored end strictly later. */
  method Validate(store: BlobStore, source: BlobId, date: Option<Date>) returns (r: Result<bool>)
    modifies store
    ensures store.tempContainerDeleted == old(store.tempContainerDeleted)
    ensures r.Success? ==> r.value
    ensures date.None? ==> r == Raised("NullPointerException: text") && store.records == old(store.records)
    ensures date.Some? && !ValidDate(date.value) ==>
      r == Raised("DateTimeParseException") && store.records == old(store.records)
    ensures date.Some? && ValidDate(date.value) && source !in old(store.records) ==>
      r == Failure("Source " + source.blobname + " does not exist!") && store.records == old(store.records)
    ensures date.Some? && ValidDate(date.value) && source in old(store.records) ==>
      var m := old(store.records)[source];
      && (m.vertrag.None? ==>
            r == Raised("JSONException: JSONObject[\"vertrag\"] not found.") && store.records == old(store.records))
      && (m.vertrag.Some? && !ValidDate(m.vertrag.value.contractEnd) ==>
            r == Raised("DateTimeParseException") && store.records == old(store.records))
      && (m.vertrag.Some? && ValidDate(m.vertrag.value.contractEnd) ==>
            var v := m.vertrag.value;
            && (CancelAllowed(v.cyclePeriod, v.contractEnd, date.value) ==>
                  && r == Success(true)
                  && store.records == old(store.records)[source := WithVertragEnd(m, date.value)]
                  && IsBefore(v.contractEnd, date.value))
            && (!CancelAllowed(v.cyclePeriod, v.contractEnd, date.value) ==>
                  r == Failure("Kündigung nicht möglich") && store.records == old(store.records)))
  {
    if date.None? {
      return Raised("NullPointerException: text");
    }
    if !ValidDate(date.value) {
      return Raised("DateTimeParseException");
    }
    var kuendigungDate := date.value;
    if source !in store.records {
      return Failure("Source " + source.blobname + " does not exist!");
    }
    var maLo := store.records[source];
    if maLo.vertrag.None? {
      return Raised("JSONException: JSONObject[\"vertrag\"] not found.");
    }
    var vertrag := maLo.vertrag.value;
    if !ValidDate(vertrag.contractEnd) {
      return Raised("DateTimeParseException");
    }
    var contractCancelOk := CancelAllowed(vertrag.cyclePeriod, vertrag.contractEnd, kuendigungDate);
    if contractCancelOk {
      store.records := store.records[source := WithVertragEnd(maLo, kuendigungDate)];
      return Success(true);
    } else {
      return Failure("Kündigung nicht möglich");
    }
  }

  /** `createSource` (lines 85-92): a payload whose only key is `end_date`,
      the stored `vertrag` end, named after the source blob. */
  function CreateSource(records: map<BlobId, MaLo>, source: BlobId): (r: Result<SourcePart>)
    ensures r.Success? <==> source in records && records[source].vertrag.Some?
    ensures r.Success? ==> r.value.name == source.blobname && r.value.payload.Keys == {"end_date"}
    ensures r.Success? ==> r.value.payload["end_date"] == JDate(records[source].vertrag.value.contractEnd)
  {
    if source !in records then Raised("BlobStorageException: BlobNotFound")
    else if records[source].vertrag.None? then Raised("JSONException: JSONObject[\"vertrag\"] not found.")
    else Success(SourcePart(map["end_date" := JDate(records[source].vertrag.value.contractEnd)], source.blobname))
  }

  /** After a successful `validate`, `createSource` streams exactly the
      accepted termination date back. */
  lemma CreateSourceSendsAcceptedDate(records: map<BlobId, MaLo>, source: BlobId, k: Date)
    requires source in records && records[source].vertrag.Some?
    ensures CreateSource(records[source := WithVertragEnd(records[source], k)], source)
      == Success(SourcePart(map["end_date" := JDate(k)], source.blobname))
  {
  }

  /** A monthly `vertrag` can be ended at a date exactly when that date lies
      in a later month than the stored end; after the update, the same date
      can never be accepted again. */
  lemma MonthlyVertragNeedsLaterMonth(v: Contract, k: Date)
    requires v.cyclePeriod == "m" && ValidDate(v.contractEnd) && ValidDate(k)
    ensures CancelAllowed(v.cyclePeriod, v.contractEnd, k) <==>
      v.contractEnd.year < k.year || (v.contractEnd.year == k.year && v.contractEnd.month < k.month)
    ensures !CancelAllowed(v.cyclePeriod, k, k)
  {
    MonthlyIffLaterMonth(v.contractEnd, k);
    MonthlyIffLaterMonth(k, k);
  }
}
