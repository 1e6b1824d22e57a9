/** The source the grid operator serves to a new supplier
    (`supplierchange.TransferMaLoSourceFactory`). It records the new supplier
    in the MaLo's supply history and hands on only the customer-facing
    fields of the record. */
module TransferMaLoSourceFactory {
  import opened Common
  import opened Dates
  import opened Records

  /** `canHandle`: the source type is "MaLo" in any letter case. */
  predicate CanHandle(source: DataAddress)
    ensures CanHandle(source) <==> source.kind.Some? && ToLower(source.kind.value) == "malo"
  {
    assert ToLower("MaLo") == "malo";
    TypeIs("MaLo", source)
  }

  /** `validate` (lines 36-46): the source blob must exist. */
  function Validate(records: map<BlobId, MaLo>, source: BlobId): (r: Result<bool>)
    ensures r == Success(true) <==> source in records
    ensures source !in records ==> r == Failure("Source " + source.blobname + " does not exist!")
  {
    if source !in records then Failure("Source " + source.blobname + " does not exist!") else Success(true)
  }

  /** The segment of lines 55-62: supply by `supplier`, reachable at the
      request's callback address, with no data contract yet. */
  function NewSegment(startDate: Date, endDate: Date, supplier: string, callbackAddress: string): (s: Segment)
    ensures s.von == startDate && s.bis == endDate
    ensures s.lieferant == Supplier(supplier, callbackAddress, "")
  {
    Segment(startDate, endDate, Supplier(supplier, callbackAddress, ""))
  }

  /** `belieferungen.put(segment)`: one more segment at the end, everything
      before it and every other field unchanged. */
  function WithSegmentAppended(m: MaLo, s: Segment): (r: MaLo)
    ensures |r.belieferungen| == |m.belieferungen| + 1
    ensures r.belieferungen[..|m.belieferungen|] == m.belieferungen
    ensures r.belieferungen[|m.belieferungen|] == s
    ensures r.(belieferungen := m.belieferungen) == m
  {
    m.(belieferungen := m.belieferungen + [s])
  }

  /** The payload of lines 71-74: `maLo`, `name` and `address`, and nothing
      else. */
  function Projection(m: MaLo): (p: map<string, Json>)
    ensures p.Keys == {"maLo", "name", "address"}
    ensures p["maLo"] == JStr(m.maLo) && p["name"] == m.name && p["address"] == m.address
  {
    map["maLo" := JStr(m.maLo), "name" := m.name, "address" := m.address]
  }

  /** The supply history never reaches the payload. */
  lemma ProjectionIgnoresHistory(m: MaLo, history: seq<Segment>)
    ensures Projection(m.(belieferungen := history)) == Projection(m)
  {
  }

  /** A sequence of `createSource` appends, one call after the other. */
  function AppendAll(m: MaLo, segments: seq<Segment>): MaLo {
    if segments == [] then m
    else WithSegmentAppended(AppendAll(m, segments[..|segments| - 1]), segments[|segments| - 1])
  }

  /** Appending several segments one after the other keeps them in request
      order after the original history. */
  lemma {:induction false} AppendsKeepOrder(m: MaLo, segments: seq<Segment>)
    ensures AppendAll(m, segments).belieferungen == m.belieferungen + segments
  {
    if segments != [] {
      AppendsKeepOrder(m, segments[..|segments| - 1]);
      assert segments[..|segments| - 1] + [segments[|segments| - 1]] == segments;
    }
  }

  /** `createSource` (lines 48-77). The record with the new segment is
      uploaded before the payload is built, so it is stored even when
      `name` or `address` is not a JSON object and building the payload
      throws. */
  method CreateSource(store: BlobStore, source: BlobId, startDate: Date, endDate: Date, supplier: string, callbackAddress: string)
    returns (r: Result<SourcePart>)
    modifies store
    ensures store.tempContainerDeleted == old(store.tempContainerDeleted)
    ensures source !in old(store.records) ==>
      r == Raised("BlobStorageException: BlobNotFound") && store.records == old(store.records)
    ensures source in old(store.records) ==>
      var m := WithSegmentAppended(old(store.records)[source], NewSegment(startDate, endDate, supplier, callbackAddress));
      && store.records == old(store.records)[source := m]
      && (!m.name.JObj? ==> r == Raised("JSONException: JSONObject[\"name\"] is not a JSONObject."))
      && (m.name.JObj? && !m.address.JObj? ==> r == Raised("JSONException: JSONObject[\"address\"] is not a JSONObject."))
      && (m.name.JObj? && m.address.JObj? ==> r == Success(SourcePart(Projection(m), source.blobname)))
  {
    if source !in store.records {
      return Raised("BlobStorageException: BlobNotFound");
    }
    var malo := store.records[source];
    malo := WithSegmentAppended(malo, NewSegment(startDate, endDate, supplier, callbackAddress));
    store.records := store.records[source := malo];
    if !malo.name.JObj? {
      return Raised("JSONException: JSONObject[\"name\"] is not a JSONObject.");
    }
    if !malo.address.JObj? {
      return Raised("JSONException: JSONObject[\"address\"] is not a JSONObject.");
    }
    return Success(SourcePart(Projection(malo), source.blobname));
  }
}
