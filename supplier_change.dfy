/** The supplier-change provisioner (`supplierchange.MaLoProvisioner`). When
    a new supplier asks to take over a MaLo, it finds how long the MaLo is
    supplied; if it is supplied beyond today it asks the current supplier to
    end supply at the requested date and succeeds if that supplier's answer
    is listed after the wait. */
module SupplierChangeProvisioner {
  import opened Common
  import opened Dates
  import opened Records

  /** `supplierchange.MaLoResourceDefinition`: the parsed record, the
      requested date and the temporary container for the answer. */
  datatype MaLoResourceDefinition = MaLoResourceDefinition(
    id: string,
    transferProcessId: string,
    maLo: MaLo,
    requestDate: Date,
    tempContainer: TempContainer)

  datatype ResourceDefinition = MaLoDefinition(def: MaLoResourceDefinition) | OtherDefinition(id: string)

  datatype ProvisionedKind = MaLoProvisioned(resource: ProvisionedResource) | OtherProvisioned(id: string)

  /** `canProvision`: only this package's MaLo resource definitions. */
  predicate CanProvision(d: ResourceDefinition)
    ensures CanProvision(d) <==> d.MaLoDefinition?
  {
    d.MaLoDefinition?
  }

  /** `canDeprovision`: only MaLo provisioned resources. */
  predicate CanDeprovision(p: ProvisionedKind)
    ensures CanDeprovision(p) <==> p.MaLoProvisioned?
  {
    p.MaLoProvisioned?
  }

  /** `deprovision`: always succeeds, naming the transfer process. */
  function Deprovision(p: ProvisionedResource): (r: DeprovisionedResource)
    ensures r.provisionedResourceId == p.transferProcessId
  {
    DeprovisionedResource(p.transferProcessId)
  }

  /** The day until which the MaLo is supplied: today, or the latest `bis`
      if that is later. */
  function SuppliedUntil(history: seq<Segment>, today: Date): (last: Date)
    ensures !IsBefore(last, today)
    ensures forall i :: 0 <= i < |history| ==> !IsAfter(history[i].bis, last)
    ensures last == today || exists i :: 0 <= i < |history| && last == history[i].bis
  {
    if history == [] then today
    else
      var prev := SuppliedUntil(history[..|history| - 1], today);
      var bis := history[|history| - 1].bis;
      assert forall i :: 0 <= i < |history| - 1 ==> history[..|history| - 1][i] == history[i];
      if IsAfter(bis, prev) then bis else prev
  }

  /** `lastDelivery` stays today exactly when no segment ends after today. */
  lemma SuppliedUntilTodayIffNoLaterEnd(history: seq<Segment>, today: Date)
    ensures SuppliedUntil(history, today) == today <==>
      forall i :: 0 <= i < |history| ==> !IsAfter(history[i].bis, today)
  {
    var last := SuppliedUntil(history, today);
    if last != today {
      var i :| 0 <= i < |history| && last == history[i].bis;
      assert IsAfter(history[i].bis, today);
    }
  }

  /** The loop of lines 70-79: start at today, move to every strictly later
      end date. It parses every end and stops with `parsed` false at the
      first one that does not parse. */
  method LastDelivery(history: seq<Segment>, today: Date) returns (parsed: bool, lastDelivery: Date)
    ensures parsed <==> EndsParse(history)
    ensures parsed ==> lastDelivery == SuppliedUntil(history, today)
  {
    lastDelivery := today;
    var i := 0;
    while i < |history|
      invariant 0 <= i <= |history|
      invariant EndsParse(history[..i])
      invariant lastDelivery == SuppliedUntil(history[..i], today)
    {
      assert history[..i + 1][..i] == history[..i];
      if !ValidDate(history[i].bis) {
        return false, lastDelivery;
      }
      if IsAfter(history[i].bis, lastDelivery) {
        lastDelivery := history[i].bis;
      }
      i := i + 1;
    }
    assert history[..|history|] == history;
    parsed := true;
  }

  /** The blob the current supplier answers under: `assetId + "_temp"`. */
  function AnswerBlobname(m: MaLo, s: Supplier): string {
    AssetId(m.maLo, s.name) + "_temp"
  }

  /** The request to the current supplier (lines 99-132): answer into the
      temporary container dated at `lastDelivery`, asking for supply to
      end at the requested date. */
  function TerminationRequest(m: MaLo, s: Supplier, d: MaLoResourceDefinition, lastDelivery: Date, sas: string): (r: DataRequest)
    ensures r.destination.blobname == AnswerBlobname(m, s)
    ensures r.destination.date == Some(lastDelivery) && r.endDate == Some(d.requestDate)
    ensures r.connectorAddress == s.connector && r.contractId == s.dataContract
  {
    DataRequest(
      connectorAddress := s.connector,
      protocol := "ids-multipart",
      connectorId := "consumer",
      assetId := AssetId(m.maLo, s.name),
      destination := Destination(
        kind := "MaLo_lfr",
        blobname := AnswerBlobname(m, s),
        sasToken := sas,
        container := d.tempContainer.containerName,
        account := d.tempContainer.accountName,
        request := Some("change"),
        date := Some(lastDelivery)),
      date := None,
      endDate := Some(d.requestDate),
      request := None,
      contractId := s.dataContract)
  }

  /** Lines 68 and 75: the run gets past its date parsing only when the
      requested date and every segment end are calendar dates. */
  predicate DatesParse(d: MaLoResourceDefinition) {
    ValidDate(d.requestDate) && EndsParse(d.maLo.belieferungen)
  }

  function Resource(m: MaLo, d: MaLoResourceDefinition): ProvisionedResource {
    ProvisionedResource(m, d.id, d.transferProcessId)
  }

  /** `provision` (lines 60-190), with today's date, the SAS token and the
      names listed in the temporary container after the wait as inputs.
      After the current supplier is read, the requested date and every
      segment end are parsed; a date that does not parse raises before any
      effect. The record is never written; on success it is handed on
      unmerged. */
  method Provision(store: BlobStore, control: ControlPlane, d: MaLoResourceDefinition, today: Date, sas: string, listing: seq<string>)
    returns (outcome: ProvisionOutcome)
    modifies store, control
    ensures store.records == old(store.records)
    ensures d.maLo.lieferant.None? ==>
      && outcome == ProvisionRaised("JSONException: JSONObject[\"lieferant\"] not found.")
      && store.tempContainerDeleted == old(store.tempContainerDeleted)
      && control.sent == old(control.sent) && control.cancelled == old(control.cancelled)
    ensures d.maLo.lieferant.Some? && !DatesParse(d) ==>
      && outcome == ProvisionRaised("DateTimeParseException")
      && store.tempContainerDeleted == old(store.tempContainerDeleted)
      && control.sent == old(control.sent) && control.cancelled == old(control.cancelled)
    ensures d.maLo.lieferant.Some? && DatesParse(d) ==>
      var m, s := d.maLo, d.maLo.lieferant.value;
      var last := SuppliedUntil(m.belieferungen, today);
      && (last == today ==>
            && outcome == Provisioned(Resource(m, d))
            && store.tempContainerDeleted == old(store.tempContainerDeleted)
            && control.sent == old(control.sent) && control.cancelled == old(control.cancelled))
      && (last != today ==>
            && store.tempContainerDeleted
            && control.sent == old(control.sent) + [TerminationRequest(m, s, d, last, sas)]
            && (ListedIgnoringCase(listing, AnswerBlobname(m, s)) ==>
                  outcome == Provisioned(Resource(m, d)) && control.cancelled == old(control.cancelled))
            && (!ListedIgnoringCase(listing, AnswerBlobname(m, s)) ==>
                  && outcome == ProvisionFailed(FatalError, "no evaluation")
                  && control.cancelled == old(control.cancelled) + [d.transferProcessId]))
  {
    var m := d.maLo;
    if m.lieferant.None? {
      outcome := ProvisionRaised("JSONException: JSONObject[\"lieferant\"] not found.");
      return;
    }
    var lieferantAlt := m.lieferant.value;
    if !ValidDate(d.requestDate) {
      outcome := ProvisionRaised("DateTimeParseException");
      return;
    }
    var parsed, lastDelivery := LastDelivery(m.belieferungen, today);
    if !parsed {
      outcome := ProvisionRaised("DateTimeParseException");
      return;
    }
    if lastDelivery == today {
      outcome := Provisioned(Resource(m, d));
      return;
    }
    control.sent := control.sent + [TerminationRequest(m, lieferantAlt, d, lastDelivery, sas)];
    var answered := ScanIgnoringCase(listing, AnswerBlobname(m, lieferantAlt));
    store.tempContainerDeleted := true;
    if answered {
      outcome := Provisioned(Resource(m, d));
    } else {
      control.cancelled := control.cancelled + [d.transferProcessId];
      outcome := ProvisionFailed(FatalError, "no evaluation");
    }
  }
}
