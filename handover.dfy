/** The distribution-system operator's handover provisioner
    (`malonetzbetr.MaLoProvisioner`). For a requested new supply start it
    finds every segment of the MaLo's supply history that is still running
    at that date, asks each such segment's supplier for an end date, waits,
    writes the end dates it got back into the history and succeeds only if
    every conflicting supplier answered. */
module HandoverProvisioner {
  import opened Common
  import opened Dates
  import opened Records

  /** `malonetzbetr.MaLoResourceDefinition`. */
  datatype MaLoResourceDefinition = MaLoResourceDefinition(
    id: string,
    transferProcessId: string,
    maloBlob: BlobId,
    requestedStartDate: Date,
    requestedEndDate: Date,
    tempContainer: TempContainer)

  /** A resource definition as the provisioning manager offers it. */
  datatype ResourceDefinition = MaLoDefinition(def: MaLoResourceDefinition) | OtherDefinition(id: string)

  /** A provisioned resource as the deprovisioning manager offers it. */
  datatype ProvisionedKind = MaLoProvisioned(resource: ProvisionedResource) | OtherProvisioned(id: string)

  /** `canProvision`: only this package's MaLo resource definitions. */
  predicate CanProvision(d: ResourceDefinition)
    ensures CanProvision(d) <==> d.MaLoDefinition?
  {
    d.MaLoDefinition?
  }

  /** `canDeprovision`: only MaLo provisioned resources. */
  predicate CanDeprovision(p: ProvisionedKind)
    ensures CanDeprovision(p) <==> p.MaLoProvisioned?
  {
    p.MaLoProvisioned?
  }

  /** `deprovision`: always succeeds, naming the transfer process. */
  function Deprovision(p: ProvisionedResource): (r: DeprovisionedResource)
    ensures r.provisionedResourceId == p.transferProcessId
  {
    DeprovisionedResource(p.transferProcessId)
  }

  // ---------------------------------------------------------------------------
  // Conflict selection
  // ---------------------------------------------------------------------------

  /** A segment conflicts with a requested start iff the start is strictly
      before the segment's end. */
  predicate IsConflict(s: Segment, requestedStart: Date) {
    IsBefore(requestedStart, s.bis)
  }

  predicate StrictlyIncreasing(cs: seq<nat>) {
    forall a, b :: 0 <= a < b < |cs| ==> cs[a] < cs[b]
  }

  /** Indices of the conflicting segments, in history order. */
  function ConflictIndices(history: seq<Segment>, requestedStart: Date): (cs: seq<nat>)
    ensures |cs| <= |history|
    ensures StrictlyIncreasing(cs)
    ensures forall k :: 0 <= k < |cs| ==> cs[k] < |history| && IsConflict(history[cs[k]], requestedStart)
    ensures forall e :: 0 <= e < |history| && IsConflict(history[e], requestedStart) ==> e in cs
  {
    if history == [] then []
    else
      var prev := ConflictIndices(history[..|history| - 1], requestedStart);
      if IsConflict(history[|history| - 1], requestedStart) then prev + [|history| - 1] else prev
  }

  /** The selection loop (lines 74-80): scans the history once, parsing
      every segment's end and keeping every conflicting segment. It stops
      with `parsed` false at the first end that does not parse. */
  method SelectConflicts(history: seq<Segment>, requestedStart: Date) returns (parsed: bool, conflicts: seq<nat>)
    ensures parsed <==> EndsParse(history)
    ensures parsed ==> conflicts == ConflictIndices(history, requestedStart)
  {
    conflicts := [];
    var i := 0;
    while i < |history|
      invariant 0 <= i <= |history|
      invariant EndsParse(history[..i])
      invariant conflicts == ConflictIndices(history[..i], requestedStart)
    {
      assert history[..i + 1][..i] == history[..i];
      if !ValidDate(history[i].bis) {
        return false, conflicts;
      }
      if IsBefore(requestedStart, history[i].bis) {
        conflicts := conflicts + [i];
      }
      i := i + 1;
    }
    assert history[..|history|] == history;
    parsed := true;
  }

  /** A segment ending exactly on the requested start is no conflict; one
      ending a day later is. */
  lemma BoundaryIsNoConflict(s: Segment, requestedStart: Date)
    requires ValidDate(requestedStart) && requestedStart.day < LengthOfMonth(requestedStart.year, requestedStart.month)
    requires s.bis == requestedStart
    ensures ValidDate(requestedStart.(day := requestedStart.day + 1))
    ensures !IsConflict(s, requestedStart)
    ensures IsConflict(s.(bis := requestedStart.(day := requestedStart.day + 1)), requestedStart)
  {
  }

  /** Conflicts are never deduplicated: two equal segments both conflict. */
  lemma {:induction false} DuplicatesKept(s: Segment, requestedStart: Date)
    requires IsConflict(s, requestedStart)
    ensures ConflictIndices([s, s], requestedStart) == [0, 1]
  {
    assert [s, s][..1] == [s];
    assert [s][..0] == [];
  }

  // ---------------------------------------------------------------------------
  // Correlation keys
  // ---------------------------------------------------------------------------

  /** The blob name the answer to conflict number `i` is expected under:
      `"MaLo_" + maLo + "_" + supplier + "_temp" + i`. */
  function CorrelationKey(maLo: string, supplierName: string, i: nat): string {
    AssetId(maLo, supplierName) + "_temp" + NatToString(i)
  }

  /** Keys with different ordinals never match each other ignoring case,
      whatever the supplier names: the trailing digits decide. */
  lemma {:induction false} KeysOfDistinctOrdinalsDiffer(maLo: string, a: string, b: string, i: nat, j: nat)
    requires EqualsIgnoreCase(CorrelationKey(maLo, a, i), CorrelationKey(maLo, b, j))
    ensures i == j
  {
    var p, q := AssetId(maLo, a) + "_temp", AssetId(maLo, b) + "_temp";
    var di, dj := NatToString(i), NatToString(j);
    assert CorrelationKey(maLo, a, i) == p + di && CorrelationKey(maLo, b, j) == q + dj;
    ToLowerConcat(p, di);
    ToLowerConcat(q, dj);
    DigitsAreCaseless(di);
    DigitsAreCaseless(dj);
    var lp, lq := ToLower(p), ToLower(q);
    assert lp + di == lq + dj;
    assert lp[|lp| - 1] == 'p' && lq[|lq| - 1] == 'p';
    DigitSuffixOfAppended(lp, di);
    DigitSuffixOfAppended(lq, dj);
    assert di == (lp + di)[|lp|..];
    assert dj == (lq + dj)[|lq|..];
    NatToStringInjective(i, j);
  }

  /** The keys of one run, one per conflict, numbered by conflict position. */
  function Keys(maLo: string, history: seq<Segment>, conflicts: seq<nat>): (keys: seq<string>)
    requires forall k :: 0 <= k < |conflicts| ==> conflicts[k] < |history|
    ensures |keys| == |conflicts|
    ensures forall k :: 0 <= k < |conflicts| ==>
      keys[k] == CorrelationKey(maLo, history[conflicts[k]].lieferant.name, k)
  {
    seq(|conflicts|, k requires 0 <= k < |conflicts| =>
      CorrelationKey(maLo, history[conflicts[k]].lieferant.name, k))
  }

  predicate DistinctIgnoringCase(names: seq<string>) {
    forall a, b :: 0 <= a < b < |names| ==> !EqualsIgnoreCase(names[a], names[b])
  }

  /** Within one run no two keys are equal ignoring case, even when several
      conflicts name the same supplier. */
  lemma KeysDistinct(maLo: string, history: seq<Segment>, conflicts: seq<nat>)
    requires forall k :: 0 <= k < |conflicts| ==> conflicts[k] < |history|
    ensures DistinctIgnoringCase(Keys(maLo, history, conflicts))
  {
    var keys := Keys(maLo, history, conflicts);
    forall a, b | 0 <= a < b < |keys|
      ensures !EqualsIgnoreCase(keys[a], keys[b])
    {
      if EqualsIgnoreCase(keys[a], keys[b]) {
        KeysOfDistinctOrdinalsDiffer(maLo, history[conflicts[a]].lieferant.name,
          history[conflicts[b]].lieferant.name, a, b);
      }
    }
  }

  // ---------------------------------------------------------------------------
  // Requests to the conflicting suppliers
  // ---------------------------------------------------------------------------

  /** The request for conflict number `i`, whose supplier is `s` (lines 95-131). */
  function HandoverRequest(m: MaLo, d: MaLoResourceDefinition, sas: string, s: Supplier, i: nat): DataRequest {
    DataRequest(
      connectorAddress := s.connector,
      protocol := "ids-multipart",
      connectorId := "consumer",
      assetId := AssetId(m.maLo, s.name),
      destination := Destination(
        kind := "MaLo_lfr",
        blobname := CorrelationKey(m.maLo, s.name, i),
        sasToken := sas,
        container := d.tempContainer.containerName,
        account := d.tempContainer.accountName,
        request := None,
        date := None),
      date := Some(d.requestedStartDate),
      endDate := None,
      request := Some("change"),
      contractId := s.dataContract)
  }

  /** All requests of a run, in conflict order. */
  function HandoverRequests(m: MaLo, d: MaLoResourceDefinition, sas: string, conflicts: seq<nat>): (rs: seq<DataRequest>)
    requires forall k :: 0 <= k < |conflicts| ==> conflicts[k] < |m.belieferungen|
    ensures |rs| == |conflicts|
  {
    seq(|conflicts|, k requires 0 <= k < |conflicts| =>
      HandoverRequest(m, d, sas, m.belieferungen[conflicts[k]].lieferant, k))
  }

  /** Conflict `k` gets exactly one request: to its supplier's connector,
      under its own contract, dated at the requested start, answered under
      its own key, and no two requests of a run share a destination blob,
      even ignoring case. */
  lemma RequestsPerConflict(m: MaLo, d: MaLoResourceDefinition, sas: string, conflicts: seq<nat>)
    requires forall k :: 0 <= k < |conflicts| ==> conflicts[k] < |m.belieferungen|
    ensures var rs := HandoverRequests(m, d, sas, conflicts);
      && |rs| == |conflicts|
      && (forall k :: 0 <= k < |rs| ==>
            var s := m.belieferungen[conflicts[k]].lieferant;
            && rs[k].connectorAddress == s.connector
            && rs[k].contractId == s.dataContract
            && rs[k].date == Some(d.requestedStartDate)
            && rs[k].destination.blobname == Keys(m.maLo, m.belieferungen, conflicts)[k])
      && (forall a, b :: 0 <= a < b < |rs| ==>
            !EqualsIgnoreCase(rs[a].destination.blobname, rs[b].destination.blobname))
  {
    KeysDistinct(m.maLo, m.belieferungen, conflicts);
  }

  // ---------------------------------------------------------------------------
  // Matching responses and merging end dates
  // ---------------------------------------------------------------------------

  /** The first key at or after `i` that `name` equals ignoring case. */
  function FirstMatchFrom(name: string, keys: seq<string>, i: nat): (r: Option<nat>)
    requires i <= |keys|
    ensures r.Some? ==> i <= r.value < |keys| && EqualsIgnoreCase(name, keys[r.value])
    ensures r.Some? ==> forall j :: i <= j < r.value ==> !EqualsIgnoreCase(name, keys[j])
    ensures r.None? ==> forall j :: i <= j < |keys| ==> !EqualsIgnoreCase(name, keys[j])
    decreases |keys| - i
  {
    if i == |keys| then None
    else if EqualsIgnoreCase(name, keys[i]) then Some(i)
    else FirstMatchFrom(name, keys, i + 1)
  }

  /** The conflict a listed blob answers: the first whose key its name
      equals ignoring case. */
  function FirstMatch(name: string, keys: seq<string>): Option<nat> {
    FirstMatchFrom(name, keys, 0)
  }

  /** When the keys are distinct ignoring case, a name matching key `k`
      answers exactly conflict `k`. */
  lemma MatchIsUnique(name: string, keys: seq<string>, k: nat)
    requires DistinctIgnoringCase(keys)
    requires k < |keys| && EqualsIgnoreCase(name, keys[k])
    ensures FirstMatch(name, keys) == Some(k)
  {
    var r := FirstMatch(name, keys);
    if r != Some(k) {
      assert r.Some? && r.value < k;
      assert EqualsIgnoreCase(keys[r.value], keys[k]);
    }
  }

  /** Match count and history after the blobs of `listing` were processed
      in order. */
  datatype Collected = Collected(count: nat, history: seq<Segment>)

  predicate WellFormed(history: seq<Segment>, conflicts: seq<nat>, keys: seq<string>) {
    |keys| == |conflicts| && forall k :: 0 <= k < |conflicts| ==> conflicts[k] < |history|
  }

  /** Every listed blob that answers a conflict adds one to the count and
      writes its end date into that conflict's segment. */
  function Collect(history: seq<Segment>, conflicts: seq<nat>, keys: seq<string>, listing: seq<ResponseBlob>): (c: Collected)
    requires WellFormed(history, conflicts, keys)
    ensures |c.history| == |history|
    ensures c.count <= |listing|
  {
    if listing == [] then Collected(0, history)
    else
      var prev := Collect(history, conflicts, keys, listing[..|listing| - 1]);
      var blob := listing[|listing| - 1];
      match FirstMatch(blob.name, keys)
      case None => prev
      case Some(k) =>
        Collected(prev.count + 1, prev.history[conflicts[k] := prev.history[conflicts[k]].(bis := blob.endDate)])
  }

  /** The nested blob/conflict loops of lines 150-168: each listed blob is
      compared with the keys in conflict order and counted at most once,
      against the first key it equals ignoring case. */
  method CollectResponses(maLo: string, history: seq<Segment>, conflicts: seq<nat>, listing: seq<ResponseBlob>)
    returns (changedContracts: nat, updated: seq<Segment>)
    requires forall k :: 0 <= k < |conflicts| ==> conflicts[k] < |history|
    ensures Collected(changedContracts, updated) == Collect(history, conflicts, Keys(maLo, history, conflicts), listing)
  {
    ghost var keys := Keys(maLo, history, conflicts);
    changedContracts, updated := 0, history;
    var b := 0;
    while b < |listing|
      invariant 0 <= b <= |listing|
      invariant Collected(changedContracts, updated) == Collect(history, conflicts, keys, listing[..b])
    {
      var blob := listing[b];
      assert listing[..b + 1][..b] == listing[..b];
      var i := 0;
      while i < |conflicts|
        invariant 0 <= i <= |conflicts|
        invariant forall j :: 0 <= j < i ==> !EqualsIgnoreCase(blob.name, keys[j])
        invariant Collected(changedContracts, updated) == Collect(history, conflicts, keys, listing[..b])
      {
        if EqualsIgnoreCase(blob.name, CorrelationKey(maLo, history[conflicts[i]].lieferant.name, i)) {
          changedContracts := changedContracts + 1;
          updated := updated[conflicts[i] := updated[conflicts[i]].(bis := blob.endDate)];
          break;
        }
        i := i + 1;
      }
      b := b + 1;
    }
    assert listing[..|listing|] == listing;
  }

  /** Which end date conflict `k`'s segment ends up with: that of the last
      listed blob answering it, if any. */
  function LastAnswer(keys: seq<string>, listing: seq<ResponseBlob>, k: nat): (r: Option<Date>)
    ensures r.Some? ==> exists b :: 0 <= b < |listing| && FirstMatch(listing[b].name, keys) == Some(k) && listing[b].endDate == r.value
    ensures r.None? ==> forall b :: 0 <= b < |listing| ==> FirstMatch(listing[b].name, keys) != Some(k)
  {
    if listing == [] then None
    else if FirstMatch(listing[|listing| - 1].name, keys) == Some(k) then Some(listing[|listing| - 1].endDate)
    else
      var r := LastAnswer(keys, listing[..|listing| - 1], k);
      assert forall b :: 0 <= b < |listing| - 1 ==> listing[..|listing| - 1][b] == listing[b];
      r
  }

  /** The merge: segments that are not conflicts are untouched; a
      conflict's segment keeps its start and supplier, and its `bis` becomes
      the end date of the last blob answering it, or stays as it was. */
  lemma {:induction false} CollectedHistory(history: seq<Segment>, conflicts: seq<nat>, keys: seq<string>,
                                            listing: seq<ResponseBlob>, e: nat)
    requires WellFormed(history, conflicts, keys) && StrictlyIncreasing(conflicts)
    requires e < |history|
    ensures var h := Collect(history, conflicts, keys, listing).history;
      && (e !in conflicts ==> h[e] == history[e])
      && (forall k :: 0 <= k < |conflicts| && conflicts[k] == e ==>
            h[e] == history[e].(bis := LastAnswer(keys, listing, k).GetOr(history[e].bis)))
  {
    if listing != [] {
      var prefix := listing[..|listing| - 1];
      CollectedHistory(history, conflicts, keys, prefix, e);
    }
  }

  /** Processing the same listing a second time changes nothing more: end
      dates are overwritten, never accumulated. */
  lemma CollectIdempotent(history: seq<Segment>, conflicts: seq<nat>, keys: seq<string>, listing: seq<ResponseBlob>)
    requires WellFormed(history, conflicts, keys) && StrictlyIncreasing(conflicts)
    ensures var once := Collect(history, conflicts, keys, listing).history;
      Collect(once, conflicts, keys, listing).history == once
  {
    var once := Collect(history, conflicts, keys, listing).history;
    var twice := Collect(once, conflicts, keys, listing).history;
    forall e | 0 <= e < |history|
      ensures twice[e] == once[e]
    {
      CollectedHistory(history, conflicts, keys, listing, e);
      CollectedHistory(once, conflicts, keys, listing, e);
    }
  }

  // ---------------------------------------------------------------------------
  // The success test
  // ---------------------------------------------------------------------------

  function CountTrue(flags: seq<bool>): (n: nat)
    ensures n <= |flags|
    ensures n == |flags| <==> forall k :: 0 <= k < |flags| ==> flags[k]
    ensures n == 0 <==> forall k :: 0 <= k < |flags| ==> !flags[k]
  {
    if flags == [] then 0
    else CountTrue(flags[..|flags| - 1]) + (if flags[|flags| - 1] then 1 else 0)
  }

  lemma {:induction false} CountTrueSet(flags: seq<bool>, k: nat)
    requires k < |flags| && !flags[k]
    ensures CountTrue(flags[k := true]) == CountTrue(flags) + 1
  {
    var last := |flags| - 1;
    assert flags[k := true][..last] == if k == last then flags[..last] else flags[..last][k := true];
    if k != last {
      CountTrueSet(flags[..last], k);
    }
  }

  /** For each conflict, whether some listed blob answered it. */
  function AnsweredFlags(keys: seq<string>, listing: seq<ResponseBlob>): (flags: seq<bool>)
    ensures |flags| == |keys|
  {
    seq(|keys|, k requires 0 <= k < |keys| => LastAnswer(keys, listing, k).Some?)
  }

  /** A conflict answered by a blob is not answered by any earlier blob
      whose name differs from it ignoring case. */
  lemma NotYetAnswered(keys: seq<string>, prefix: seq<ResponseBlob>, name: string, k: nat)
    requires FirstMatch(name, keys) == Some(k)
    requires forall b :: 0 <= b < |prefix| ==> !EqualsIgnoreCase(prefix[b].name, name)
    ensures LastAnswer(keys, prefix, k).None?
  {
  }

  /** Listed blob names that are pairwise different ignoring case. */
  predicate DistinctNames(listing: seq<ResponseBlob>) {
    forall a, b :: 0 <= a < b < |listing| ==> !EqualsIgnoreCase(listing[a].name, listing[b].name)
  }

  /** How one more listed blob changes the answered flags. */
  lemma AnsweredFlagsStep(keys: seq<string>, listing: seq<ResponseBlob>)
    requires listing != []
    ensures var prefix, blob := listing[..|listing| - 1], listing[|listing| - 1];
      AnsweredFlags(keys, listing) ==
        match FirstMatch(blob.name, keys)
        case None => AnsweredFlags(keys, prefix)
        case Some(k) => AnsweredFlags(keys, prefix)[k := true]
  {
    var prefix, blob := listing[..|listing| - 1], listing[|listing| - 1];
    var before, after := AnsweredFlags(keys, prefix), AnsweredFlags(keys, listing);
    forall j | 0 <= j < |keys| && FirstMatch(blob.name, keys) != Some(j)
      ensures after[j] == before[j]
    {
      assert LastAnswer(keys, listing, j) == LastAnswer(keys, prefix, j);
    }
  }

  /** With listed names distinct ignoring case, the match count is the
      number of answered conflicts. */
  lemma {:induction false} CountIsAnswered(history: seq<Segment>, conflicts: seq<nat>, keys: seq<string>, listing: seq<ResponseBlob>)
    requires WellFormed(history, conflicts, keys)
    requires DistinctNames(listing)
    ensures Collect(history, conflicts, keys, listing).count == CountTrue(AnsweredFlags(keys, listing))
  {
    if listing != [] {
      var prefix, blob := listing[..|listing| - 1], listing[|listing| - 1];
      CountIsAnswered(history, conflicts, keys, prefix);
      AnsweredFlagsStep(keys, listing);
      match FirstMatch(blob.name, keys)
      case None =>
      case Some(k) =>
        NotYetAnswered(keys, prefix, blob.name, k);
        CountTrueSet(AnsweredFlags(keys, prefix), k);
    }
  }

  /** Some listed blob is named `key`, ignoring case. */
  predicate IsAnswered(listing: seq<ResponseBlob>, key: string) {
    exists b :: 0 <= b < |listing| && EqualsIgnoreCase(listing[b].name, key)
  }

  /** With distinct keys, a conflict's flag says whether its key was listed. */
  lemma FlagIffAnswered(keys: seq<string>, listing: seq<ResponseBlob>, k: nat)
    requires DistinctIgnoringCase(keys) && k < |keys|
    ensures AnsweredFlags(keys, listing)[k] <==> IsAnswered(listing, keys[k])
  {
    if IsAnswered(listing, keys[k]) {
      var b :| 0 <= b < |listing| && EqualsIgnoreCase(listing[b].name, keys[k]);
      MatchIsUnique(listing[b].name, keys, k);
    }
  }

  /** The success test `changedContracts == conflicts.length()` holds
      exactly when every conflicting supplier answered, provided the
      listed blob names are distinct ignoring case. */
  lemma SuccessIffAllAnswered(m: MaLo, requestedStart: Date, listing: seq<ResponseBlob>)
    requires DistinctNames(listing)
    ensures var conflicts := ConflictIndices(m.belieferungen, requestedStart);
      var keys := Keys(m.maLo, m.belieferungen, conflicts);
      Collect(m.belieferungen, conflicts, keys, listing).count == |conflicts| <==>
        forall k :: 0 <= k < |conflicts| ==> IsAnswered(listing, keys[k])
  {
    var conflicts := ConflictIndices(m.belieferungen, requestedStart);
    var keys := Keys(m.maLo, m.belieferungen, conflicts);
    KeysDistinct(m.maLo, m.belieferungen, conflicts);
    CountIsAnswered(m.belieferungen, conflicts, keys, listing);
    forall k | 0 <= k < |conflicts| {
      FlagIffAnswered(keys, listing, k);
    }
  }

  /** Without distinct names the count can mislead: two case variants of
      the first key bring the count of a two-conflict run to two while the
      second conflict never answered and keeps its end date. */
  lemma CaseVariantsCanStandInForAnAnswer(s0: Segment, s1: Segment, d: Date)
    ensures var keys := ["MaLo_1_A_temp0", "MaLo_1_B_temp1"];
      var listing := [ResponseBlob("MaLo_1_A_temp0", d), ResponseBlob("malo_1_a_temp0", d)];
      var c := Collect([s0, s1], [0, 1], keys, listing);
      && c.count == 2
      && LastAnswer(keys, listing, 1).None?
      && c.history[1] == s1
  {
    var keys := ["MaLo_1_A_temp0", "MaLo_1_B_temp1"];
    var listing := [ResponseBlob("MaLo_1_A_temp0", d), ResponseBlob("malo_1_a_temp0", d)];
    assert EqualsIgnoreCase("malo_1_a_temp0", keys[0]) by {
      EqualsIgnoreCaseByChars("malo_1_a_temp0", keys[0]);
    }
    assert FirstMatch("MaLo_1_A_temp0", keys) == Some(0);
    assert FirstMatch("malo_1_a_temp0", keys) == Some(0);
    assert listing[..1] == [listing[0]] && listing[..1][..0] == [];
    CollectedHistory([s0, s1], [0, 1], keys, listing, 1);
  }

  // ---------------------------------------------------------------------------
  // provision
  // ---------------------------------------------------------------------------

  /** Lines 68, 69 and 76: the run gets past its date parsing only when both
      requested dates and every segment end are calendar dates. The requested
      end is parsed but plays no further part. */
  predicate DatesParse(m: MaLo, d: MaLoResourceDefinition) {
    ValidDate(d.requestedStartDate) && ValidDate(d.requestedEndDate) && EndsParse(m.belieferungen)
  }

  function Resource(m: MaLo, d: MaLoResourceDefinition): ProvisionedResource {
    ProvisionedResource(m, d.id, d.transferProcessId)
  }

  /** `provision` (lines 61-189), with the responses listed in the temporary
      container after the wait given as `listing` and the SAS token as `sas`.
      It reads the record and parses both requested dates and every segment
      end, raising before any effect when one of them is not a date; with no
      conflict it deletes the temporary
      container and succeeds without writing or sending anything. Otherwise
      it sends one request per conflict, merges the answers, writes the
      record back and deletes the temporary container, and only then
      succeeds if the count of answers equals the number of conflicts. */
  method Provision(store: BlobStore, control: ControlPlane, d: MaLoResourceDefinition, sas: string, listing: seq<ResponseBlob>)
    returns (outcome: ProvisionOutcome)
    modifies store, control
    ensures control.cancelled == old(control.cancelled)
    ensures d.maloBlob !in old(store.records) ==>
      && outcome == ProvisionRaised("BlobStorageException: BlobNotFound")
      && store.records == old(store.records)
      && store.tempContainerDeleted == old(store.tempContainerDeleted)
      && control.sent == old(control.sent)
    ensures d.maloBlob in old(store.records) && !DatesParse(old(store.records)[d.maloBlob], d) ==>
      && outcome == ProvisionRaised("DateTimeParseException")
      && store.records == old(store.records)
      && store.tempContainerDeleted == old(store.tempContainerDeleted)
      && control.sent == old(control.sent)
    ensures d.maloBlob in old(store.records) && DatesParse(old(store.records)[d.maloBlob], d) ==>
      var m := old(store.records)[d.maloBlob];
      var conflicts := ConflictIndices(m.belieferungen, d.requestedStartDate);
      var c := Collect(m.belieferungen, conflicts, Keys(m.maLo, m.belieferungen, conflicts), listing);
      var merged := m.(belieferungen := c.history);
      && store.tempContainerDeleted
      && (conflicts == [] ==>
            && store.records == old(store.records)
            && control.sent == old(control.sent)
            && outcome == Provisioned(Resource(m, d)))
      && (conflicts != [] ==>
            && store.records == old(store.records)[d.maloBlob := merged]
            && control.sent == old(control.sent) + HandoverRequests(m, d, sas, conflicts)
            && outcome == if c.count == |conflicts| then Provisioned(Resource(merged, d))
                          else ProvisionFailed(FatalError, "Lieferant alt Failed to respond"))
  {
    if d.maloBlob !in store.records {
      outcome := ProvisionRaised("BlobStorageException: BlobNotFound");
      return;
    }
    var m := store.records[d.maloBlob];
    var belieferungen := m.belieferungen;
    if !ValidDate(d.requestedStartDate) || !ValidDate(d.requestedEndDate) {
      outcome := ProvisionRaised("DateTimeParseException");
      return;
    }
    var parsed, conflicts := SelectConflicts(belieferungen, d.requestedStartDate);
    if !parsed {
      outcome := ProvisionRaised("DateTimeParseException");
      return;
    }
    if |conflicts| == 0 {
      store.tempContainerDeleted := true;
      outcome := Provisioned(Resource(m, d));
      return;
    }
    var i := 0;
    while i < |conflicts|
      invariant 0 <= i <= |conflicts|
      invariant control.sent == old(control.sent) + HandoverRequests(m, d, sas, conflicts)[..i]
      invariant control.cancelled == old(control.cancelled)
      invariant store.records == old(store.records) && store.tempContainerDeleted == old(store.tempContainerDeleted)
    {
      var lieferant := belieferungen[conflicts[i]].lieferant;
      control.sent := control.sent + [HandoverRequest(m, d, sas, lieferant, i)];
      i := i + 1;
    }
    var changedContracts, updated := CollectResponses(m.maLo, belieferungen, conflicts, listing);
    var merged := m.(belieferungen := updated);
    store.records := store.records[d.maloBlob := merged];
    store.tempContainerDeleted := true;
    if changedContracts == |conflicts| {
      outcome := Provisioned(Resource(merged, d));
    } else {
      outcome := ProvisionFailed(FatalError, "Lieferant alt Failed to respond");
    }
  }
}
