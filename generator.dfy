/** The resource-definition generator of the supplier change
    (`supplierchange.MaLoProvisionerBuilderGenerator`). For a MaLo asset it
    reads the record and prepares the definition the supplier-change
    provisioner works on. Creating the temporary container is I/O; the
    container is identified by its name and the storage account. */
module MaLoProvisionerBuilderGenerator {
  import opened Common
  import opened Dates
  import opened Records
  import opened SupplierChangeProvisioner

  /** The contract policy; only whether it is given matters here. */
  datatype Policy = Policy(uid: string)

  /** The consumer's data request: its properties in the map's iteration
      order, and its "date" property as a parsed date. */
  datatype GeneratorRequest = GeneratorRequest(properties: seq<(string, string)>, date: Option<Date>)

  /** The request date used when the request carries none. */
  const DefaultRequestDate: Date := Date(2023, 4, 18)

  /** Name of the container answers are written to. */
  const TempContainerName: string := "temp-container"

  /** `canGenerate` (lines 64-69): each argument must be non-null, checked
      in order; then the asset's type must be "MaLo" in any letter case. */
  function CanGenerate(dataRequest: Option<GeneratorRequest>, assetAddress: Option<DataAddress>, policy: Option<Policy>)
    : (r: Result<bool>)
    ensures dataRequest.None? ==> r == Raised("NullPointerException: dataRequest must always be provided")
    ensures dataRequest.Some? && assetAddress.None? ==>
      r == Raised("NullPointerException: assetAddress must always be provided")
    ensures dataRequest.Some? && assetAddress.Some? && policy.None? ==>
      r == Raised("NullPointerException: policy must always be provided")
    ensures dataRequest.Some? && assetAddress.Some? && policy.Some? ==>
      r == Success(assetAddress.value.kind.Some? && ToLower(assetAddress.value.kind.value) == "malo")
  {
    assert ToLower("MaLo") == "malo";
    if dataRequest.None? then Raised("NullPointerException: dataRequest must always be provided")
    else if assetAddress.None? then Raised("NullPointerException: assetAddress must always be provided")
    else if policy.None? then Raised("NullPointerException: policy must always be provided")
    else Success(TypeIs("MaLo", assetAddress.value))
  }

  /** `generate` (lines 35-61). `source` is the asset's blob, `id` the
      random definition id, `transferProcessId` the process the framework
      attaches the definition to, and `account` the storage account of the
      temporary container. A missing blob gives no definition. */
  function Generate(records: map<BlobId, MaLo>, dataRequest: GeneratorRequest, source: BlobId, id: string,
                    transferProcessId: string, account: string): (r: Option<MaLoResourceDefinition>)
    ensures r.Some? <==> source in records
    ensures r.Some? ==>
      && r.value.maLo == records[source]
      && r.value.id == id && r.value.transferProcessId == transferProcessId
      && r.value.tempContainer == TempContainer("temp-container", account)
      && (dataRequest.date.Some? ==> r.value.requestDate == dataRequest.date.value)
      && (dataRequest.date.None? ==> r.value.requestDate == Date(2023, 4, 18))
  {
    if source !in records then None
    else
      Some(MaLoResourceDefinition(
        id := id,
        transferProcessId := transferProcessId,
        maLo := records[source],
        requestDate := dataRequest.date.GetOr(DefaultRequestDate),
        tempContainer := TempContainer(TempContainerName, account)))
  }

  /** The default request date is a real calendar date, so a definition
      generated without one never makes the provisioner fail on it. */
  lemma DefaultRequestDateIsValid()
    ensures ValidDate(DefaultRequestDate)
  {
  }

  /** `v + "-" + k + "|"` for every property, in iteration order. */
  function RenderedProperties(entries: seq<(string, string)>): (s: string)
    ensures entries != [] ==> |s| >= 2
  {
    if entries == [] then ""
    else
      var (k, v) := entries[|entries| - 1];
      RenderedProperties(entries[..|entries| - 1]) + v + "-" + k + "|"
  }

  /** Rendering a concatenation renders each part in turn. */
  lemma {:induction false} RenderedPropertiesAppend(a: seq<(string, string)>, b: seq<(string, string)>)
    ensures RenderedProperties(a + b) == RenderedProperties(a) + RenderedProperties(b)
  {
    if b == [] {
      assert a + b == a;
    } else {
      var b' := b[..|b| - 1];
      assert (a + b)[..|a + b| - 1] == a + b';
      RenderedPropertiesAppend(a, b');
    }
  }

  /** Lines 50-52 as written: `String.concat` returns a new string that
      is dropped, so the logged text stays empty. */
  method LoggedProperties(entries: seq<(string, string)>) returns (props: string)
    ensures props == ""
  {
    props := "";
    for i := 0 to |entries| {
      var (k, v) := entries[i];
      var _ := props + v + "-" + k + "|";
    }
  }

  /** Lines 50-52 as evidently intended: every property is appended to the
      logged text. */
  method AccumulatedProperties(entries: seq<(string, string)>) returns (props: string)
    ensures props == RenderedProperties(entries)
  {
    props := "";
    for i := 0 to |entries|
      invariant props == RenderedProperties(entries[..i])
    {
      assert entries[..i + 1][..i] == entries[..i];
      var (k, v) := entries[i];
      props := props + v + "-" + k + "|";
    }
    assert entries[..|entries|] == entries;
  }

  /** Any request with a property logs non-empty text when accumulated,
      while the code as written logs "". */
  lemma LoggedPropertiesLoseEntries(entries: seq<(string, string)>)
    requires entries != []
    ensures RenderedProperties(entries) != ""
  {
  }
}
