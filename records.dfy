/** The MaLo (metering point) record as it is stored in blob storage, the
    external collaborators the core talks to, and the transfer requests it
    sends. JSON parsing and serialisation are not modelled: a record is held
    as the typed value its JSON text denotes. */
module Records {
  import opened Common
  import opened Dates

  /** A JSON value where the core only passes it through (`name`, `address`)
      or builds it (source payloads). `JDate` is a `YYYY-MM-DD` string
      carried as its parsed date. */
  datatype Json = JNull | JStr(s: string) | JDate(d: Date) | JObj(fields: map<string, Json>)

  /** The `lieferant` object of a supply segment. */
  datatype Supplier = Supplier(name: string, connector: string, dataContract: string)

  /** One element of `belieferungen`: supply by `lieferant` from `von` until `bis`. */
  datatype Segment = Segment(von: Date, bis: Date, lieferant: Supplier)

  /** The `contract` (supplier side) or `vertrag` (new-provider side) object. */
  datatype Contract = Contract(contractEnd: Date, cyclePeriod: string)

  /** Every segment's `bis` is a calendar date, so `LocalDate.parse` accepts
      each of them. */
  predicate EndsParse(history: seq<Segment>) {
    forall e :: 0 <= e < |history| ==> ValidDate(history[e].bis)
  }

  /** A MaLo record. The optional objects are absent in some records. */
  datatype MaLo = MaLo(
    maLo: string,
    name: Json,
    address: Json,
    lieferant: Option<Supplier>,
    contract: Option<Contract>,
    vertrag: Option<Contract>,
    belieferungen: seq<Segment>)

  /** A blob named `blobname` in container `container`. */
  datatype BlobId = BlobId(container: string, blobname: string)

  /** A listed response blob in the temporary container, with the
      `end_date` its JSON content carries. */
  datatype ResponseBlob = ResponseBlob(name: string, endDate: Date)

  /** The temporary container into which counterparties write responses. */
  datatype TempContainer = TempContainer(containerName: string, accountName: string)

  /** The `DataAddress` a transfer request sends its response to. */
  datatype Destination = Destination(
    kind: string,
    blobname: string,
    sasToken: string,
    container: string,
    account: string,
    request: Option<string>,
    date: Option<Date>)

  /** A consumer `DataRequest` handed to `initiateConsumerRequest`; `date`,
      `endDate` and `request` are its additional properties. */
  datatype DataRequest = DataRequest(
    connectorAddress: string,
    protocol: string,
    connectorId: string,
    assetId: string,
    destination: Destination,
    date: Option<Date>,
    endDate: Option<Date>,
    request: Option<string>,
    contractId: string)

  /** `"MaLo_" + maLo + "_" + supplierName`: the asset a supplier offers for a
      metering point. */
  function AssetId(maLo: string, supplierName: string): (r: string)
    ensures |r| == 6 + |maLo| + |supplierName|
    ensures r[..5] == "MaLo_" && r[5 + |maLo|] == '_'
  {
    "MaLo_" + maLo + "_" + supplierName
  }

  /** Blob storage: MaLo records by container and name, and whether the
      temporary container of the current run has been deleted. */
  class BlobStore {
    var records: map<BlobId, MaLo>
    var tempContainerDeleted: bool

    constructor (records: map<BlobId, MaLo>)
      ensures this.records == records && !tempContainerDeleted
    {
      this.records := records;
      tempContainerDeleted := false;
    }
  }

  /** The EDC control plane as the core uses it: requests it was asked to
      initiate, and transfer processes it was asked to cancel. */
  class ControlPlane {
    var sent: seq<DataRequest>
    var cancelled: seq<string>

    constructor ()
      ensures sent == [] && cancelled == []
    {
      sent := [];
      cancelled := [];
    }
  }

  /** Results of a provisioner. */
  datatype ResponseStatus = FatalError

  /** `MaLoProvisionedResource`: the record handed on, and the ids of the
      definition and transfer process it belongs to. */
  datatype ProvisionedResource = ProvisionedResource(
    maLo: MaLo,
    resourceDefinitionId: string,
    transferProcessId: string)

  /** `StatusResult<ProvisionResponse>`, or an exception completing the
      provisioning future exceptionally. */
  datatype ProvisionOutcome =
    | Provisioned(resource: ProvisionedResource)
    | ProvisionFailed(status: ResponseStatus, message: string)
    | ProvisionRaised(exception: string)

  /** `DeprovisionedResource`. */
  datatype DeprovisionedResource = DeprovisionedResource(provisionedResourceId: string)

  /** A `DataAddress`: its type and its string properties. `getProperty`
      of a missing key is Java's null. */
  datatype DataAddress = DataAddress(kind: Option<string>, properties: map<string, string>)

  function GetProperty(a: DataAddress, key: string): (r: Option<string>)
    ensures r.Some? <==> key in a.properties
    ensures r.Some? ==> r.value == a.properties[key]
  {
    if key in a.properties then Some(a.properties[key]) else None
  }

  /** `"T".equalsIgnoreCase(address.getType())`: false for a null type. */
  predicate TypeIs(expected: string, a: DataAddress) {
    a.kind.Some? && EqualsIgnoreCase(expected, a.kind.value)
  }

  /** What a data source streams: the JSON payload and the part name. */
  datatype SourcePart = SourcePart(payload: map<string, Json>, name: string)

  /** Life-cycle states of an EDC transfer process the core can observe. */
  datatype ProcessState = InProgress | Terminated

  /** An EDC `TransferProcess` as the status checkers see it: its creation
      time in milliseconds, its state and its error detail. */
  class TransferProcess {
    const createdAt: int
    var state: ProcessState
    var errorDetail: Option<string>

    constructor (createdAt: int)
      ensures this.createdAt == createdAt && state == InProgress && errorDetail == None
    {
      this.createdAt := createdAt;
      state := InProgress;
      errorDetail := None;
    }

    /** `transitionTerminated(detail)`. */
    method TransitionTerminated(detail: string)
      modifies this
      ensures state == Terminated && errorDetail == Some(detail)
    {
      state := Terminated;
      errorDetail := Some(detail);
    }
  }
}
