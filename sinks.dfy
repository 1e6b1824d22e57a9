/** What the sink factories share: the Azurite endpoint text, the check
    that a destination names all four blob coordinates, and the blob sink
    they build. Building the Azure client and streaming into it are not part
    of this model. */
module SinkCommon {
  import opened Common
  import opened Records

  /** The storage emulator's base address. */
  const AzuriteBase: string := "http://azurite:10000/"

  /** `format("http://azurite:10000/%s", account)`: a null account is
      rendered as "null". The account can be read back from the endpoint. */
  function AccountEndpoint(account: Option<string>): (e: string)
    ensures |e| == |AzuriteBase| + |JavaText(account)|
    ensures e[..|AzuriteBase|] == AzuriteBase && e[|AzuriteBase|..] == JavaText(account)
  {
    AzuriteBase + JavaText(account)
  }

  /** Distinct present accounts get distinct endpoints. */
  lemma AccountEndpointInjective(a: string, b: string)
    requires AccountEndpoint(Some(a)) == AccountEndpoint(Some(b))
    ensures a == b
  {
    assert AccountEndpoint(Some(a))[|AzuriteBase|..] == a;
  }

  /** `format(...account) + "/" + container + sasToken`: a container URL
      carrying its SAS token, each null part rendered as "null". */
  function ContainerUrl(account: Option<string>, container: Option<string>, sasToken: Option<string>): (u: string)
    ensures |u| > |AccountEndpoint(account)|
    ensures u[..|AccountEndpoint(account)|] == AccountEndpoint(account)
    ensures u[|AccountEndpoint(account)|..] == "/" + JavaText(container) + JavaText(sasToken)
  {
    AccountEndpoint(account) + "/" + JavaText(container) + JavaText(sasToken)
  }

  /** The four destination properties the operator-side sinks require. */
  predicate AllCoordinatesPresent(d: DataAddress) {
    "blobname" in d.properties && "container" in d.properties
    && "sasToken" in d.properties && "account" in d.properties
  }

  /** The `validate` body shared by two factories: success exactly when all
      four properties are present. */
  function RequireCoordinates(d: DataAddress): (r: Result<bool>)
    ensures r == Success(true) <==> AllCoordinatesPresent(d)
    ensures !AllCoordinatesPresent(d) ==> r == Failure("DataDestination has missing Attributes")
  {
    if AllCoordinatesPresent(d) then Success(true) else Failure("DataDestination has missing Attributes")
  }

  /** A blob sink: the client's endpoint, SAS token, container and blob,
      and the sink's name, request id and partition size. A client built
      from a container URL carries no separate token or container. */
  datatype BlobSink = BlobSink(
    endpoint: string,
    sasToken: Option<string>,
    container: Option<string>,
    blob: Option<string>,
    name: Option<string>,
    requestId: string,
    partitionSize: int)
}

/** The grid operator's sink for MaLo data (`malonetzbetr.NbMaLoSinkFactory`). */
module NbMaLoSinkFactory {
  import opened Common
  import opened Records
  import opened SinkCommon

  /** `canHandle`: the source type is "MaLo" in any letter case. */
  predicate CanHandle(source: DataAddress)
    ensures CanHandle(source) <==> source.kind.Some? && ToLower(source.kind.value) == "malo"
  {
    assert ToLower("MaLo") == "malo";
    TypeIs("MaLo", source)
  }

  /** `validate`: all of blobname, container, sasToken and account present. */
  function Validate(destination: DataAddress): (r: Result<bool>)
    ensures r == Success(true) <==> AllCoordinatesPresent(destination)
    ensures !AllCoordinatesPresent(destination) ==> r == Failure("DataDestination has missing Attributes")
  {
    RequireCoordinates(destination)
  }

  /** `createSink`: a blob client at the account's endpoint, named after
      the destination's blob. */
  function CreateSink(destination: DataAddress, requestId: string, partitionSize: int): (s: BlobSink)
    ensures s.endpoint == AccountEndpoint(GetProperty(destination, "account"))
    ensures s.sasToken == GetProperty(destination, "sasToken") && s.container == GetProperty(destination, "container")
    ensures s.blob == s.name == GetProperty(destination, "blobname")
    ensures s.requestId == requestId && s.partitionSize == partitionSize
  {
    var blobname := GetProperty(destination, "blobname");
    BlobSink(AccountEndpoint(GetProperty(destination, "account")), GetProperty(destination, "sasToken"),
      GetProperty(destination, "container"), blobname, blobname, requestId, partitionSize)
  }

  /** A validated destination yields a sink addressing exactly its four
      coordinates, with no "null" text in it. */
  lemma ValidatedSinkTargetsDestination(destination: DataAddress, requestId: string, partitionSize: int)
    requires Validate(destination).Success?
    ensures var s := CreateSink(destination, requestId, partitionSize);
      && s.endpoint == "http://azurite:10000/" + destination.properties["account"]
      && s.sasToken == Some(destination.properties["sasToken"])
      && s.container == Some(destination.properties["container"])
      && s.blob == s.name == Some(destination.properties["blobname"])
  {
  }
}

/** The supplier's sink for answers to the grid operator
    (`malolieferant.LfMaLoDataSinkFactory`). */
module LfMaLoDataSinkFactory {
  import opened Common
  import opened Records
  import opened SinkCommon

  /** `canHandle`: the source type is "MaLo_lfr" in any letter case. */
  predicate CanHandle(source: DataAddress)
    ensures CanHandle(source) <==> source.kind.Some? && ToLower(source.kind.value) == "malo_lfr"
  {
    assert ToLower("MaLo_lfr") == "malo_lfr";
    TypeIs("MaLo_lfr", source)
  }

  /** `validate`: all of blobname, container, sasToken and account present. */
  function Validate(destination: DataAddress): (r: Result<bool>)
    ensures r == Success(true) <==> AllCoordinatesPresent(destination)
    ensures !AllCoordinatesPresent(destination) ==> r == Failure("DataDestination has missing Attributes")
  {
    RequireCoordinates(destination)
  }

  /** `createSink`: a blob client at the account's endpoint, named after
      the destination's blob. */
  function CreateSink(destination: DataAddress, requestId: string, partitionSize: int): (s: BlobSink)
    ensures s.endpoint == AccountEndpoint(GetProperty(destination, "account"))
    ensures s.sasToken == GetProperty(destination, "sasToken") && s.container == GetProperty(destination, "container")
    ensures s.blob == s.name == GetProperty(destination, "blobname")
    ensures s.requestId == requestId && s.partitionSize == partitionSize
  {
    var blobname := GetProperty(destination, "blobname");
    BlobSink(AccountEndpoint(GetProperty(destination, "account")), GetProperty(destination, "sasToken"),
      GetProperty(destination, "container"), blobname, blobname, requestId, partitionSize)
  }

  /** The answer a supplier writes lands in the blob the handover engine
      named in its request: the sink addresses the destination's blobname,
      container and account unchanged. */
  lemma AnswerLandsWhereRequested(destination: DataAddress, requestId: string, partitionSize: int)
    requires Validate(destination).Success?
    ensures var s := CreateSink(destination, requestId, partitionSize);
      && s.blob == Some(destination.properties["blobname"])
      && s.container == Some(destination.properties["container"])
      && s.endpoint[|AzuriteBase|..] == destination.properties["account"]
  {
  }
}

/** The new supplier's sink for the transferred MaLo
    (`supplierchange.TransferMaLoSinkFactory`). */
module TransferMaLoSinkFactory {
  import opened Common
  import opened Records
  import opened SinkCommon

  /** `canHandle`: the source type is "MaLo" in any letter case. */
  predicate CanHandle(source: DataAddress)
    ensures CanHandle(source) <==> source.kind.Some? && ToLower(source.kind.value) == "malo"
  {
    assert ToLower("MaLo") == "malo";
    TypeIs("MaLo", source)
  }

  /** `validate` accepts every destination. */
  function Validate(destination: DataAddress): (r: Result<bool>)
    ensures r == Success(true)
  {
    Success(true)
  }

  const DefaultPrefix: string := "Transferred MaLo Reqest Id: "

  /** Lines 49 and 54-56: the destination's blobname, or a name made from
      the request id when it is missing. */
  function EffectiveBlobname(destination: DataAddress, requestId: string): (n: string)
    ensures "blobname" in destination.properties ==> n == destination.properties["blobname"]
    ensures "blobname" !in destination.properties ==>
      |n| == |DefaultPrefix| + |requestId| && n[..|DefaultPrefix|] == DefaultPrefix && n[|DefaultPrefix|..] == requestId
  {
    var blobname := GetProperty(destination, "blobname");
    if blobname.None? then DefaultPrefix + requestId else blobname.value
  }

  /** Default names of distinct requests differ. */
  lemma DefaultNamesDistinguishRequests(destination: DataAddress, id1: string, id2: string)
    requires "blobname" !in destination.properties
    requires EffectiveBlobname(destination, id1) == EffectiveBlobname(destination, id2)
    ensures id1 == id2
  {
    assert EffectiveBlobname(destination, id1)[|DefaultPrefix|..] == id1;
  }

  /** `createSink`: a container client at `account/container` with the SAS
      token appended, and the effective blob name. */
  function CreateSink(destination: DataAddress, requestId: string, partitionSize: int): (s: BlobSink)
    ensures s.endpoint == ContainerUrl(GetProperty(destination, "account"),
      GetProperty(destination, "container"), GetProperty(destination, "sasToken"))
    ensures s.blob == s.name == Some(EffectiveBlobname(destination, requestId))
    ensures s.sasToken.None? && s.container.None?
    ensures s.requestId == requestId && s.partitionSize == partitionSize
  {
    var blobname := EffectiveBlobname(destination, requestId);
    var url := ContainerUrl(GetProperty(destination, "account"), GetProperty(destination, "container"),
      GetProperty(destination, "sasToken"));
    BlobSink(url, None, None, Some(blobname), Some(blobname), requestId, partitionSize)
  }

  /** With all coordinates present the URL is exactly
      base + account + "/" + container + token. */
  lemma UrlOfCompleteDestination(destination: DataAddress, requestId: string, partitionSize: int)
    requires AllCoordinatesPresent(destination)
    ensures CreateSink(destination, requestId, partitionSize).endpoint
      == "http://azurite:10000/" + destination.properties["account"] + "/"
         + destination.properties["container"] + destination.properties["sasToken"]
  {
  }
}

/** The grid operator's copy sink for a supplier change
    (`supplierchange.TransferDataSinkFactory`). */
module SupplierChangeTransferDataSinkFactory {
  import opened Common
  import opened Records
  import opened SinkCommon

  /** `canHandle`: the source type is "AzureStorage" in any letter case. */
  predicate CanHandle(source: DataAddress)
    ensures CanHandle(source) <==> source.kind.Some? && ToLower(source.kind.value) == "azurestorage"
  {
    assert ToLower("AzureStorage") == "azurestorage";
    TypeIs("AzureStorage", source)
  }

  /** `validate` accepts every destination. */
  function Validate(destination: DataAddress): (r: Result<bool>)
    ensures r == Success(true)
  {
    Success(true)
  }

  /** Lines 52 and 57-59: the destination's blobname, or "Copy". */
  function EffectiveBlobname(destination: DataAddress): (n: string)
    ensures "blobname" in destination.properties ==> n == destination.properties["blobname"]
    ensures "blobname" !in destination.properties ==> n == "Copy"
  {
    GetProperty(destination, "blobname").GetOr("Copy")
  }

  /** `createSink`: a container client at the URL of line 60 and the
      effective blob name. */
  function CreateSink(destination: DataAddress, requestId: string, partitionSize: int): (s: BlobSink)
    ensures s.endpoint == ContainerUrl(GetProperty(destination, "account"),
      GetProperty(destination, "container"), GetProperty(destination, "sasToken"))
    ensures s.blob == s.name == Some(EffectiveBlobname(destination))
    ensures s.sasToken.None? && s.container.None?
    ensures s.requestId == requestId && s.partitionSize == partitionSize
  {
    var blobname := EffectiveBlobname(destination);
    var url := ContainerUrl(GetProperty(destination, "account"), GetProperty(destination, "container"),
      GetProperty(destination, "sasToken"));
    BlobSink(url, None, None, Some(blobname), Some(blobname), requestId, partitionSize)
  }

  /** Two requests without a blobname into the same container write the
      same blob, whatever their request ids. */
  lemma UnnamedCopiesShareABlob(d1: DataAddress, d2: DataAddress, id1: string, id2: string, p: int)
    requires "blobname" !in d1.properties && "blobname" !in d2.properties
    requires d1.properties == d2.properties
    ensures CreateSink(d1, id1, p).endpoint == CreateSink(d2, id2, p).endpoint
    ensures CreateSink(d1, id1, p).blob == CreateSink(d2, id2, p).blob == Some("Copy")
  {
  }
}

/** The new provider's copy sink (`makochain.TransferDataSinkFactory`). */
module MakoChainTransferDataSinkFactory {
  import opened Common
  import opened Records
  import opened SinkCommon

  /** `canHandle`: the source type is "MaLo" in any letter case. */
  predicate CanHandle(source: DataAddress)
    ensures CanHandle(source) <==> source.kind.Some? && ToLower(source.kind.value) == "malo"
  {
    assert ToLower("MaLo") == "malo";
    TypeIs("MaLo", source)
  }

  /** `validate` accepts every destination. */
  function Validate(destination: DataAddress): (r: Result<bool>)
    ensures r == Success(true)
  {
    Success(true)
  }

  /** Lines 47 and 51-53: the destination's blobname, or "Copy". */
  function EffectiveBlobname(destination: DataAddress): (n: string)
    ensures "blobname" in destination.properties ==> n == destination.properties["blobname"]
    ensures "blobname" !in destination.properties ==> n == "Copy"
  {
    GetProperty(destination, "blobname").GetOr("Copy")
  }

  /** `createSink`: a container client whose endpoint is `"" + sastoken`,
      read under the all-lower-case key, and the effective blob name. */
  function CreateSink(destination: DataAddress, requestId: string, partitionSize: int): (s: BlobSink)
    ensures s.endpoint == JavaText(GetProperty(destination, "sastoken"))
    ensures s.blob == s.name == Some(EffectiveBlobname(destination))
    ensures s.sasToken.None? && s.container.None?
    ensures s.requestId == requestId && s.partitionSize == partitionSize
  {
    var blobname := EffectiveBlobname(destination);
    BlobSink(JavaText(GetProperty(destination, "sastoken")), None, None, Some(blobname), Some(blobname),
      requestId, partitionSize)
  }

  /** A token stored under the camel-case key "sasToken", as the other
      sinks read it, is not seen: without a "sastoken" entry the endpoint is
      the text "null". */
  lemma CamelCaseTokenIsIgnored(destination: DataAddress, requestId: string, partitionSize: int)
    requires "sastoken" !in destination.properties
    ensures CreateSink(destination, requestId, partitionSize).endpoint == "null"
    ensures CreateSink(destination, requestId, partitionSize)
      == CreateSink(destination.(properties := destination.properties - {"sasToken"}), requestId, partitionSize)
  {
  }
}
