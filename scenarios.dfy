/**
 * End-to-end behaviour of the exporter: an archive detail goes through the
 * record assembler, the dataset mapper and the graph builder. The archive
 * "demo" has a primary `description` that is present but empty, and an
 * override that offers a fallback description.
 */
module Scenarios {
  import opened Values
  import opened GcApp
  import opened GcParser

  /** The dataset-level field list of the scenario. */
  const DemoFields: Fields := map[DatasetLevel := ["url", "title", "description", "creator", "keyword"]]

  /** Dataset-level overrides that offer only a description. */
  const FallbackExtra: ExtraData := map[DatasetLevel := map["description" := Str("Fallback desc")]]

  /** The archive detail of "demo"; `withDescription` says whether it carries a `description` key at all. */
  function DemoResponse(withDescription: bool): Record {
    var base := map["pk" := Int(1), "url" := Str("http://x/demo"), "title" := Str("Demo"), "creator" := Str("Alice")];
    if withDescription then base["description" := Str("")] else base
  }

  /**
   * At the dataset level a present key wins even when its value is empty, so
   * an archive whose detail carries a falsy `description` is always rejected by
   * the mapper, whatever the overrides offer.
   */
  method AssembleWithEmptyDescription(response: Record, images: seq<Record>, fields: Fields, extra: ExtraData)
    returns (r: Result<Record>, mapped: Option<Result<DcatDataset>>)
    requires "description" in response && !Truthy(response["description"])
    requires DatasetLevel in fields && "description" in fields[DatasetLevel] && "creator" in fields[DatasetLevel]
    ensures r.Success? <==>
      DatasetFieldsReadable(response, fields, extra) && "pk" in response && ImagesLoadable(images, fields, extra)
    ensures r.Success? ==> "description" in r.value && r.value["description"] == response["description"]
    ensures r.Success? <==> mapped.Some?
    ensures mapped.Some? ==>
      && mapped.value.Failure? && mapped.value.error.ParserError?
      && EmptyDescriptionMessage in mapped.value.error.errorList
  {
    r := DataForArchive(response, images, fields, extra);
    if r.Success? {
      assert "description" != ImageLevel && "creator" != ImageLevel;
      mapped := Some(ToDcatDataset(r.value));
    } else {
      mapped := None;
    }
  }

  /** The "demo" archive with an empty primary description: the override is not used and the mapper rejects it. */
  method DemoEmptyPrimaryDescription() returns (archive: Record, mapped: Result<DcatDataset>)
    ensures mapped == ToDcatDataset(archive)
    ensures "description" in archive && archive["description"] == Str("")
    ensures "keyword" in archive && archive["keyword"] == Empty
    ensures mapped == Failure(ParserError(ParserErrorMessage, [EmptyDescriptionMessage]))
  {
    var response := DemoResponse(true);
    assert DatasetFieldsReadable(response, DemoFields, FallbackExtra);
    var r := DataForArchive(response, [], DemoFields, FallbackExtra);
    assert r.Success?;
    archive := r.value;
    DemoFieldsDeclared();
    assert archive["creator"] == DatasetFieldValue(response, FallbackExtra, "creator") == Str("Alice");
    assert archive["description"] == DatasetFieldValue(response, FallbackExtra, "description") == Str("");
    assert archive["keyword"] == DatasetFieldValue(response, FallbackExtra, "keyword") == Empty;
    mapped := ToDcatDataset(archive);
  }

  /** The "demo" archive without a `description` key: the override fills it and the mapper accepts the record. */
  method DemoMissingPrimaryDescription() returns (archive: Record, mapped: Result<DcatDataset>)
    ensures mapped == ToDcatDataset(archive)
    ensures "description" in archive && archive["description"] == Str("Fallback desc")
    ensures "keyword" in archive && archive["keyword"] == Empty
    ensures mapped.Success?
    ensures mapped.value.uri == Uri(Str("http://x/demo"))
    ensures mapped.value.description == Literal(Str("Fallback desc"))
    ensures mapped.value.creator == [VCard(Literal(Str("Alice")), Uri(Str(PlaceholderUid)))]
  {
    var response := DemoResponse(false);
    assert DatasetFieldsReadable(response, DemoFields, FallbackExtra);
    var r := DataForArchive(response, [], DemoFields, FallbackExtra);
    assert r.Success?;
    archive := r.value;
    DemoFieldsDeclared();
    assert archive["url"] == DatasetFieldValue(response, FallbackExtra, "url") == Str("http://x/demo");
    assert archive["creator"] == DatasetFieldValue(response, FallbackExtra, "creator") == Str("Alice");
    assert archive["description"] == DatasetFieldValue(response, FallbackExtra, "description") == Str("Fallback desc");
    assert archive["keyword"] == DatasetFieldValue(response, FallbackExtra, "keyword") == Empty;
    assert "title" in archive;
    mapped := ToDcatDataset(archive);
    CompleteRecordMaps(archive);
  }

  /** A record with a truthy creator and description and all other looked-up keys maps successfully. */
  lemma CompleteRecordMaps(d: Record)
    requires "url" in d && "title" in d && "keyword" in d
    requires "creator" in d && Truthy(d["creator"]) && "description" in d && Truthy(d["description"])
    ensures ToDcatDataset(d) == Success(DcatDataset(
      Uri(d["url"]), [Literal(d["title"])], Literal(d["description"]),
      [VCard(Literal(d["creator"]), Uri(Str(PlaceholderUid)))], [Literal(d["keyword"])]))
  {
  }

  /** The scenario's declared dataset fields, none of which is the image-list key. */
  lemma DemoFieldsDeclared()
    ensures forall f :: f in ["url", "title", "description", "creator", "keyword"] ==> f in DemoFields[DatasetLevel] && f != ImageLevel
  {
  }

  /**
   * The graph builder over both "demo" records: the first is rejected and
   * counted, the second becomes the catalog's only member, and the warning
   * reports one failure.
   */
  method DemoGraph(datasetTriples: DcatDataset -> set<Triple>, catalogTriples: DcatCatalog -> set<Triple>)
    returns (r: Result<Export>)
    ensures r.Success?
    ensures r.value.failures == 1 && r.value.warning == Some(1)
    ensures r.value.rejections == [[EmptyDescriptionMessage]]
    ensures r.value.catalog.datasets == [Uri(Str("http://x/demo"))]
    ensures r.value.graph.namespaces == StandardPrefixes
  {
    var rejected, m1 := DemoEmptyPrimaryDescription();
    var accepted, m2 := DemoMissingPrimaryDescription();
    var catalogRecord := map["url" := Str("http://x/catalog"), "title" := Str("Catalog"), "description" := Str("")];
    var ds := [rejected, accepted];
    assert ds == [rejected] + [accepted];
    assert [accepted][..0] == [] && [rejected][..0] == [];
    assert m1.error.errorList == [EmptyDescriptionMessage];
    assert Rejections(ToDcatDataset, [rejected]) == [[EmptyDescriptionMessage]];
    assert Failures(ToDcatDataset, [accepted]) == 0 && Rejections(ToDcatDataset, [accepted]) == [];
    assert Members(ToDcatDataset, [accepted]) == [Uri(Str("http://x/demo"))];
    assert FirstAbort(ToDcatDataset, [accepted]) == None;
    RejectedAlone(ToDcatDataset, rejected, datasetTriples);
    FoldOfConcat(ToDcatDataset, [rejected], [accepted], datasetTriples);
    r := ToRdf(catalogRecord, ds, datasetTriples, catalogTriples);
  }

  /**
   * Running the graph builder twice on the same input yields the same triple
   * set, the same catalog and the same failure count, or the same error. This
   * is a corollary of `ToRdf`'s contract, which determines its whole result.
   */
  method ToRdfIsIdempotent(
    catalogRecord: Record,
    datasets: seq<Record>,
    datasetTriples: DcatDataset -> set<Triple>,
    catalogTriples: DcatCatalog -> set<Triple>)
    returns (first: Result<Export>, second: Result<Export>)
    ensures first.Success? <==> second.Success?
    ensures first.Failure? ==> first.error == second.error
    ensures first.Success? ==>
      && first.value.graph == second.value.graph
      && first.value.catalog == second.value.catalog
      && first.value.failures == second.value.failures
  {
    first := ToRdf(catalogRecord, datasets, datasetTriples, catalogTriples);
    second := ToRdf(catalogRecord, datasets, datasetTriples, catalogTriples);
  }
}
