/**
 * The DCAT mapper, validator and graph builder of the exporter: a raw dataset
 * record becomes a typed DCAT dataset or a parser error carrying every
 * violated rule; the catalog record becomes a typed catalog unconditionally;
 * `ToRdf` folds the datasets into one graph and counts the rejected ones.
 *
 * The RDF library is abstract here: URI references and literals wrap the raw
 * value, a triple is three terms, and each typed value's own triples come from
 * a function passed in by the caller (`to_graph` of the typed value).
 */
module GcParser {
  import opened Values

  const ParserErrorMessage := "Errors encountered during the parsing of GC Data."
  const EmptyCreatorMessage := "Cannot have empty name of creator"
  const EmptyDescriptionMessage := "Cannot have empty description"
  /** The uid every creator's contact card receives. */
  const PlaceholderUid := "http://example.com"

  const DcatNamespace := "http://www.w3.org/ns/dcat#"
  const DctermsNamespace := "http://purl.org/dc/terms/"
  const FoafNamespace := "http://xmlns.com/foaf/0.1/"
  const VcardNamespace := "http://www.w3.org/2006/vcard/ns#"

  /** An RDF term: a URI reference or a literal built from a raw field value. */
  datatype Term = Uri(ref: Value) | Literal(lexical: Value)

  datatype VCard = VCard(fullName: Term, uid: Term)

  datatype DcatDataset = DcatDataset(
    uri: Term,
    title: seq<Term>,
    description: Term,
    creator: seq<VCard>,
    keyword: seq<Term>)

  /** A typed catalog; `datasets` is the membership list, the `Dataset` attribute of the source. */
  datatype DcatCatalog = DcatCatalog(uri: Term, title: Term, description: Term, datasets: seq<Term>)

  datatype Triple = Triple(subject: Term, pred: Term, obj: Term)

  /** A graph: its prefix bindings and its set of triples. */
  datatype Graph = Graph(namespaces: map<string, string>, triples: set<Triple>)

  /**
   * What one run of the graph builder produces: the graph, the final catalog,
   * the failure counter, the error lists it logs for rejected datasets (in
   * input order), and the aggregate warning with its count, if one is logged.
   */
  datatype Export = Export(
    graph: Graph,
    catalog: DcatCatalog,
    failures: nat,
    rejections: seq<seq<string>>,
    warning: Option<nat>)

  /** The four bindings the graph builder makes. */
  const StandardPrefixes: map<string, string> :=
    map["dcat" := DcatNamespace, "dcterms" := DctermsNamespace, "foaf" := FoafNamespace, "vcard" := VcardNamespace]

  /**
   * `Graph.bind`: associate `prefix` with namespace `ns`. This map update is
   * exact for a prefix and a namespace that are both not yet bound, as for
   * the four distinct prefixes the graph builder binds into a fresh graph; the
   * library's renaming of clashing prefixes and moving of already-bound
   * namespaces is not modelled.
   */
  function Bind(g: Graph, prefix: string, ns: string): (r: Graph)
    ensures r.triples == g.triples
    ensures prefix in r.namespaces && r.namespaces[prefix] == ns
    ensures forall p :: p in g.namespaces && p != prefix ==> p in r.namespaces && r.namespaces[p] == g.namespaces[p]
    ensures r.namespaces.Keys == g.namespaces.Keys + {prefix}
  {
    g.(namespaces := g.namespaces[prefix := ns])
  }

  // ----- dataset mapper ------------------------------------------------------

  /** The messages of the two mandatory-field checks, in the order they are made. */
  function ValidationErrors(creator: Value, description: Value): seq<string> {
    (if !Truthy(creator) then [EmptyCreatorMessage] else [])
    + (if !Truthy(description) then [EmptyDescriptionMessage] else [])
  }

  /** A typed dataset's invariant: a named creator and a non-empty description. */
  predicate ValidDataset(d: DcatDataset) {
    && |d.creator| == 1
    && d.creator[0].fullName.Literal? && Truthy(d.creator[0].fullName.lexical)
    && d.description.Literal? && Truthy(d.description.lexical)
  }

  /** `gc_to_DCATDataset`. */
  function ToDcatDataset(d: Record): (r: Result<DcatDataset>)
    // the two mandatory fields are looked up first
    ensures "creator" !in d ==> r == Failure(KeyError("creator"))
    ensures "creator" in d && "description" !in d ==> r == Failure(KeyError("description"))
    // then every violated rule is reported, and nothing is constructed
    ensures "creator" in d && "description" in d ==>
      ((r.Failure? && r.error.ParserError?) <==> !Truthy(d["creator"]) || !Truthy(d["description"]))
    ensures r.Failure? && r.error.ParserError? ==>
      && r.error.message == ParserErrorMessage
      && (EmptyCreatorMessage in r.error.errorList <==> !Truthy(d["creator"]))
      && (EmptyDescriptionMessage in r.error.errorList <==> !Truthy(d["description"]))
      && |r.error.errorList| == (if Truthy(d["creator"]) then 0 else 1) + (if Truthy(d["description"]) then 0 else 1)
      && (!Truthy(d["creator"]) ==> r.error.errorList[0] == EmptyCreatorMessage)
    // the remaining fields are looked up only for a valid record
    ensures r.Success? <==>
      && "creator" in d && "description" in d && Truthy(d["creator"]) && Truthy(d["description"])
      && "url" in d && "title" in d && "keyword" in d
    ensures "creator" in d && "description" in d && Truthy(d["creator"]) && Truthy(d["description"]) ==>
      && ("url" !in d ==> r == Failure(KeyError("url")))
      && ("url" in d && "title" !in d ==> r == Failure(KeyError("title")))
      && ("url" in d && "title" in d && "keyword" !in d ==> r == Failure(KeyError("keyword")))
    ensures r.Success? ==>
      && ValidDataset(r.value)
      && r.value.uri == Uri(d["url"])
      && r.value.title == [Literal(d["title"])]
      && r.value.description == Literal(d["description"])
      && r.value.keyword == [Literal(d["keyword"])]
      && r.value.creator == [VCard(Literal(d["creator"]), Uri(Str(PlaceholderUid)))]
  {
    if "creator" !in d then Failure(KeyError("creator"))
    else if "description" !in d then Failure(KeyError("description"))
    else
      var errors := ValidationErrors(d["creator"], d["description"]);
      if errors != [] then Failure(ParserError(ParserErrorMessage, errors))
      else
        var creatorVCard := [VCard(Literal(d["creator"]), Uri(Str(PlaceholderUid)))];
        if "url" !in d then Failure(KeyError("url"))
        else if "title" !in d then Failure(KeyError("title"))
        else if "keyword" !in d then Failure(KeyError("keyword"))
        else
          Success(DcatDataset(
            uri := Uri(d["url"]),
            title := [Literal(d["title"])],
            description := Literal(d["description"]),
            creator := creatorVCard,
            keyword := [Literal(d["keyword"])]))
  }

  // ----- catalog mapper ------------------------------------------------------

  /** `gc_to_DCATCatalog`: no emptiness check; only a missing key fails. */
  function ToDcatCatalog(response: Record): (r: Result<DcatCatalog>)
    ensures "url" !in response ==> r == Failure(KeyError("url"))
    ensures "url" in response && "title" !in response ==> r == Failure(KeyError("title"))
    ensures "url" in response && "title" in response && "description" !in response ==> r == Failure(KeyError("description"))
    ensures r.Success? <==> "url" in response && "title" in response && "description" in response
    ensures r.Success? ==>
      && r.value.uri == Uri(response["url"])
      && r.value.title == Literal(response["title"])
      && r.value.description == Literal(response["description"])
      && r.value.datasets == []
  {
    if "url" !in response then Failure(KeyError("url"))
    else if "title" !in response then Failure(KeyError("title"))
    else if "description" !in response then Failure(KeyError("description"))
    else Success(DcatCatalog(Uri(response["url"]), Literal(response["title"]), Literal(response["description"]), []))
  }

  // ----- the fold over datasets, as specification functions ------------------

  /**
   * A dataset mapper. The fold and its properties below hold for any mapper;
   * the graph builder uses `ToDcatDataset`.
   */
  type Mapper = Record -> Result<DcatDataset>

  /** Mapping `d` fails validation: the graph builder logs it, counts it and moves on. */
  predicate Rejected(mapper: Mapper, d: Record) {
    mapper(d).Failure? && mapper(d).error.ParserError?
  }

  /** Mapping `d` raises something other than a parser error, which ends the whole run. */
  predicate Aborts(mapper: Mapper, d: Record) {
    mapper(d).Failure? && !mapper(d).error.ParserError?
  }

  /** The error of the first dataset, in input order, whose mapping aborts the run. */
  function FirstAbort(mapper: Mapper, ds: seq<Record>): Option<Error> {
    if ds == [] then None
    else
      var prior := FirstAbort(mapper, ds[..|ds| - 1]);
      if prior.Some? then prior
      else if Aborts(mapper, ds[|ds| - 1]) then Some(mapper(ds[|ds| - 1]).error)
      else None
  }

  /** The number of rejected datasets. */
  function Failures(mapper: Mapper, ds: seq<Record>): nat {
    if ds == [] then 0
    else Failures(mapper, ds[..|ds| - 1]) + (if Rejected(mapper, ds[|ds| - 1]) then 1 else 0)
  }

  /** The error lists of the rejected datasets, in input order. */
  function Rejections(mapper: Mapper, ds: seq<Record>): seq<seq<string>> {
    if ds == [] then []
    else
      var last := ds[|ds| - 1];
      Rejections(mapper, ds[..|ds| - 1]) + (if Rejected(mapper, last) then [mapper(last).error.errorList] else [])
  }

  /** The URIs of the successfully mapped datasets, in input order. */
  function Members(mapper: Mapper, ds: seq<Record>): seq<Term> {
    if ds == [] then []
    else
      var last := ds[|ds| - 1];
      Members(mapper, ds[..|ds| - 1]) + (if mapper(last).Success? then [mapper(last).value.uri] else [])
  }

  /** The union of the triples of the successfully mapped datasets. */
  function SuccessTriples(mapper: Mapper, ds: seq<Record>, toGraph: DcatDataset -> set<Triple>): set<Triple> {
    if ds == [] then {}
    else
      var last := ds[|ds| - 1];
      SuccessTriples(mapper, ds[..|ds| - 1], toGraph) + (if mapper(last).Success? then toGraph(mapper(last).value) else {})
  }

  // ----- properties of the fold ----------------------------------------------

  /** Once a prefix holds an aborting dataset, later datasets do not change which error ends the run. */
  lemma {:induction false} FirstAbortOfPrefix(mapper: Mapper, ds: seq<Record>, k: nat)
    requires k <= |ds| && FirstAbort(mapper, ds[..k]).Some?
    ensures FirstAbort(mapper, ds) == FirstAbort(mapper, ds[..k])
  {
    if k < |ds| {
      assert ds[..|ds| - 1][..k] == ds[..k];
      FirstAbortOfPrefix(mapper, ds[..|ds| - 1], k);
    } else {
      assert ds[..k] == ds;
    }
  }

  /** One more dataset: how each accumulator of the fold grows with it. */
  lemma FoldStep(mapper: Mapper, ds: seq<Record>, i: nat, toGraph: DcatDataset -> set<Triple>)
    requires i < |ds|
    ensures var p, prefix := ds[i], ds[..i];
      && FirstAbort(mapper, ds[..i + 1]) == (if FirstAbort(mapper, prefix).Some? then FirstAbort(mapper, prefix)
                                              else if Aborts(mapper, p) then Some(mapper(p).error) else None)
      && Failures(mapper, ds[..i + 1]) == Failures(mapper, prefix) + (if Rejected(mapper, p) then 1 else 0)
      && Rejections(mapper, ds[..i + 1]) == Rejections(mapper, prefix) + (if Rejected(mapper, p) then [mapper(p).error.errorList] else [])
      && Members(mapper, ds[..i + 1]) == Members(mapper, prefix) + (if mapper(p).Success? then [mapper(p).value.uri] else [])
      && SuccessTriples(mapper, ds[..i + 1], toGraph) == SuccessTriples(mapper, prefix, toGraph) + (if mapper(p).Success? then toGraph(mapper(p).value) else {})
  {
    assert ds[..i + 1][..i] == ds[..i];
  }

  /** Counter, logged error lists and the aborting error of a concatenation come from its parts. */
  lemma {:induction false} OutcomesOfConcat(mapper: Mapper, a: seq<Record>, b: seq<Record>)
    ensures Failures(mapper, a + b) == Failures(mapper, a) + Failures(mapper, b)
    ensures Rejections(mapper, a + b) == Rejections(mapper, a) + Rejections(mapper, b)
    ensures FirstAbort(mapper, a + b) == if FirstAbort(mapper, a).Some? then FirstAbort(mapper, a) else FirstAbort(mapper, b)
    decreases |b|
  {
    if b == [] {
      assert a + b == a;
    } else {
      var b' := b[..|b| - 1];
      assert (a + b)[..|a + b| - 1] == a + b';
      assert (a + b)[|a + b| - 1] == b[|b| - 1];
      OutcomesOfConcat(mapper, a, b');
    }
  }

  /** Membership and dataset triples of a concatenation come from its parts, membership in order. */
  lemma {:induction false} ContentsOfConcat(mapper: Mapper, a: seq<Record>, b: seq<Record>, toGraph: DcatDataset -> set<Triple>)
    ensures Members(mapper, a + b) == Members(mapper, a) + Members(mapper, b)
    ensures SuccessTriples(mapper, a + b, toGraph) == SuccessTriples(mapper, a, toGraph) + SuccessTriples(mapper, b, toGraph)
    decreases |b|
  {
    if b == [] {
      assert a + b == a;
    } else {
      var b' := b[..|b| - 1];
      assert (a + b)[..|a + b| - 1] == a + b';
      assert (a + b)[|a + b| - 1] == b[|b| - 1];
      ContentsOfConcat(mapper, a, b', toGraph);
    }
  }

  /**
   * The fold is a homomorphism over concatenation: the datasets of `a` and of
   * `b` are processed independently, and membership keeps input order.
   */
  lemma FoldOfConcat(mapper: Mapper, a: seq<Record>, b: seq<Record>, toGraph: DcatDataset -> set<Triple>)
    ensures Failures(mapper, a + b) == Failures(mapper, a) + Failures(mapper, b)
    ensures Rejections(mapper, a + b) == Rejections(mapper, a) + Rejections(mapper, b)
    ensures Members(mapper, a + b) == Members(mapper, a) + Members(mapper, b)
    ensures SuccessTriples(mapper, a + b, toGraph) == SuccessTriples(mapper, a, toGraph) + SuccessTriples(mapper, b, toGraph)
    ensures FirstAbort(mapper, a + b) == if FirstAbort(mapper, a).Some? then FirstAbort(mapper, a) else FirstAbort(mapper, b)
  {
    OutcomesOfConcat(mapper, a, b);
    ContentsOfConcat(mapper, a, b, toGraph);
  }

  /** A rejected dataset changes nothing but the counter and the logged error lists. */
  lemma RejectedContributesNothing(mapper: Mapper, a: seq<Record>, p: Record, b: seq<Record>, toGraph: DcatDataset -> set<Triple>)
    requires Rejected(mapper, p)
    ensures Failures(mapper, a + [p] + b) == Failures(mapper, a + b) + 1
    ensures Members(mapper, a + [p] + b) == Members(mapper, a + b)
    ensures SuccessTriples(mapper, a + [p] + b, toGraph) == SuccessTriples(mapper, a + b, toGraph)
    ensures FirstAbort(mapper, a + [p] + b) == FirstAbort(mapper, a + b)
  {
    RejectedAlone(mapper, p, toGraph);
    FoldOfConcat(mapper, a, [p], toGraph);
    FoldOfConcat(mapper, a + [p], b, toGraph);
    FoldOfConcat(mapper, a, b, toGraph);
  }

  /** The fold over a single rejected dataset. */
  lemma RejectedAlone(mapper: Mapper, p: Record, toGraph: DcatDataset -> set<Triple>)
    requires Rejected(mapper, p)
    ensures Failures(mapper, [p]) == 1 && Members(mapper, [p]) == [] && SuccessTriples(mapper, [p], toGraph) == {} && FirstAbort(mapper, [p]) == None
  {
    assert [p][..0] == [];
  }

  /** With N datasets of which K are rejected and none aborts, the catalog lists N - K datasets. */
  lemma {:induction false} MembersAndFailuresPartition(mapper: Mapper, ds: seq<Record>)
    requires FirstAbort(mapper, ds) == None
    ensures |Members(mapper, ds)| + Failures(mapper, ds) == |ds|
    ensures |Rejections(mapper, ds)| == Failures(mapper, ds)
  {
    if ds != [] {
      MembersAndFailuresPartition(mapper, ds[..|ds| - 1]);
    }
  }

  /** A triple is in the datasets' part of the graph exactly when some successfully mapped dataset contributes it. */
  lemma {:induction false} SuccessTriplesProvenance(mapper: Mapper, ds: seq<Record>, toGraph: DcatDataset -> set<Triple>, t: Triple)
    ensures t in SuccessTriples(mapper, ds, toGraph) <==>
      exists i :: 0 <= i < |ds| && mapper(ds[i]).Success? && t in toGraph(mapper(ds[i]).value)
  {
    if ds != [] {
      var front := ds[..|ds| - 1];
      SuccessTriplesProvenance(mapper, front, toGraph, t);
      if t in SuccessTriples(mapper, front, toGraph) {
        var i :| 0 <= i < |front| && mapper(front[i]).Success? && t in toGraph(mapper(front[i]).value);
        assert ds[i] == front[i];
      }
      if exists i :: 0 <= i < |ds| && mapper(ds[i]).Success? && t in toGraph(mapper(ds[i]).value) {
        var i :| 0 <= i < |ds| && mapper(ds[i]).Success? && t in toGraph(mapper(ds[i]).value);
        if i < |front| {
          assert front[i] == ds[i];
        }
      }
    }
  }

  /** A URI is in the membership list exactly when some dataset maps successfully to it. */
  lemma {:induction false} MembersProvenance(mapper: Mapper, ds: seq<Record>, u: Term)
    ensures u in Members(mapper, ds) <==>
      exists i :: 0 <= i < |ds| && mapper(ds[i]).Success? && mapper(ds[i]).value.uri == u
  {
    if ds != [] {
      var front := ds[..|ds| - 1];
      MembersProvenance(mapper, front, u);
      if u in Members(mapper, front) {
        var i :| 0 <= i < |front| && mapper(front[i]).Success? && mapper(front[i]).value.uri == u;
        assert ds[i] == front[i];
      }
      if exists i :: 0 <= i < |ds| && mapper(ds[i]).Success? && mapper(ds[i]).value.uri == u {
        var i :| 0 <= i < |ds| && mapper(ds[i]).Success? && mapper(ds[i]).value.uri == u;
        if i < |front| {
          assert front[i] == ds[i];
        }
      }
    }
  }

  // ----- the graph builder ---------------------------------------------------

  /**
   * `gc_to_RDF`, with `data["dataCatalog"]` as `catalogRecord` and
   * `data["dataSet"]` as `datasets`; `datasetTriples` and `catalogTriples`
   * are the typed values' `to_graph`.
   */
  method ToRdf(
    catalogRecord: Record,
    datasets: seq<Record>,
    datasetTriples: DcatDataset -> set<Triple>,
    catalogTriples: DcatCatalog -> set<Triple>)
    returns (r: Result<Export>)
    ensures ToDcatCatalog(catalogRecord).Failure? ==> r == Failure(ToDcatCatalog(catalogRecord).error)
    ensures ToDcatCatalog(catalogRecord).Success? && FirstAbort(ToDcatDataset, datasets).Some? ==> r == Failure(FirstAbort(ToDcatDataset, datasets).value)
    ensures r.Success? <==> ToDcatCatalog(catalogRecord).Success? && FirstAbort(ToDcatDataset, datasets) == None
    ensures r.Success? ==>
      var catalog := ToDcatCatalog(catalogRecord).value.(datasets := Members(ToDcatDataset, datasets));
      && r.value.catalog == catalog
      && r.value.graph.namespaces == StandardPrefixes
      && r.value.graph.triples == SuccessTriples(ToDcatDataset, datasets, datasetTriples) + catalogTriples(catalog)
      && r.value.failures == Failures(ToDcatDataset, datasets)
      && r.value.rejections == Rejections(ToDcatDataset, datasets)
      && (r.value.warning.Some? <==> Failures(ToDcatDataset, datasets) > 0)
      && (r.value.warning.Some? ==> r.value.warning.value == Failures(ToDcatDataset, datasets))
      && |r.value.catalog.datasets| + r.value.failures == |datasets|
  {
    var graph := Graph(map[], {});
    graph := Bind(graph, "dcat", DcatNamespace);
    graph := Bind(graph, "dcterms", DctermsNamespace);
    graph := Bind(graph, "foaf", FoafNamespace);
    graph := Bind(graph, "vcard", VcardNamespace);

    var mappedCatalog := ToDcatCatalog(catalogRecord);
    if mappedCatalog.Failure? {
      return Failure(mappedCatalog.error);
    }
    var catalog := mappedCatalog.value;

    var failureCounter: nat := 0;
    var rejections: seq<seq<string>> := [];
    var i := 0;
    while i < |datasets|
      invariant 0 <= i <= |datasets|
      invariant FirstAbort(ToDcatDataset, datasets[..i]) == None
      invariant failureCounter == Failures(ToDcatDataset, datasets[..i])
      invariant rejections == Rejections(ToDcatDataset, datasets[..i])
      invariant catalog == mappedCatalog.value.(datasets := Members(ToDcatDataset, datasets[..i]))
      invariant graph == Graph(StandardPrefixes, SuccessTriples(ToDcatDataset, datasets[..i], datasetTriples))
    {
      var p := datasets[i];
      FoldStep(ToDcatDataset, datasets, i, datasetTriples);
      var mapped := ToDcatDataset(p);
      if mapped.Failure? {
        if !mapped.error.ParserError? {
          FirstAbortOfPrefix(ToDcatDataset, datasets, i + 1);
          return Failure(mapped.error);
        }
        rejections := rejections + [mapped.error.errorList];
        failureCounter := failureCounter + 1;
        i := i + 1;
        continue;
      }
      var d := datasetTriples(mapped.value);
      catalog := catalog.(datasets := catalog.datasets + [mapped.value.uri]);
      graph := graph.(triples := graph.triples + d);
      i := i + 1;
    }
    assert datasets[..i] == datasets;
    MembersAndFailuresPartition(ToDcatDataset, datasets);

    graph := graph.(triples := graph.triples + catalogTriples(catalog));
    var warning := if failureCounter > 0 then Some(failureCounter) else None;
    return Success(Export(graph, catalog, failureCounter, rejections, warning));
  }
}
