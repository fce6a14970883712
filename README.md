# Grand Challenge → DCAT-AP exporter: reconciliation and mapping core

This project models the core of the exporter. The exporter reads archive metadata from the Grand Challenge platform and publishes it as a DCAT-AP catalog in RDF. The core has three parts:

- **Record assembler** (`src/gcdcat/gc_app.py`, module `GcApp`). It builds one raw record per image, one per archive and one for the catalog. Each record has one entry per declared field. A field's value comes from the primary source (the API response) or from the override file (`extra_data`). The precedence rule depends on the level:
  - Images use the primary value when it is truthy (Python truthiness). Otherwise they use the override, and otherwise `""`.
  - Archives use the primary value whenever its key is present, even when the value is empty. Otherwise they use the override, and otherwise `""`.
  - The catalog uses the override only, with no default.
- **Dataset and catalog mapper** (`src/gcdcat/gc_parser.py`, module `GcParser`). It checks the two mandatory dataset fields. An empty creator or an empty description adds its message to an ordered error list. A non-empty list means a `GCParserError`, and no dataset is built. Otherwise it builds a typed DCAT dataset. Catalog mapping has no check.
- **Graph builder** (`gc_to_RDF`, `ToRdf`). It binds four vocabulary prefixes and maps the catalog. It then folds over the datasets:
  - a dataset that maps successfully adds its triples to the graph and its URI to the catalog;
  - a rejected dataset is logged and counted.
  
  Finally the builder adds the catalog's triples.

Module `Values` holds field values: a JSON-like `Value` with an explicit `Truthy` predicate, and the `Error`/`Result` values that stand for Python's `KeyError` and `GCParserError`. Every dictionary lookup that can raise `KeyError` becomes a `Failure(KeyError(key))`, in the order and under the conditions in which Python evaluates it. For example, `extra_data["dataCatalogRecord"]` is read only when the primary image value is falsy. Module `Scenarios` composes the assembler, the mapper and the graph builder for a "demo" archive and proves what the chain yields for it.

Inputs the source obtains by I/O are parameters:
- the archive detail (`response`);
- the image query's `results` list (`images`);
- the field specification (`fields`) and the override file (`extra`);
- the `to_graph` functions of the typed values (`datasetTriples`, `catalogTriples`).

The graph is a value with a prefix map and a set of abstract triples. The fold is specified by recursive functions over the dataset list: the first aborting error, the failure counter, the logged error lists, the membership list and the datasets' triples. These functions take the dataset mapper as a parameter, so their lemmas hold for any mapper. `ToRdf` instantiates them with `ToDcatDataset`. The builder's logging appears in its result as the rejected datasets' error lists and an optional aggregate warning.

Behaviour of the code worth knowing when reading the model:
- Unlike the image level, the dataset level never falls back to the override for a present but empty primary value (`gc_app.py:61`). So the demo archive with `description: ""` is rejected even when the overrides hold a fallback description (`Scenarios.DemoEmptyPrimaryDescription`). The fallback applies only when the key is absent (`Scenarios.DemoMissingPrimaryDescription`).
- The docstring of `gc_to_DCATDataset` (`gc_parser.py:36-37`) names `title` and `description` as mandatory. The code checks `creator` and `description` (`gc_parser.py:54-57`), and so does the model.
- The overrides are read per level (`extra_data["dataSet"]`), not per archive. The image-level override is read under the singular key `"dataCatalogRecord"` (`gc_app.py:50`).
- A catalog field missing from the overrides is a `KeyError`, not an empty value (`gc_app.py:78`).
- A `GCParserError` carries only its message and the error list, not the archive's name.

## Model

| member | source | states |
|---|---|---|
| GcApp.ImageRecord | src/gcdcat/gc_app.py:46-54 | succeeds iff each declared field is in the image and, where its value is falsy, the `dataCatalogRecord` overrides exist; the record then has exactly the declared keys, each a truthy primary value, else the override, else `""`; otherwise the KeyError of the first failing field |
| GcApp.DataFromImages | src/gcdcat/gc_app.py:43-55 | one image record per image, in input order, each with exactly the declared image fields under image precedence; no images gives `[]` without reading the field list; otherwise the first KeyError raised |
| GcApp.DataForArchive | src/gcdcat/gc_app.py:58-69 | keys are exactly the declared dataset fields plus `dataCatalogRecords`; a present primary key wins even when empty, else the override, else `""`; `dataCatalogRecords` holds the image records; missing field list, overrides or `pk` fail with their KeyError |
| GcApp.DataForCatalog | src/gcdcat/gc_app.py:71-79 | keys are exactly the declared catalog fields, each copied from the catalog overrides; a missing override level or field fails with the KeyError of the first missing one |
| GcApp.TruthyPrimaryWinsAtBothLevels | src/gcdcat/gc_app.py:48-62 | a truthy primary value is kept by both the image and the dataset rule, whatever the overrides hold |
| GcApp.LevelsDisagreeOnEmptyPrimary | src/gcdcat/gc_app.py:48-64 | for a present but falsy primary value, the image rule takes a truthy override while the dataset rule keeps the empty value |
| GcApp.ImageFieldFalsyOnlyWithoutSource | src/gcdcat/gc_app.py:48-53 | an image field resolves to a falsy value iff the primary is falsy and the override is missing or falsy |
| GcParser.Bind | src/gcdcat/gc_parser.py:115-118 | binding a prefix maps it to the namespace, keeps the other bindings and leaves the triples unchanged (exact for the four distinct, new prefixes bound here) |
| GcParser.ToDcatDataset | src/gcdcat/gc_parser.py:53-77 | fails with a parser error iff creator or description is falsy; the list has "Cannot have empty name of creator" then "Cannot have empty description", one per violated rule, and no dataset is built; on success `uri` is the `url`, `title` and `keyword` are singletons, `description` is copied, and the creator is one VCard with the creator's name and uid `http://example.com` |
| GcParser.ToDcatCatalog | src/gcdcat/gc_parser.py:91-97 | never fails on empty values; `uri`, `title`, `description` come from `url`, `title`, `description`, and membership starts empty; only a missing key fails |
| GcParser.FirstAbortOfPrefix | src/gcdcat/gc_parser.py:124-135 | once a prefix of the datasets raises a non-parser error, later datasets do not change the error that ends the run |
| GcParser.FoldOfConcat | src/gcdcat/gc_parser.py:122-136 | counter, logged error lists, membership and dataset triples of a concatenation are those of the parts, combined in order |
| GcParser.RejectedContributesNothing | src/gcdcat/gc_parser.py:126-136 | inserting a rejected dataset anywhere raises the counter by one and changes neither membership, nor the triples, nor the run's outcome |
| GcParser.MembersAndFailuresPartition | src/gcdcat/gc_parser.py:122-135 | with N datasets and none aborting, members plus failures is N, and one error list is logged per failure |
| GcParser.SuccessTriplesProvenance | src/gcdcat/gc_parser.py:126-136 | a triple is in the datasets' part of the graph iff some successfully mapped dataset's `to_graph` contains it |
| GcParser.MembersProvenance | src/gcdcat/gc_parser.py:126-129 | a URI is a catalog member iff some dataset maps successfully to it |
| GcParser.ToRdf | src/gcdcat/gc_parser.py:112-143 | the graph binds exactly dcat, dcterms, foaf and vcard; its triples are the union of the successful datasets' triples and the final catalog's triples; membership is the successful URIs in input order; the counter is the number of rejected datasets and members plus failures is N; the warning is issued iff the counter is positive; a catalog KeyError or a dataset's non-parser error ends the run |
| Scenarios.AssembleWithEmptyDescription | src/gcdcat/gc_app.py:60-66 | an archive whose detail holds a falsy `description` keeps it in the raw record, and the mapper always rejects that record whatever the overrides offer, whether the creator comes from the detail, the overrides or the empty default |
| Scenarios.DemoEmptyPrimaryDescription | src/gcdcat/gc_app.py:58-69 | the "demo" archive with `description: ""` and a fallback override keeps `""`, and mapping fails with exactly the empty-description message |
| Scenarios.DemoMissingPrimaryDescription | src/gcdcat/gc_app.py:58-69 | the "demo" archive without a `description` key takes the fallback and maps to a dataset with uri `http://x/demo` and creator Alice |
| Scenarios.DemoGraph | src/gcdcat/gc_parser.py:112-143 | over both "demo" records the counter and warning are 1, one error list is logged, and the catalog lists only `http://x/demo` |
| Scenarios.ToRdfIsIdempotent | src/gcdcat/gc_parser.py:100-143 | two runs of the graph builder on the same input give the same graph, catalog and failure count, or the same error (a corollary of `ToRdf`'s contract) |

## Left out

- The platform client, the credential file and the HTTP image query (`gc_app.py:10-18`, `gc_app.py:39-42`) are network and file I/O. The archive detail and the query's `results` list are parameters. Only the `pk` lookup of the query is modelled, as a possible KeyError. Pagination beyond `results` is not modelled, because the source reads only that list.
- Loading the override file (`gc_app.py:21-34`) is file I/O. The parsed overrides are a parameter.
- The command-line entry point `gc_run` (`gc_app.py:82-143`) is left out. This covers option parsing, date-based output naming, serialization and file writing. The model's graph builder takes the dataset list directly. It does not reproduce `data["dataSet"]` being bound to the last archive record only.
- The RDF library (`Graph`, `URIRef`, `Literal`, `serialize`) and the typed classes' `to_graph` live in a module that is not part of this model. Terms wrap raw values, and `to_graph` is a function parameter. The library's default prefix bindings are not modelled.
- Logging and `print` are not modelled as output. The handler's `p.name` on a dictionary (`gc_parser.py:131`) would raise. The model follows the intended path: log the error list, count the failure and continue.
- Python exceptions other than `KeyError` and `GCParserError` are not modelled, for example a non-dictionary value where a dictionary is expected. Values are typed.
