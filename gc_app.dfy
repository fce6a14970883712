/**
 * The field reconciler and record assembler of the exporter: one raw record
 * per image, per archive and for the catalog, each filled field by field from
 * a declared field list, a primary source and an override source.
 *
 * `fields` maps a level name to its declared field list and `extra` maps a
 * level name to its override dictionary. Every dictionary lookup of the source
 * that can raise `KeyError` is modelled as a `Failure(KeyError(key))`, at the
 * point where the source evaluates it.
 */
module GcApp {
  import opened Values

  const CatalogLevel := "dataCatalog"
  const DatasetLevel := "dataSet"
  const ImageLevel := "dataCatalogRecords"
  /** The override level for images is spelled in the singular where the reconciler reads it. */
  const ImageOverrideLevel := "dataCatalogRecord"

  type Fields = map<string, seq<string>>
  type ExtraData = map<string, Record>

  /** The set of names in a declared field list. */
  function FieldSet(fl: seq<string>): set<string> {
    set f | f in fl
  }

  // ----- image level ---------------------------------------------------------

  /** Resolving image field `f` raises nothing. */
  predicate ImageFieldReadable(image: Record, extra: ExtraData, f: string) {
    f in image && (Truthy(image[f]) || ImageOverrideLevel in extra)
  }

  /** The key whose lookup fails when resolving an unreadable image field. */
  function ImageFieldError(image: Record, f: string): Error {
    if f !in image then KeyError(f) else KeyError(ImageOverrideLevel)
  }

  /** Image precedence: a truthy primary value, else the override, else the empty value. */
  function ImageFieldValue(image: Record, extra: ExtraData, f: string): Value
    requires ImageFieldReadable(image, extra, f)
  {
    if Truthy(image[f]) then image[f]
    else if f in extra[ImageOverrideLevel] then extra[ImageOverrideLevel][f]
    else Empty
  }

  predicate ImageReadable(image: Record, extra: ExtraData, fl: seq<string>) {
    forall f :: f in fl ==> ImageFieldReadable(image, extra, f)
  }

  /** `rec` has exactly the declared fields, each resolved by image precedence. */
  predicate IsImageRecord(rec: Record, image: Record, fl: seq<string>, extra: ExtraData) {
    && rec.Keys == FieldSet(fl)
    && forall f :: f in fl ==> ImageFieldReadable(image, extra, f) && rec[f] == ImageFieldValue(image, extra, f)
  }

  /** `e` is the error of the first unreadable field of `image`, in declaration order. */
  predicate IsFirstImageFieldError(image: Record, extra: ExtraData, fl: seq<string>, e: Error) {
    exists i :: 0 <= i < |fl| && !ImageFieldReadable(image, extra, fl[i])
      && (forall j :: 0 <= j < i ==> ImageFieldReadable(image, extra, fl[j]))
      && e == ImageFieldError(image, fl[i])
  }

  /** Building the image list raises nothing. */
  predicate ImagesLoadable(images: seq<Record>, fields: Fields, extra: ExtraData) {
    images == [] || (ImageLevel in fields && forall i :: 0 <= i < |images| ==> ImageReadable(images[i], extra, fields[ImageLevel]))
  }

  /** `e` is the error the image loop raises: the field-list lookup, or the first unreadable field of the first bad image. */
  predicate IsImagesError(images: seq<Record>, fields: Fields, extra: ExtraData, e: Error) {
    if ImageLevel !in fields then e == KeyError(ImageLevel)
    else
      exists i :: 0 <= i < |images|
        && (forall j :: 0 <= j < i ==> ImageReadable(images[j], extra, fields[ImageLevel]))
        && IsFirstImageFieldError(images[i], extra, fields[ImageLevel], e)
  }

  /** One image record per image, in the same order. */
  predicate AreImageRecords(recs: seq<Record>, images: seq<Record>, fields: Fields, extra: ExtraData) {
    && |recs| == |images|
    && forall i :: 0 <= i < |images| ==> ImageLevel in fields && IsImageRecord(recs[i], images[i], fields[ImageLevel], extra)
  }

  /** Reconciles one image with the image-level overrides (the body of the outer loop of `__get_data_from_images`). */
  method ImageRecord(image: Record, fl: seq<string>, extra: ExtraData) returns (r: Result<Record>)
    ensures r.Success? <==> ImageReadable(image, extra, fl)
    ensures r.Success? ==> IsImageRecord(r.value, image, fl, extra)
    ensures r.Failure? ==> IsFirstImageFieldError(image, extra, fl, r.error)
  {
    var rec: Record := map[];
    var i := 0;
    while i < |fl|
      invariant 0 <= i <= |fl|
      invariant forall j :: 0 <= j < i ==> ImageFieldReadable(image, extra, fl[j])
      invariant rec.Keys == FieldSet(fl[..i])
      invariant forall f :: f in fl[..i] ==> ImageFieldReadable(image, extra, f) && rec[f] == ImageFieldValue(image, extra, f)
    {
      var f := fl[i];
      assert fl[..i + 1] == fl[..i] + [f];
      assert f in fl;
      if f !in image {
        return Failure(KeyError(f));
      }
      if Truthy(image[f]) {
        rec := rec[f := image[f]];
      } else if ImageOverrideLevel !in extra {
        return Failure(KeyError(ImageOverrideLevel));
      } else if f in extra[ImageOverrideLevel] {
        rec := rec[f := extra[ImageOverrideLevel][f]];
      } else {
        rec := rec[f := Empty];
      }
      i := i + 1;
    }
    assert fl[..i] == fl;
    return Success(rec);
  }

  /** `__get_data_from_images`, with the query's `results` list passed in as `images`. */
  method DataFromImages(images: seq<Record>, fields: Fields, extra: ExtraData) returns (r: Result<seq<Record>>)
    ensures images == [] ==> r == Success([])
    ensures r.Success? <==> ImagesLoadable(images, fields, extra)
    ensures r.Success? ==> AreImageRecords(r.value, images, fields, extra)
    ensures r.Failure? ==> IsImagesError(images, fields, extra, r.error)
  {
    var records: seq<Record> := [];
    var i := 0;
    while i < |images|
      invariant 0 <= i <= |images|
      invariant i > 0 ==> ImageLevel in fields
      invariant forall j :: 0 <= j < i ==> ImageReadable(images[j], extra, fields[ImageLevel])
      invariant |records| == i
      invariant forall j :: 0 <= j < i ==> IsImageRecord(records[j], images[j], fields[ImageLevel], extra)
    {
      if ImageLevel !in fields {
        return Failure(KeyError(ImageLevel));
      }
      var record := ImageRecord(images[i], fields[ImageLevel], extra);
      if record.Failure? {
        return Failure(record.error);
      }
      records := records + [record.value];
      i := i + 1;
    }
    return Success(records);
  }

  // ----- dataset level -------------------------------------------------------

  /** Resolving dataset field `f` raises nothing. */
  predicate DatasetFieldReadable(response: Record, extra: ExtraData, f: string) {
    f in response || DatasetLevel in extra
  }

  /** Dataset precedence: the primary value whenever the key is present (even if empty), else the override, else the empty value. */
  function DatasetFieldValue(response: Record, extra: ExtraData, f: string): Value
    requires DatasetFieldReadable(response, extra, f)
  {
    if f in response then response[f]
    else if f in extra[DatasetLevel] then extra[DatasetLevel][f]
    else Empty
  }

  predicate DatasetFieldsReadable(response: Record, fields: Fields, extra: ExtraData) {
    DatasetLevel in fields && forall f :: f in fields[DatasetLevel] ==> DatasetFieldReadable(response, extra, f)
  }

  /** `v` is the list of the image records of `images` as the archive record stores it. */
  predicate IsImageList(v: Value, images: seq<Record>, fields: Fields, extra: ExtraData) {
    && v.List?
    && |v.items| == |images|
    && forall i :: 0 <= i < |images| ==>
         v.items[i].Dict? && ImageLevel in fields && IsImageRecord(v.items[i].entries, images[i], fields[ImageLevel], extra)
  }

  /**
   * `__get_data_for_archive`: `response` is the archive detail and `images` the
   * image query's results for that archive's `pk`.
   */
  method DataForArchive(response: Record, images: seq<Record>, fields: Fields, extra: ExtraData) returns (r: Result<Record>)
    ensures !DatasetFieldsReadable(response, fields, extra) ==>
      r == Failure(KeyError(DatasetLevel))
    ensures DatasetFieldsReadable(response, fields, extra) && "pk" !in response ==> r == Failure(KeyError("pk"))
    ensures r.Success? <==> DatasetFieldsReadable(response, fields, extra) && "pk" in response && ImagesLoadable(images, fields, extra)
    ensures DatasetFieldsReadable(response, fields, extra) && "pk" in response && r.Failure? ==>
      IsImagesError(images, fields, extra, r.error)
    ensures r.Success? ==>
      && r.value.Keys == FieldSet(fields[DatasetLevel]) + {ImageLevel}
      && (forall f :: f in fields[DatasetLevel] && f != ImageLevel ==> r.value[f] == DatasetFieldValue(response, extra, f))
      && IsImageList(r.value[ImageLevel], images, fields, extra)
  {
    if DatasetLevel !in fields {
      return Failure(KeyError(DatasetLevel));
    }
    var fl := fields[DatasetLevel];
    var archive: Record := map[];
    var i := 0;
    while i < |fl|
      invariant 0 <= i <= |fl|
      invariant forall j :: 0 <= j < i ==> DatasetFieldReadable(response, extra, fl[j])
      invariant archive.Keys == FieldSet(fl[..i])
      invariant forall f :: f in fl[..i] ==> DatasetFieldReadable(response, extra, f) && archive[f] == DatasetFieldValue(response, extra, f)
    {
      var f := fl[i];
      assert fl[..i + 1] == fl[..i] + [f];
      assert f in fl;
      if f in response {
        archive := archive[f := response[f]];
      } else if DatasetLevel !in extra {
        return Failure(KeyError(DatasetLevel));
      } else if f in extra[DatasetLevel] {
        archive := archive[f := extra[DatasetLevel][f]];
      } else {
        archive := archive[f := Empty];
      }
      i := i + 1;
    }
    assert fl[..i] == fl;
    if "pk" !in response {
      return Failure(KeyError("pk"));
    }
    var records := DataFromImages(images, fields, extra);
    if records.Failure? {
      return Failure(records.error);
    }
    var items := seq(|records.value|, k requires 0 <= k < |records.value| => Dict(records.value[k]));
    archive := archive[ImageLevel := List(items)];
    return Success(archive);
  }

  // ----- catalog level -------------------------------------------------------

  /** `e` is the KeyError of the first declared catalog field missing from the catalog overrides. */
  predicate IsFirstMissingCatalogField(fl: seq<string>, overrides: Record, e: Error) {
    exists i :: 0 <= i < |fl| && fl[i] !in overrides
      && (forall j :: 0 <= j < i ==> fl[j] in overrides)
      && e == KeyError(fl[i])
  }

  /** `__get_data_for_catalog`: every catalog field comes from the overrides, with no default. */
  method DataForCatalog(fields: Fields, extra: ExtraData) returns (r: Result<Record>)
    ensures CatalogLevel !in fields ==> r == Failure(KeyError(CatalogLevel))
    ensures CatalogLevel in fields && fields[CatalogLevel] != [] && CatalogLevel !in extra ==> r == Failure(KeyError(CatalogLevel))
    ensures r.Success? <==>
      CatalogLevel in fields &&
      (fields[CatalogLevel] == [] || (CatalogLevel in extra && forall f :: f in fields[CatalogLevel] ==> f in extra[CatalogLevel]))
    ensures r.Failure? && CatalogLevel in fields && CatalogLevel in extra ==>
      IsFirstMissingCatalogField(fields[CatalogLevel], extra[CatalogLevel], r.error)
    ensures r.Success? ==>
      && r.value.Keys == FieldSet(fields[CatalogLevel])
      && forall f :: f in r.value ==> r.value[f] == extra[CatalogLevel][f]
  {
    if CatalogLevel !in fields {
      return Failure(KeyError(CatalogLevel));
    }
    var fl := fields[CatalogLevel];
    var catalog: Record := map[];
    var i := 0;
    while i < |fl|
      invariant 0 <= i <= |fl|
      invariant i > 0 ==> CatalogLevel in extra
      invariant forall j :: 0 <= j < i ==> fl[j] in extra[CatalogLevel]
      invariant catalog.Keys == FieldSet(fl[..i])
      invariant forall f :: f in catalog ==> catalog[f] == extra[CatalogLevel][f]
    {
      var f := fl[i];
      assert fl[..i + 1] == fl[..i] + [f];
      if CatalogLevel !in extra {
        return Failure(KeyError(CatalogLevel));
      }
      if f !in extra[CatalogLevel] {
        return Failure(KeyError(f));
      }
      catalog := catalog[f := extra[CatalogLevel][f]];
      i := i + 1;
    }
    assert fl[..i] == fl;
    return Success(catalog);
  }

  // ----- how the two precedence rules relate ---------------------------------

  /** Where the primary value is truthy, the image and the dataset rule both keep it, whatever the overrides say. */
  lemma TruthyPrimaryWinsAtBothLevels(primary: Record, extra: ExtraData, f: string)
    requires f in primary && Truthy(primary[f])
    ensures ImageFieldReadable(primary, extra, f) && ImageFieldValue(primary, extra, f) == primary[f]
    ensures DatasetFieldReadable(primary, extra, f) && DatasetFieldValue(primary, extra, f) == primary[f]
  {
  }

  /**
   * A present but falsy primary value is where the two rules part: the image
   * rule falls back to a truthy override, the dataset rule keeps the empty value.
   */
  lemma LevelsDisagreeOnEmptyPrimary(primary: Record, f: string, override: Value)
    requires f in primary && !Truthy(primary[f]) && Truthy(override)
    ensures var extra := map[ImageOverrideLevel := map[f := override], DatasetLevel := map[f := override]];
      && ImageFieldValue(primary, extra, f) == override
      && DatasetFieldValue(primary, extra, f) == primary[f]
      && ImageFieldValue(primary, extra, f) != DatasetFieldValue(primary, extra, f)
  {
  }

  /** An image field resolves to a falsy value only if neither source offers a truthy one. */
  lemma ImageFieldFalsyOnlyWithoutSource(image: Record, extra: ExtraData, f: string)
    requires ImageFieldReadable(image, extra, f)
    ensures !Truthy(ImageFieldValue(image, extra, f)) <==>
      !Truthy(image[f]) && (f !in extra[ImageOverrideLevel] || !Truthy(extra[ImageOverrideLevel][f]))
  {
  }
}
