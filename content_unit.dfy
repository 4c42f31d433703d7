/** `ContentUnit`, the business layer of the content engine: it checks field
    definitions, coerces item data to the declared field types, and runs the
    create/read/update/delete steps for models and items against the store
    the routes use, `D1ContentRunner`. A thrown error is an `Err` result;
    the clock, the id generator and the runtime coercions are parameters. */
module Content {
  import opened Common
  import opened ContentTypes
  import opened Slugs
  import opened DataValidation
  import opened ContentFx
  import ContentRunner

  // ---------------------------------------------------------------------------
  // Inputs, as the request schemas hand them over

  datatype CreateModelInput = CreateModelInput(
    name: string,
    displayName: Option<string>,
    description: Option<string>,
    fields: seq<ContentField>,
    settings: Option<ModelSettings>)

  datatype UpdateModelInput = UpdateModelInput(
    name: Option<string>,
    displayName: Option<string>,
    description: Option<string>,
    fields: Option<seq<ContentField>>,
    settings: Option<ModelSettings>)

  datatype CreateItemInput = CreateItemInput(status: Option<Status>, data: map<string, Value>)

  datatype UpdateItemInput = UpdateItemInput(status: Option<Status>, data: Option<map<string, Value>>)

  /** The listing response: the page, the total, and the window echoed back. */
  datatype ItemList = ItemList(items: seq<ContentItem>, total: int, limit: Option<int>, offset: Option<int>)

  const ModelNotFound := "Content model not found"
  const ItemNotFound := "Content item not found"

  function ModelSlugNotFound(slug: string): string {
    "Content model '" + slug + "' not found"
  }

  function ValidationFailed(errors: seq<string>): string {
    "Validation failed: " + Join(errors, ", ")
  }

  // ---------------------------------------------------------------------------
  // Field definitions

  function FieldNames(fields: seq<ContentField>): set<string> {
    set i | 0 <= i < |fields| :: fields[i].name
  }

  function NameOf(f: ContentField): string { f.name }

  function DuplicateMessage(name: string): string {
    "Duplicate field name: " + name
  }

  function ReferenceMessage(name: string): string {
    "Reference field '" + name + "' must specify referenceTo"
  }

  function OptionsMessage(name: string): string {
    "Select field '" + name + "' must have options"
  }

  /** A `select` or `multiselect` field whose `options` is missing or empty. */
  predicate LacksOptions(f: ContentField) {
    (f.fieldType == Select || f.fieldType == MultiSelect) && (f.options.None? || |f.options.value| == 0)
  }

  /** The first complaint about a field, given the names declared before it. */
  function FieldProblem(f: ContentField, seen: set<string>): Option<string> {
    if f.name in seen then Some(DuplicateMessage(f.name))
    else if f.fieldType == Reference && !Truthy(f.referenceTo) then Some(ReferenceMessage(f.name))
    else if LacksOptions(f) then Some(OptionsMessage(f.name))
    else None
  }

  /** Every field passes its check against the names before it. */
  predicate FieldsAccepted(fields: seq<ContentField>) {
    forall i :: 0 <= i < |fields| ==> FieldProblem(fields[i], FieldNames(fields[..i])).None?
  }

  /** What an accepted list is: distinct names, every reference field names
      its target, every select field has options. */
  ghost predicate WellFormedFields(fields: seq<ContentField>) {
    && UniqueKeys(fields, NameOf)
    && (forall i :: 0 <= i < |fields| && fields[i].fieldType == Reference ==> Truthy(fields[i].referenceTo))
    && (forall i :: 0 <= i < |fields| ==> !LacksOptions(fields[i]))
  }

  /** Field `i` is the first with a problem, and `e` reports that problem. */
  predicate FirstProblemAt(fields: seq<ContentField>, i: int, e: Error) {
    && 0 <= i < |fields|
    && (forall j :: 0 <= j < i ==> FieldProblem(fields[j], FieldNames(fields[..j])).None?)
    && FieldProblem(fields[i], FieldNames(fields[..i])).Some?
    && e == Validation(FieldProblem(fields[i], FieldNames(fields[..i])).value)
  }

  /** `validateFields`: one pass with a set of the names seen so far; the
      first problem met stops the pass. */
  method ValidateFields(fields: seq<ContentField>) returns (out: Outcome)
    ensures out == Pass <==> FieldsAccepted(fields)
    ensures out.Fail? ==> exists i :: FirstProblemAt(fields, i, out.error)
  {
    var fieldNames: set<string> := {};
    for i := 0 to |fields|
      invariant fieldNames == FieldNames(fields[..i])
      invariant forall j :: 0 <= j < i ==> FieldProblem(fields[j], FieldNames(fields[..j])).None?
    {
      var field := fields[i];
      if field.name in fieldNames {
        assert FirstProblemAt(fields, i, Validation(DuplicateMessage(field.name)));
        return Fail(Validation(DuplicateMessage(field.name)));
      }
      assert FieldNames(fields[..i + 1]) == fieldNames + {field.name} by {
        assert fields[..i + 1] == fields[..i] + [field];
      }
      fieldNames := fieldNames + {field.name};
      if field.fieldType == Reference && !Truthy(field.referenceTo) {
        assert FirstProblemAt(fields, i, Validation(ReferenceMessage(field.name)));
        return Fail(Validation(ReferenceMessage(field.name)));
      }
      if LacksOptions(field) {
        assert FirstProblemAt(fields, i, Validation(OptionsMessage(field.name)));
        return Fail(Validation(OptionsMessage(field.name)));
      }
    }
    assert fields[..|fields|] == fields;
    out := Pass;
  }

  /** A field list is accepted exactly when it is well formed. */
  lemma FieldsAcceptedIff(fields: seq<ContentField>)
    ensures FieldsAccepted(fields) <==> WellFormedFields(fields)
  {
    if FieldsAccepted(fields) {
      forall i, j | 0 <= i < j < |fields| ensures NameOf(fields[i]) != NameOf(fields[j]) {
        assert fields[..j][i] == fields[i];
        assert FieldProblem(fields[j], FieldNames(fields[..j])).None?;
      }
      forall i | 0 <= i < |fields| ensures !LacksOptions(fields[i]) {
        assert FieldProblem(fields[i], FieldNames(fields[..i])).None?;
      }
    }
    if WellFormedFields(fields) {
      forall i | 0 <= i < |fields| ensures FieldProblem(fields[i], FieldNames(fields[..i])).None? {
        forall j | 0 <= j < i ensures fields[..i][j].name != fields[i].name {
          assert NameOf(fields[j]) != NameOf(fields[i]);
        }
      }
    }
  }

  /** A repeated name is reported, and the report names the first field in
      list order whose name was already declared. */
  lemma DuplicateRejected(fields: seq<ContentField>, i: int, j: int)
    requires 0 <= i < j < |fields| && fields[i].name == fields[j].name
    ensures !FieldsAccepted(fields)
  {
    assert fields[..j][i] == fields[i];
    assert fields[i].name in FieldNames(fields[..j]);
  }

  // ---------------------------------------------------------------------------
  // Coercion of item data

  const ToLowerMissing := Unexpected("TypeError: text.toLowerCase is not a function")
  const InvalidTime := Unexpected("RangeError: Invalid time value")
  const BadJson := Unexpected("SyntaxError: JSON.parse failed")

  /** `processFieldValue` on a present value. Only runtime exceptions can
      fail it; every type outside slug, date, datetime, number, boolean and
      json passes the value through. */
  function ProcessFieldValue(f: ContentField, v: Value, host: Host): (r: Result<Value>)
    ensures r.Err? ==> r.error.Unexpected?
    ensures f.fieldType !in {Slug, Date, DateTime, Number, Boolean, Json} ==> r == Ok(v)
    ensures f.fieldType == Slug ==> (r.Ok? <==> v.Str?)
    ensures f.fieldType == Json && !v.Str? ==> r == Ok(v)
  {
    match f.fieldType
    case Slug => if v.Str? then Ok(Str(Slugify(v.s))) else Err(ToLowerMissing)
    case Date => if host.toIsoDate(v).Some? then Ok(Str(host.toIsoDate(v).value)) else Err(InvalidTime)
    case DateTime => if host.toIsoDate(v).Some? then Ok(Str(host.toIsoDate(v).value)) else Err(InvalidTime)
    case Number => Ok(host.toNumber(v))
    case Boolean => Ok(Bool(IsTruthy(v)))
    case Json =>
      if v.Str? then (if host.parseJson(v.s).Some? then Ok(host.parseJson(v.s).value) else Err(BadJson))
      else Ok(v)
    case _ => Ok(v)
  }

  /** A slug field's value comes out in slug shape. */
  lemma SlugValueIsSlug(f: ContentField, v: Value, host: Host)
    requires f.fieldType == Slug && v.Str?
    ensures ProcessFieldValue(f, v, host).Ok?
    ensures ProcessFieldValue(f, v, host).value.Str? && IsSlug(ProcessFieldValue(f, v, host).value.s)
  {
    SlugCoercion(f, v, host);
    SlugifyIsSlug(v.s);
  }

  /** Coercing an already coerced slug value changes nothing. */
  lemma SlugCoercionIdempotent(f: ContentField, v: Value, host: Host)
    requires f.fieldType == Slug && v.Str?
    ensures ProcessFieldValue(f, ProcessFieldValue(f, v, host).value, host) == ProcessFieldValue(f, v, host)
  {
    var once := ProcessFieldValue(f, v, host);
    SlugCoercion(f, v, host);
    var twice := ProcessFieldValue(f, once.value, host);
    SlugCoercion(f, once.value, host);
    SlugifyIdempotent(v.s);
    assert twice.value.s == once.value.s;
  }

  /** A slug field's string value becomes its slugify image. */
  lemma SlugCoercion(f: ContentField, v: Value, host: Host)
    requires f.fieldType == Slug && v.Str?
    ensures ProcessFieldValue(f, v, host).Ok? && ProcessFieldValue(f, v, host).value.Str?
    ensures ProcessFieldValue(f, v, host).value.s == Slugify(v.s)
  {
  }

  /** Coercing an already coerced boolean value changes nothing. */
  lemma BooleanCoercionIdempotent(f: ContentField, v: Value, host: Host)
    requires f.fieldType == Boolean
    ensures ProcessFieldValue(f, ProcessFieldValue(f, v, host).value, host) == ProcessFieldValue(f, v, host)
  {
  }

  function MissingMessage(name: string): string {
    "Required field '" + name + "' is missing"
  }

  /** The value one field contributes to the processed record. */
  function ProcessField(f: ContentField, data: map<string, Value>, host: Host): Result<Value> {
    var value := Lookup(data, f.name);
    if IsMissing(value) then
      if f.validation.required then Err(Validation(MissingMessage(f.name))) else Ok(DefaultOf(f))
    else ProcessFieldValue(f, value.value, host)
  }

  /** The loop of `processFieldData` from some field on, with the record
      built so far. The first failing field ends it. */
  function ProcessFrom(fields: seq<ContentField>, data: map<string, Value>, host: Host, acc: map<string, Value>): Result<map<string, Value>>
    decreases |fields|
  {
    if |fields| == 0 then Ok(acc)
    else
      match ProcessField(fields[0], data, host)
      case Err(e) => Err(e)
      case Ok(v) => ProcessFrom(fields[1..], data, host, acc[fields[0].name := v])
  }

  function ProcessedData(fields: seq<ContentField>, data: map<string, Value>, host: Host): Result<map<string, Value>> {
    ProcessFrom(fields, data, host, map[])
  }

  /** `processFieldData`: a new record filled field by field. */
  method ProcessFieldData(fields: seq<ContentField>, data: map<string, Value>, host: Host) returns (r: Result<map<string, Value>>)
    ensures r == ProcessedData(fields, data, host)
  {
    var processed: map<string, Value> := map[];
    for i := 0 to |fields|
      invariant ProcessFrom(fields[i..], data, host, processed) == ProcessedData(fields, data, host)
    {
      var field := fields[i];
      assert fields[i..][0] == field && fields[i..][1..] == fields[i + 1..];
      var value := Lookup(data, field.name);
      if IsMissing(value) {
        if field.validation.required {
          return Err(Validation(MissingMessage(field.name)));
        }
        processed := processed[field.name := DefaultOf(field)];
      } else {
        var coerced := ProcessFieldValue(field, value.value, host);
        if coerced.Err? {
          return Err(coerced.error);
        }
        processed := processed[field.name := coerced.value];
      }
    }
    r := Ok(processed);
  }

  /** The keys of the processed record are exactly the declared field names. */
  lemma {:induction false} ProcessedKeys(fields: seq<ContentField>, data: map<string, Value>, host: Host, acc: map<string, Value>)
    requires ProcessFrom(fields, data, host, acc).Ok?
    ensures ProcessFrom(fields, data, host, acc).value.Keys == acc.Keys + FieldNames(fields)
    decreases |fields|
  {
    if |fields| > 0 {
      var v := ProcessField(fields[0], data, host).value;
      ProcessedKeys(fields[1..], data, host, acc[fields[0].name := v]);
      assert FieldNames(fields) == {fields[0].name} + FieldNames(fields[1..]) by {
        forall x | x in FieldNames(fields) ensures x in {fields[0].name} + FieldNames(fields[1..]) {
          var i :| 0 <= i < |fields| && fields[i].name == x;
          if i > 0 { assert fields[1..][i - 1] == fields[i]; }
        }
        forall x | x in FieldNames(fields[1..]) ensures x in FieldNames(fields) {
          var i :| 0 <= i < |fields[1..]| && fields[1..][i].name == x;
          assert fields[i + 1].name == x;
        }
      }
    }
  }

  lemma DataKeysAreFieldNames(fields: seq<ContentField>, data: map<string, Value>, host: Host)
    requires ProcessedData(fields, data, host).Ok?
    ensures ProcessedData(fields, data, host).value.Keys == FieldNames(fields)
  {
    ProcessedKeys(fields, data, host, map[]);
  }

  /** The record holds, under a field's name, what that field contributed,
      when no later field declares the same name. */
  lemma {:induction false} ProcessedValue(fields: seq<ContentField>, data: map<string, Value>, host: Host, acc: map<string, Value>, i: int)
    requires 0 <= i < |fields|
    requires forall j :: i < j < |fields| ==> fields[j].name != fields[i].name
    requires ProcessFrom(fields, data, host, acc).Ok?
    ensures fields[i].name in ProcessFrom(fields, data, host, acc).value
    ensures ProcessField(fields[i], data, host) == Ok(ProcessFrom(fields, data, host, acc).value[fields[i].name])
    decreases |fields|
  {
    var v := ProcessField(fields[0], data, host).value;
    var acc' := acc[fields[0].name := v];
    if i == 0 {
      KeptAfter(fields[1..], data, host, acc', fields[0].name);
    } else {
      assert forall j :: i - 1 < j < |fields[1..]| ==> fields[1..][j] == fields[j + 1];
      ProcessedValue(fields[1..], data, host, acc', i - 1);
    }
  }

  /** A key no remaining field declares keeps its accumulated value. */
  lemma {:induction false} KeptAfter(fields: seq<ContentField>, data: map<string, Value>, host: Host, acc: map<string, Value>, key: string)
    requires key in acc
    requires forall j :: 0 <= j < |fields| ==> fields[j].name != key
    requires ProcessFrom(fields, data, host, acc).Ok?
    ensures key in ProcessFrom(fields, data, host, acc).value
    ensures ProcessFrom(fields, data, host, acc).value[key] == acc[key]
    decreases |fields|
  {
    if |fields| > 0 {
      var v := ProcessField(fields[0], data, host).value;
      assert forall j :: 0 <= j < |fields[1..]| ==> fields[1..][j] == fields[j + 1];
      KeptAfter(fields[1..], data, host, acc[fields[0].name := v], key);
    }
  }

  /** With distinct names, an absent or null optional value becomes the
      field's default, and null when it has none. */
  lemma DefaultApplied(fields: seq<ContentField>, data: map<string, Value>, host: Host, i: int)
    requires UniqueKeys(fields, NameOf)
    requires 0 <= i < |fields| && !fields[i].validation.required && IsMissing(Lookup(data, fields[i].name))
    requires ProcessedData(fields, data, host).Ok?
    ensures fields[i].name in ProcessedData(fields, data, host).value
    ensures ProcessedData(fields, data, host).value[fields[i].name] == DefaultOf(fields[i])
  {
    assert forall j :: i < j < |fields| ==> NameOf(fields[i]) != NameOf(fields[j]);
    ProcessedValue(fields, data, host, map[], i);
  }

  /** An absent or null required value makes the whole coercion fail. */
  lemma {:induction false} MissingRequiredFails(fields: seq<ContentField>, data: map<string, Value>, host: Host, acc: map<string, Value>, i: int)
    requires 0 <= i < |fields| && fields[i].validation.required && IsMissing(Lookup(data, fields[i].name))
    ensures ProcessFrom(fields, data, host, acc).Err?
    decreases |fields|
  {
    if i > 0 && ProcessField(fields[0], data, host).Ok? {
      assert fields[1..][i - 1] == fields[i];
      MissingRequiredFails(fields[1..], data, host, acc[fields[0].name := ProcessField(fields[0], data, host).value], i - 1);
    }
  }

  /** Data the validator accepted never trips the coercer's own required
      check: what can still fail is a runtime exception. */
  lemma {:induction false} ValidDataOnlyFailsUnexpectedly(fields: seq<ContentField>, data: map<string, Value>, host: Host, rule: LengthRule, acc: map<string, Value>)
    requires forall i :: 0 <= i < |fields| ==> FieldErrors(fields[i], data, host, rule) == []
    ensures ProcessFrom(fields, data, host, acc).Err? ==> ProcessFrom(fields, data, host, acc).error.Unexpected?
    decreases |fields|
  {
    if |fields| > 0 {
      assert FieldErrors(fields[0], data, host, rule) == [];
      match ProcessField(fields[0], data, host)
      case Err(e) =>
      case Ok(v) =>
        assert forall i :: 0 <= i < |fields[1..]| ==> fields[1..][i] == fields[i + 1];
        ValidDataOnlyFailsUnexpectedly(fields[1..], data, host, rule, acc[fields[0].name := v]);
    }
  }

  lemma ValidatedDataOnlyFailsUnexpectedly(fields: seq<ContentField>, data: map<string, Value>, host: Host, rule: LengthRule)
    requires DataErrors(fields, data, host, rule) == []
    ensures ProcessedData(fields, data, host).Err? ==> ProcessedData(fields, data, host).error.Unexpected?
  {
    DataErrorsEmptyIff(fields, data, host, rule);
    ValidDataOnlyFailsUnexpectedly(fields, data, host, rule, map[]);
  }

  // ---------------------------------------------------------------------------
  // Model and item construction

  /** The settings of a new model: singleton off, drafts on, versioning off,
      timestamps on, each overridden by the input when it gives a value. */
  function MergedSettings(input: Option<ModelSettings>): (s: ModelSettings)
    ensures input.None? ==> s == ModelSettings(Some(false), Some(true), Some(false), Some(true), None)
    ensures input.Some? ==> s.slugField == input.value.slugField
    ensures input.Some? && input.value.singleton.Some? ==> s.singleton == input.value.singleton
    ensures input.Some? && input.value.singleton.None? ==> s.singleton == Some(false)
    ensures input.Some? && input.value.drafts.Some? ==> s.drafts == input.value.drafts
    ensures input.Some? && input.value.drafts.None? ==> s.drafts == Some(true)
    ensures input.Some? && input.value.versioning.Some? ==> s.versioning == input.value.versioning
    ensures input.Some? && input.value.versioning.None? ==> s.versioning == Some(false)
    ensures input.Some? && input.value.timestamps.Some? ==> s.timestamps == input.value.timestamps
    ensures input.Some? && input.value.timestamps.None? ==> s.timestamps == Some(true)
    ensures s.singleton.Some? && s.drafts.Some? && s.versioning.Some? && s.timestamps.Some?
  {
    match input
    case None => ModelSettings(Some(false), Some(true), Some(false), Some(true), None)
    case Some(given) =>
      ModelSettings(Some(given.singleton.GetOr(false)), Some(given.drafts.GetOr(true)),
                    Some(given.versioning.GetOr(false)), Some(given.timestamps.GetOr(true)),
                    given.slugField)
  }

  /** The item requests a slug when the model names a slug field and the
      item's value for it is truthy. */
  predicate SlugRequested(settings: ModelSettings, data: map<string, Value>) {
    Truthy(settings.slugField) && PresentAndTruthy(data, settings.slugField.value)
  }

  /** The text a requested slug is generated from, when it is a string. */
  function SlugText(settings: ModelSettings, data: map<string, Value>): (t: Option<string>)
    ensures t.Some? ==> SlugRequested(settings, data) && data[settings.slugField.value] == Str(t.value)
  {
    if SlugRequested(settings, data) && data[settings.slugField.value].Str? then Some(data[settings.slugField.value].s)
    else None
  }

  /** The partial row `updateContentModel` sends: the input and a fresh
      `updatedAt`. */
  function ModelRequest(input: UpdateModelInput, now: Timestamp): (u: ModelUpdates)
    ensures !ContentRunner.NoModelColumns(u)
  {
    ModelUpdates(input.name, input.displayName, input.description, input.fields, input.settings, Some(now))
  }

  /** The partial row `updateContentItem` sends: the input, a fresh
      `updatedAt`, the next version, and `publishedAt` only on a first
      publish. */
  function ItemRequest(item: ContentItem, input: UpdateItemInput, now: Timestamp): (u: ItemUpdates)
    ensures !ContentRunner.NoItemColumns(u)
    ensures u.version == Some(item.version + 1)
    ensures u.publishedAt.Some? <==> input.status == Some(Published) && !Truthy(item.publishedAt)
  {
    ItemUpdates(input.status, input.data,
                if input.status == Some(Published) && !Truthy(item.publishedAt) then Some(now) else None,
                None, Some(item.version + 1), Some(now))
  }

  /** An update moves `publishedAt` only from unset to now, on publishing;
      a set `publishedAt` is never changed. */
  lemma PublishedAtSetOnce(item: ContentItem, input: UpdateItemInput, now: Timestamp)
    requires ItemNormalised(item)
    ensures var after := ContentRunner.UpdatedItem(item, ItemRequest(item, input, now));
            && (item.publishedAt.Some? ==> after.publishedAt == item.publishedAt)
            && (item.publishedAt.None? ==> (after.publishedAt.Some? <==> input.status == Some(Published)))
            && (after.publishedAt.Some? && item.publishedAt.None? ==> after.publishedAt.value == now)
  {
  }

  /** The stored row after an update carries the next version (unless that
      is 0, which the runner does not write) and the new `updatedAt`; its
      identity, model, author and creation time do not move. */
  lemma ItemUpdateStamps(item: ContentItem, input: UpdateItemInput, now: Timestamp)
    ensures var after := ContentRunner.UpdatedItem(item, ItemRequest(item, input, now));
            && after.version == (if item.version + 1 != 0 then item.version + 1 else item.version)
            && after.updatedAt == now
            && after.id == item.id && after.modelId == item.modelId && after.modelSlug == item.modelSlug
            && after.authorId == item.authorId && after.createdAt == item.createdAt && after.slug == item.slug
  {
  }

  // ---------------------------------------------------------------------------
  // The unit

  class ContentUnit {
    const fx: ContentRunner.D1ContentRunner

    constructor (fx: ContentRunner.D1ContentRunner)
      ensures this.fx == fx
    {
      this.fx := fx;
    }

    // ------------------------------------------------------------- models

    /** `createContentModel`, with the fresh id and the clock as parameters. */
    method CreateContentModel(input: CreateModelInput, id: string, now: Timestamp) returns (r: Result<ContentModel>)
      requires fx.Valid()
      modifies fx
      ensures fx.Valid()
      ensures !FieldsAccepted(input.fields) ==> r.Err? && r.error.Validation? && unchanged(fx)
      ensures FieldsAccepted(input.fields) && old(fx.HasModelId(id)) ==> r == Err(ContentRunner.DuplicateKey) && unchanged(fx)
      ensures r.Ok? ==>
                && r.value.id == id && r.value.name == input.name
                && r.value.slug == Slugify(input.name)
                && r.value.displayName == (if Truthy(input.displayName) then input.displayName.value else input.name)
                && r.value.description == input.description && r.value.fields == input.fields
                && r.value.settings == MergedSettings(input.settings)
                && r.value.createdAt == now && r.value.updatedAt == now
                && fx.models == old(fx.models) + [ContentRunner.StoredModel(r.value)] && fx.items == old(fx.items)
      ensures FieldsAccepted(input.fields) && !old(fx.HasModelId(id)) ==> r.Ok?
    {
      var checked := ValidateFields(input.fields);
      if checked.Fail? {
        return Err(checked.error);
      }
      var slug := Slugify(input.name);
      var model := ContentModel(id, input.name, slug,
                                if Truthy(input.displayName) then input.displayName.value else input.name,
                                input.description, input.fields, MergedSettings(input.settings), now, now);
      var out := fx.CreateContentModel(model);
      if out.Fail? {
        return Err(out.error);
      }
      r := Ok(model);
    }

    function ListContentModels(): (r: seq<ContentModel>)
      reads fx
      ensures |r| == |fx.models|
      ensures forall i :: 0 <= i < |r| ==> r[i] == fx.models[|fx.models| - 1 - i]
    {
      fx.ListContentModels()
    }

    function GetContentModel(slug: string): (r: Result<ContentModel>)
      reads fx
      ensures r.Err? <==> forall i :: 0 <= i < |fx.models| ==> fx.models[i].slug != slug
      ensures r.Err? ==> r.error == NotFound(ModelNotFound)
      ensures r.Ok? ==> r.value in fx.models && r.value.slug == slug
    {
      match fx.FindContentModelBySlug(slug)
      case None => Err(NotFound(ModelNotFound))
      case Some(m) => Ok(m)
    }

    /** `updateContentModel`. The re-read after the update cannot miss: the
        update never removes a row, and the runner receives a non-empty SET
        clause because `updatedAt` is always sent. */
    method UpdateContentModel(slug: string, input: UpdateModelInput, now: Timestamp) returns (r: Result<ContentModel>)
      requires fx.Valid()
      modifies fx
      ensures fx.Valid()
      ensures old(fx.FindContentModelBySlug(slug)).None? ==> r == Err(NotFound(ModelNotFound)) && unchanged(fx)
      ensures old(fx.FindContentModelBySlug(slug)).Some? && input.fields.Some? && !FieldsAccepted(input.fields.value) ==>
                r.Err? && r.error.Validation? && unchanged(fx)
      ensures old(fx.FindContentModelBySlug(slug)).Some? && (input.fields.Some? ==> FieldsAccepted(input.fields.value)) ==>
                var m := old(fx.FindContentModelBySlug(slug)).value;
                && r == Ok(ContentRunner.UpdatedModel(m, ModelRequest(input, now)))
                && fx.models == MapWhere(old(fx.models), (x: ContentModel) => x.id == m.id,
                                         (x: ContentModel) => ContentRunner.UpdatedModel(x, ModelRequest(input, now)))
                && fx.items == old(fx.items)
      ensures r.Ok? ==> r.value.slug == slug && r.value.updatedAt == now
    {
      var found := fx.FindContentModelBySlug(slug);
      if found.None? {
        return Err(NotFound(ModelNotFound));
      }
      var model := found.value;
      if input.fields.Some? {
        var checked := ValidateFields(input.fields.value);
        if checked.Fail? {
          return Err(checked.error);
        }
      }
      var updated := ApplyModelUpdate(model, ModelRequest(input, now));
      r := Ok(updated);
    }

    /** `fx.updateContentModel(model.id, updates)` followed by
        `fx.findContentModelById(model.id)`, for a stored model and an
        update with a SET clause. */
    method ApplyModelUpdate(model: ContentModel, updates: ModelUpdates) returns (updated: ContentModel)
      requires fx.Valid() && model in fx.models && !ContentRunner.NoModelColumns(updates)
      modifies fx
      ensures fx.Valid()
      ensures updated == ContentRunner.UpdatedModel(model, updates)
      ensures fx.models == MapWhere(old(fx.models), (x: ContentModel) => x.id == model.id,
                                    (x: ContentModel) => ContentRunner.UpdatedModel(x, updates))
      ensures fx.items == old(fx.items)
    {
      ghost var before := fx.models;
      var out := fx.UpdateContentModel(model.id, updates);
      assert out == Pass;
      var found := fx.FindContentModelById(model.id);
      ghost var p :| 0 <= p < |before| && before[p] == model;
      assert fx.models[p] == ContentRunner.UpdatedModel(model, updates);
      assert fx.HasModelId(model.id);
      ghost var k :| 0 <= k < |fx.models| && fx.models[k] == found.value;
      assert k == p by {
        assert ModelIdOf(fx.models[k]) == ModelIdOf(fx.models[p]);
      }
      updated := found.value;
    }

    method DeleteContentModel(slug: string) returns (out: Outcome)
      requires fx.Valid()
      modifies fx
      ensures fx.Valid()
      ensures old(fx.FindContentModelBySlug(slug)).None? ==> out == Fail(NotFound(ModelNotFound)) && unchanged(fx)
      ensures old(fx.FindContentModelBySlug(slug)).Some? ==>
                var id := old(fx.FindContentModelBySlug(slug)).value.id;
                out == Pass && fx.models == Filter(old(fx.models), (m: ContentModel) => m.id != id) && fx.items == old(fx.items)
    {
      var found := fx.FindContentModelBySlug(slug);
      if found.None? {
        return Fail(NotFound(ModelNotFound));
      }
      fx.DeleteContentModel(found.value.id);
      out := Pass;
    }

    // -------------------------------------------------------------- items

    /** `createContentItem`, with the fresh id, the clock and the runtime
        coercions as parameters. Nothing is written unless every step
        before the insert succeeds. */
    method CreateContentItem(modelSlug: string, input: CreateItemInput, authorId: string, id: string, now: Timestamp, host: Host)
      returns (r: Result<ContentItem>)
      requires fx.Valid()
      modifies fx
      ensures fx.Valid()
      ensures r.Err? ==> unchanged(fx)
      ensures old(fx.FindContentModelBySlug(modelSlug)).None? ==> r == Err(NotFound(ModelSlugNotFound(modelSlug)))
      ensures old(fx.FindContentModelBySlug(modelSlug)).Some? ==>
                var m := old(fx.FindContentModelBySlug(modelSlug)).value;
                var errors := DataErrors(m.fields, input.data, host, ValueLength);
                && (errors != [] ==> r == Err(Validation(ValidationFailed(errors))))
                && (errors == [] ==> r.Ok? || r.error.Unexpected?)
                && (errors == [] && (SlugRequested(m.settings, input.data) ==> SlugText(m.settings, input.data).Some?)
                    && ProcessedData(m.fields, input.data, host).Ok? ==>
                      (r.Ok? <==> !old(fx.HasItemId(id))) && (r.Err? ==> r == Err(ContentRunner.DuplicateKey)))
                && (r.Ok? ==>
                      && r.value.id == id && r.value.modelId == m.id && r.value.modelSlug == modelSlug
                      && r.value.authorId == authorId
                      && ProcessedData(m.fields, input.data, host) == Ok(r.value.data)
                      && (r.value.slug.Some? <==> SlugRequested(m.settings, input.data))
                      && (r.value.slug.Some? ==>
                            && SlugText(m.settings, input.data).Some?
                            && IsFirstFree(r.value.slug.value, Slugify(SlugText(m.settings, input.data).value),
                                           old(TakenSlugs(fx.items, modelSlug)))))
      ensures r.Ok? ==>
                && r.value.version == 1
                && r.value.status == input.status.GetOr(Draft)
                && (r.value.publishedAt.Some? <==> input.status == Some(Published))
                && (r.value.publishedAt.Some? ==> r.value.publishedAt.value == now)
                && r.value.createdAt == now && r.value.updatedAt == now
                && fx.items == old(fx.items) + [ContentRunner.StoredItem(r.value)] && fx.models == old(fx.models)
    {
      var found := fx.FindContentModelBySlug(modelSlug);
      if found.None? {
        return Err(NotFound(ModelSlugNotFound(modelSlug)));
      }
      var model := found.value;
      var validation := fx.ValidateContentData(model, input.data, host);
      if !validation.valid {
        return Err(Validation(ValidationFailed(validation.errors)));
      }
      var slug: Option<string> := None;
      if SlugRequested(model.settings, input.data) {
        var text := input.data[model.settings.slugField.value];
        if !text.Str? {
          return Err(ToLowerMissing);
        }
        var s := fx.GenerateSlug(text.s, modelSlug);
        slug := Some(s);
      }
      var data := ProcessFieldData(model.fields, input.data, host);
      if data.Err? {
        ValidatedDataOnlyFailsUnexpectedly(model.fields, input.data, host, ValueLength);
        return Err(data.error);
      }
      var status := input.status.GetOr(Draft);
      var item := ContentItem(id, model.id, model.slug, slug, status,
                              if input.status == Some(Published) then Some(now) else None,
                              data.value, authorId, 1, now, now);
      var out := fx.CreateContentItem(item);
      if out.Fail? {
        return Err(out.error);
      }
      r := Ok(item);
    }

    function ListContentItems(modelSlug: string, filters: QueryFilters, host: Host): (r: ItemList)
      reads fx
      ensures forall i :: 0 <= i < |r.items| ==>
                r.items[i] in fx.items && ContentRunner.RowMatches(r.items[i], modelSlug, filters, host)
      ensures r.total == |ContentRunner.Matching(fx.items, modelSlug, filters, host)|
      ensures |r.items| <= r.total
      ensures r.limit == filters.limit && r.offset == filters.offset
      ensures r.items == fx.FindContentItemsByModel(modelSlug, filters, host).items
      ensures r.items == Window(Reverse(ContentRunner.Matching(fx.items, modelSlug, filters, host)), filters.limit, filters.offset)
    {
      var page := fx.FindContentItemsByModel(modelSlug, filters, host);
      ItemList(page.items, page.total, filters.limit, filters.offset)
    }

    /** `getContentItem`; the runner accepts the item's slug or its id. */
    function GetContentItem(modelSlug: string, slug: string): (r: Result<ContentItem>)
      reads fx
      ensures r.Err? <==> forall i :: 0 <= i < |fx.items| ==>
                !(fx.items[i].modelSlug == modelSlug && (fx.items[i].slug == Some(slug) || fx.items[i].id == slug))
      ensures r.Err? ==> r.error == NotFound(ItemNotFound)
      ensures r.Ok? ==> r.value in fx.items && r.value.modelSlug == modelSlug &&
                        (r.value.slug == Some(slug) || r.value.id == slug)
    {
      match fx.FindContentItemBySlug(modelSlug, slug)
      case None => Err(NotFound(ItemNotFound))
      case Some(x) => Ok(x)
    }

    /** `updateContentItem`. Data is validated only when the input carries
        data; the re-read after the update cannot miss. */
    method UpdateContentItem(modelSlug: string, slug: string, input: UpdateItemInput, now: Timestamp, host: Host)
      returns (r: Result<ContentItem>)
      requires fx.Valid()
      modifies fx
      ensures fx.Valid()
      ensures r.Err? ==> unchanged(fx)
      ensures old(fx.FindContentItemBySlug(modelSlug, slug)).None? ==> r == Err(NotFound(ItemNotFound))
      ensures old(fx.FindContentItemBySlug(modelSlug, slug)).Some? && input.data.Some? &&
              old(fx.FindContentModelById(fx.FindContentItemBySlug(modelSlug, slug).value.modelId)).None? ==>
                r == Err(NotFound(ModelNotFound))
      ensures old(fx.FindContentItemBySlug(modelSlug, slug)).Some? && input.data.Some? &&
              old(fx.FindContentModelById(fx.FindContentItemBySlug(modelSlug, slug).value.modelId)).Some? ==>
                var m := old(fx.FindContentModelById(fx.FindContentItemBySlug(modelSlug, slug).value.modelId)).value;
                var errors := DataErrors(m.fields, input.data.value, host, ValueLength);
                errors != [] ==> r == Err(Validation(ValidationFailed(errors)))
      ensures old(fx.FindContentItemBySlug(modelSlug, slug)).Some? &&
              (input.data.Some? ==>
                 old(fx.FindContentModelById(fx.FindContentItemBySlug(modelSlug, slug).value.modelId)).Some? &&
                 var m := old(fx.FindContentModelById(fx.FindContentItemBySlug(modelSlug, slug).value.modelId)).value;
                 DataErrors(m.fields, input.data.value, host, ValueLength) == []) ==>
                r.Ok?
      ensures r.Ok? ==>
                var x := old(fx.FindContentItemBySlug(modelSlug, slug)).value;
                && r == Ok(ContentRunner.UpdatedItem(x, ItemRequest(x, input, now)))
                && fx.items == MapWhere(old(fx.items), (y: ContentItem) => y.id == x.id,
                                        (y: ContentItem) => ContentRunner.UpdatedItem(y, ItemRequest(x, input, now)))
                && fx.models == old(fx.models)
    {
      var found := fx.FindContentItemBySlug(modelSlug, slug);
      if found.None? {
        return Err(NotFound(ItemNotFound));
      }
      var item := found.value;
      if input.data.Some? {
        var model := fx.FindContentModelById(item.modelId);
        if model.None? {
          return Err(NotFound(ModelNotFound));
        }
        var validation := fx.ValidateContentData(model.value, input.data.value, host);
        if !validation.valid {
          return Err(Validation(ValidationFailed(validation.errors)));
        }
      }
      var updated := ApplyItemUpdate(item, ItemRequest(item, input, now));
      r := Ok(updated);
    }

    /** `fx.updateContentItem(item.id, updates)` followed by
        `fx.findContentItemById(item.id)`, for a stored item and an update
        with a SET clause. */
    method ApplyItemUpdate(item: ContentItem, updates: ItemUpdates) returns (updated: ContentItem)
      requires fx.Valid() && item in fx.items && !ContentRunner.NoItemColumns(updates)
      modifies fx
      ensures fx.Valid()
      ensures updated == ContentRunner.UpdatedItem(item, updates)
      ensures fx.items == MapWhere(old(fx.items), (y: ContentItem) => y.id == item.id,
                                   (y: ContentItem) => ContentRunner.UpdatedItem(y, updates))
      ensures fx.models == old(fx.models)
    {
      ghost var before := fx.items;
      var out := fx.UpdateContentItem(item.id, updates);
      assert out == Pass;
      var found := fx.FindContentItemById(item.id);
      ghost var p :| 0 <= p < |before| && before[p] == item;
      assert fx.items[p] == ContentRunner.UpdatedItem(item, updates);
      assert fx.HasItemId(item.id);
      ghost var k :| 0 <= k < |fx.items| && fx.items[k] == found.value;
      assert k == p by {
        assert ItemIdOf(fx.items[k]) == ItemIdOf(fx.items[p]);
      }
      updated := found.value;
    }

    method DeleteContentItem(modelSlug: string, slug: string) returns (out: Outcome)
      requires fx.Valid()
      modifies fx
      ensures fx.Valid()
      ensures old(fx.FindContentItemBySlug(modelSlug, slug)).None? ==> out == Fail(NotFound(ItemNotFound)) && unchanged(fx)
      ensures old(fx.FindContentItemBySlug(modelSlug, slug)).Some? ==>
                var id := old(fx.FindContentItemBySlug(modelSlug, slug)).value.id;
                out == Pass && fx.items == Filter(old(fx.items), (x: ContentItem) => x.id != id) && fx.models == old(fx.models)
    {
      var found := fx.FindContentItemBySlug(modelSlug, slug);
      if found.None? {
        return Fail(NotFound(ItemNotFound));
      }
      fx.DeleteContentItem(found.value.id);
      out := Pass;
    }
  }
}
