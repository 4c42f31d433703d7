# akitsu content engine, API keys, features, route registry and responses, in Dafny

This project models the core of the akitsu headless CMS and proves properties of the model:

- **The content engine** (`ContentUnit`, module `Content`):
  - the field-definition check for content models;
  - item-data coercion to the declared field types;
  - the slug normaliser;
  - the create, read, update and delete steps for models and items.

  These run over the store the content routes build, `D1ContentRunner` (module `ContentRunner`).
- **The second store implementation**, `D1ContentRepository` (module `D1Content`). The places where the two stores differ are stated as separate contracts and compared in lemmas:
  - version increment;
  - lookup by slug or by id;
  - the search filter;
  - the length rule of data validation;
  - defaulting on insert.
- **The data-validation rules** both stores share (module `DataValidation`). Slug derivation and the collision probe (module `Slugs`). The store port's filters, page window and partial updates (module `ContentFx`).
- **`ApiKeyUnit`** (module `ApiKeys`):
  - issuing, listing, reading, updating and revoking keys for their owner;
  - verifying a presented key (unknown, then inactive, then expired);
  - the permission and calling-domain rules.
- **The feature table** and its dependency check (module `Features`).
- **The route registry** (module `Registry`): registration by name, the enabled routes as a filter followed by a stable sort by priority, and the start-up pass that sets every enabled route up.
- **The response envelopes** (module `Responses`), including the page count `Math.ceil(total / limit)`.

The stores are objects whose tables are `seq` fields. Each table is in insertion order with `id` as its primary key. Their methods change those fields; their queries are functions that read them. Each store's `Valid()` states two invariants, which every method keeps:

- ids are distinct;
- no column holds the empty string the adapter would have written as NULL.

A thrown error is an `Err`/`Fail` result carrying the error kind and its message. The following are parameters:

- the clock;
- `crypto.randomUUID`;
- the generated key and its hash;
- the opaque runtime coercions (`Number`, `new Date(...).toISOString()`, `JSON.parse`, the email regex, `new URL`, `LIKE`), gathered in the `Host` record.

Three behaviours of the code are worth stating up front:

- `createContentModel` derives the model slug with plain `slugify`, with no collision probe.
- `updateContentItem` validates new data but does not coerce it with `processFieldData`.
- `updateContentModel` never changes a model's slug.

## Model

| member | source | states |
|---|---|---|
| Slugs.SlugifyIsSlug | src/features/content/content.unit.ts:363-370 | every slugify result uses only `[a-z0-9-]`, with no leading or trailing hyphen and no two hyphens in a row |
| Slugs.Slugify | src/features/content/content.unit.ts:363-370 | no contract of its own; its properties are SlugifyIsSlug, SlugifyFixesSlugs and SlugifyIdempotent |
| Slugs.SlugifyFixesSlugs | src/features/content/content.unit.ts:363-370 | slugify leaves a string already in slug shape unchanged |
| Slugs.SlugifyIdempotent | src/features/content/content.unit.ts:363-370 | `slugify(slugify(x)) == slugify(x)` |
| Slugs.CollapseShape | src/features/content/content.unit.ts:367 | collapsing separator runs into one hyphen leaves slug characters and no doubled hyphen |
| Slugs.CandidateInjective | src/features/content/content.runner.ts:207-219 | the probed slugs `base`, `base-1`, `base-2`, ... are pairwise distinct |
| Slugs.OccupiedCandidatesBound | src/features/content/content.runner.ts:211-220 | n occupied candidates need at least n occupied slugs, so the probe loop ends |
| Slugs.SecondAllocationGetsSuffix | src/features/content/content.runner.ts:211-220 | when only `base` is taken, the first free candidate is `base-1` |
| ContentRunner.D1ContentRunner.GenerateSlug | src/features/content/content.runner.ts:199-223 | the result is the first free candidate after the slugified text, and no item of the model holds it |
| ContentRunner.D1ContentRunner.FirstFreeSlug | src/features/content/content.runner.ts:207-222 | the probe loop returns the least free candidate (loop invariant: every earlier candidate is taken) |
| DataValidation.CheckField | src/features/content/content.runner.ts:229-262 | the loop body yields exactly the field's errors: the required check short-circuits, then the type check, then min and max |
| DataValidation.CheckType | src/features/content/content.runner.ts:240-254 | at most one error: none for types other than email, url and number; for those, no error iff the host check accepts the value, otherwise exactly that type's message |
| ContentRunner.D1ContentRunner.ValidateContentData | src/features/content/content.runner.ts:225-266 | the errors are every field's errors in declaration order, measured with `value.length`, and `valid` holds iff there are none |
| D1Content.D1ContentRepository.ValidateContentData | src/infra/content/d1-content.ts:275-313 | the same aggregation, with lengths measured on `value.toString()`, and `valid` iff no error |
| DataValidation.DataErrorsAppend | src/features/content/content.runner.ts:228-263 | errors are collected field by field without stopping: the errors of a concatenation are the concatenated errors |
| DataValidation.DataErrorsEmptyIff | src/features/content/content.runner.ts:265 | the data is valid iff no field contributes an error |
| DataValidation.RequiredBlankGivesOneError | src/features/content/content.runner.ts:232-235 | a required field whose value is undefined, null or `''` gets exactly the one "is required" error |
| DataValidation.MissingOptionalGivesNoError | src/features/content/content.runner.ts:237 | an absent or null optional value yields no error |
| DataValidation.RequiredBlankReported | src/features/content/content.runner.ts:228-235 | a blank required field's message appears among the errors of any list containing it |
| DataValidation.ZeroBoundsIgnored | src/features/content/content.runner.ts:257-262 | a min or max of 0 is falsy and never applied |
| DataValidation.RulesAgreeOnStrings | src/infra/content/d1-content.ts:304-309 | on string data the runner's and the repository's length rules give the same errors |
| DataValidation.RulesDifferOnNumbers | src/infra/content/d1-content.ts:304-309 | for a `min: 6` text field holding the number 12345, the runner reports nothing and the repository reports the min error |
| ContentTypes.Utf16Length | src/features/content/content.runner.ts:257-262 | a string's `length` in UTF-16 code units: at least its character count and at most twice it |
| ContentTypes.BmpLengthIsCharCount | src/features/content/content.runner.ts:257-262 | a string inside the Basic Multilingual Plane has as many code units as characters |
| ContentTypes.AstralCharCountsTwice | src/features/content/content.runner.ts:257-262 | one emoji is one character and two code units |
| DataValidation.AstralCharExceedsMaxOne | src/infra/content/d1-content.ts:304-309 | under both stores' rules, a `max: 1` text field holding one emoji gets the "at most 1 characters" error |
| ContentFx.Window | src/features/content/content.runner.ts:138-146 | limit and offset apply only for a truthy limit; the window is the run of rows after the skipped ones |
| ContentFx.ApplySharedColumns | src/features/content/content.runner.ts:179-182 | status and data change only when given, published_at and slug whenever given; identity, author and creation time never change |
| ContentFx.ApplyModelColumns | src/features/content/content.runner.ts:57-73 | only the given columns change; id, slug and creation time never do |
| ContentFx.TakenSlugs | src/features/content/content.runner.ts:212-214 | a slug is occupied in a model's namespace iff some item of that model holds it |
| ContentRunner.ItemsPage | src/features/content/content.runner.ts:121-173 | every listed row is of the model, the status and the search when given; `total` counts every such row; the page is no longer than the total |
| ContentRunner.TotalIgnoresWindow | src/features/content/content.runner.ts:150-166 | `total` does not depend on limit or offset |
| ContentRunner.OffsetNeedsLimit | src/features/content/content.runner.ts:138-146 | an offset without a limit has no effect |
| ContentRunner.UnlimitedPageIsNewestFirst | src/features/content/content.runner.ts:136 | without a limit, the page is every matching row, newest first |
| ContentRunner.D1ContentRunner.CreateContentModel | src/features/content/content.runner.ts:9-25 | inserts the model with its description normalised; a duplicate id fails and writes nothing |
| ContentRunner.D1ContentRunner.FindContentModelBySlug | src/features/content/content.runner.ts:27-35 | finds nothing iff no model has the slug; otherwise a stored model with that slug |
| ContentRunner.D1ContentRunner.FindContentModelById | src/features/content/content.runner.ts:37-45 | finds nothing iff no model has the id |
| ContentRunner.D1ContentRunner.ListContentModels | src/features/content/content.runner.ts:47-55 | all models, newest first |
| ContentRunner.D1ContentRunner.UpdateContentModel | src/features/content/content.runner.ts:57-73 | the row of that id gets the given columns; an update with no column fails, since the SQL has an empty SET clause |
| ContentRunner.D1ContentRunner.DeleteContentModel | src/features/content/content.runner.ts:75-77 | removes exactly the rows of that id |
| ContentRunner.D1ContentRunner.CreateContentItem | src/features/content/content.runner.ts:81-98 | inserts the item with empty slug and publishedAt stored as NULL; a duplicate id fails and writes nothing |
| ContentRunner.D1ContentRunner.FindContentItemBySlug | src/features/content/content.runner.ts:100-109 | finds an item of the model whose slug or id is the key, and nothing iff none exists |
| ContentRunner.D1ContentRunner.FindContentItemById | src/features/content/content.runner.ts:111-119 | finds nothing iff no item has the id |
| ContentRunner.D1ContentRunner.FindContentItemsByModel | src/features/content/content.runner.ts:121-173 | every listed row is stored and matches model, status and search; `total` counts all matching rows; without a truthy limit the page is every match, newest first |
| ContentRunner.D1ContentRunner.UpdateContentItem | src/features/content/content.runner.ts:175-191 | only the row of that id changes, and only in the given columns; the version is the caller's value; an update with no column fails |
| ContentRunner.D1ContentRunner.DeleteContentItem | src/features/content/content.runner.ts:193-195 | removes exactly the rows of that id |
| D1Content.ItemsPage | src/infra/content/d1-content.ts:177-226 | the listing filters by model and status only; `total` counts every matching row |
| D1Content.ListingIgnoresSearch | src/infra/content/d1-content.ts:177-226 | the repository's listing is the runner's listing with the search term dropped |
| D1Content.UpdatedItem | src/infra/content/d1-content.ts:238 | the stored version is the old one plus 1 and `updated_at` is now, whatever the update carries |
| D1Content.UpdatedModel | src/infra/content/d1-content.ts:88-105 | `updated_at` is always now |
| D1Content.AdaptersAgreeOnIncrement | src/infra/content/d1-content.ts:228-244 | for an update carrying a timestamp, the two stores write the same row iff the caller asked for exactly old version + 1 at the repository's clock |
| D1Content.StoredModel | src/infra/content/d1-content.ts:7-26 | a new model gets the given id or a fresh one, and both timestamps are now, whatever was given |
| D1Content.StoredItem | src/infra/content/d1-content.ts:111-131 | a new item gets version 1 when the given one is 0, and now for each empty timestamp |
| D1Content.D1ContentRepository.CreateContentModel | src/infra/content/d1-content.ts:7-26 | inserts the defaulted model; a duplicate id fails and writes nothing |
| D1Content.D1ContentRepository.CreateContentItem | src/infra/content/d1-content.ts:111-131 | inserts the defaulted item; a duplicate id fails and writes nothing |
| D1Content.D1ContentRepository.FindContentItemBySlug | src/infra/content/d1-content.ts:133-153 | matches on model and slug only, never on the id |
| D1Content.D1ContentRepository.FindContentModelBySlug | src/infra/content/d1-content.ts:28-46 | finds nothing iff no model has the slug; otherwise a stored model with that slug |
| D1Content.D1ContentRepository.FindContentModelById | src/infra/content/d1-content.ts:48-66 | finds nothing iff no model has the id |
| D1Content.D1ContentRepository.FindContentItemById | src/infra/content/d1-content.ts:155-175 | finds nothing iff no item has the id |
| D1Content.D1ContentRepository.FindContentItemsByModel | src/infra/content/d1-content.ts:177-226 | every listed row is stored and matches model and status; `total` counts all matching rows |
| D1Content.LookupByIdOnlyInRunner | src/infra/content/d1-content.ts:133-153 | a key that is an item's id and no item's slug finds the item in the runner and nothing in the repository |
| D1Content.D1ContentRepository.UpdateContentItem | src/infra/content/d1-content.ts:228-244 | only the row of that id changes: the given columns, a version increment and now |
| D1Content.D1ContentRepository.UpdateContentModel | src/infra/content/d1-content.ts:88-105 | only the row of that id changes, with `updated_at = now` |
| D1Content.D1ContentRepository.DeleteContentModel | src/infra/content/d1-content.ts:107-109 | removes exactly the rows of that id |
| D1Content.D1ContentRepository.DeleteContentItem | src/infra/content/d1-content.ts:246-248 | removes exactly the rows of that id |
| D1Content.D1ContentRepository.GenerateSlug | src/infra/content/d1-content.ts:250-273 | the least free member of `base, base-1, base-2, ...` among the model's item slugs |
| D1Content.D1ContentRepository.FirstFreeSlug | src/infra/content/d1-content.ts:258-272 | the probe loop returns the least free candidate (loop invariant: every earlier candidate is taken) |
| D1Content.D1ContentRepository.ListContentModels | src/infra/content/d1-content.ts:68-86 | all models, newest first |
| Content.ValidateFields | src/features/content/content.unit.ts:304-322 | passes iff every field is clear of problems given the names before it; a failure reports the first problem in list order (duplicate name, reference without target, select without options) |
| Content.FieldsAcceptedIff | src/features/content/content.unit.ts:304-322 | a list is accepted iff names are distinct, every reference field names its target, and every select field has options |
| Content.DuplicateRejected | src/features/content/content.unit.ts:307-310 | any repeated name makes the list rejected |
| Content.ProcessFieldValue | src/features/content/content.unit.ts:345-361 | the identity for every type except slug, date, datetime, number, boolean and json; a slug value succeeds iff it is a string; json keeps a non-string as is; only runtime exceptions fail |
| Content.SlugCoercion | src/features/content/content.unit.ts:347-348 | a string slug value becomes its slugify image |
| Content.SlugValueIsSlug | src/features/content/content.unit.ts:347-348 | a coerced slug value is in slug shape |
| Content.SlugCoercionIdempotent | src/features/content/content.unit.ts:347-348 | coercing a coerced slug again changes nothing |
| Content.BooleanCoercionIdempotent | src/features/content/content.unit.ts:355-356 | coercing a coerced boolean again changes nothing |
| Content.ProcessFieldData | src/features/content/content.unit.ts:324-343 | the loop computes the field-by-field record, stopping at the first failure (loop invariant ties the rest of the loop to the whole) |
| Content.ProcessedKeys | src/features/content/content.unit.ts:327-340 | the record's keys are the accumulated keys plus exactly the field names |
| Content.DataKeysAreFieldNames | src/features/content/content.unit.ts:324-343 | the processed record's keys are exactly the model's field names |
| Content.ProcessedValue | src/features/content/content.unit.ts:327-340 | the record holds under a field's name what that field contributed, when no later field redeclares it |
| Content.DefaultApplied | src/features/content/content.unit.ts:330-335 | with distinct names, an absent or null optional value becomes the field's default, or null without one |
| Content.MissingRequiredFails | src/features/content/content.unit.ts:330-333 | an absent or null required value makes the coercion fail |
| Content.ValidatedDataOnlyFailsUnexpectedly | src/features/content/content.unit.ts:152-170 | after validation has passed, coercion can fail only with a runtime exception |
| Content.MergedSettings | src/features/content/content.unit.ts:33-39 | the defaults are singleton off, drafts on, versioning off and timestamps on; each given setting overrides its default |
| Content.SlugText | src/features/content/content.unit.ts:159-160 | a slug text exists only when the model names a slug field and the item's value for it is a truthy string |
| Content.ModelRequest | src/features/content/content.unit.ts:95-131 | the model update always carries a column, so the SET clause is never empty |
| Content.ItemRequest | src/features/content/content.unit.ts:259-268 | the item update requests version old + 1, and carries publishedAt iff the new status is published and none is set yet |
| Content.PublishedAtSetOnce | src/features/content/content.unit.ts:265-268 | an update never changes a set publishedAt, and sets an unset one to now iff it publishes |
| Content.ItemUpdateStamps | src/features/content/content.unit.ts:259-270 | after an update the row has the next version and the new updatedAt; its identity, model, author, creation time and slug stay |
| Content.ContentUnit.CreateContentModel | src/features/content/content.unit.ts:19-57 | a rejected field list fails and writes nothing; otherwise the model is stored with the slugified name, `displayName` defaulting to the name, merged settings and both timestamps now |
| Content.ContentUnit.ListContentModels | src/features/content/content.unit.ts:59-73 | every model, newest first |
| Content.ContentUnit.GetContentModel | src/features/content/content.unit.ts:75-93 | fails with "Content model not found" iff no model has the slug |
| Content.ContentUnit.UpdateContentModel | src/features/content/content.unit.ts:95-131 | an unknown slug or rejected fields fail and write nothing; otherwise the model row gets the given columns and updatedAt now, and the result is that new row |
| Content.ContentUnit.ApplyModelUpdate | src/features/content/content.unit.ts:120-126 | the re-read after the update finds exactly the updated row |
| Content.ContentUnit.DeleteContentModel | src/features/content/content.unit.ts:133-141 | an unknown slug fails and writes nothing; otherwise the model's rows are removed |
| Content.ContentUnit.CreateContentItem | src/features/content/content.unit.ts:145-192 | unknown model gives NotFound and invalid data gives ValidationError, both writing nothing; with valid data, a string slug value when a slug is requested and coercion that does not throw, it succeeds iff the id is new, failing otherwise with the insert's duplicate-key error; a created item has version 1, status input-or-draft, publishedAt iff published, createdAt = updatedAt = now, the coerced data, and a slug iff one was requested, that slug being the first free one |
| Content.ContentUnit.ListContentItems | src/features/content/content.unit.ts:194-216 | the items are exactly the store's page: the matching rows newest first, windowed by limit and offset; every listed item matches; the total counts all matches; limit and offset are echoed |
| Content.ContentUnit.GetContentItem | src/features/content/content.unit.ts:218-237 | fails with "Content item not found" iff no item of the model has the slug or id; a found item belongs to the model and has that slug or that id |
| Content.ContentUnit.UpdateContentItem | src/features/content/content.unit.ts:239-290 | a missing item, a missing model or invalid data fail and write nothing; data is checked only when given; a found item with no data, or with data valid for its model, always updates; the row becomes the runner's update with version old + 1 and publishedAt set only on first publish |
| Content.ContentUnit.ApplyItemUpdate | src/features/content/content.unit.ts:270-276 | the re-read after the update finds exactly the updated row |
| Content.ContentUnit.DeleteContentItem | src/features/content/content.unit.ts:292-300 | a missing item fails and writes nothing; otherwise its row is removed |
| ApiKeys.CheckPermission | src/features/apikey/apikey.unit.ts:162-164 | no contract of its own; its properties are AdminGrantsAll and PermissionMonotone |
| ApiKeys.AdminGrantsAll | src/features/apikey/apikey.unit.ts:162-164 | an admin key passes every permission check |
| ApiKeys.PermissionMonotone | src/features/apikey/apikey.unit.ts:162-164 | adding permissions never removes a granted one |
| ApiKeys.WildcardBase | src/features/apikey/apikey.unit.ts:172-174 | an entry is a wildcard iff it starts with `*.`, and then it is `*.` followed by its base |
| ApiKeys.CheckDomain | src/features/apikey/apikey.unit.ts:166-179 | no contract of its own; its properties are NoDomainsAcceptsAll, ExactEntriesOnly, LookalikeDomainAccepted and StrictIsNarrower |
| ApiKeys.NoDomainsAcceptsAll | src/features/apikey/apikey.unit.ts:167-169 | a key without a domain list accepts every domain |
| ApiKeys.ExactEntriesOnly | src/features/apikey/apikey.unit.ts:171-178 | without wildcard entries, a domain is accepted iff it is listed |
| ApiKeys.LookalikeDomainAccepted | src/features/apikey/apikey.unit.ts:171-178 | as written, `*.example.com` accepts `evilexample.com`; the intended rule rejects it |
| ApiKeys.StrictIsNarrower | src/features/apikey/apikey.unit.ts:171-178 | the intended rule accepts nothing the written one rejects |
| ApiKeys.StrictMatchesAtLabel | src/features/apikey/apikey.unit.ts:171-178 | under the intended rule, a wildcard match is the base itself or ends in `.` + base |
| ApiKeys.ApplyKeyUpdate | src/features/apikey/apikey.unit.ts:99-110 | only the given fields change; id, hash, owner, creation and last use stay; updatedAt is now |
| ApiKeys.ApiKeyStore.CreateApiKey | src/features/apikey/apikey.unit.ts:30 | inserts the key; a duplicate id fails and writes nothing |
| ApiKeys.ApiKeyStore.FindApiKeyById | src/features/apikey/apikey.unit.ts:66 | finds nothing iff no key has the id |
| ApiKeys.ApiKeyStore.FindApiKeyByHash | src/features/apikey/apikey.unit.ts:141-142 | finds nothing iff no key has the hash |
| ApiKeys.ApiKeyStore.FindApiKeysByUserId | src/infra/apikey/d1-apikey.ts:63-66 | exactly the stored keys of that owner, newest first: every result is stored and owned, every owned key is in the result, and the result reversed is the owner's keys in insertion order |
| ApiKeys.NewestKeyListedFirst | src/infra/apikey/d1-apikey.ts:63-66 | a key just created heads its owner's listing, followed by the owner's earlier keys in the same order as before |
| ApiKeys.ApiKeyStore.UpdateApiKey | src/features/apikey/apikey.unit.ts:100-112 | only the key of that id changes |
| ApiKeys.ApiKeyStore.DeleteApiKey | src/features/apikey/apikey.unit.ts:136 | removes exactly the key of that id |
| ApiKeys.ApiKeyStore.UpdateLastUsed | src/features/apikey/apikey.unit.ts:156 | only the key of that id gets its last use set to now |
| ApiKeys.UpdatedKeyFound | src/features/apikey/apikey.unit.ts:111-115 | with distinct ids, the re-read after an update finds exactly the updated key |
| ApiKeys.ApiKeyUnit.CreateApiKey | src/features/apikey/apikey.unit.ts:9-47 | a new key is active, never used, with domains defaulting to `[]`, no expiry unless given, both timestamps now; the stored record is appended to the key store, and the response is the stored record with the plain key in place of the hash |
| ApiKeys.Created | src/features/apikey/apikey.unit.ts:33-46 | the creation response copies every stored field except the hash and carries the plain key |
| ApiKeys.CreatedOmitsHash | src/features/apikey/apikey.unit.ts:33-46 | the creation response does not depend on the stored hash |
| ApiKeys.ApiKeyUnit.ListApiKeys | src/features/apikey/apikey.unit.ts:49-63 | one view per key of the store's listing, position by position, so newest first and without repeats; every view is of a key the caller owns, and every such key has its view listed |
| ApiKeys.ApiKeyUnit.OwnedKey | src/features/apikey/apikey.unit.ts:66-74 | NotFound iff no key has the id; Access denied iff the key belongs to someone else |
| ApiKeys.ApiKeyUnit.OwnedKeyDenies | src/features/apikey/apikey.unit.ts:66-74 | with distinct ids, the guard passes iff the stored key of that id is the caller's |
| ApiKeys.ApiKeyUnit.GetApiKey | src/features/apikey/apikey.unit.ts:65-87 | fails exactly as the owner guard does; otherwise it returns the view of the caller's key |
| ApiKeys.ApiKeyUnit.UpdateApiKey | src/features/apikey/apikey.unit.ts:89-124 | a failed owner guard fails and writes nothing; otherwise only that key is updated and the view of the updated key is returned |
| ApiKeys.ApiKeyUnit.DeleteApiKey | src/features/apikey/apikey.unit.ts:126-138 | a failed owner guard fails and writes nothing; otherwise that key is removed |
| ApiKeys.ApiKeyUnit.VerifyApiKey | src/features/apikey/apikey.unit.ts:140-160 | checks unknown, then inactive, then expired, each an AuthenticationError that writes nothing; only a passing key has its last use recorded |
| Features.EnabledFeatures | src/composition/features.ts:41-45 | a name is listed iff some entry of that name is enabled |
| Features.EnabledFeaturesSingleton | src/composition/features.ts:41-45 | a one-entry table lists its name iff the entry is enabled |
| Features.EnabledFeaturesAppend | src/composition/features.ts:41-45 | listing keeps table order: the listing of a concatenation is the concatenation of the listings |
| Features.ValidateFeatureDependencies | src/composition/features.ts:47-60 | passes iff every enabled feature's dependencies are enabled; a failure names the first enabled feature with a missing dependency and its first missing one |
| Features.DisabledDependenciesIgnored | src/composition/features.ts:50-52 | changing a disabled feature's dependencies does not change the outcome |
| Features.EnabledUnchanged | src/composition/features.ts:41-45 | tables with the same names and switches enable the same features |
| Features.ShippedTableIsConsistent | src/composition/features.ts:14-39 | the shipped table enables auth, apikey, content and media, excludes analytics and passes the dependency check |
| Registry.EffectivePriority | src/io/api/registry.ts:29 | a missing priority or priority 0 counts as 100; any other priority counts as itself |
| Registry.EnabledModules | src/io/api/registry.ts:28 | a module is kept iff it has no feature or its feature is enabled |
| Registry.SortIsSorted | src/io/api/registry.ts:29 | the sort orders by its key, lowest first |
| Registry.SortBy | src/io/api/registry.ts:29 | the sort is a permutation of its input |
| Registry.SortIsStable | src/io/api/registry.ts:27-29 | modules with equal keys keep their registration order |
| Registry.DocumentationSortsAsHundred | src/io/api/routes/documentation.routes.ts:43 | the documentation module's priority 0 sorts as 100, after a module of priority 10 |
| Registry.NullishPriority | src/io/api/routes/documentation.routes.ts:43 | the intended rule `priority ?? 100`: a given priority, 0 included, counts as itself |
| Registry.NullishSortPutsDocumentationFirst | src/io/api/routes/documentation.routes.ts:43 | under the intended rule, the documentation module sorts first among modules of positive priority |
| Registry.RouteRegistry.Register | src/io/api/registry.ts:16-18 | an existing name keeps its position and gets the new module; a new name is appended; names stay distinct |
| Registry.RouteRegistry.GetEnabledRoutes | src/io/api/registry.ts:24-30 | exactly the enabled modules, sorted by effective priority (`priority \|\| 100`), stable, as a permutation of the filtered list |
| Registry.SetupRegisteredRoutes | src/io/api/registry.ts:37-47 | `setup` is called on every enabled module in sorted order; a failing setup does not stop later ones |
| Responses.MessageOr | src/shared/utils/response.ts:7 | `message || fallback`: the message when truthy, else the fallback |
| Responses.SuccessResponse | src/shared/utils/response.ts:3-9 | success, the data echoed, no error, and a message defaulting to 'Operation successful' |
| Responses.ErrorResponse | src/shared/utils/response.ts:11-17 | not success; error and message are both the given string or the error's message |
| Responses.StatusCodeIgnored | src/shared/utils/response.ts:11 | the status code does not affect the envelope |
| Responses.CeilDiv | src/shared/utils/response.ts:34 | the ceiling of a quotient: `b(r-1) < a <= br` for positive b, mirrored for negative b |
| Responses.TotalPages | src/shared/utils/response.ts:34 | finite iff the limit is non-zero; for a positive limit it is the ceiling of total/limit; a zero limit gives Infinity, NaN or -Infinity by the sign of the total |
| Responses.TotalPagesIsLeast | src/shared/utils/response.ts:34 | for a positive limit, the page count is the least number of pages that hold the total |
| Responses.PageCountBounds | src/shared/utils/response.ts:34 | no items make no pages; a positive total makes at least one |
| Responses.PaginatedResponseOf | src/shared/utils/response.ts:19-37 | page, limit and total echoed, totalPages as above, message defaulting to 'Data retrieved successfully' |

## Left out

- HTTP routing, request schemas and the API-key middleware. Error-to-status mapping, and JSON serialisation and parsing of data and fields, are left out too.
- Authentication and the SQL key store (`d1-apikey.ts`). The key store is a table in which the given columns of an update replace the stored ones. Two of its details are not part of this model: the extra `is_active = 1` filter of the lookup by hash, and bcrypt's salted hashing, under which a lookup by hash could not match at all. With that filter, the "API key is deactivated" branch of `verifyApiKey` (`src/features/apikey/apikey.unit.ts:148-150`) cannot fire against the shipped store: an inactive key is not found and gets "Invalid API key". The model's store returns inactive keys too, so it keeps that branch.
- Floating point. Numbers are integers. `Number(...)`, `isNaN`, `new Date(...).toISOString()`, `JSON.parse`, the email regex, `new URL` and `LIKE` are opaque host functions passed as parameters. Fractional totals, limits and page counts are not modelled, nor is -0.
- Dates are abstract instants. Expiry is an integer comparison. An `expiresAt` of `""` stored as null (`|| null`) is not modelled.
- Content.ProcessFieldValue: does not compute the date, number and JSON conversions themselves, because those belong to the host.
- Slugs.Slugify: lower-cases ASCII letters only. The Unicode case mapping of `toLowerCase` is not modelled. Non-ASCII characters are then removed by the `[^\w\s-]` step. The model differs from the source for non-ASCII letters whose lower case is ASCII: U+212A KELVIN SIGN becomes "k" and U+0130 becomes "i" followed by U+0307 (whose "i" survives), so the source keeps a letter where the model drops it.
- Object values whose `length` member is not a number are measured as having no length.
- `sortBy`/`sortOrder` in listings is left out. The default `ORDER BY created_at DESC` of the content tables and of the key table is taken as reverse insertion order.
- Cascading deletes of a model's items are left out, as are the foreign keys.
- Concurrency is left out: the parallel query and count, and the race between the slug probe and the insert. Calls are sequential.
- `updateContentItem` reads the clock twice. The model uses one `now` for both reads.
- ApiKeys.ApiKeyUnit.VerifyApiKey: reads the clock twice, once in the expiry test (`src/features/apikey/apikey.unit.ts:152`) and once for `last_used_at` (`src/infra/apikey/d1-apikey.ts:137`). The model uses one `now` for both.
- The unit is modelled over `D1ContentRunner`, the store the routes use. `D1ContentRepository` is modelled as its own class and compared with it in lemmas.
- Some source error branches are proved unreachable in the model and not modelled as results:
  - the "Failed to retrieve updated ..." branches after an update;
  - the runner's empty-SET failure when the unit updates;
  - the coercer's own required-field error after validation has passed.
- Route module `setup` functions are opaque: a parameter reports whether each one threw. The enabled-feature list is a parameter of `GetEnabledRoutes` instead of a global.
- `registerRouteModule` and `getRoutes` are one-line delegations to `Register` and the `routes` field, so they have no members of their own.

## Findings

| source | as written | input that shows it | evidently intended | confidence | as-written member | corrected member |
|---|---|---|---|---|---|---|
| src/features/apikey/apikey.unit.ts:171-178 | a `*.base` entry accepts any domain that ends with `base`, with no label boundary | key domains `["*.example.com"]`, domain `evilexample.com` is accepted | accept `base` and its subdomains only: the domain equals `base` or ends with `.base` | not executed; the request schema's URL check may keep wildcard entries from being stored | ApiKeys.LookalikeDomainAccepted | ApiKeys.CheckDomainStrict |
| src/io/api/routes/documentation.routes.ts:43 | priority 0, commented as the highest priority, is falsy, so `a.priority \|\| 100` at src/io/api/registry.ts:29 orders it as 100 | documentation with priority 0 and another module with priority 10: documentation is set up second | `a.priority ?? 100`, under which documentation is set up first | not executed | Registry.DocumentationSortsAsHundred | Registry.NullishSortPutsDocumentationFirst |

The corrected rule `CheckDomainStrict` is proved narrower than the written one (`StrictIsNarrower`). A wildcard match under it lies at a label boundary (`StrictMatchesAtLabel`). The API-key unit still exposes the rule as written, `CheckDomain`, since that is what the source computes. Likewise the registry keeps the written `|| 100` rule; the intended `?? 100` rule, `NullishPriority`, is proved to put the documentation module first among modules of positive priority.
