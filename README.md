# tide_api core, modelled in Dafny

This project models the decision and reshaping logic of the Drupal
`tide_api` modules, and proves what that logic promises. Every framework call
is a parameter standing for an arbitrary answer: the search index helper,
hooks, the event dispatcher, `json_encode`/`json_decode`, sha256, date
formatting, the link enhancer, access checks, the alias manager and the
redirect repository.

- **PHP values** (`php_values.dfy`, `php_strings.dfy`). PHP arrays are ordered
  lists of key/value entries (`PhpValues.Value`). The module defines path
  reads and writes, `unset`, `[]` appends, `+` on arrays, `??`, `empty()` and
  `isset()`. The string functions the code uses are `strpos`, `substr`,
  `str_replace`, `explode`, `implode` and `is_numeric`.
- **Configuration builder** (`config_builder.dfy`, `config_properties.dfy`).
  `massageFormValues` of the content-collection widget turns each submitted
  item and the widget settings into the JSON configuration. The methods
  follow the source's loops. They are proved equal to a staged
  specification: texts, content types, topic and tags, advanced filters,
  reference-field defaults, date filter, display and sort. The lemmas in
  `ConfigProperties` state what ends up at each path of the configuration.
- **Widget rules** (`content_collection_widget.dfy`, `enhanced_widget.dfy`,
  `search_index.dfy`). These cover:
  - the Form States name builder;
  - the allowed content-type options;
  - the date-field defaults and the sort options;
  - the index errors;
  - the settings-form and extra-filter blocks of the base widget;
  - the defaults, settings summary, `formElement` decisions and
    `validateJson` of the enhanced widget;
  - `getIndex` with its cache field (the class `SearchIndex.IndexedWidget`),
    and the operator select. Both widgets share the same `getIndex` and
    operator select, so each is modelled once.
- **Route resolver** (`route_resolver.dfy`, `redirect_urls.dfy`).
  `TideApiController::getRoute` maps the query, the route cache and the
  services to an HTTP code, a JSON:API document and the new cache.
  `RedirectUrls` classifies a redirect target as internal, external-site or
  external, and rewrites it. It does so twice: `ClassifyAsWritten` follows
  the code's string arithmetic as written, and `Classify` is a corrected
  reading. The resolver (`Route`, `GetRoute`) uses the corrected reading;
  the rows under "## Findings" list the targets on which the two differ.
- **Configuration field enhancer** (`config_enhancer.dfy`). The way out
  (`doUndoTransform`) and the way in (`doTransform`) of the
  content-collection configuration. Properties cover the default
  configuration and the settings-form choice.
- **Share Link Token settings** (`share_link.dfy`). The role filter of
  `buildForm`, its default selection, and `submitForm` on the class
  `ShareLink.ShareLinkSettings`, which models the editable configuration.

Conventions:
- The request's `site` is a string, "" when it is absent.
- URLs are identified by their URI strings.
- The route cache is a map from cache id to the cached document, URI and tags.

The model keeps these behaviours of the code as they are:
- The base widget's call-to-action guard reads a literal array, so the call
  to action is never built (`ContentCollectionWidget.BaseCallToActionNeverBuilt`).
- The `field_tags` settings block is guarded by the topic check
  (`ContentCollectionWidget.TagsBlockFollowsTopic`).
- The entity-reference skip among the extra filters reads an undefined
  variable, so it skips nothing (`ContentCollectionWidget.ExtraWrappersCover`).
- After an accepting GET_ROUTE event, the controller reads
  `data.entity_id`, which the alias stage never sets
  (`RouteResolver.AliasStageLacksEntityId`).
- The JSON text `null` decodes to NULL, so `validateJson` reports it as
  invalid JSON.
- Without the site helper, a redirect's `type` is an undefined variable and
  reads as NULL.

The redirect classification is the exception: the resolver's redirect
answers follow `RedirectUrls.Classify`, the corrected reading, and not the
code as written (see "## Findings").

## Model

| member | source | states |
|---|---|---|
| ConfigBuilder.AppendTargetIds | modules/tide_content_collection/src/Plugin/Field/FieldWidget/ContentCollectionConfigurationWidget.php:1004-1008 | The loop that appends `(int) target_id` for each reference with a non-empty target computes `AppendTargets`: one append per such reference, in order. |
| ConfigBuilder.NextIndexOfList | modules/tide_content_collection/src/Plugin/Field/FieldWidget/ContentCollectionConfigurationWidget.php:1006 | `[]` on a list of n values writes at position n. |
| ConfigBuilder.NextIndexOfRun | modules/tide_content_collection/src/Plugin/Field/FieldWidget/ContentCollectionConfigurationWidget.php:1006 | `[]` on entries keyed by consecutive integers from `from` writes at `from` plus their number, or at 0 when there are none. |
| ConfigBuilder.AppendList | modules/tide_content_collection/src/Plugin/Field/FieldWidget/ContentCollectionConfigurationWidget.php:1006 | Appending to a list gives the list with the new value added at the end. |
| ConfigBuilder.TargetIdsCons | modules/tide_content_collection/src/Plugin/Field/FieldWidget/ContentCollectionConfigurationWidget.php:1004-1008 | The ids collected from a run of references are the first reference's id (when it has a target), then the ids of the rest. |
| ConfigBuilder.AppendTargetsListStep | modules/tide_content_collection/src/Plugin/Field/FieldWidget/ContentCollectionConfigurationWidget.php:1005-1007 | One reference appended to an existing list extends it by its id exactly when its target is not empty. |
| ConfigBuilder.AppendTargetsList | modules/tide_content_collection/src/Plugin/Field/FieldWidget/ContentCollectionConfigurationWidget.php:1004-1008 | Appending to an existing list keeps the values already there and adds the target ids after them, in input order. |
| ConfigBuilder.AppendTargetsFresh | modules/tide_content_collection/src/Plugin/Field/FieldWidget/ContentCollectionConfigurationWidget.php:1004-1008 | Into a missing slot: it stays missing when no reference names a target; otherwise it becomes exactly the list of the int ids, in input order. |
| ConfigBuilder.AppendTargetsOther | modules/tide_content_collection/src/Plugin/Field/FieldWidget/ContentCollectionConfigurationWidget.php:1004-1008 | Appending at one path changes no path that parts ways with it. |
| ConfigBuilder.AdvancedFilterLoop | modules/tide_content_collection/src/Plugin/Field/FieldWidget/ContentCollectionConfigurationWidget.php:1024-1053 | The advanced-filters loop, with its `unset` of consumed reference fields, computes the `AdvancedFilters` fold over the wrappers. |
| ConfigBuilder.ReferenceDefaultsLoop | modules/tide_content_collection/src/Plugin/Field/FieldWidget/ContentCollectionConfigurationWidget.php:1055-1065 | The loop over the reference fields the filters did not consume computes the `ReferenceDefaults` fold. |
| ConfigBuilder.TermStep | modules/tide_content_collection/src/Plugin/Field/FieldWidget/ContentCollectionConfigurationWidget.php:1000-1010 | The topic (or tags) part returns the submitted values with the settings defaults applied, and the configuration with the ids and operator written from those values. |
| ConfigBuilder.FiltersStep | modules/tide_content_collection/src/Plugin/Field/FieldWidget/ContentCollectionConfigurationWidget.php:1023-1065 | The advanced filters, then the reference-field defaults, compute `FiltersStage`. |
| ConfigBuilder.MassageItem | modules/tide_content_collection/src/Plugin/Field/FieldWidget/ContentCollectionConfigurationWidget.php:989-1107 | Building one item's configuration step by step gives `MassagedItem`: the configuration and the item's values as the defaults left them. |
| ConfigBuilder.MassageValue | modules/tide_content_collection/src/Plugin/Field/FieldWidget/ContentCollectionConfigurationWidget.php:988-1108 | One item ends up with `value` set to the encoded configuration, as `MassagedValue` states. |
| ConfigBuilder.MassagedValuesAt | modules/tide_content_collection/src/Plugin/Field/FieldWidget/ContentCollectionConfigurationWidget.php:988-1110 | The result has as many items as the input, and item j keeps its key and holds the massaged item j. |
| ConfigBuilder.MassagedValuesSnoc | modules/tide_content_collection/src/Plugin/Field/FieldWidget/ContentCollectionConfigurationWidget.php:988-1109 | Massaging one more item appends exactly that item's massaged value. |
| ConfigBuilder.MassageFormValues | modules/tide_content_collection/src/Plugin/Field/FieldWidget/ContentCollectionConfigurationWidget.php:985-1111 | `massageFormValues` over all items (iterated by reference) returns `MassagedValues`, the pointwise massaging of each item. |
| ConfigProperties.BelowContentFields | modules/tide_content_collection/src/Plugin/Field/FieldWidget/ContentCollectionConfigurationWidget.php:1034 | A path that parts ways with `internal.contentFields` parts ways with every path below it. |
| ConfigProperties.TermConfigOther | modules/tide_content_collection/src/Plugin/Field/FieldWidget/ContentCollectionConfigurationWidget.php:1003-1021 | The topic and tag stages change no path that parts ways with their own field's path. |
| ConfigProperties.AdvancedStepOther | modules/tide_content_collection/src/Plugin/Field/FieldWidget/ContentCollectionConfigurationWidget.php:1025-1052 | One advanced filter changes nothing outside `internal.contentFields`. |
| ConfigProperties.AdvancedFiltersOther | modules/tide_content_collection/src/Plugin/Field/FieldWidget/ContentCollectionConfigurationWidget.php:1024-1053 | The whole advanced-filters loop changes nothing outside `internal.contentFields`. |
| ConfigProperties.ReferenceDefaultsOther | modules/tide_content_collection/src/Plugin/Field/FieldWidget/ContentCollectionConfigurationWidget.php:1055-1065 | The reference-field defaults change nothing outside `internal.contentFields`. |
| ConfigProperties.FiltersStageOther | modules/tide_content_collection/src/Plugin/Field/FieldWidget/ContentCollectionConfigurationWidget.php:1023-1065 | The filter stages together change nothing outside `internal.contentFields`. |
| ConfigProperties.DateFilterStageOther | modules/tide_content_collection/src/Plugin/Field/FieldWidget/ContentCollectionConfigurationWidget.php:1067-1088 | The date-filter stage changes nothing outside `internal.dateFilter`. |
| ConfigProperties.DisplayStageOther | modules/tide_content_collection/src/Plugin/Field/FieldWidget/ContentCollectionConfigurationWidget.php:1090-1106 | The display and sort stage changes nothing outside `interface.display` and `internal.sort`. |
| ConfigProperties.TermDefaultsOther | modules/tide_content_collection/src/Plugin/Field/FieldWidget/ContentCollectionConfigurationWidget.php:1000-1002 | Applying topic or tag defaults changes the submitted values only at that filter's references path. |
| ConfigProperties.ContentTypesStageOther | modules/tide_content_collection/src/Plugin/Field/FieldWidget/ContentCollectionConfigurationWidget.php:994-999 | The content-types stage changes nothing outside `internal.contentTypes`. |
| ConfigProperties.AfterContentTypes | modules/tide_content_collection/src/Plugin/Field/FieldWidget/ContentCollectionConfigurationWidget.php:1000-1065 | The stages from the topic filter through the reference defaults change no path that parts ways with `internal.contentFields`. |
| ConfigProperties.FilteredItemOther | modules/tide_content_collection/src/Plugin/Field/FieldWidget/ContentCollectionConfigurationWidget.php:989-1065 | Up to the filters, every path that parts ways with `internal.contentTypes` and `internal.contentFields` reads as in the title/description/CTA base. |
| ConfigProperties.MassagedOther | modules/tide_content_collection/src/Plugin/Field/FieldWidget/ContentCollectionConfigurationWidget.php:989-1107 | The final configuration agrees with the base texts on every path outside `internal` and `interface`. |
| ConfigProperties.BaseConfigTexts | modules/tide_content_collection/src/Plugin/Field/FieldWidget/ContentCollectionConfigurationWidget.php:989-993 | The base holds `title`, `description`, `callToAction.text` and `callToAction.url` as submitted, or '' when not submitted. |
| ConfigProperties.MassagedTexts | modules/tide_content_collection/src/Plugin/Field/FieldWidget/ContentCollectionConfigurationWidget.php:990-993 | In the final configuration, the title, the description and the call to action are the submitted ones, or '' when not submitted. |
| ConfigProperties.BaseConfigBelow | modules/tide_content_collection/src/Plugin/Field/FieldWidget/ContentCollectionConfigurationWidget.php:989-993 | The base texts write nothing under `internal` or `interface`. |
| ConfigProperties.ContentTypesStageResult | modules/tide_content_collection/src/Plugin/Field/FieldWidget/ContentCollectionConfigurationWidget.php:994-999 | The content types on top of the base: the truthy settings defaults, reindexed, for a disabled filter with defaults; else the truthy submitted ones, reindexed, when any; else missing. |
| ConfigProperties.MassagedContentTypes | modules/tide_content_collection/src/Plugin/Field/FieldWidget/ContentCollectionConfigurationWidget.php:994-999 | The final `internal.contentTypes` follows the same three cases, so later stages do not touch it. |
| ConfigProperties.FilteredItemValue | modules/tide_content_collection/src/Plugin/Field/FieldWidget/ContentCollectionConfigurationWidget.php:1000-1012 | The topic and tag defaults change the item's values only at those two references paths. |
| ConfigProperties.FilteredItemNoDate | modules/tide_content_collection/src/Plugin/Field/FieldWidget/ContentCollectionConfigurationWidget.php:989-1065 | Before the date filter nothing is under `internal.dateFilter`, and the submitted `dateFilter` tab is as it came. |
| ConfigProperties.MassagedDateFilter | modules/tide_content_collection/src/Plugin/Field/FieldWidget/ContentCollectionConfigurationWidget.php:1067-1088 | The final `internal.dateFilter` holds exactly the date-filter entries built from the submitted `dateFilter`, and is missing when none applies. |
| ConfigProperties.CopiedEntryGet | modules/tide_content_collection/src/Plugin/Field/FieldWidget/ContentCollectionConfigurationWidget.php:1082-1088 | A copied date entry holds its one key, with the submitted value, exactly when that value is not empty. |
| ConfigProperties.DateRangeEntryGet | modules/tide_content_collection/src/Plugin/Field/FieldWidget/ContentCollectionConfigurationWidget.php:1071-1078 | A range end point holds its one key, with the formatted date, exactly when it was submitted as a date. |
| ConfigProperties.DateFilterGet | modules/tide_content_collection/src/Plugin/Field/FieldWidget/ContentCollectionConfigurationWidget.php:1068-1088 | A key of the date-filter array reads as in the first of the four writes that produced it. |
| ConfigProperties.DateCriteriaByKey | modules/tide_content_collection/src/Plugin/Field/FieldWidget/ContentCollectionConfigurationWidget.php:1068-1069 | `criteria` is stored exactly when the submitted criteria is not empty, and then it is the submitted value. |
| ConfigProperties.DateRangeByKey | modules/tide_content_collection/src/Plugin/Field/FieldWidget/ContentCollectionConfigurationWidget.php:1070-1079 | `dateRangeStart`/`dateRangeEnd` are stored only when the criteria is non-empty and loosely equal to 'range' and the end point is a date; they are stored formatted. |
| ConfigProperties.DateFieldByKey | modules/tide_content_collection/src/Plugin/Field/FieldWidget/ContentCollectionConfigurationWidget.php:1082-1088 | `startDateField`/`endDateField` are stored exactly when the submitted value is not empty. |
| ConfigProperties.DateFilterKeys | modules/tide_content_collection/src/Plugin/Field/FieldWidget/ContentCollectionConfigurationWidget.php:1067-1088 | No key other than the five date-filter keys is stored under `internal.dateFilter`. |
| ConfigProperties.FilteredItemOtherTab | modules/tide_content_collection/src/Plugin/Field/FieldWidget/ContentCollectionConfigurationWidget.php:1000-1012 | The defaults change nothing in any tab other than `content`. |
| ConfigProperties.FilteredItemTabs | modules/tide_content_collection/src/Plugin/Field/FieldWidget/ContentCollectionConfigurationWidget.php:1091-1106 | The layout and advanced tabs that the display stage reads are the submitted ones. |
| ConfigProperties.MassagedDisplay | modules/tide_content_collection/src/Plugin/Field/FieldWidget/ContentCollectionConfigurationWidget.php:1090-1106 | The final `interface.display` is exactly the display tree of the submitted layout and advanced tabs. |
| ConfigProperties.DisplayTreeDefaults | modules/tide_content_collection/src/Plugin/Field/FieldWidget/ContentCollectionConfigurationWidget.php:1091-1092 | The display type defaults to 'grid' and the card style to 'thumbnail', when not submitted. |
| ConfigProperties.DisplayStageSort | modules/tide_content_collection/src/Plugin/Field/FieldWidget/ContentCollectionConfigurationWidget.php:1094-1100 | Into a configuration without a sort, the display stage writes exactly the non-empty submitted sort entries. |
| ConfigProperties.MassagedSort | modules/tide_content_collection/src/Plugin/Field/FieldWidget/ContentCollectionConfigurationWidget.php:1094-1100 | The final `internal.sort` holds exactly the non-empty submitted sort field and direction, and is missing when neither is. |
| ConfigProperties.SortEntriesByKey | modules/tide_content_collection/src/Plugin/Field/FieldWidget/ContentCollectionConfigurationWidget.php:1094-1100 | Each sort key is stored exactly when its submitted value is not empty, and then it holds that value. |
| ConfigProperties.TermConfigFresh | modules/tide_content_collection/src/Plugin/Field/FieldWidget/ContentCollectionConfigurationWidget.php:1003-1010 | Into a fresh slot, a topic or tag filter stores the int ids of the references with a non-empty target, in order (no list when none has one), and the operator, 'OR' when none is submitted; without references nothing is written. |
| ConfigProperties.TermSlotsFresh | modules/tide_content_collection/src/Plugin/Field/FieldWidget/ContentCollectionConfigurationWidget.php:1000-1021 | In one item, the topic filter and then the tag filter each start from a fresh slot, so their results are the ones `TermConfigFresh` states. |
| ConfigProperties.AdvancedStepResult | modules/tide_content_collection/src/Plugin/Field/FieldWidget/ContentCollectionConfigurationWidget.php:1025-1052 | An empty filter changes nothing. Otherwise the filter's entry is removed or holds non-empty values. An extra filter keeps only truthy values, and a consumed reference field is dropped from the remaining fields. |
| ConfigProperties.MassagedValueEncodes | modules/tide_content_collection/src/Plugin/Field/FieldWidget/ContentCollectionConfigurationWidget.php:1108 | The item's `value` is the encoding of the final configuration. |
| ConfigProperties.MassagedValueOther | modules/tide_content_collection/src/Plugin/Field/FieldWidget/ContentCollectionConfigurationWidget.php:988-1108 | Outside `value` and the two references paths, the item keeps its submitted values. |
| ContentCollectionWidget.FormStatesElementName | modules/tide_content_collection/src/Plugin/Field/FieldWidget/ContentCollectionConfigurationWidget.php:969-980 | The two accumulating loops build exactly `ElementName`: first parent bare, later parents bracketed, then `[fieldName][delta]`, then each `|`-part bracketed. |
| ContentCollectionWidget.ParentsPrefixStep | modules/tide_content_collection/src/Plugin/Field/FieldWidget/ContentCollectionConfigurationWidget.php:971-973 | One more parent appends it bare when it is the first, bracketed otherwise. |
| ContentCollectionWidget.BracketedStep | modules/tide_content_collection/src/Plugin/Field/FieldWidget/ContentCollectionConfigurationWidget.php:976-978 | One more segment appends it in brackets. |
| ContentCollectionWidget.BracketedConcat | modules/tide_content_collection/src/Plugin/Field/FieldWidget/ContentCollectionConfigurationWidget.php:976-978 | Bracketing the parts of a concatenation is concatenating the bracketings. |
| ContentCollectionWidget.BracketedCons | modules/tide_content_collection/src/Plugin/Field/FieldWidget/ContentCollectionConfigurationWidget.php:976-978 | The first part's bracket comes first, then the rest in order. |
| ContentCollectionWidget.ElementNameOfSegments | modules/tide_content_collection/src/Plugin/Field/FieldWidget/ContentCollectionConfigurationWidget.php:969-980 | For a name joined from `|`-free segments, the result is the parents prefix, `[fieldName][delta]`, then each segment in brackets in order. |
| ContentCollectionWidget.AllowedOnly | modules/tide_content_collection/src/Plugin/Field/FieldWidget/ContentCollectionConfigurationWidget.php:437-441 | An option is kept exactly when it is an option and its key is set in the allow-list. |
| ContentCollectionWidget.DropNoKeys | modules/tide_content_collection/src/Plugin/Field/FieldWidget/ContentCollectionConfigurationWidget.php:436-442 | Dropping no keys keeps every option. |
| ContentCollectionWidget.RemoveDropKeys | modules/tide_content_collection/src/Plugin/Field/FieldWidget/ContentCollectionConfigurationWidget.php:439 | `unset` of one more key is dropping that key too. |
| ContentCollectionWidget.DropRejected | modules/tide_content_collection/src/Plugin/Field/FieldWidget/ContentCollectionConfigurationWidget.php:437-441 | Dropping exactly the keys not set in the allow-list gives the allowed options, in order. |
| ContentCollectionWidget.OfferedContentTypes | modules/tide_content_collection/src/Plugin/Field/FieldWidget/ContentCollectionConfigurationWidget.php:435-442 | The options are all kept when the truthy allow-list is empty, and otherwise they are the allowed ones. |
| ContentCollectionWidget.GetFilterTruthy | modules/tide_content_collection/src/Plugin/Field/FieldWidget/ContentCollectionConfigurationWidget.php:435 | `array_filter` keeps a key exactly when its value is truthy. |
| ContentCollectionWidget.OfferedExactlyAllowed | modules/tide_content_collection/src/Plugin/Field/FieldWidget/ContentCollectionConfigurationWidget.php:435-442 | With a non-empty truthy allow-list, an option is offered iff it is an option and its key is ticked. |
| ContentCollectionWidget.DateFieldDefault | modules/tide_content_collection/src/Plugin/Field/FieldWidget/ContentCollectionConfigurationWidget.php:709-716 | The default is the stored field name when it is a key of the date fields, else ''. |
| ContentCollectionWidget.DateFieldDefaultOffered | modules/tide_content_collection/src/Plugin/Field/FieldWidget/ContentCollectionConfigurationWidget.php:709-728 | The default is always a key of its select's options ('- No mapping -' first, then the date fields). |
| ContentCollectionWidget.SortOptionsGet | modules/tide_content_collection/src/Plugin/Field/FieldWidget/ContentCollectionConfigurationWidget.php:839-847 | Relevance is first under the NULL key and never replaced; date fields win over string fields of the same key (left-biased `+=`); every other key reads as the string field. |
| ContentCollectionWidget.IndexError | modules/tide_content_collection/src/Plugin/Field/FieldWidget/ContentCollectionConfigurationWidget.php:321-328 | NULL gives 'Invalid Search API Index.', FALSE gives the 'No Search API Index…' message, and a loaded index gives ''. |
| ContentCollectionWidget.BaseJsonObject | modules/tide_content_collection/src/Plugin/Field/FieldWidget/ContentCollectionConfigurationWidget.php:341-348 | An empty stored value gives `[]`; a value that decodes gives the decoded value; the result is never NULL. |
| ContentCollectionWidget.BaseFormElement | modules/tide_content_collection/src/Plugin/Field/FieldWidget/ContentCollectionConfigurationWidget.php:312-403 | Without an index only the error is shown and no tabs are built. With one, the form element ends in a TypeError exactly when the stored JSON is non-empty and decodes to a scalar (the content tab builder takes an array); otherwise the tabs are built and the title and description default to the stored JSON's, or ''. |
| ContentCollectionWidget.BaseCallToActionNeverBuilt | modules/tide_content_collection/src/Plugin/Field/FieldWidget/ContentCollectionConfigurationWidget.php:366-385 | The base widget's call-to-action group is never built when the element is, whatever the settings, because the guard reads a literal array. |
| ContentCollectionWidget.SettingsFormBlocks | modules/tide_content_collection/src/Plugin/Field/FieldWidget/ContentCollectionConfigurationWidget.php:143-277 | The content-types block exists iff the helper lists node types; the field_topic and field_tags blocks exist iff the topic check on the answered index holds; each one's defaults sub-block is built iff its block exists, its own check on the held `$this->index` holds and the builder's filter is non-empty; there is one block per entity reference field, in order, whose defaults filter is built iff the builder returns a non-empty one. |
| ContentCollectionWidget.ReferenceBlocks | modules/tide_content_collection/src/Plugin/Field/FieldWidget/ContentCollectionConfigurationWidget.php:244-277 | One block per entity reference field, in order, with its id and label; each checkbox defaults to the stored setting or FALSE; the defaults filter is built iff the builder's filter for that field is non-empty. |
| ContentCollectionWidget.ReferenceExcludes | modules/tide_content_collection/src/Plugin/Field/FieldWidget/ContentCollectionConfigurationWidget.php:774-790 | The excluded fields are the hooks' answer followed by `field_topic` and `field_tags`, and nothing else. |
| ContentCollectionWidget.TagsBlockFollowsTopic | modules/tide_content_collection/src/Plugin/Field/FieldWidget/ContentCollectionConfigurationWidget.php:212-243 | The field_tags block is built exactly when the field_topic block is: it depends on the topic check and not on the tags check. |
| ContentCollectionWidget.BuildExtraFilters | modules/tide_content_collection/src/Plugin/Field/FieldWidget/ContentCollectionConfigurationWidget.php:602-645 | The loop builds `ExtraWrappers` over the hook results. It turns access on iff it was on or some wrapper was built, and sets the 'show' default iff it was set or some wrapper has stored values. |
| ContentCollectionWidget.ExtraWrappersStep | modules/tide_content_collection/src/Plugin/Field/FieldWidget/ContentCollectionConfigurationWidget.php:617-643 | One more filter appends its wrapper exactly when the index has its field. |
| ContentCollectionWidget.AnyOpenSnoc | modules/tide_content_collection/src/Plugin/Field/FieldWidget/ContentCollectionConfigurationWidget.php:638-641 | Some wrapper has stored values iff some earlier one does or the new one does. |
| ContentCollectionWidget.ExtraWrappersCover | modules/tide_content_collection/src/Plugin/Field/FieldWidget/ContentCollectionConfigurationWidget.php:616-643 | Every extra filter whose field the index has gets a wrapper holding the hook's filter and the field's label. None is skipped as an entity reference field: the test at line 619 reads an undefined variable. |
| ContentCollectionWidget.ExtraWrappersSound | modules/tide_content_collection/src/Plugin/Field/FieldWidget/ContentCollectionConfigurationWidget.php:622-636 | Each wrapper comes from a hook filter the index has, and it offers an operator iff the filter does not set `#disable_filter_operator`. |
| EnhancedWidget.DefaultSettingsGet | modules/tide_content_collection/src/Plugin/Field/FieldWidget/ContentCollectionConfigurationWidgetEnhanced.php:79-87 | The five own defaults (schema_validation FALSE, callToAction FALSE, the three filters TRUE) override the parent's, and every other key is the parent's. |
| EnhancedWidget.OwnDefaultWins | modules/tide_content_collection/src/Plugin/Field/FieldWidget/ContentCollectionConfigurationWidgetEnhanced.php:80-86 | An own default is what the merged defaults hold under its key (the left operand of `+` wins). |
| EnhancedWidget.LabelInjective | modules/tide_content_collection/src/Plugin/Field/FieldWidget/ContentCollectionConfigurationWidgetEnhanced.php:96-118 | Lines with the same fixed label and different words differ. |
| EnhancedWidget.SwitchLine | modules/tide_content_collection/src/Plugin/Field/FieldWidget/ContentCollectionConfigurationWidgetEnhanced.php:96-118 | A line shows the same word for two settings iff their switches agree. |
| EnhancedWidget.SummaryLinesDetermine | modules/tide_content_collection/src/Plugin/Field/FieldWidget/ContentCollectionConfigurationWidgetEnhanced.php:92-121 | Two settings give the same five lines iff they agree on the truthiness of each of the five summarised settings. |
| EnhancedWidget.SettingsSummary | modules/tide_content_collection/src/Plugin/Field/FieldWidget/ContentCollectionConfigurationWidgetEnhanced.php:92-121 | The summary is the parent's lines unchanged, followed by exactly five lines in the fixed order. |
| EnhancedWidget.BuildContentTab | modules/tide_content_collection/src/Plugin/Field/FieldWidget/ContentCollectionConfigurationWidgetEnhanced.php:305-340 | The content tab holds each block exactly when the index covers it and its setting is on. Each block's defaults come from the stored JSON, with the operator defaulting to 'OR'. |
| EnhancedWidget.FormElementDecisions | modules/tide_content_collection/src/Plugin/Field/FieldWidget/ContentCollectionConfigurationWidgetEnhanced.php:187-285 | A NULL or FALSE index gives only its own error. Text that does not decode opens the raw field and builds nothing else. Tabs are built iff the text is empty or decodes to an array; a text decoding to a scalar is a TypeError. |
| EnhancedWidget.FormElementDefaults | modules/tide_content_collection/src/Plugin/Field/FieldWidget/ContentCollectionConfigurationWidgetEnhanced.php:225-339 | The title and filter defaults are what the stored JSON holds, or '', `[]` or 'OR'; the operator default is never NULL. |
| EnhancedWidget.FormElement | modules/tide_content_collection/src/Plugin/Field/FieldWidget/ContentCollectionConfigurationWidgetEnhanced.php:187-285 | `formElement` asks `getIndex` once, which may cache the index, and then produces `FormElementOutcome`. |
| EnhancedWidget.ViolationTexts | modules/tide_content_collection/src/Plugin/Field/FieldWidget/ContentCollectionConfigurationWidgetEnhanced.php:419-425 | One `[property] message` text per violation, in the validator's order. |
| EnhancedWidget.ValidationError | modules/tide_content_collection/src/Plugin/Field/FieldWidget/ContentCollectionConfigurationWidgetEnhanced.php:402-433 | An empty value is never an error. Text that does not decode gives 'Invalid JSON.' whatever the schema. Text that decodes is never 'Invalid JSON.': without schema validation or a stored schema it is accepted; with both, it is an error iff the validator reports a violation, and the error joins the violations with ' - '. |
| EnhancedWidget.ValidateJson | modules/tide_content_collection/src/Plugin/Field/FieldWidget/ContentCollectionConfigurationWidgetEnhanced.php:402-433 | The decode, the schema branch and the loop collecting violation texts compute `ValidationError`. |
| SearchIndex.IndexOutcome | modules/tide_content_collection/src/Plugin/Field/FieldWidget/ContentCollectionConfigurationWidgetEnhanced.php:163-182 | A cached index is answered as it is. Otherwise the answer is FALSE iff no index is configured, and an index is answered iff it loaded and is a valid node index (else NULL). |
| SearchIndex.IndexOutcomeStable | modules/tide_content_collection/src/Plugin/Field/FieldWidget/ContentCollectionConfigurationWidgetEnhanced.php:164-181 | Asking again after the first answer gives the same answer. |
| SearchIndex.IndexedWidget.constructor | modules/tide_content_collection/src/Plugin/Field/FieldWidget/ContentCollectionConfigurationWidgetEnhanced.php:54-60 | Constructing the widget calls `getIndex` once, so the field caches a loaded, valid index. |
| SearchIndex.IndexedWidget.GetIndex | modules/tide_content_collection/src/Plugin/Field/FieldWidget/ContentCollectionConfigurationWidgetEnhanced.php:163-182 | Answers `IndexOutcome` and caches only a loaded, valid index; the cached index always is the configured one and valid. |
| SearchIndex.FilterOperatorSelect | modules/tide_content_collection/src/Plugin/Field/FieldWidget/ContentCollectionConfigurationWidget.php:941-952 | The options are exactly AND and OR, and the default is the given value, or 'AND' for NULL. |
| SearchIndex.StoredOperatorSelect | modules/tide_content_collection/src/Plugin/Field/FieldWidget/ContentCollectionConfigurationWidget.php:467 | Every caller passes `stored ?? 'OR'`, so the default is the stored operator when set, else 'OR', and never the 'AND' fallback. |
| RedirectUrls.FindFromAt | src/Controller/TideApiController.php:202 | `strpos` from an offset finds the first occurrence at or after it. |
| RedirectUrls.ClassifyHttp | src/Controller/TideApiController.php:208-210 | A target starting with `http` is external and unchanged. |
| RedirectUrls.SiteUrlSegment | src/Controller/TideApiController.php:202 | The first segment of `/site-<site><rest>` is `site-<site>` when `rest` is empty or starts with '/'. |
| RedirectUrls.ClassifyOwnSite | src/Controller/TideApiController.php:202-206 | On the corrected reading, a page of the requested site is internal with its leading `/site-<site>` removed once, and its root becomes '/'. |
| RedirectUrls.SiteIdSegment | src/Controller/TideApiController.php:213-214 | The id of `/site-<id><rest>` runs up to the '/' of `rest`, or to the end. |
| RedirectUrls.OtherSiteParts | src/Controller/TideApiController.php:213-225 | The corrected reading splits `/site-<id><rest>`, on another site, into a non-http target whose id part is `<id>` and whose path is `rest`. |
| RedirectUrls.ClassifyOtherSite | src/Controller/TideApiController.php:212-227 | On the corrected reading, a page (or the root) of another site with a numeric id is external, on that site's base URL followed by the same path. |
| RedirectUrls.StrReplaceUntouched | src/Controller/TideApiController.php:205 | `str_replace` changes nothing when the needle holds a '-' and the text holds none. |
| RedirectUrls.OwnSiteRootRefused | src/Controller/TideApiController.php:202-218 | As written, `/site-<site>` (no second '/') is not taken as internal, loses its prefix and is refused with 'site id required'. The corrected classification makes it internal '/'. |
| RedirectUrls.OtherSiteRootRefused | src/Controller/TideApiController.php:202-218 | As written, the root `/site-<id>` of another site is not internal, the id read after the '-' is empty, and the redirect is refused; the corrected reading sends it to site `<id>`'s base URL. |
| RedirectUrls.StrReplaceSkip | src/Controller/TideApiController.php:205 | `str_replace` keeps a character that starts no occurrence. |
| RedirectUrls.StrReplaceCut | src/Controller/TideApiController.php:205 | `str_replace` drops an occurrence at the front and goes on after it. |
| RedirectUrls.TailKept | src/Controller/TideApiController.php:205 | `str_replace` leaves `/b` alone. |
| RedirectUrls.SecondPrefixRemoved | src/Controller/TideApiController.php:205 | `str_replace` removes `/site-4` from the middle of `/a/site-4/b`. |
| RedirectUrls.BothPrefixesRemoved | src/Controller/TideApiController.php:205 | `str_replace` removes both occurrences of `/site-4` from `/site-4/a/site-4/b`. |
| RedirectUrls.RepeatedPrefixRemoved | src/Controller/TideApiController.php:202-210 | As written, on site 4, `/site-4/a/site-4/b` is internal `/a/b`; the corrected reading gives `/a/site-4/b`. |
| RedirectUrls.FindNone | src/Controller/TideApiController.php:202 | `strpos` finds nothing when the character is absent from the offset on. |
| RedirectUrls.FindAtJoin | src/Controller/TideApiController.php:202 | `strpos` finds the start of `b` when `a` holds no match from the offset and `b` starts with one. |
| RedirectUrls.DigitsLackSeparators | src/Controller/TideApiController.php:213-215 | A numeric site id holds neither '-' nor '/'. |
| RedirectUrls.StripPrefix | src/Controller/TideApiController.php:204-206 | `str_replace` removes a '-'-holding prefix from the front of a text without another. |
| RedirectUrls.SegmentPastSite | src/Controller/TideApiController.php:202 | As written, the first segment of `/site-<site><t>/<r>` is longer than `site-<site>`, so it is not internal. |
| RedirectUrls.MisreadPrefix | src/Controller/TideApiController.php:202-206 | On site `<site>`, the page `/site-<site><t>/<r>` of site `<site><t>` is not internal, but its leading `/site-<site>` is removed, leaving `<t>/<r>`. |
| RedirectUrls.NoDashAfterFirst | src/Controller/TideApiController.php:213 | `<t>/<r>` holds no '-', so the id is read from offset 0 + 1. |
| RedirectUrls.SlashAfterDigits | src/Controller/TideApiController.php:214 | The first '/' after the first character of `<t>/<r>` is the one after the digits. |
| RedirectUrls.IdEmpty | src/Controller/TideApiController.php:213-218 | With no '/' after the second character, the id read as written is empty and the redirect is refused. |
| RedirectUrls.IdShort | src/Controller/TideApiController.php:213-214 | With a '/' at k after the second character, the id read as written is what lies between. |
| RedirectUrls.MisreadOneDigit | src/Controller/TideApiController.php:213-218 | As written, a one-digit `<t>` followed by `/<r>` leaves no id, and the redirect is refused. |
| RedirectUrls.MisreadLonger | src/Controller/TideApiController.php:213-226 | As written, a longer `<t>` is read without its first digit and sent to that site's base URL. |
| RedirectUrls.MisreadSiteId | src/Controller/TideApiController.php:213-226 | As written, the site id of `<t>/<r>` is read from its second character. |
| RedirectUrls.OtherSitePrefixMisread | src/Controller/TideApiController.php:202-226 | As written, on site 4, `/site-44/foo` is refused and `/site-456/foo` is sent to `/foo` on site 6; with no site, `/site-4/foo` is refused and `/site-45/foo` goes to site 5. |
| RedirectUrls.DigitsJoin | src/Controller/TideApiController.php:215 | Two runs of digits make a numeric id. |
| RedirectUrls.SitePrefixJoin | src/Controller/TideApiController.php:224-225 | `/site-<site>` + `<t>` + `/<r>` is the page `/<r>` of site `<site><t>`. |
| RedirectUrls.OtherSitePrefixCorrected | src/Controller/TideApiController.php:202-227 | The corrected classification sends a page of site `<site><t>` to that site's base URL with path `/<r>`. |
| RouteResolver.GetRoute | src/Controller/TideApiController.php:155-323 | The step-by-step `getRoute` returns the code, the response and the cache that `Route` specifies, with redirect targets read by the corrected classification. |
| RouteResolver.InitialResponseReads | src/Controller/TideApiController.php:163-171 | The initial document has no `data.id`, no attributes and no `data.entity_id`. |
| RouteResolver.IdentifiedResponse | src/Controller/TideApiController.php:175-177 | Once the cache id is known, the document carries it as `data.id` and has no attributes. |
| RouteResolver.WithErrorReads | src/Controller/TideApiController.php:190-191 | An error replaces the errors with the one message and touches neither `data.id` nor the attributes. |
| RouteResolver.SucceededReads | src/Controller/TideApiController.php:185-187 | A success sets the attributes, removes `errors` and keeps `data.id`. |
| RouteResolver.RouteRequiresPath | src/Controller/TideApiController.php:312-315 | Without a path (or with '' or '0'): 400, the single 'path is required' error, no `data.id`, nothing cached. |
| RouteResolver.RouteCacheFailure | src/Controller/TideApiController.php:317-320 | An exception at the cache read gives 400 with the exception message as the only error, and nothing cached. |
| RouteResolver.RouteCacheHit | src/Controller/TideApiController.php:179-193 | A cached route is answered from the cache, which is left unchanged: 200 with the cached attributes and no errors when the cached URI is accessible, else 403 'Permission denied.'. |
| RouteResolver.RouteRootSkipsRedirects | src/Controller/TideApiController.php:197 | For path '/' the answer does not depend on the redirect lookup. |
| RouteResolver.RouteRedirect | src/Controller/TideApiController.php:197-239 | A matching redirect caches nothing. Without the site helper it is answered untyped; with it, the target and type of the corrected classification are answered, never 'external-site'; a target without a site id gives 400 and no attributes. |
| RouteResolver.RouteRedirectOwnSite | src/Controller/TideApiController.php:201-206 | On the corrected reading, a redirect to a page of the requested site is answered 200, internal, without the site prefix. |
| RouteResolver.RouteRedirectOtherSite | src/Controller/TideApiController.php:212-227 | On the corrected reading, a redirect to a page of another numeric site is answered 200, external, on that site's base URL. |
| RouteResolver.ResolveAliasOutcome | src/Controller/TideApiController.php:241-277 | The alias stage ends in 200, 403 or 404, never 400. It is 200 iff the path leads to an accessible URL with an entity, which is then answered and cached with the entity's tags. It is 403 with 'Permission denied.' iff the URL is inaccessible; otherwise it is 404 with the response unchanged. |
| RouteResolver.RouteEvent | src/Controller/TideApiController.php:278-307 | The event's code is answered. A refusing event strips `data.type` and `data.id` and caches nothing more. An accepting event's response is answered as given, and only the request's cache id can change. |
| RouteResolver.AliasStageLacksEntityId | src/Controller/TideApiController.php:253-290 | The response handed to the event has no `data.entity_id`, so a pass-through event makes the resolver look up node NULL. |
| RouteResolver.RouteAliasWithoutSubscribers | src/Controller/TideApiController.php:241-307 | With no subscriber, a path to an accessible entity is answered 200 with its attributes, cached under its cache id with its URI and tags. |
| RouteResolver.RouteCacheFrame | src/Controller/TideApiController.php:173-320 | The cache changes only under the request's own cache id and only on a miss; never without a path or on an exception. |
| RouteResolver.RouteCacheReplay | src/Controller/TideApiController.php:180-300 | Whatever a request cached is answered by the next request for the same path and site: 200 with the cached attributes when its URI is accessible. |
| ConfigEnhancer.DoUndoTransform | modules/tide_content_collection/src/Plugin/jsonapi/FieldEnhancer/ContentCollectionConfigurationEnhancer.php:91-111 | The decode, the `server_index` write and the link-enhancer undo compute `UndoTransformed`. |
| ConfigEnhancer.DoTransform | modules/tide_content_collection/src/Plugin/jsonapi/FieldEnhancer/ContentCollectionConfigurationEnhancer.php:116-133 | The `unset`, the link-enhancer transform and the rename produce the encoding of `TransformedValue`. |
| ConfigEnhancer.DefaultAppliesLinkEnhancer | modules/tide_content_collection/src/Plugin/jsonapi/FieldEnhancer/ContentCollectionConfigurationEnhancer.php:64-86 | The default configuration turns the link enhancer on. The checkbox shows stored settings when they are non-empty, else the default's TRUE. |
| ConfigEnhancer.UndoLinkInputReads | modules/tide_content_collection/src/Plugin/jsonapi/FieldEnhancer/ContentCollectionConfigurationEnhancer.php:99-100 | The call-to-action handed to the link enhancer has `uri` equal to its `url`, other keys unchanged. |
| ConfigEnhancer.TransformLinkOutputReads | modules/tide_content_collection/src/Plugin/jsonapi/FieldEnhancer/ContentCollectionConfigurationEnhancer.php:125-126 | After the transform, `url` holds what `uri` held, `uri` is gone and other keys are unchanged. |
| ConfigEnhancer.UndoServerIndex | modules/tide_content_collection/src/Plugin/jsonapi/FieldEnhancer/ContentCollectionConfigurationEnhancer.php:93-95 | `server_index` is the helper's id for `index` iff `index` is non-empty; otherwise it is whatever was stored. `index` is kept. |
| ConfigEnhancer.WithServerIndexReads | modules/tide_content_collection/src/Plugin/jsonapi/FieldEnhancer/ContentCollectionConfigurationEnhancer.php:93-95 | Adding the server index leaves the call-to-action and every other key alone. |
| ConfigEnhancer.UndoLink | modules/tide_content_collection/src/Plugin/jsonapi/FieldEnhancer/ContentCollectionConfigurationEnhancer.php:97-107 | The call-to-action is replaced by the enhancer's undo of it (with `uri` copied from `url`) iff the enhancer is on, the URL is non-empty and the link enhancer exists; otherwise it is as stored. |
| ConfigEnhancer.TransformDropsServerIndex | modules/tide_content_collection/src/Plugin/jsonapi/FieldEnhancer/ContentCollectionConfigurationEnhancer.php:117 | The way in never returns a `server_index`. |
| ConfigEnhancer.TransformLink | modules/tide_content_collection/src/Plugin/jsonapi/FieldEnhancer/ContentCollectionConfigurationEnhancer.php:119-129 | The call-to-action is replaced by the transform with `uri` renamed to `url` iff the enhancer is on, `uri` is set and the link enhancer exists; otherwise it is as it came. |
| ConfigEnhancer.LinkEnhancerOffKeepsCallToAction | modules/tide_content_collection/src/Plugin/jsonapi/FieldEnhancer/ContentCollectionConfigurationEnhancer.php:97-119 | With `apply_link_enhancer` off, the call-to-action is unchanged in both directions. |
| ConfigEnhancer.LinkRenameRoundTrip | modules/tide_content_collection/src/Plugin/jsonapi/FieldEnhancer/ContentCollectionConfigurationEnhancer.php:99-126 | Copying `url` to `uri` and renaming it back restores a call-to-action that had no `uri`. |
| ConfigEnhancer.ServerIndexUndone | modules/tide_content_collection/src/Plugin/jsonapi/FieldEnhancer/ContentCollectionConfigurationEnhancer.php:93-117 | Adding the server index and unsetting it restores a configuration that had none. |
| ConfigEnhancer.TransformRestoresCallToAction | modules/tide_content_collection/src/Plugin/jsonapi/FieldEnhancer/ContentCollectionConfigurationEnhancer.php:119-129 | When the link steps restore the call-to-action, the way in restores it in the configuration. |
| ConfigEnhancer.TransformUndoesUndo | modules/tide_content_collection/src/Plugin/jsonapi/FieldEnhancer/ContentCollectionConfigurationEnhancer.php:91-133 | Out and back in gives the stored configuration back, for an array without `server_index` or a call-to-action `uri`, when the link enhancer's directions undo each other. |
| ShareLink.OptionEntries | modules/tide_share_link/src/Form/ShareLinkTokenSettingsForm.php:118 | One option per role, in order, keyed by its id with its label. |
| ShareLink.DefaultRole | modules/tide_share_link/src/Form/ShareLinkTokenSettingsForm.php:126 | The default is the submitted value when it is not NULL, else the stored `token_role`. |
| ShareLink.BuildRoleOptions | modules/tide_share_link/src/Form/ShareLinkTokenSettingsForm.php:105-119 | The loop with `continue` and `continue 2` builds `RoleOptions`: each offerable role writes its label under its id. |
| ShareLink.ShareLinkSettings.constructor | modules/tide_share_link/src/Form/ShareLinkTokenSettingsForm.php:75 | The settings object holds the stored configuration. |
| ShareLink.ShareLinkSettings.SubmitForm | modules/tide_share_link/src/Form/ShareLinkTokenSettingsForm.php:74-79 | Stores the submitted `token_role` (NULL when none) and changes nothing else. |
| ShareLink.ShareLinkSettings.BuildForm | modules/tide_share_link/src/Form/ShareLinkTokenSettingsForm.php:92-129 | The radios hold the role options and the default selection. |
| ShareLink.OfferedRolesMembers | modules/tide_share_link/src/Form/ShareLinkTokenSettingsForm.php:106-118 | A role is kept iff it is loaded and offerable. |
| ShareLink.OfferedRolesAppend | modules/tide_share_link/src/Form/ShareLinkTokenSettingsForm.php:105-119 | Filtering keeps the loaded order. |
| ShareLink.OptionKeysFromRoles | modules/tide_share_link/src/Form/ShareLinkTokenSettingsForm.php:118 | Every option key is the id of an offerable loaded role. |
| ShareLink.LastIdIsNew | modules/tide_share_link/src/Form/ShareLinkTokenSettingsForm.php:118 | With unique ids, the last role's id is not yet an option. |
| ShareLink.RoleOptionsGet | modules/tide_share_link/src/Form/ShareLinkTokenSettingsForm.php:96-118 | With unique ids, a role's id is an option iff the role is not admin, not anonymous or authenticated and holds none of the seven permissions; the option text is its label. |
| ShareLink.RoleOptionsInOrder | modules/tide_share_link/src/Form/ShareLinkTokenSettingsForm.php:105-119 | With unique ids, the options are the offerable roles in loaded order, one each. |

## Left out

- Floating-point values are not modelled: PHP floats are not part of `PhpValues.Value`.
- Numeric-string array keys: PHP turns a key like "5" into the integer 5; keys are taken as given.
- A write through a path whose item is not an array (PHP's error or string offset) replaces the item by an array.
- Loose comparison is modelled only where the code uses it, in `$criteria == 'range'`. A date value compared loosely is taken as unequal.
- `substr` and `strpos` returning FALSE are modelled as "" and as no position, and FALSE used as an integer is 0. This is PHP 7 behaviour.
- Render arrays: `#type`, `#title`, `#weight`, `#states` selectors, translations, attached libraries and markup are left out. Only the choices that decide which elements exist and their defaults and options are modelled.
- The base widget's `settingsForm` is modelled for which blocks exist and, for the entity reference field blocks, for their checkbox defaults (`SettingsFormBlocks`). The checkbox defaults of the content-types, `field_topic` and `field_tags` blocks, the default target ids handed to the reference-filter builder, and a reference block overwriting the topic or tags block under the same key are not modelled. `defaultSettings` and `settingsSummary` of the base widget return literals and are not modelled.
- ContentCollectionWidget.ReferenceExcludes: only the list of excluded fields is modelled. The index helper's `getIndexEntityReferenceFields` and `excludeArrayKey` are not part of this model, so the block list is a parameter of `SettingsFormBlocks`.
- Everything behind the search index helper, the module handler hooks, the event dispatcher, JSON, the schema validator, sha256, date parsing and formatting, the link enhancer, `Url::access`, the alias manager, the redirect repository and entity storage is a parameter. Cache tag invalidation and permanence are Drupal's. The current language id is folded into the redirect lookup parameter.
- Exceptions: only an exception at the cache read is modelled as an outcome (400 with its message). Exceptions that other services might raise are not modelled.
- `parent::formElement`, `parent::massageFormValues`, `parent::defaultSettings`, `parent::settingsSummary` and `parent::buildForm` are parameters or left out. `parent::submitForm` only shows a message and is left out.
- `getOutputJsonSchema` of the enhancer returns a constant schema and is not modelled. `YamlEnhancer` and the service provider are not part of this model.
- The erasure of `#disable_filter_operator` at line 637 of the base widget is not modelled. It changes a local copy after the wrapper was built, so it has no effect.
- `validateJson` counts the violations as the validator's list of errors. The validator's own count is not modelled separately.
- ShareLink.RoleOptionsGet: stated for roles with unique ids, because role storage is keyed by id. `OptionKeysFromRoles` holds without that premise.
- `hasPermission` is modelled as membership in the role's permission set. Drupal's admin flag also grants every permission, but admin roles are excluded before that check.
- ConfigProperties.TermConfigFresh: stated for a fresh slot. `TermSlotsFresh` shows that both term filters of an item start from one. The whole-item statement is not repeated.
- RedirectUrls.OtherSitePrefixMisread: stated for a path `<r>` without '/' or '-', which is enough to exhibit the discrepancy.
- RedirectUrls.ClassifyOwnSite: stated for a site id without '/' and a path that is empty or starts with '/'.
- RedirectUrls.ClassifyOtherSite: stated for a numeric site id and a path that is empty or starts with '/'.
- RouteResolver.GetRoute: models the corrected redirect classification `RedirectUrls.Classify`, not lines 202-227 as written. As written, on site 4, `/site-4` and other sites' roots such as `/site-5` are refused, `/site-44/foo` is refused, `/site-456/foo` goes to site 6, and `/site-4/a/site-4/b` becomes `/a/b`; with no site, `/site-4/foo` is refused and `/site-45/foo` goes to site 5. `RedirectUrls.ClassifyAsWritten` and the lemmas under "## Findings" state those outcomes.
- RouteResolver.Route: the redirect stage uses the corrected classification, as `GetRoute` does.
- RouteResolver.RouteRedirect: states the corrected classification's target and type, not those of the code as written.
- RouteResolver.RouteRedirectOwnSite: states the corrected reading. As written, the root `/site-<site>` is refused and a repeated `/site-<site>` is removed from the middle of the path too.
- RouteResolver.RouteRedirectOtherSite: states the corrected reading. As written, another site's root is refused, and a site whose id starts with the requested one is misread.
- `ToInt` does not model PHP 7.1's `(int)` of a numeric string in exponent form (`(int)"1e3"` is 1000); it stops at the first non-digit. Target ids are plain digits.
- ConfigEnhancer.TransformUndoesUndo: a round trip only under its premises: the link enhancer's two directions undo each other, and the stored configuration has no `server_index` and no call-to-action `uri` of its own. Otherwise the way in does not give the stored value back.

## Findings

| source | as written | input that shows it | evidently intended | confidence | as-written member | corrected member |
|---|---|---|---|---|---|---|
| src/Controller/TideApiController.php:202 | Without a second '/', `strpos` gives FALSE, `- 1` gives -1, and `substr(.., 1, -1)` drops the last character of the first segment | On site 4, a redirect to `/site-4` is not internal; its prefix is removed and the redirect is refused with "You must include a site id in the To url." | The root of the requested site is an internal redirect to "/" | not executed | RedirectUrls.OwnSiteRootRefused | RedirectUrls.ClassifyOwnSite |
| src/Controller/TideApiController.php:202-218 | The same FALSE - 1 drops the last character of another site's root, which is then not internal; the id is read after the '-' up to `strpos(.., '/', 1)`, which is FALSE, so it is empty | On site 4, a redirect to `/site-5` is refused with "You must include a site id in the To url." | The root of another site is an external redirect to that site's base URL | not executed | RedirectUrls.OtherSiteRootRefused | RedirectUrls.ClassifyOtherSite |
| src/Controller/TideApiController.php:204-214 | `/site-<site>` is removed from any target that starts with it, even when the first segment names another site; the site id is then read from the second character | On site 4, `/site-44/foo` is refused; `/site-456/foo` is sent to `/foo` on site 6. With no site, `/site-4/foo` is refused and `/site-45/foo` is sent to site 5 | A page of site 44, 456, 4 or 45 goes to that site | not executed | RedirectUrls.OtherSitePrefixMisread | RedirectUrls.OtherSitePrefixCorrected |
| src/Controller/TideApiController.php:204-206 | `str_replace` removes every occurrence of `/site-<site>`, not only the leading one | On site 4, a redirect to `/site-4/a/site-4/b` is internal `/a/b` | The internal path `/a/site-4/b` | not executed | RedirectUrls.RepeatedPrefixRemoved | RedirectUrls.ClassifyOwnSite |
