/**
 * What the stored configuration of one item holds, proved about the stages
 * of `ConfigBuilder`. Each stage writes below its own path only:
 *
 *   - the content types at `internal.contentTypes`;
 *   - the topic, tag, advanced and reference filters below `internal.contentFields`;
 *   - the date filter at `internal.dateFilter`;
 *   - the display at `interface.display`, the sort at `internal.sort`.
 *
 * The frame lemmas say that a stage leaves every other path alone; the
 * result lemmas then read each part of the final configuration back.
 */
module ConfigProperties {
  import opened PhpValues
  import opened ConfigBuilder

  // ---------------------------------------------------------------------
  // Frames

  /** A path that parts ways with `internal.contentFields` parts ways with everything below it. */
  lemma BelowContentFields(field: Key, rest: seq<Key>, q: seq<Key>)
    requires Diverge(ContentFieldsPrefix, q)
    ensures Diverge(ContentFieldPath(field) + rest, q)
  {
    assert ContentFieldPath(field) + rest == ContentFieldsPrefix + ([field] + rest);
    DivergeExtend(ContentFieldsPrefix, q, [field] + rest);
  }

  /** The topic and tag stages write below their own field's path only. */
  lemma TermConfigOther(config: Value, value: Value, field: Key, wrapper: Key, q: seq<Key>)
    requires Diverge(ContentFieldPath(field), q)
    ensures Lookup(TermConfig(config, value, field, wrapper), q) == Lookup(config, q)
  {
    var refs := Lookup(value, ReferencesPath(wrapper, field));
    if Present(refs) {
      var vp := ContentFieldPath(field) + [Values];
      DivergeExtend(ContentFieldPath(field), q, [Values]);
      DivergeExtend(ContentFieldPath(field), q, [Operator]);
      AppendTargetsOther(config, vp, EntriesOf(refs.value), q);
      LookupSetPathOther(AppendTargets(config, vp, EntriesOf(refs.value)), ContentFieldPath(field) + [Operator],
                         Coalesce(Lookup(value, [Tabs, Content, wrapper, Operator]), Str("OR")), q);
    }
  }

  /** One advanced filter writes below `internal.contentFields` only. */
  lemma AdvancedStepOther(p: Progress, w: Entry, settings: Value, q: seq<Key>)
    requires Diverge(ContentFieldsPrefix, q)
    ensures Lookup(AdvancedStep(p, w, settings).config, q) == Lookup(p.config, q)
  {
    var field := FieldIdOf(w.key);
    var wrapper := EffectiveWrapper(w, settings);
    var filter := Lookup(wrapper, [field]);
    if Present(filter) {
      var vp := ContentFieldPath(field) + [Values];
      var op := ContentFieldPath(field) + [Operator];
      BelowContentFields(field, [Values], q);
      BelowContentFields(field, [Operator], q);
      BelowContentFields(field, [], q);
      assert ContentFieldPath(field) + [] == ContentFieldPath(field);
      var c1 := if IsSet(Get(p.referenceFields, field)) then AppendTargets(p.config, vp, EntriesOf(filter.value))
                else SetPath(p.config, vp, ExtraValues(filter.value));
      if IsSet(Get(p.referenceFields, field)) {
        AppendTargetsOther(p.config, vp, EntriesOf(filter.value), q);
      } else {
        LookupSetPathOther(p.config, vp, ExtraValues(filter.value), q);
      }
      var c2 := if Present(Lookup(wrapper, [Operator])) then SetPath(c1, op, LookupOrNull(wrapper, [Operator])) else c1;
      if Present(Lookup(wrapper, [Operator])) {
        LookupSetPathOther(c1, op, LookupOrNull(wrapper, [Operator]), q);
      }
      if !Present(Lookup(c2, vp)) {
        LookupUnsetPathOther(c2, ContentFieldPath(field), q);
      }
    }
  }

  lemma {:induction false} AdvancedFiltersOther(p: Progress, wrappers: seq<Entry>, settings: Value, q: seq<Key>)
    requires Diverge(ContentFieldsPrefix, q)
    ensures Lookup(AdvancedFilters(p, wrappers, settings).config, q) == Lookup(p.config, q)
    decreases |wrappers|
  {
    if wrappers != [] {
      AdvancedStepOther(p, wrappers[0], settings, q);
      AdvancedFiltersOther(AdvancedStep(p, wrappers[0], settings), wrappers[1..], settings, q);
    }
  }

  lemma {:induction false} ReferenceDefaultsOther(config: Value, refs: seq<Entry>, settings: Value, q: seq<Key>)
    requires Diverge(ContentFieldsPrefix, q)
    ensures Lookup(ReferenceDefaults(config, refs, settings), q) == Lookup(config, q)
    decreases |refs|
  {
    if refs != [] {
      var field := refs[0].key;
      if UsesDefaults(settings, field) {
        BelowContentFields(field, [Values], q);
        AppendTargetsOther(config, ContentFieldPath(field) + [Values], EntriesOf(SettingDefaults(settings, field)), q);
      }
      ReferenceDefaultsOther(ReferenceDefaultsStep(config, refs[0], settings), refs[1..], settings, q);
    }
  }

  /** The advanced filters and the reference defaults write below `internal.contentFields` only. */
  lemma FiltersStageOther(config: Value, value: Value, settings: Value, referenceFields: seq<Entry>, q: seq<Key>)
    requires Diverge(ContentFieldsPrefix, q)
    ensures Lookup(FiltersStage(config, value, settings, referenceFields), q) == Lookup(config, q)
  {
    var p := AdvancedFilters(Progress(config, referenceFields), AdvancedWrappers(value), settings);
    AdvancedFiltersOther(Progress(config, referenceFields), AdvancedWrappers(value), settings, q);
    ReferenceDefaultsOther(p.config, p.referenceFields, settings, q);
  }

  /** The date filter writes at `internal.dateFilter` only. */
  lemma DateFilterStageOther(config: Value, value: Value, formatDate: int -> string, q: seq<Key>)
    requires Diverge(DatePrefix, q)
    ensures Lookup(DateFilterStage(config, value, formatDate), q) == Lookup(config, q)
  {
    var es := DateFilterEntries(LookupOrNull(value, DateFrom), formatDate);
    if es != [] {
      LookupSetPathOther(config, DatePrefix, Arr(es), q);
    }
  }

  /** The display stage writes at `interface.display` and `internal.sort` only. */
  lemma DisplayStageOther(config: Value, value: Value, q: seq<Key>)
    requires Diverge(DisplayPath, q) && Diverge(SortPath, q)
    ensures Lookup(DisplayStage(config, value), q) == Lookup(config, q)
  {
    var tree := DisplayTree(LookupOrNull(value, LayoutTab), LookupOrNull(value, AdvancedTab));
    var c := SetPath(config, DisplayPath, tree);
    LookupSetPathOther(config, DisplayPath, tree, q);
    var sort := SortEntries(LookupOrNull(value, LayoutTab));
    if sort != [] {
      LookupSetPathOther(c, SortPath, Arr(sort), q);
    }
  }

  /** Applying the topic or tag defaults changes the submitted values at that filter's path only. */
  lemma TermDefaultsOther(value: Value, settings: Value, field: Key, wrapper: Key, q: seq<Key>)
    requires Diverge(ReferencesPath(wrapper, field), q)
    ensures Lookup(TermDefaults(value, settings, field, wrapper), q) == Lookup(value, q)
  {
    if UsesDefaults(settings, field) {
      LookupSetPathOther(value, ReferencesPath(wrapper, field),
                         Coalesce(Lookup(settings, SettingPath(field) + [DefaultValues]), Arr([])), q);
    }
  }

  /** The content types are written at `internal.contentTypes` only. */
  lemma ContentTypesStageOther(config: Value, value: Value, settings: Value, q: seq<Key>)
    requires Diverge(ContentTypesPath, q)
    ensures Lookup(ContentTypesStage(config, value, settings), q) == Lookup(config, q)
  {
    var field := StrKey("contentTypes");
    var submitted := Lookup(value, [Tabs, Content, field]);
    if UsesDefaults(settings, field) {
      var d := SettingDefaults(settings, field);
      LookupSetPathOther(config, ContentTypesPath, if Truthy(d) then FilteredValues(d) else Arr([]), q);
    } else if Present(submitted) {
      LookupSetPathOther(config, ContentTypesPath, if Truthy(submitted.value) then FilteredValues(submitted.value) else Arr([]), q);
    }
  }

  /** The stages after the content types leave alone the paths that part ways with theirs. */
  lemma AfterContentTypes(value: Value, settings: Value, referenceFields: seq<Entry>, q: seq<Key>)
    requires Diverge(ContentFieldsPrefix, q)
    ensures Lookup(FilteredItem(value, settings, referenceFields).config, q)
            == Lookup(ContentTypesStage(BaseConfig(value), value, settings), q)
  {
    var c1 := ContentTypesStage(BaseConfig(value), value, settings);
    var v1 := TermDefaults(value, settings, FieldTopic, FieldTopicWrapper);
    var c2 := TermConfig(c1, v1, FieldTopic, FieldTopicWrapper);
    var v2 := TermDefaults(v1, settings, FieldTags, FieldTagsWrapper);
    var c3 := TermConfig(c2, v2, FieldTags, FieldTagsWrapper);
    BelowContentFields(FieldTopic, [], q);
    BelowContentFields(FieldTags, [], q);
    assert ContentFieldPath(FieldTopic) + [] == ContentFieldPath(FieldTopic);
    assert ContentFieldPath(FieldTags) + [] == ContentFieldPath(FieldTags);
    TermConfigOther(c1, v1, FieldTopic, FieldTopicWrapper, q);
    TermConfigOther(c2, v2, FieldTags, FieldTagsWrapper, q);
    FiltersStageOther(c3, v2, settings, referenceFields, q);
  }

  /** The stages up to the filters leave alone the paths that part ways with all of theirs. */
  lemma FilteredItemOther(value: Value, settings: Value, referenceFields: seq<Entry>, q: seq<Key>)
    requires Diverge(ContentTypesPath, q) && Diverge(ContentFieldsPrefix, q)
    ensures Lookup(FilteredItem(value, settings, referenceFields).config, q) == Lookup(BaseConfig(value), q)
  {
    AfterContentTypes(value, settings, referenceFields, q);
    ContentTypesStageOther(BaseConfig(value), value, settings, q);
  }

  /** No stage writes outside `internal` and `interface`. */
  lemma MassagedOther(value: Value, settings: Value, referenceFields: seq<Entry>, formatDate: int -> string, q: seq<Key>)
    requires q != [] && q[0] != Internal && q[0] != DisplayPath[0]
    ensures Lookup(MassagedItem(value, settings, referenceFields, formatDate).config, q) == Lookup(BaseConfig(value), q)
  {
    var m := FilteredItem(value, settings, referenceFields);
    FilteredItemOther(value, settings, referenceFields, q);
    DateFilterStageOther(m.config, m.value, formatDate, q);
    DisplayStageOther(DateFilterStage(m.config, m.value, formatDate), m.value, q);
  }

  lemma BaseConfigTexts(value: Value)
    ensures var c := BaseConfig(value);
            && Lookup(c, [StrKey("title")]) == Some(Coalesce(Lookup(value, [StrKey("title")]), Str("")))
            && Lookup(c, [StrKey("description")]) == Some(Coalesce(Lookup(value, [StrKey("description")]), Str("")))
            && Lookup(c, [StrKey("callToAction"), StrKey("text")])
               == Some(Coalesce(Lookup(value, [StrKey("callToAction"), StrKey("text")]), Str("")))
            && Lookup(c, [StrKey("callToAction"), StrKey("url")])
               == Some(Coalesce(Lookup(value, [StrKey("callToAction"), StrKey("url")]), Str("")))
  {
    var es := BaseConfig(value).entries;
    assert Get(es, StrKey("description")) == Get(es[1..], StrKey("description"));
    assert Get(es, StrKey("callToAction")) == Get(es[2..], StrKey("callToAction"));
    var cta := es[2].val.entries;
    assert Get(cta, StrKey("url")) == Get(cta[1..], StrKey("url"));
  }

  /** The title, the description and the call to action are the submitted ones, '' when not submitted. */
  lemma MassagedTexts(value: Value, settings: Value, referenceFields: seq<Entry>, formatDate: int -> string)
    ensures var c := MassagedItem(value, settings, referenceFields, formatDate).config;
            && Lookup(c, [StrKey("title")]) == Some(Coalesce(Lookup(value, [StrKey("title")]), Str("")))
            && Lookup(c, [StrKey("description")]) == Some(Coalesce(Lookup(value, [StrKey("description")]), Str("")))
            && Lookup(c, [StrKey("callToAction"), StrKey("text")])
               == Some(Coalesce(Lookup(value, [StrKey("callToAction"), StrKey("text")]), Str("")))
            && Lookup(c, [StrKey("callToAction"), StrKey("url")])
               == Some(Coalesce(Lookup(value, [StrKey("callToAction"), StrKey("url")]), Str("")))
  {
    BaseConfigTexts(value);
    MassagedOther(value, settings, referenceFields, formatDate, [StrKey("title")]);
    MassagedOther(value, settings, referenceFields, formatDate, [StrKey("description")]);
    MassagedOther(value, settings, referenceFields, formatDate, [StrKey("callToAction"), StrKey("text")]);
    MassagedOther(value, settings, referenceFields, formatDate, [StrKey("callToAction"), StrKey("url")]);
  }

  /** The texts make neither `internal` nor `interface`: their stages start from nothing. */
  lemma BaseConfigBelow(value: Value, k: Key, rest: seq<Key>)
    requires k == Internal || k == DisplayPath[0]
    ensures Lookup(BaseConfig(value), [k] + rest).None?
  {
    var es := BaseConfig(value).entries;
    assert Get(es, k) == Get(es[1..], k) == Get(es[2..], k) == Get(es[3..], k) == None;
    LookupBelowMissing(BaseConfig(value), [k], rest);
  }

  /** What the content-types stage writes on top of the texts. */
  lemma ContentTypesStageResult(value: Value, settings: Value)
    ensures var r := Lookup(ContentTypesStage(BaseConfig(value), value, settings), ContentTypesPath);
            var field := StrKey("contentTypes");
            var submitted := Lookup(value, [Tabs, Content, field]);
            && (UsesDefaults(settings, field) ==> r == Some(FilteredValues(SettingDefaults(settings, field))))
            && (!UsesDefaults(settings, field) && Present(submitted) ==> r == Some(FilteredValues(submitted.value)))
            && (!UsesDefaults(settings, field) && !Present(submitted) ==> r.None?)
  {
    var c0 := BaseConfig(value);
    var field := StrKey("contentTypes");
    var submitted := Lookup(value, [Tabs, Content, field]);
    if UsesDefaults(settings, field) {
      LookupSetPathSame(c0, ContentTypesPath, FilteredValues(SettingDefaults(settings, field)));
    } else if Present(submitted) {
      LookupSetPathSame(c0, ContentTypesPath, FilteredValues(submitted.value));
    } else {
      BaseConfigBelow(value, Internal, [StrKey("contentTypes")]);
    }
  }

  /**
   * The content types: the settings defaults, filtered and reindexed, when
   * the filter is disabled and has defaults; else the submitted ones,
   * filtered and reindexed, when any were submitted; else none. The
   * `: []` branches of the source are dead: both guards need a non-empty value.
   */
  lemma MassagedContentTypes(value: Value, settings: Value, referenceFields: seq<Entry>, formatDate: int -> string)
    ensures var r := Lookup(MassagedItem(value, settings, referenceFields, formatDate).config, ContentTypesPath);
            var field := StrKey("contentTypes");
            var submitted := Lookup(value, [Tabs, Content, field]);
            && (UsesDefaults(settings, field) ==> r == Some(FilteredValues(SettingDefaults(settings, field))))
            && (!UsesDefaults(settings, field) && Present(submitted) ==> r == Some(FilteredValues(submitted.value)))
            && (!UsesDefaults(settings, field) && !Present(submitted) ==> r.None?)
  {
    var m := FilteredItem(value, settings, referenceFields);
    AfterContentTypes(value, settings, referenceFields, ContentTypesPath);
    DateFilterStageOther(m.config, m.value, formatDate, ContentTypesPath);
    DisplayStageOther(DateFilterStage(m.config, m.value, formatDate), m.value, ContentTypesPath);
    ContentTypesStageResult(value, settings);
  }

  /** The topic and tag defaults change the submitted values at those filters' paths only. */
  lemma FilteredItemValue(value: Value, settings: Value, referenceFields: seq<Entry>, q: seq<Key>)
    requires Diverge(ReferencesPath(FieldTopicWrapper, FieldTopic), q)
    requires Diverge(ReferencesPath(FieldTagsWrapper, FieldTags), q)
    ensures Lookup(FilteredItem(value, settings, referenceFields).value, q) == Lookup(value, q)
  {
    var v1 := TermDefaults(value, settings, FieldTopic, FieldTopicWrapper);
    TermDefaultsOther(value, settings, FieldTopic, FieldTopicWrapper, q);
    TermDefaultsOther(v1, settings, FieldTags, FieldTagsWrapper, q);
  }

  // ---------------------------------------------------------------------
  // The date filter

  /** Before the date filter, nothing is under `internal.dateFilter`, and the submitted date filter is as it came. */
  lemma FilteredItemNoDate(value: Value, settings: Value, referenceFields: seq<Entry>)
    ensures var m := FilteredItem(value, settings, referenceFields);
            Lookup(m.config, DatePrefix).None? && Lookup(m.value, DateFrom) == Lookup(value, DateFrom)
  {
    FilteredItemOther(value, settings, referenceFields, DatePrefix);
    BaseConfigBelow(value, Internal, [DateFilter]);
    FilteredItemValue(value, settings, referenceFields, DateFrom);
  }

  /**
   * `internal.dateFilter` holds exactly the date-filter entries of the
   * submitted `dateFilter`, and is missing when none applies.
   */
  lemma MassagedDateFilter(value: Value, settings: Value, referenceFields: seq<Entry>, formatDate: int -> string)
    ensures var es := DateFilterEntries(LookupOrNull(value, DateFrom), formatDate);
            Lookup(MassagedItem(value, settings, referenceFields, formatDate).config, DatePrefix)
            == if es == [] then None else Some(Arr(es))
  {
    var m := FilteredItem(value, settings, referenceFields);
    FilteredItemNoDate(value, settings, referenceFields);
    var es := DateFilterEntries(LookupOrNull(value, DateFrom), formatDate);
    if es != [] {
      LookupSetPathSame(m.config, DatePrefix, Arr(es));
    }
    DisplayStageOther(DateFilterStage(m.config, m.value, formatDate), m.value, DatePrefix);
  }

  /** A copied entry holds one key, and only when the value it copies is not empty. */
  lemma CopiedEntryGet(v: Value, from: seq<Key>, name: string, k: Key)
    ensures var x := Lookup(v, from);
            && (HasKey(CopiedEntry(v, from, name), k) <==> k == StrKey(name) && Present(x))
            && Get(CopiedEntry(v, from, name), k) == if k == StrKey(name) && Present(x) then x else None
  {
    GetHasKey(CopiedEntry(v, from, name), k);
  }

  /** A range end point holds one key, and only when it was submitted as a date. */
  lemma DateRangeEntryGet(date: Value, name: string, formatDate: int -> string, k: Key)
    ensures var x := Coalesce(Lookup(date, [StrKey("dateRange"), StrKey(name)]), Str(""));
            && (HasKey(DateRangeEntry(date, name, formatDate), k) <==> k == StrKey(name) && x.DateTime?)
            && Get(DateRangeEntry(date, name, formatDate), k)
               == if k == StrKey(name) && x.DateTime? then Some(Str(formatDate(x.instant))) else None
  {
    GetHasKey(DateRangeEntry(date, name, formatDate), k);
  }

  /** Reading one key of the date-filter entries: the first of the four writes that made it answers. */
  lemma DateFilterGet(date: Value, formatDate: int -> string, k: Key)
    ensures var c := CopiedEntry(date, [StrKey("criteria")], "criteria");
            var r := DateRange(date, formatDate);
            var sf := CopiedEntry(date, [StrKey("startDateField")], "startDateField");
            var ef := CopiedEntry(date, [StrKey("endDateField")], "endDateField");
            Get(DateFilterEntries(date, formatDate), k)
            == if HasKey(c, k) then Get(c, k) else if HasKey(r, k) then Get(r, k)
               else if HasKey(sf, k) then Get(sf, k) else Get(ef, k)
  {
    var c := CopiedEntry(date, [StrKey("criteria")], "criteria");
    var r := DateRange(date, formatDate);
    var sf := CopiedEntry(date, [StrKey("startDateField")], "startDateField");
    var ef := CopiedEntry(date, [StrKey("endDateField")], "endDateField");
    assert DateFilterEntries(date, formatDate) == ((c + r) + sf) + ef;
    GetInParts(c, r, sf, ef, k);
  }

  /** The criteria is stored when it is not empty. */
  lemma DateCriteriaByKey(date: Value, formatDate: int -> string)
    ensures var criteria := Lookup(date, [StrKey("criteria")]);
            Get(DateFilterEntries(date, formatDate), StrKey("criteria")) == if Present(criteria) then criteria else None
  {
    var k := StrKey("criteria");
    DateFilterGet(date, formatDate, k);
    CopiedEntryGet(date, [k], "criteria", k);
  }

  /**
   * A range end point is stored only when the criteria is 'range' (loosely
   * compared) and the end point was submitted as a date; it is stored formatted.
   */
  lemma DateRangeByKey(date: Value, formatDate: int -> string, name: string)
    requires name == "dateRangeStart" || name == "dateRangeEnd"
    ensures var criteria := Lookup(date, [StrKey("criteria")]);
            var x := Coalesce(Lookup(date, [StrKey("dateRange"), StrKey(name)]), Str(""));
            Get(DateFilterEntries(date, formatDate), StrKey(name))
            == if Present(criteria) && IsRangeCriteria(criteria.value) && x.DateTime? then Some(Str(formatDate(x.instant))) else None
  {
    var k := StrKey(name);
    var rs := DateRangeEntry(date, "dateRangeStart", formatDate);
    var re := DateRangeEntry(date, "dateRangeEnd", formatDate);
    DateFilterGet(date, formatDate, k);
    CopiedEntryGet(date, [StrKey("criteria")], "criteria", k);
    CopiedEntryGet(date, [StrKey("startDateField")], "startDateField", k);
    CopiedEntryGet(date, [StrKey("endDateField")], "endDateField", k);
    DateRangeEntryGet(date, "dateRangeStart", formatDate, k);
    DateRangeEntryGet(date, "dateRangeEnd", formatDate, k);
    GetAppendSeq(rs, re, k);
    HasKeyAppend(rs, re, k);
    GetHasKey(DateRange(date, formatDate), k);
  }

  /** The start and end date fields are stored when they are not empty. */
  lemma DateFieldByKey(date: Value, formatDate: int -> string, name: string)
    requires name == "startDateField" || name == "endDateField"
    ensures var x := Lookup(date, [StrKey(name)]);
            Get(DateFilterEntries(date, formatDate), StrKey(name)) == if Present(x) then x else None
  {
    var k := StrKey(name);
    var rs := DateRangeEntry(date, "dateRangeStart", formatDate);
    var re := DateRangeEntry(date, "dateRangeEnd", formatDate);
    DateFilterGet(date, formatDate, k);
    CopiedEntryGet(date, [StrKey("criteria")], "criteria", k);
    CopiedEntryGet(date, [StrKey("startDateField")], "startDateField", k);
    CopiedEntryGet(date, [StrKey("endDateField")], "endDateField", k);
    DateRangeEntryGet(date, "dateRangeStart", formatDate, k);
    DateRangeEntryGet(date, "dateRangeEnd", formatDate, k);
    HasKeyAppend(rs, re, k);
  }

  /** Nothing else is stored under `internal.dateFilter`. */
  lemma DateFilterKeys(date: Value, formatDate: int -> string)
    ensures forall e :: e in DateFilterEntries(date, formatDate) ==>
              e.key in [StrKey("criteria"), StrKey("dateRangeStart"), StrKey("dateRangeEnd"),
                        StrKey("startDateField"), StrKey("endDateField")]
  {
    var c := CopiedEntry(date, [StrKey("criteria")], "criteria");
    var r := DateRange(date, formatDate);
    var sf := CopiedEntry(date, [StrKey("startDateField")], "startDateField");
    var ef := CopiedEntry(date, [StrKey("endDateField")], "endDateField");
    assert DateFilterEntries(date, formatDate) == ((c + r) + sf) + ef;
  }

  // ---------------------------------------------------------------------
  // Display and sort

  /** The defaults change nothing in a tab other than `content`. */
  lemma FilteredItemOtherTab(value: Value, settings: Value, referenceFields: seq<Entry>, tab: Key)
    requires tab != Content
    ensures Lookup(FilteredItem(value, settings, referenceFields).value, [Tabs, tab]) == Lookup(value, [Tabs, tab])
  {
    DivergeAfter([Tabs], [Content, FieldTopicWrapper, FieldTopic], [tab]);
    DivergeAfter([Tabs], [Content, FieldTagsWrapper, FieldTags], [tab]);
    assert [Tabs] + [Content, FieldTopicWrapper, FieldTopic] == ReferencesPath(FieldTopicWrapper, FieldTopic);
    assert [Tabs] + [Content, FieldTagsWrapper, FieldTags] == ReferencesPath(FieldTagsWrapper, FieldTags);
    assert [Tabs] + [tab] == [Tabs, tab];
    FilteredItemValue(value, settings, referenceFields, [Tabs, tab]);
  }

  /** The defaults do not reach the layout and advanced tabs, which the display stage reads. */
  lemma FilteredItemTabs(value: Value, settings: Value, referenceFields: seq<Entry>)
    ensures var m := FilteredItem(value, settings, referenceFields);
            && LookupOrNull(m.value, LayoutTab) == LookupOrNull(value, LayoutTab)
            && LookupOrNull(m.value, AdvancedTab) == LookupOrNull(value, AdvancedTab)
  {
    FilteredItemOtherTab(value, settings, referenceFields, StrKey("layout"));
    FilteredItemOtherTab(value, settings, referenceFields, StrKey("advanced"));
  }

  /** `interface.display` holds exactly the display tree of the submitted layout and advanced tabs. */
  lemma MassagedDisplay(value: Value, settings: Value, referenceFields: seq<Entry>, formatDate: int -> string)
    ensures Lookup(MassagedItem(value, settings, referenceFields, formatDate).config, DisplayPath)
            == Some(DisplayTree(LookupOrNull(value, LayoutTab), LookupOrNull(value, AdvancedTab)))
  {
    var m := FilteredItem(value, settings, referenceFields);
    var c5 := DateFilterStage(m.config, m.value, formatDate);
    var tree := DisplayTree(LookupOrNull(value, LayoutTab), LookupOrNull(value, AdvancedTab));
    FilteredItemTabs(value, settings, referenceFields);
    LookupSetPathSame(c5, DisplayPath, tree);
    var sort := SortEntries(LookupOrNull(value, LayoutTab));
    if sort != [] {
      LookupSetPathOther(SetPath(c5, DisplayPath, tree), SortPath, Arr(sort), DisplayPath);
    }
  }

  /** The layout type defaults to 'grid' and the card style to 'thumbnail'. */
  lemma DisplayTreeDefaults(layout: Value, advanced: Value)
    ensures var t := DisplayTree(layout, advanced);
            && Lookup(t, [StrKey("type")]) == Some(Coalesce(Lookup(layout, [StrKey("display"), StrKey("type")]), Str("grid")))
            && Lookup(t, [StrKey("resultComponent"), StrKey("style")])
               == Some(Coalesce(Lookup(layout, [StrKey("display"), StrKey("resultComponent"), StrKey("style")]), Str("thumbnail")))
  {
    var es := DisplayTree(layout, advanced).entries;
    assert Get(es, StrKey("resultComponent")) == Get(es[1..], StrKey("resultComponent"));
  }

  /** Into a configuration without a sort, the display stage writes exactly the non-empty sort entries. */
  lemma DisplayStageSort(config: Value, value: Value)
    requires Lookup(config, SortPath).None?
    ensures var sort := SortEntries(LookupOrNull(value, LayoutTab));
            Lookup(DisplayStage(config, value), SortPath) == if sort == [] then None else Some(Arr(sort))
  {
    var layout := LookupOrNull(value, LayoutTab);
    var tree := DisplayTree(layout, LookupOrNull(value, AdvancedTab));
    LookupSetPathOther(config, DisplayPath, tree, SortPath);
    if SortEntries(layout) != [] {
      LookupSetPathSame(SetPath(config, DisplayPath, tree), SortPath, Arr(SortEntries(layout)));
    }
  }

  /** `internal.sort` holds exactly the submitted sort field and direction that are not empty, and is missing when neither is. */
  lemma MassagedSort(value: Value, settings: Value, referenceFields: seq<Entry>, formatDate: int -> string)
    ensures var sort := SortEntries(LookupOrNull(value, LayoutTab));
            Lookup(MassagedItem(value, settings, referenceFields, formatDate).config, SortPath)
            == if sort == [] then None else Some(Arr(sort))
  {
    var m := FilteredItem(value, settings, referenceFields);
    var c5 := DateFilterStage(m.config, m.value, formatDate);
    FilteredItemOther(value, settings, referenceFields, SortPath);
    BaseConfigBelow(value, Internal, [StrKey("sort")]);
    DateFilterStageOther(m.config, m.value, formatDate, SortPath);
    FilteredItemTabs(value, settings, referenceFields);
    DisplayStageSort(c5, m.value);
  }

  /** The sort entries key by key: each submitted one that is not empty. */
  lemma SortEntriesByKey(layout: Value, name: string)
    requires name == "field" || name == "direction"
    ensures var x := Lookup(layout, [Internal, StrKey("sort"), StrKey(name)]);
            Get(SortEntries(layout), StrKey(name)) == if Present(x) then x else None
  {
    var f := CopiedEntry(layout, [Internal, StrKey("sort"), StrKey("field")], "field");
    var d := CopiedEntry(layout, [Internal, StrKey("sort"), StrKey("direction")], "direction");
    GetAppendSeq(f, d, StrKey(name));
    GetHasKey(d, StrKey(name));
  }

  // ---------------------------------------------------------------------
  // Topic and tags

  /**
   * Written into a fresh slot, a topic or tag filter stores the integer ids
   * of the submitted references that name a target, in their order (no list
   * when none does), and the submitted operator, 'OR' when there is none.
   * No references: nothing is written.
   */
  lemma TermConfigFresh(config: Value, value: Value, field: Key, wrapper: Key)
    requires Lookup(config, ContentFieldPath(field)).None?
    ensures var refs := Lookup(value, ReferencesPath(wrapper, field));
            var ids := TargetIds(EntriesIn(refs));
            var c := TermConfig(config, value, field, wrapper);
            && (Present(refs) ==> Lookup(c, ContentFieldPath(field) + [Values]) == (if ids == [] then None else Some(ListOf(ids))))
            && (Present(refs) ==>
                  Lookup(c, ContentFieldPath(field) + [Operator]) == Some(Coalesce(Lookup(value, [Tabs, Content, wrapper, Operator]), Str("OR"))))
            && (!Present(refs) ==> c == config)
  {
    var refs := Lookup(value, ReferencesPath(wrapper, field));
    if Present(refs) {
      var vp := ContentFieldPath(field) + [Values];
      var op := ContentFieldPath(field) + [Operator];
      var x := Coalesce(Lookup(value, [Tabs, Content, wrapper, Operator]), Str("OR"));
      LookupBelowMissing(config, ContentFieldPath(field), [Values]);
      AppendTargetsFresh(config, vp, EntriesOf(refs.value));
      var c1 := AppendTargets(config, vp, EntriesOf(refs.value));
      DivergeAfter(ContentFieldPath(field), [Operator], [Values]);
      LookupSetPathOther(c1, op, x, vp);
      LookupSetPathSame(c1, op, x);
    }
  }

  /** In one item the topic filter and then the tag filter start from a fresh slot. */
  lemma TermSlotsFresh(value: Value, settings: Value)
    ensures var c1 := ContentTypesStage(BaseConfig(value), value, settings);
            var v1 := TermDefaults(value, settings, FieldTopic, FieldTopicWrapper);
            && Lookup(c1, ContentFieldPath(FieldTopic)).None?
            && Lookup(TermConfig(c1, v1, FieldTopic, FieldTopicWrapper), ContentFieldPath(FieldTags)).None?
  {
    var c1 := ContentTypesStage(BaseConfig(value), value, settings);
    var v1 := TermDefaults(value, settings, FieldTopic, FieldTopicWrapper);
    BaseConfigBelow(value, Internal, [ContentFields, FieldTopic]);
    BaseConfigBelow(value, Internal, [ContentFields, FieldTags]);
    ContentTypesStageOther(BaseConfig(value), value, settings, ContentFieldPath(FieldTopic));
    ContentTypesStageOther(BaseConfig(value), value, settings, ContentFieldPath(FieldTags));
    DivergeAfter(ContentFieldsPrefix, [FieldTopic], [FieldTags]);
    TermConfigOther(c1, v1, FieldTopic, FieldTopicWrapper, ContentFieldPath(FieldTags));
  }

  // ---------------------------------------------------------------------
  // Advanced filters

  /**
   * One advanced filter. An empty filter changes nothing. Otherwise the
   * filter's entry is either removed or holds non-empty values; an extra
   * (non-reference) filter keeps only truthy values; a reference filter is
   * consumed, so the remaining-fields loop skips it.
   */
  lemma AdvancedStepResult(p: Progress, w: Entry, settings: Value)
    ensures var field := FieldIdOf(w.key);
            var filter := Lookup(EffectiveWrapper(w, settings), [field]);
            var isReference := IsSet(Get(p.referenceFields, field));
            var r := AdvancedStep(p, w, settings);
            var vals := Lookup(r.config, ContentFieldPath(field) + [Values]);
            && (!Present(filter) ==> r == p)
            && (Present(filter) ==> Lookup(r.config, ContentFieldPath(field)).None? || Present(vals))
            && (Present(filter) && !isReference && vals.Some? ==> forall e :: e in EntriesOf(vals.value) ==> Truthy(e.val))
            && (Present(filter) && isReference ==>
                  r.referenceFields == Remove(p.referenceFields, field) && Get(r.referenceFields, field).None?)
            && (!(Present(filter) && isReference) ==> r.referenceFields == p.referenceFields)
  {
    var field := FieldIdOf(w.key);
    var wrapper := EffectiveWrapper(w, settings);
    var filter := Lookup(wrapper, [field]);
    if Present(filter) {
      var vp := ContentFieldPath(field) + [Values];
      var op := ContentFieldPath(field) + [Operator];
      var isReference := IsSet(Get(p.referenceFields, field));
      var c1 := if isReference then AppendTargets(p.config, vp, EntriesOf(filter.value))
                else SetPath(p.config, vp, ExtraValues(filter.value));
      var c2 := if Present(Lookup(wrapper, [Operator])) then SetPath(c1, op, LookupOrNull(wrapper, [Operator])) else c1;
      if isReference {
        GetRemove(p.referenceFields, field, field);
      } else {
        LookupSetPathSame(p.config, vp, ExtraValues(filter.value));
        FilterTruthyMembers(EntriesOf(if filter.value.Arr? then FilteredValues(filter.value) else ListOf([filter.value])));
      }
      if Present(Lookup(wrapper, [Operator])) {
        DivergeAfter(ContentFieldPath(field), [Operator], [Values]);
        LookupSetPathOther(c1, op, LookupOrNull(wrapper, [Operator]), vp);
      }
      if !Present(Lookup(c2, vp)) {
        var c3 := UnsetPath(c2, ContentFieldPath(field));
        LookupUnsetPath(c2, ContentFieldPath(field));
        LookupBelowMissing(c3, ContentFieldPath(field), [Values]);
      }
    }
  }

  // ---------------------------------------------------------------------
  // The item after massaging

  /** The item's `value` is the encoded configuration. */
  lemma MassagedValueEncodes(value: Value, settings: Value, referenceFields: seq<Entry>,
                             formatDate: int -> string, encode: Value -> Value)
    ensures Lookup(MassagedValue(value, settings, referenceFields, formatDate, encode), [StrKey("value")])
            == Some(encode(MassagedItem(value, settings, referenceFields, formatDate).config))
  {
    var m := MassagedItem(value, settings, referenceFields, formatDate);
    LookupSetPathSame(m.value, [StrKey("value")], encode(m.config));
  }

  /** Apart from `value` and the topic and tag defaults, the item keeps its submitted values. */
  lemma MassagedValueOther(value: Value, settings: Value, referenceFields: seq<Entry>,
                           formatDate: int -> string, encode: Value -> Value, q: seq<Key>)
    requires Diverge([StrKey("value")], q)
    requires Diverge(ReferencesPath(FieldTopicWrapper, FieldTopic), q)
    requires Diverge(ReferencesPath(FieldTagsWrapper, FieldTags), q)
    ensures Lookup(MassagedValue(value, settings, referenceFields, formatDate, encode), q) == Lookup(value, q)
  {
    var m := MassagedItem(value, settings, referenceFields, formatDate);
    LookupSetPathOther(m.value, [StrKey("value")], encode(m.config), q);
    FilteredItemValue(value, settings, referenceFields, q);
  }
}
