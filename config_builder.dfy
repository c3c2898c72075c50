/**
 * `massageFormValues` of the content-collection configuration widget: how
 * the submitted form values of each field item, together with the widget
 * settings, become the stored JSON configuration.
 *
 * The configuration is built in stages, each a function of the configuration
 * so far: the texts, the content types, the topic and tag references, the
 * advanced filters, the defaults of the remaining entity reference fields,
 * the date filter and the display options. `MassageItem` performs the stages
 * one statement at a time with its loops; `Massaged` is what it computes.
 */
module ConfigBuilder {
  import opened PhpValues
  import opened PhpStrings

  const Tabs: Key := StrKey("tabs")
  const Content: Key := StrKey("content")
  const Internal: Key := StrKey("internal")
  const ContentFields: Key := StrKey("contentFields")
  const DateFilter: Key := StrKey("dateFilter")
  const Values: Key := StrKey("values")
  const Operator: Key := StrKey("operator")
  const Enabled: Key := StrKey("enabled")
  const DefaultValues: Key := StrKey("default_values")
  const FieldTopic: Key := StrKey("field_topic")
  const FieldTopicWrapper: Key := StrKey("field_topic_wrapper")
  const FieldTags: Key := StrKey("field_tags")
  const FieldTagsWrapper: Key := StrKey("field_tags_wrapper")

  const ContentTypesPath: seq<Key> := [Internal, StrKey("contentTypes")]
  const ContentFieldsPrefix: seq<Key> := [Internal, ContentFields]
  const DatePrefix: seq<Key> := [Internal, DateFilter]

  /** Where the configuration keeps one content field's filter. */
  function ContentFieldPath(field: Key): seq<Key> { [Internal, ContentFields, field] }

  /** Where the configuration keeps one date-filter entry. */
  function DatePath(name: string): seq<Key> { [Internal, DateFilter, StrKey(name)] }

  /** Where the widget settings keep one content filter's settings. */
  function SettingPath(field: Key): seq<Key> { [StrKey("settings"), StrKey("content"), Internal, field] }

  /** Where a topic or tag reference filter is submitted. */
  function ReferencesPath(wrapper: Key, field: Key): seq<Key> { [Tabs, Content, wrapper, field] }

  /** `!$settings[...][field]['enabled'] && !empty($settings[...][field]['default_values'])`. */
  predicate UsesDefaults(settings: Value, field: Key) {
    !Truthy(LookupOrNull(settings, SettingPath(field) + [Enabled]))
    && Present(Lookup(settings, SettingPath(field) + [DefaultValues]))
  }

  function SettingDefaults(settings: Value, field: Key): Value {
    LookupOrNull(settings, SettingPath(field) + [DefaultValues])
  }

  // ---------------------------------------------------------------------
  // Appending target ids

  /** `!empty($reference['target_id'])`. */
  predicate HasTarget(reference: Value) {
    Present(Lookup(reference, [StrKey("target_id")]))
  }

  /** `(int) $reference['target_id']`. */
  function TargetId(reference: Value): int {
    ToInt(LookupOrNull(reference, [StrKey("target_id")]))
  }

  /** The integer ids of the references that name a target, in their order. */
  function TargetIds(refs: seq<Entry>): seq<Value> {
    if refs == [] then []
    else (if HasTarget(refs[0].val) then [Int(TargetId(refs[0].val))] else []) + TargetIds(refs[1..])
  }

  /** The configuration after appending, for each reference naming a target, its id to the list at `path`. */
  function AppendTargets(config: Value, path: seq<Key>, refs: seq<Entry>): Value
    decreases |refs|
  {
    if refs == [] then config
    else
      var next := if HasTarget(refs[0].val) then AppendPath(config, path, Int(TargetId(refs[0].val))) else config;
      AppendTargets(next, path, refs[1..])
  }

  /** `foreach ($refs as $reference) if (...) $config[path][] = (int) $reference['target_id'];` */
  method AppendTargetIds(config: Value, path: seq<Key>, refs: Value) returns (c: Value)
    ensures c == AppendTargets(config, path, EntriesOf(refs))
  {
    c := config;
    var es := EntriesOf(refs);
    var i := 0;
    while i < |es|
      invariant 0 <= i <= |es|
      invariant AppendTargets(c, path, es[i..]) == AppendTargets(config, path, es)
    {
      assert es[i..][1..] == es[i + 1..];
      if HasTarget(es[i].val) {
        c := AppendPath(c, path, Int(TargetId(es[i].val)));
      }
      i := i + 1;
    }
    assert es[|es|..] == [];
  }

  /** Appending to a list keeps it a list: the new value goes under the next position. */
  lemma {:induction false} NextIndexOfList(vs: seq<Value>)
    ensures NextIndex(ListOf(vs).entries) == |vs|
  {
    NextIndexOfRun(ListOf(vs).entries, 0);
  }

  lemma {:induction false} NextIndexOfRun(es: seq<Entry>, from: nat)
    requires forall i :: 0 <= i < |es| ==> es[i].key == IntKey(from + i)
    ensures NextIndex(es) == if es == [] then 0 else from + |es|
    decreases |es|
  {
    if es != [] {
      assert forall i :: 0 <= i < |es[1..]| ==> es[1..][i] == es[i + 1];
      NextIndexOfRun(es[1..], from + 1);
    }
  }

  lemma AppendList(vs: seq<Value>, x: Value)
    ensures Append(ListOf(vs), x) == ListOf(vs + [x])
  {
    NextIndexOfList(vs);
    assert Append(ListOf(vs), x).entries == ListOf(vs + [x]).entries;
  }

  /** The ids of a non-empty run of references: the first one's, then the rest's. */
  lemma TargetIdsCons(refs: seq<Entry>)
    requires refs != []
    ensures TargetIds(refs) == (if HasTarget(refs[0].val) then [Int(TargetId(refs[0].val))] else []) + TargetIds(refs[1..])
  {
  }

  /** One reference appended to a list at `path`. */
  lemma AppendTargetsListStep(config: Value, path: seq<Key>, r: Value, vs: seq<Value>)
    requires Lookup(config, path) == Some(ListOf(vs))
    ensures var next := if HasTarget(r) then AppendPath(config, path, Int(TargetId(r))) else config;
            Lookup(next, path) == Some(ListOf(vs + if HasTarget(r) then [Int(TargetId(r))] else []))
  {
    if HasTarget(r) {
      var x := Int(TargetId(r));
      LookupAppendPath(config, path, x);
      AppendList(vs, x);
    } else {
      assert vs + [] == vs;
    }
  }

  /** Ids appended to a list follow the values already there, in order. */
  lemma {:induction false} AppendTargetsList(config: Value, path: seq<Key>, refs: seq<Entry>, vs: seq<Value>)
    requires Lookup(config, path) == Some(ListOf(vs))
    ensures Lookup(AppendTargets(config, path, refs), path) == Some(ListOf(vs + TargetIds(refs)))
    decreases |refs|
  {
    if refs == [] {
      assert vs + [] == vs;
    } else {
      var r := refs[0].val;
      var head := if HasTarget(r) then [Int(TargetId(r))] else [];
      var next := if HasTarget(r) then AppendPath(config, path, Int(TargetId(r))) else config;
      AppendTargetsListStep(config, path, r, vs);
      AppendTargetsList(next, path, refs[1..], vs + head);
      TargetIdsCons(refs);
      assert (vs + head) + TargetIds(refs[1..]) == vs + (head + TargetIds(refs[1..]));
    }
  }

  /**
   * Appending to a slot that does not exist yet: if no reference names a
   * target the slot stays missing, otherwise it is the list of the ids.
   */
  lemma {:induction false} AppendTargetsFresh(config: Value, path: seq<Key>, refs: seq<Entry>)
    requires Lookup(config, path).None?
    ensures Lookup(AppendTargets(config, path, refs), path)
            == if TargetIds(refs) == [] then None else Some(ListOf(TargetIds(refs)))
    decreases |refs|
  {
    if refs != [] {
      var r := refs[0].val;
      if HasTarget(r) {
        var x := Int(TargetId(r));
        LookupAppendPath(config, path, x);
        assert Append(Null, x) == ListOf([x]) by {
          assert Append(Null, x).entries == ListOf([x]).entries;
        }
        AppendTargetsList(AppendPath(config, path, x), path, refs[1..], [x]);
        assert TargetIds(refs) == [x] + TargetIds(refs[1..]);
      } else {
        assert TargetIds(refs) == TargetIds(refs[1..]);
        AppendTargetsFresh(config, path, refs[1..]);
      }
    }
  }

  /** Appending at `path` leaves every path that parts ways with it as it was. */
  lemma {:induction false} AppendTargetsOther(config: Value, path: seq<Key>, refs: seq<Entry>, q: seq<Key>)
    requires Diverge(path, q)
    ensures Lookup(AppendTargets(config, path, refs), q) == Lookup(config, q)
    decreases |refs|
  {
    if refs != [] {
      var r := refs[0].val;
      var next := if HasTarget(r) then AppendPath(config, path, Int(TargetId(r))) else config;
      if HasTarget(r) {
        LookupAppendPathOther(config, path, Int(TargetId(r)), q);
      }
      AppendTargetsOther(next, path, refs[1..], q);
    }
  }

  // ---------------------------------------------------------------------
  // The stages

  /**
   * Title, description and call to action, '' when not submitted. The
   * configuration starts empty, so its four writes build exactly this array.
   */
  function BaseConfig(value: Value): Value {
    Arr([Entry(StrKey("title"), Coalesce(Lookup(value, [StrKey("title")]), Str(""))),
         Entry(StrKey("description"), Coalesce(Lookup(value, [StrKey("description")]), Str(""))),
         Entry(StrKey("callToAction"), Arr([
           Entry(StrKey("text"), Coalesce(Lookup(value, [StrKey("callToAction"), StrKey("text")]), Str(""))),
           Entry(StrKey("url"), Coalesce(Lookup(value, [StrKey("callToAction"), StrKey("url")]), Str("")))]))])
  }

  /** The content types: the settings defaults when the filter is disabled and has defaults, else the submitted ones. */
  function ContentTypesStage(config: Value, value: Value, settings: Value): Value {
    var field := StrKey("contentTypes");
    var submitted := Lookup(value, [Tabs, Content, field]);
    if UsesDefaults(settings, field) then
      var d := SettingDefaults(settings, field);
      SetPath(config, ContentTypesPath, if Truthy(d) then FilteredValues(d) else Arr([]))
    else if Present(submitted) then
      SetPath(config, ContentTypesPath, if Truthy(submitted.value) then FilteredValues(submitted.value) else Arr([]))
    else config
  }

  /**
   * A disabled topic or tag filter that has defaults is treated as if its
   * defaults had been submitted; the submitted values themselves are changed.
   */
  function TermDefaults(value: Value, settings: Value, field: Key, wrapper: Key): Value {
    if UsesDefaults(settings, field) then
      SetPath(value, ReferencesPath(wrapper, field), Coalesce(Lookup(settings, SettingPath(field) + [DefaultValues]), Arr([])))
    else value
  }

  /** The topic (or tag) ids and operator, when any references were submitted. */
  function TermConfig(config: Value, value: Value, field: Key, wrapper: Key): Value {
    var refs := Lookup(value, ReferencesPath(wrapper, field));
    if Present(refs) then
      SetPath(AppendTargets(config, ContentFieldPath(field) + [Values], EntriesOf(refs.value)),
              ContentFieldPath(field) + [Operator],
              Coalesce(Lookup(value, [Tabs, Content, wrapper, Operator]), Str("OR")))
    else config
  }

  /** `str_replace('_wrapper', '', $wrapper_id)`, an integer key read as its decimal string. */
  function FieldIdOf(wrapperId: Key): Key {
    match wrapperId
    case IntKey(n) => StrKey(StrReplace(IntToString(n), "_wrapper", ""))
    case StrKey(s) => StrKey(StrReplace(s, "_wrapper", ""))
  }

  /** The values an extra (non-reference) filter stores: its truthy values reindexed, or the single value. */
  function ExtraValues(filter: Value): Value {
    var listed := if filter.Arr? then FilteredValues(filter) else ListOf([filter]);
    Arr(FilterTruthy(EntriesOf(listed)))
  }

  /** The state the advanced-filters loop carries: the configuration and the reference fields not yet consumed. */
  datatype Progress = Progress(config: Value, referenceFields: seq<Entry>)

  /** The wrapper as the loop sees it: a disabled filter with defaults gets them as its value. */
  function EffectiveWrapper(w: Entry, settings: Value): Value {
    var field := FieldIdOf(w.key);
    var sp := SettingPath(field);
    if Present(Lookup(settings, sp)) && UsesDefaults(settings, field) then
      SetPath(w.val, [field], Coalesce(Lookup(settings, sp + [DefaultValues]), Arr([])))
    else w.val
  }

  /** One pass of the advanced-filters loop over the wrapper `w`. */
  function AdvancedStep(p: Progress, w: Entry, settings: Value): Progress {
    var field := FieldIdOf(w.key);
    var wrapper := EffectiveWrapper(w, settings);
    var filter := Lookup(wrapper, [field]);
    if !Present(filter) then p
    else
      var vp := ContentFieldPath(field) + [Values];
      var isReference := IsSet(Get(p.referenceFields, field));
      var c1 := if isReference then AppendTargets(p.config, vp, EntriesOf(filter.value))
                else SetPath(p.config, vp, ExtraValues(filter.value));
      var refs := if isReference then Remove(p.referenceFields, field) else p.referenceFields;
      var c2 := if Present(Lookup(wrapper, [Operator]))
                then SetPath(c1, ContentFieldPath(field) + [Operator], LookupOrNull(wrapper, [Operator]))
                else c1;
      var c3 := if !Present(Lookup(c2, vp)) then UnsetPath(c2, ContentFieldPath(field)) else c2;
      Progress(c3, refs)
  }

  function AdvancedFilters(p: Progress, wrappers: seq<Entry>, settings: Value): Progress
    decreases |wrappers|
  {
    if wrappers == [] then p else AdvancedFilters(AdvancedStep(p, wrappers[0], settings), wrappers[1..], settings)
  }

  /** The settings defaults of one reference field the advanced filters did not consume. */
  function ReferenceDefaultsStep(config: Value, e: Entry, settings: Value): Value {
    if UsesDefaults(settings, e.key) then
      AppendTargets(config, ContentFieldPath(e.key) + [Values], EntriesOf(SettingDefaults(settings, e.key)))
    else config
  }

  function ReferenceDefaults(config: Value, refs: seq<Entry>, settings: Value): Value
    decreases |refs|
  {
    if refs == [] then config else ReferenceDefaults(ReferenceDefaultsStep(config, refs[0], settings), refs[1..], settings)
  }

  /**
   * `$criteria == 'range'` under PHP 7's loose comparison: a string equals it
   * as a string, TRUE equals it, and so does the integer 0 (the string
   * converts to 0).
   */
  predicate IsRangeCriteria(v: Value) {
    match v
    case Str(s) => s == "range"
    case Bool(b) => b
    case Int(i) => i == 0
    case _ => false
  }

  /** Where the date filter is submitted. */
  const DateFrom: seq<Key> := [Tabs, Content, DateFilter]

  /** A range end point that was submitted as a date, stored formatted. */
  function DateRangeEntry(date: Value, name: string, formatDate: int -> string): seq<Entry> {
    var x := Coalesce(Lookup(date, [StrKey("dateRange"), StrKey(name)]), Str(""));
    if x.DateTime? then [Entry(StrKey(name), Str(formatDate(x.instant)))] else []
  }

  /** `if (!empty($from)) $to = $from ?? '';` keeps the submitted value when it is not empty. */
  function CopiedEntry(value: Value, from: seq<Key>, name: string): seq<Entry> {
    var x := Lookup(value, from);
    if Present(x) then [Entry(StrKey(name), x.value)] else []
  }

  /** The range end points, written only when the criteria is 'range'. */
  function DateRange(date: Value, formatDate: int -> string): seq<Entry> {
    var criteria := Lookup(date, [StrKey("criteria")]);
    if Present(criteria) && IsRangeCriteria(criteria.value)
    then DateRangeEntry(date, "dateRangeStart", formatDate) + DateRangeEntry(date, "dateRangeEnd", formatDate)
    else []
  }

  /**
   * What the date-filter writes put under `internal.dateFilter`, in the order
   * they are made, from the submitted `dateFilter` array: the criteria, the
   * range end points, the start and end date fields.
   */
  function DateFilterEntries(date: Value, formatDate: int -> string): seq<Entry> {
    CopiedEntry(date, [StrKey("criteria")], "criteria") + DateRange(date, formatDate)
    + CopiedEntry(date, [StrKey("startDateField")], "startDateField")
    + CopiedEntry(date, [StrKey("endDateField")], "endDateField")
  }

  /**
   * The date filter. Nothing before it writes under `internal.dateFilter`, so
   * its writes build that array from nothing, and make no array when none applies.
   */
  function DateFilterStage(config: Value, value: Value, formatDate: int -> string): Value {
    var es := DateFilterEntries(LookupOrNull(value, DateFrom), formatDate);
    if es == [] then config else SetPath(config, DatePrefix, Arr(es))
  }

  function DisplayText(advanced: Value, name: string): Entry {
    Entry(StrKey(name), Coalesce(Lookup(advanced, [StrKey("display"), StrKey("options"), StrKey(name)]), Str("")))
  }

  /**
   * What the display writes put under `interface.display`, from the
   * submitted `layout` and `advanced` tabs: the layout type and card style
   * with their defaults, and the four display texts. Nothing before them
   * writes under `interface`, so they build exactly this array.
   */
  function DisplayTree(layout: Value, advanced: Value): Value {
    Arr([Entry(StrKey("type"), Coalesce(Lookup(layout, [StrKey("display"), StrKey("type")]), Str("grid"))),
         Entry(StrKey("resultComponent"), Arr([
           Entry(StrKey("style"), Coalesce(Lookup(layout, [StrKey("display"), StrKey("resultComponent"), StrKey("style")]), Str("thumbnail")))])),
         Entry(StrKey("options"), Arr([DisplayText(advanced, "resultsCountText"), DisplayText(advanced, "noResultsText"),
                                       DisplayText(advanced, "loadingText"), DisplayText(advanced, "errorText")]))])
  }

  const DisplayPath: seq<Key> := [StrKey("interface"), StrKey("display")]
  const SortPath: seq<Key> := [Internal, StrKey("sort")]

  /** The submitted `layout` and `advanced` tabs. */
  const LayoutTab: seq<Key> := [Tabs, StrKey("layout")]
  const AdvancedTab: seq<Key> := [Tabs, StrKey("advanced")]

  /** The sort field and direction of the submitted `layout` tab, each kept when it is not empty. */
  function SortEntries(layout: Value): seq<Entry> {
    CopiedEntry(layout, [Internal, StrKey("sort"), StrKey("field")], "field")
    + CopiedEntry(layout, [Internal, StrKey("sort"), StrKey("direction")], "direction")
  }

  /**
   * The display settings and the sort. Nothing before them writes under
   * `interface` or `internal.sort`; the sort makes no array when neither is submitted.
   */
  function DisplayStage(config: Value, value: Value): Value {
    var layout := LookupOrNull(value, LayoutTab);
    var c := SetPath(config, DisplayPath, DisplayTree(layout, LookupOrNull(value, AdvancedTab)));
    var sort := SortEntries(layout);
    if sort == [] then c else SetPath(c, SortPath, Arr(sort))
  }

  /** The configuration of one item, and the item's values as the defaults left them. */
  datatype Massaged = Massaged(config: Value, value: Value)

  function AdvancedWrappers(value: Value): seq<Entry> {
    EntriesOf(LookupOrNull(value, [Tabs, Content, StrKey("advanced_filters")]))
  }

  /** The advanced filters, then the defaults of the reference fields they did not consume. */
  function FiltersStage(config: Value, value: Value, settings: Value, referenceFields: seq<Entry>): Value {
    var p := AdvancedFilters(Progress(config, referenceFields), AdvancedWrappers(value), settings);
    ReferenceDefaults(p.config, p.referenceFields, settings)
  }

  /**
   * The configuration of one item up to its filters, and the item's values
   * as the topic and tag defaults left them (`$value` is iterated by
   * reference, and later steps read the changed values).
   */
  function FilteredItem(value: Value, settings: Value, referenceFields: seq<Entry>): Massaged {
    var c := ContentTypesStage(BaseConfig(value), value, settings);
    var v1 := TermDefaults(value, settings, FieldTopic, FieldTopicWrapper);
    var c := TermConfig(c, v1, FieldTopic, FieldTopicWrapper);
    var v2 := TermDefaults(v1, settings, FieldTags, FieldTagsWrapper);
    var c := TermConfig(c, v2, FieldTags, FieldTagsWrapper);
    Massaged(FiltersStage(c, v2, settings, referenceFields), v2)
  }

  /** What `massageFormValues` computes for one item, before encoding, in source order. */
  function MassagedItem(value: Value, settings: Value, referenceFields: seq<Entry>, formatDate: int -> string): Massaged {
    var m := FilteredItem(value, settings, referenceFields);
    Massaged(DisplayStage(DateFilterStage(m.config, m.value, formatDate), m.value), m.value)
  }

  /** The item after massaging: its values, with `value` set to the encoded configuration. */
  function MassagedValue(value: Value, settings: Value, referenceFields: seq<Entry>,
                         formatDate: int -> string, encode: Value -> Value): Value {
    var m := MassagedItem(value, settings, referenceFields, formatDate);
    SetPath(m.value, [StrKey("value")], encode(m.config))
  }

  // ---------------------------------------------------------------------
  // The methods

  /** The advanced-filters loop. */
  method AdvancedFilterLoop(config: Value, wrappers: seq<Entry>, referenceFields: seq<Entry>, settings: Value)
    returns (p: Progress)
    ensures p == AdvancedFilters(Progress(config, referenceFields), wrappers, settings)
  {
    p := Progress(config, referenceFields);
    var i := 0;
    while i < |wrappers|
      invariant 0 <= i <= |wrappers|
      invariant AdvancedFilters(p, wrappers[i..], settings) == AdvancedFilters(Progress(config, referenceFields), wrappers, settings)
    {
      assert wrappers[i..][1..] == wrappers[i + 1..];
      var field := FieldIdOf(wrappers[i].key);
      var wrapper := wrappers[i].val;
      if Present(Lookup(settings, SettingPath(field))) && UsesDefaults(settings, field) {
        wrapper := SetPath(wrapper, [field], Coalesce(Lookup(settings, SettingPath(field) + [DefaultValues]), Arr([])));
      }
      if Present(Lookup(wrapper, [field])) {
        var filter := LookupOrNull(wrapper, [field]);
        var vp := ContentFieldPath(field) + [Values];
        var c := p.config;
        var refs := p.referenceFields;
        if IsSet(Get(refs, field)) {
          c := AppendTargetIds(c, vp, filter);
          refs := Remove(refs, field);
        } else {
          c := SetPath(c, vp, ExtraValues(filter));
        }
        if Present(Lookup(wrapper, [Operator])) {
          c := SetPath(c, ContentFieldPath(field) + [Operator], LookupOrNull(wrapper, [Operator]));
        }
        if !Present(Lookup(c, vp)) {
          c := UnsetPath(c, ContentFieldPath(field));
        }
        p := Progress(c, refs);
      }
      i := i + 1;
    }
    assert wrappers[|wrappers|..] == [];
  }

  /** The loop over the reference fields the advanced filters left. */
  method ReferenceDefaultsLoop(config: Value, refs: seq<Entry>, settings: Value) returns (c: Value)
    ensures c == ReferenceDefaults(config, refs, settings)
  {
    c := config;
    var i := 0;
    while i < |refs|
      invariant 0 <= i <= |refs|
      invariant ReferenceDefaults(c, refs[i..], settings) == ReferenceDefaults(config, refs, settings)
    {
      assert refs[i..][1..] == refs[i + 1..];
      var field := refs[i].key;
      if UsesDefaults(settings, field) {
        c := AppendTargetIds(c, ContentFieldPath(field) + [Values], SettingDefaults(settings, field));
      }
      i := i + 1;
    }
    assert refs[|refs|..] == [];
  }

  /** The topic (or tags) part of one item: its defaults, then its ids and operator. */
  method TermStep(config: Value, value: Value, settings: Value, field: Key, wrapper: Key)
    returns (c: Value, v: Value)
    ensures v == TermDefaults(value, settings, field, wrapper)
    ensures c == TermConfig(config, v, field, wrapper)
  {
    v := TermDefaults(value, settings, field, wrapper);
    c := config;
    var refs := Lookup(v, ReferencesPath(wrapper, field));
    if Present(refs) {
      c := AppendTargetIds(c, ContentFieldPath(field) + [Values], refs.value);
      c := SetPath(c, ContentFieldPath(field) + [Operator], Coalesce(Lookup(v, [Tabs, Content, wrapper, Operator]), Str("OR")));
    }
  }

  /** The advanced filters and the reference-field defaults of one item. */
  method FiltersStep(config: Value, value: Value, settings: Value, referenceFields: seq<Entry>) returns (c: Value)
    ensures c == FiltersStage(config, value, settings, referenceFields)
  {
    var p := AdvancedFilterLoop(config, AdvancedWrappers(value), referenceFields, settings);
    c := ReferenceDefaultsLoop(p.config, p.referenceFields, settings);
  }

  /** One item: builds the configuration step by step. */
  method MassageItem(value: Value, settings: Value, referenceFields: seq<Entry>, formatDate: int -> string)
    returns (config: Value, massaged: Value)
    ensures Massaged(config, massaged) == MassagedItem(value, settings, referenceFields, formatDate)
  {
    config := BaseConfig(value);
    config := ContentTypesStage(config, value, settings);
    config, massaged := TermStep(config, value, settings, FieldTopic, FieldTopicWrapper);
    config, massaged := TermStep(config, massaged, settings, FieldTags, FieldTagsWrapper);
    config := FiltersStep(config, massaged, settings, referenceFields);
    config := DateFilterStage(config, massaged, formatDate);
    config := DisplayStage(config, massaged);
  }

  /** One item with `value` set to its encoded configuration. */
  method MassageValue(value: Value, settings: Value, referenceFields: seq<Entry>,
                      formatDate: int -> string, encode: Value -> Value)
    returns (item: Value)
    ensures item == MassagedValue(value, settings, referenceFields, formatDate, encode)
  {
    var config;
    config, item := MassageItem(value, settings, referenceFields, formatDate);
    item := SetPath(item, [StrKey("value")], encode(config));
  }

  /** The items after massaging, each under its own key and in its own place. */
  function MassagedValues(values: seq<Entry>, settings: Value, referenceFields: seq<Entry>,
                          formatDate: int -> string, encode: Value -> Value): seq<Entry>
  {
    if values == [] then []
    else MassagedValues(values[..|values| - 1], settings, referenceFields, formatDate, encode)
         + [Entry(values[|values| - 1].key, MassagedValue(values[|values| - 1].val, settings, referenceFields, formatDate, encode))]
  }

  /** Each item is massaged in its own place and keeps its key. */
  lemma {:induction false} MassagedValuesAt(values: seq<Entry>, j: nat, settings: Value, referenceFields: seq<Entry>,
                                            formatDate: int -> string, encode: Value -> Value)
    requires j < |values|
    ensures var r := MassagedValues(values, settings, referenceFields, formatDate, encode);
            |r| == |values| && r[j] == Entry(values[j].key, MassagedValue(values[j].val, settings, referenceFields, formatDate, encode))
    decreases |values|
  {
    if j < |values| - 1 {
      var init := values[..|values| - 1];
      MassagedValuesAt(init, j, settings, referenceFields, formatDate, encode);
      assert init[j] == values[j];
    } else if |values| > 1 {
      var init := values[..|values| - 1];
      MassagedValuesAt(init, 0, settings, referenceFields, formatDate, encode);
    }
  }

  lemma MassagedValuesSnoc(values: seq<Entry>, i: nat, settings: Value, referenceFields: seq<Entry>,
                           formatDate: int -> string, encode: Value -> Value, item: Value)
    requires i < |values|
    requires item == MassagedValue(values[i].val, settings, referenceFields, formatDate, encode)
    ensures MassagedValues(values[..i + 1], settings, referenceFields, formatDate, encode)
            == MassagedValues(values[..i], settings, referenceFields, formatDate, encode) + [Entry(values[i].key, item)]
  {
    assert values[..i + 1][..i] == values[..i];
  }

  method MassageFormValues(values: seq<Entry>, settings: Value, referenceFields: seq<Entry>,
                           formatDate: int -> string, encode: Value -> Value)
    returns (result: seq<Entry>)
    ensures result == MassagedValues(values, settings, referenceFields, formatDate, encode)
  {
    result := [];
    var i := 0;
    while i < |values|
      invariant 0 <= i <= |values|
      invariant result == MassagedValues(values[..i], settings, referenceFields, formatDate, encode)
    {
      var item := MassageValue(values[i].val, settings, referenceFields, formatDate, encode);
      MassagedValuesSnoc(values, i, settings, referenceFields, formatDate, encode, item);
      result := result + [Entry(values[i].key, item)];
      i := i + 1;
    }
    assert values[..|values|] == values;
  }
}
