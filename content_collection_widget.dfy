/**
 * The decision and option rules of the content-collection configuration
 * widget (the base, non-enhanced widget): the Form States element name, the
 * content-type allow-list, the date-field defaults, the sort options, the
 * early exits of the form element, the blocks of the settings form and the
 * extra filters contributed by hooks. Render arrays are reduced to the facts
 * the code decides: which block is built, which default it shows, which
 * options it offers.
 */
module ContentCollectionWidget {
  import opened PhpValues
  import opened PhpStrings
  import opened SearchIndex

  // ---------------------------------------------------------------------
  // getFormStatesElementName

  function Bracket(s: string): string { "[" + s + "]" }

  /** Every part wrapped in brackets, concatenated in order. */
  function Bracketed(parts: seq<string>): string {
    if parts == [] then "" else Bracketed(parts[..|parts| - 1]) + Bracket(parts[|parts| - 1])
  }

  /** The first parent as it is, every later parent in brackets. */
  function ParentsPrefix(parents: seq<string>): string {
    if parents == [] then "" else parents[0] + Bracketed(parents[1..])
  }

  /**
   * The input name the Form States API looks for: the field's parents, the
   * field name, the delta, and then each `|`-separated part of `elementName`.
   */
  function ElementName(elementName: string, parents: seq<string>, fieldName: string, delta: int): string {
    ParentsPrefix(parents) + Bracket(fieldName) + Bracket(IntToString(delta)) + Bracketed(Explode(elementName, '|'))
  }

  method FormStatesElementName(elementName: string, parents: seq<string>, fieldName: string, delta: int)
    returns (name: string)
    ensures name == ElementName(elementName, parents, fieldName, delta)
  {
    name := "";
    var i := 0;
    while i < |parents|
      invariant 0 <= i <= |parents|
      invariant name == ParentsPrefix(parents[..i])
    {
      ParentsPrefixStep(parents, i);
      name := name + (if i != 0 then Bracket(parents[i]) else parents[i]);
      i := i + 1;
    }
    assert parents[..|parents|] == parents;
    name := name + Bracket(fieldName);
    name := name + Bracket(IntToString(delta));
    var head := name;
    var segments := Explode(elementName, '|');
    var j := 0;
    while j < |segments|
      invariant 0 <= j <= |segments|
      invariant name == head + Bracketed(segments[..j])
    {
      BracketedStep(segments, j);
      name := name + Bracket(segments[j]);
      j := j + 1;
    }
    assert segments[..|segments|] == segments;
  }

  lemma ParentsPrefixStep(parents: seq<string>, i: nat)
    requires i < |parents|
    ensures ParentsPrefix(parents[..i + 1])
            == ParentsPrefix(parents[..i]) + (if i != 0 then Bracket(parents[i]) else parents[i])
  {
    if i != 0 {
      assert parents[..i + 1][1..] == parents[1..i + 1];
      assert parents[1..i + 1][..i - 1] == parents[1..i];
      assert parents[..i][1..] == parents[1..i];
    } else {
      assert parents[..1][1..] == [];
    }
  }

  lemma BracketedStep(parts: seq<string>, j: nat)
    requires j < |parts|
    ensures Bracketed(parts[..j + 1]) == Bracketed(parts[..j]) + Bracket(parts[j])
  {
    assert parts[..j + 1][..j] == parts[..j];
  }

  /** Bracketing distributes over concatenation. */
  lemma {:induction false} BracketedConcat(a: seq<string>, b: seq<string>)
    ensures Bracketed(a + b) == Bracketed(a) + Bracketed(b)
    decreases |b|
  {
    if b == [] {
      assert a + b == a;
    } else {
      var b' := b[..|b| - 1];
      assert (a + b)[..|a + b| - 1] == a + b';
      BracketedConcat(a, b');
    }
  }

  /** The parts are bracketed one after another, from the first. */
  lemma BracketedCons(p: string, rest: seq<string>)
    ensures Bracketed([p] + rest) == Bracket(p) + Bracketed(rest)
  {
    BracketedConcat([p], rest);
    assert [p][..0] == [];
  }

  /**
   * For an element name written as `|`-joined segments, the name ends with
   * each segment in brackets, in order, after the parents, the field name
   * and the delta.
   */
  lemma ElementNameOfSegments(segments: seq<string>, parents: seq<string>, fieldName: string, delta: int)
    requires |segments| >= 1
    requires forall i :: 0 <= i < |segments| ==> '|' !in segments[i]
    ensures ElementName(Implode(segments, "|"), parents, fieldName, delta)
            == ParentsPrefix(parents) + Bracket(fieldName) + Bracket(IntToString(delta)) + Bracketed(segments)
  {
    ExplodeImplode(segments, '|');
  }

  // ---------------------------------------------------------------------
  // The content-type allow-list (buildContentTab)

  /** The options whose key is set in the allow-list, in their order. */
  function AllowedOnly(options: seq<Entry>, allowed: seq<Entry>): (r: seq<Entry>)
    ensures forall e :: e in r <==> e in options && IsSet(Get(allowed, e.key))
  {
    if options == [] then []
    else (if IsSet(Get(allowed, options[0].key)) then [options[0]] else []) + AllowedOnly(options[1..], allowed)
  }

  /** The entries whose key is not in `ks`. */
  function DropKeys(es: seq<Entry>, ks: set<Key>): seq<Entry> {
    if es == [] then []
    else (if es[0].key in ks then [] else [es[0]]) + DropKeys(es[1..], ks)
  }

  lemma {:induction false} DropNoKeys(es: seq<Entry>)
    ensures DropKeys(es, {}) == es
  {
    if es != [] {
      DropNoKeys(es[1..]);
    }
  }

  lemma {:induction false} RemoveDropKeys(es: seq<Entry>, ks: set<Key>, k: Key)
    ensures Remove(DropKeys(es, ks), k) == DropKeys(es, ks + {k})
  {
    if es != [] {
      RemoveDropKeys(es[1..], ks, k);
      var rest := DropKeys(es[1..], ks);
      if es[0].key !in ks {
        assert ([es[0]] + rest)[0] == es[0] && ([es[0]] + rest)[1..] == rest;
      } else {
        assert [] + rest == rest;
      }
    }
  }

  lemma {:induction false} DropRejected(es: seq<Entry>, allowed: seq<Entry>, ks: set<Key>)
    requires forall i :: 0 <= i < |es| ==> (es[i].key in ks <==> !IsSet(Get(allowed, es[i].key)))
    ensures DropKeys(es, ks) == AllowedOnly(es, allowed)
  {
    if es != [] {
      assert forall i :: 0 <= i < |es[1..]| ==> es[1..][i] == es[i + 1];
      DropRejected(es[1..], allowed, ks);
    }
  }

  /**
   * The content-type options offered to the editor: when the truthy part of
   * the allow-list is non-empty, every option whose key it does not set is
   * unset; otherwise every option stays.
   */
  method OfferedContentTypes(options: seq<Entry>, allowedValues: Value) returns (offered: seq<Entry>)
    ensures var allowed := FilterTruthy(EntriesOf(allowedValues));
            offered == if allowed == [] then options else AllowedOnly(options, allowed)
  {
    var allowed := FilterTruthy(EntriesOf(allowedValues));
    offered := options;
    if allowed != [] {
      DropNoKeys(options);
      ghost var rejected: set<Key> := {};
      var i := 0;
      while i < |options|
        invariant 0 <= i <= |options|
        invariant offered == DropKeys(options, rejected)
        invariant forall k :: k in rejected ==> !IsSet(Get(allowed, k))
        invariant forall j :: 0 <= j < i && !IsSet(Get(allowed, options[j].key)) ==> options[j].key in rejected
      {
        var k := options[i].key;
        if !IsSet(Get(allowed, k)) {
          RemoveDropKeys(options, rejected, k);
          offered := Remove(offered, k);
          rejected := rejected + {k};
        }
        i := i + 1;
      }
      DropRejected(options, allowed, rejected);
    }
  }

  /** In an array with unique keys, the truthy filter finds a key exactly when its value is truthy. */
  lemma {:induction false} GetFilterTruthy(es: seq<Entry>, k: Key)
    requires UniqueKeys(es)
    ensures IsSet(Get(FilterTruthy(es), k)) <==> Present(Get(es, k))
  {
    if es != [] {
      assert UniqueKeys(es[1..]) by {
        assert forall i :: 0 <= i < |es[1..]| ==> es[1..][i] == es[i + 1];
      }
      GetFilterTruthy(es[1..], k);
      if es[0].key == k {
        var kept := FilterTruthy(es[1..]);
        FilterTruthyMembers(es[1..]);
        forall j | 0 <= j < |kept| ensures kept[j].key != k {
          assert kept[j] in es[1..];
          var m :| 0 <= m < |es[1..]| && es[1..][m] == kept[j];
          assert es[m + 1] == kept[j];
        }
        GetHasKey(kept, k);
      }
    }
  }

  /**
   * With a non-empty truthy allow-list, an option is offered exactly when it
   * is one of the options and its key is ticked (truthy) in the allow-list.
   */
  lemma OfferedExactlyAllowed(options: seq<Entry>, allowedValues: Value, e: Entry)
    requires UniqueKeys(EntriesOf(allowedValues))
    requires FilterTruthy(EntriesOf(allowedValues)) != []
    ensures e in AllowedOnly(options, FilterTruthy(EntriesOf(allowedValues)))
            <==> e in options && Present(Get(EntriesOf(allowedValues), e.key))
  {
    GetFilterTruthy(EntriesOf(allowedValues), e.key);
  }

  // ---------------------------------------------------------------------
  // Date filter defaults (buildContentTabDateFilters) and sort options
  // (buildLayoutTab)

  /**
   * The array key a scalar stands for in `$a[$x]`; None for an illegal offset.
   * Numeric strings are not turned into integer keys here.
   */
  function KeyOf(v: Value): Option<Key> {
    match v
    case Null => Some(StrKey(""))
    case Bool(b) => Some(IntKey(if b then 1 else 0))
    case Int(i) => Some(IntKey(i))
    case Str(s) => Some(StrKey(s))
    case _ => None
  }

  /** The options of the start and end date selects: "no mapping" first. */
  function DateFieldOptions(dateFields: seq<Entry>): seq<Entry> {
    Union([Entry(StrKey(""), Str("- No mapping -"))], dateFields)
  }

  /**
   * The default of the start (or end) date select: the stored field name
   * when it is a key of the index's date fields, else ''.
   */
  function DateFieldDefault(stored: Option<Value>, dateFields: seq<Entry>): (r: Value)
    ensures r == Str("") || (IsSet(stored) && r == stored.value)
    ensures r != Str("") ==> KeyOf(r).Some? && IsSet(Get(dateFields, KeyOf(r).value))
    ensures IsSet(stored) && KeyOf(stored.value).Some? && IsSet(Get(dateFields, KeyOf(stored.value).value))
            ==> r == stored.value
  {
    var x := Coalesce(stored, Str(""));
    match KeyOf(x)
    case Some(k) => if IsSet(Get(dateFields, k)) then x else Str("")
    case None => Str("")
  }

  /** The default is always one of the options of its select. */
  lemma DateFieldDefaultOffered(stored: Option<Value>, dateFields: seq<Entry>)
    ensures var r := DateFieldDefault(stored, dateFields);
            KeyOf(r).Some? && HasKey(DateFieldOptions(dateFields), KeyOf(r).value)
  {
    var r := DateFieldDefault(stored, dateFields);
    var none := [Entry(StrKey(""), Str("- No mapping -"))];
    UnionGet(none, dateFields, KeyOf(r).value);
    assert none[0].key == StrKey("");
    GetHasKey(none, KeyOf(r).value);
    GetHasKey(dateFields, KeyOf(r).value);
    GetHasKey(DateFieldOptions(dateFields), KeyOf(r).value);
  }

  /** The sort options: Relevance under the NULL (empty) key, then date fields, then string fields. */
  function SortOptions(dateFields: seq<Entry>, stringFields: seq<Entry>): seq<Entry> {
    var relevance := [Entry(StrKey(""), Str("Relevance"))];
    var withDates := if dateFields != [] then Union(relevance, dateFields) else relevance;
    if stringFields != [] then Union(withDates, stringFields) else withDates
  }

  /**
   * Relevance comes first and is never replaced; a date field is never
   * replaced by a string field of the same key; every other key reads as
   * the string field's label.
   */
  lemma SortOptionsGet(dateFields: seq<Entry>, stringFields: seq<Entry>, k: Key)
    ensures var r := SortOptions(dateFields, stringFields);
            r[0] == Entry(StrKey(""), Str("Relevance")) &&
            Get(r, k) == if k == StrKey("") then Some(Str("Relevance"))
                         else if HasKey(dateFields, k) then Get(dateFields, k)
                         else Get(stringFields, k)
  {
    var relevance := [Entry(StrKey(""), Str("Relevance"))];
    assert relevance[0].key == StrKey("");
    assert HasKey(relevance, k) <==> k == StrKey("");
    var withDates := if dateFields != [] then Union(relevance, dateFields) else relevance;
    UnionGet(relevance, dateFields, k);
    UnionGet(withDates, stringFields, k);
    GetHasKey(withDates, k);
    GetHasKey(dateFields, k);
    if stringFields == [] {
      assert Get(stringFields, k) == None;
    }
    if dateFields == [] {
      assert !HasKey(dateFields, k);
    }
  }

  // ---------------------------------------------------------------------
  // formElement of the base widget

  const InvalidIndexError: string := "Invalid Search API Index."
  const NoIndexError: string := "No Search API Index has been selected for this field."

  /** The error the form element shows instead of its tabs, or '' when the index loaded. */
  function IndexError(index: IndexResult): (r: string)
    ensures index == Invalid ==> r == InvalidIndexError
    ensures index == NotSelected ==> r == NoIndexError
    ensures index.Loaded? <==> r == ""
  {
    match index
    case Invalid => InvalidIndexError
    case NotSelected => NoIndexError
    case Loaded(_) => ""
  }

  /**
   * The call-to-action guard as the base widget writes it: it reads a path
   * out of the literal one-element list `['settings']`, not out of the
   * widget settings, so it holds for no settings at all.
   */
  predicate BaseCallToActionGuard(settings: Value) {
    var literal := ListOf([Str("settings")]);
    var path := [StrKey("content"), StrKey("enable_call_to_action")];
    Present(Lookup(literal, path)) && Truthy(LookupOrNull(literal, path))
  }

  /** The decoded stored value, or [] when it is empty or does not decode. */
  function BaseJsonObject(json: Value, decode: Value -> Value): (r: Value)
    ensures !Truthy(json) ==> r == Arr([])
    ensures Truthy(json) && decode(json) != Null ==> r == decode(json)
    ensures r != Null
  {
    if !Truthy(json) then Arr([])
    else if decode(json) == Null then Arr([])
    else decode(json)
  }

  datatype BaseElement = BaseElement(
    error: Option<string>,
    titleDefault: Value,
    descriptionDefault: Value,
    callToActionBuilt: bool,
    tabsBuilt: bool)

  /**
   * What the base widget's form element ends with: an element, or the
   * TypeError raised when the stored JSON decodes to a scalar, which the
   * content tab builder refuses for its array parameter.
   */
  datatype BaseOutcome = BaseBuilt(element: BaseElement) | BaseTypeError

  /** What the base widget's form element builds for the stored JSON `json`. */
  function BaseFormElement(index: IndexResult, json: Value, decode: Value -> Value, settings: Value): (r: BaseOutcome)
    ensures r == BaseTypeError <==> index.Loaded? && Truthy(json) && decode(json) != Null && !decode(json).Arr?
    ensures !index.Loaded? ==> r.BaseBuilt? && r.element.error == Some(IndexError(index)) && !r.element.tabsBuilt
    ensures index.Loaded? && r.BaseBuilt? ==> r.element.error.None? && r.element.tabsBuilt && BaseJsonObject(json, decode).Arr?
    ensures index.Loaded? && r.BaseBuilt? ==>
              r.element.titleDefault == Coalesce(Lookup(BaseJsonObject(json, decode), [StrKey("title")]), Str("")) &&
              r.element.descriptionDefault == Coalesce(Lookup(BaseJsonObject(json, decode), [StrKey("description")]), Str(""))
    ensures r.BaseBuilt? && r.element.callToActionBuilt ==> r.element.tabsBuilt
  {
    if !index.Loaded? then
      BaseBuilt(BaseElement(Some(IndexError(index)), Null, Null, false, false))
    else
      var jsonObject := BaseJsonObject(json, decode);
      if !jsonObject.Arr? then BaseTypeError
      else
        BaseBuilt(BaseElement(None,
                              Coalesce(Lookup(jsonObject, [StrKey("title")]), Str("")),
                              Coalesce(Lookup(jsonObject, [StrKey("description")]), Str("")),
                              BaseCallToActionGuard(settings),
                              true))
  }

  /** The base widget never builds its call-to-action group, whatever the settings say. */
  lemma BaseCallToActionNeverBuilt(index: IndexResult, json: Value, decode: Value -> Value, settings: Value)
    ensures var r := BaseFormElement(index, json, decode, settings);
            r.BaseBuilt? ==> !r.element.callToActionBuilt
  {
    var literal := ListOf([Str("settings")]);
    assert literal.entries == [Entry(IntKey(0), Str("settings"))];
    assert Get(literal.entries, StrKey("content")) == None;
  }

  // ---------------------------------------------------------------------
  // settingsForm: which blocks of the settings form are built

  /**
   * The block of one entity reference field: its id and title, the stored
   * defaults of its two checkboxes, and whether the default-values filter
   * is built.
   */
  datatype ReferenceBlock = ReferenceBlock(
    fieldId: Key,
    title: Value,
    enabledDefault: Value,
    showOperatorDefault: Value,
    defaultsBuilt: bool)

  datatype SettingsBlocks = SettingsBlocks(
    contentTypes: bool,
    fieldTopic: bool,
    fieldTopicDefaults: bool,
    fieldTags: bool,
    fieldTagsDefaults: bool,
    reference: seq<ReferenceBlock>)

  /** What `$this->index` holds once `getIndex` has answered `index`: the index, or NULL. */
  function HeldIndex(index: IndexResult): IndexResult {
    if index.Loaded? then index else Invalid
  }

  /** `$settings['settings']['content']['internal'][$fieldId][$name]`. */
  function InternalSetting(fieldId: Key, name: string): seq<Key> {
    [StrKey("settings"), StrKey("content"), StrKey("internal"), fieldId, StrKey(name)]
  }

  /** The fields excluded from the reference blocks: the hooks' answer, then field_topic and field_tags. */
  function ReferenceExcludes(hookExcludes: seq<Key>): (r: seq<Key>)
    ensures |r| == |hookExcludes| + 2 && r[..|hookExcludes|] == hookExcludes
    ensures StrKey("field_topic") in r && StrKey("field_tags") in r
    ensures forall k :: k in r ==> k in hookExcludes || k == StrKey("field_topic") || k == StrKey("field_tags")
  {
    hookExcludes + [StrKey("field_topic"), StrKey("field_tags")]
  }

  /**
   * One block per entity reference field, in order. `fields` maps each
   * field id to its label; `referenceFilter` is what the index helper's
   * reference-filter builder returns for a field. Each checkbox shows the
   * stored setting, or FALSE when there is none; the default-values filter
   * is built exactly when the builder returns a non-empty one.
   */
  function ReferenceBlocks(fields: seq<Entry>, settings: Value, referenceFilter: Key -> Value): (r: seq<ReferenceBlock>)
    ensures |r| == |fields|
    ensures forall i :: 0 <= i < |r| ==>
              r[i].fieldId == fields[i].key && r[i].title == fields[i].val
    ensures forall i :: 0 <= i < |r| ==>
              r[i].enabledDefault == Coalesce(Lookup(settings, InternalSetting(fields[i].key, "enabled")), Bool(false)) &&
              r[i].showOperatorDefault == Coalesce(Lookup(settings, InternalSetting(fields[i].key, "show_filter_operator")), Bool(false))
    ensures forall i :: 0 <= i < |r| ==> (r[i].defaultsBuilt <==> Truthy(referenceFilter(fields[i].key)))
  {
    if fields == [] then []
    else
      var f := fields[0];
      [ReferenceBlock(f.key, f.val,
                      Coalesce(Lookup(settings, InternalSetting(f.key, "enabled")), Bool(false)),
                      Coalesce(Lookup(settings, InternalSetting(f.key, "show_filter_operator")), Bool(false)),
                      Truthy(referenceFilter(f.key)))]
      + ReferenceBlocks(fields[1..], settings, referenceFilter)
  }

  /**
   * The blocks of the settings form. `index` is what `getIndex` answered;
   * `topicIndexed`/`tagsIndexed` are the index helper's checks, and
   * `topicFilter`/`tagsFilter` what its reference-filter builder returned.
   * `referenceFields` is what `getEntityReferenceFields` returned.
   */
  function SettingsFormBlocks(nodeTypes: seq<Entry>, index: IndexResult,
                              topicIndexed: IndexResult -> bool, tagsIndexed: IndexResult -> bool,
                              topicFilter: Value, tagsFilter: Value,
                              referenceFields: seq<Entry>, settings: Value,
                              referenceFilter: Key -> Value): (r: SettingsBlocks)
    ensures r.contentTypes <==> nodeTypes != []
    ensures r.fieldTopic <==> topicIndexed(index)
    ensures r.fieldTopicDefaults <==> r.fieldTopic && topicIndexed(HeldIndex(index)) && Truthy(topicFilter)
    ensures r.fieldTagsDefaults <==> r.fieldTags && tagsIndexed(HeldIndex(index)) && Truthy(tagsFilter)
    ensures |r.reference| == |referenceFields|
    ensures forall i :: 0 <= i < |r.reference| ==>
              r.reference[i].fieldId == referenceFields[i].key &&
              (r.reference[i].defaultsBuilt <==> Truthy(referenceFilter(referenceFields[i].key)))
  {
    var topic := topicIndexed(index);
    SettingsBlocks(
      nodeTypes != [],
      topic,
      topic && topicIndexed(HeldIndex(index)) && Truthy(topicFilter),
      topic,
      topic && tagsIndexed(HeldIndex(index)) && Truthy(tagsFilter),
      ReferenceBlocks(referenceFields, settings, referenceFilter))
  }

  /**
   * The field_tags block is guarded by the topic check: it is built exactly
   * when the field_topic block is, whatever the tags check says.
   */
  lemma TagsBlockFollowsTopic(nodeTypes: seq<Entry>, index: IndexResult,
                              topicIndexed: IndexResult -> bool,
                              tagsIndexed: IndexResult -> bool, otherTagsIndexed: IndexResult -> bool,
                              topicFilter: Value, tagsFilter: Value,
                              referenceFields: seq<Entry>, settings: Value, referenceFilter: Key -> Value)
    ensures var r := SettingsFormBlocks(nodeTypes, index, topicIndexed, tagsIndexed, topicFilter, tagsFilter,
                                        referenceFields, settings, referenceFilter);
            r.fieldTags == r.fieldTopic == topicIndexed(index) &&
            r.fieldTags == SettingsFormBlocks(nodeTypes, index, topicIndexed, otherTagsIndexed, topicFilter, tagsFilter,
                                              referenceFields, settings, referenceFilter).fieldTags
  {
  }

  // ---------------------------------------------------------------------
  // buildContentTabAdvancedExtraFilters

  /** An extra filter's wrapper in the advanced-filters group. */
  datatype ExtraWrapper = ExtraWrapper(
    fieldId: Key,
    title: string,
    filter: Value,
    operator: Option<OperatorSelect>,
    open: bool)

  /**
   * The wrapper one extra filter gets, when the index has its field
   * (`fieldTitle` is that field's label). `contentFields` is the stored
   * `internal.contentFields`.
   */
  function ExtraWrapperFor(e: Entry, fieldTitle: Option<string>, contentFields: Value): Option<ExtraWrapper> {
    match fieldTitle
    case None => None
    case Some(l) =>
      var operator :=
        if Present(Lookup(e.val, [StrKey("#disable_filter_operator")])) then None
        else Some(FilterOperatorSelect(Coalesce(Lookup(contentFields, [e.key, StrKey("operator")]), Str("OR"))));
      Some(ExtraWrapper(e.key, l, e.val, operator, IsSet(Lookup(contentFields, [e.key, StrKey("values")]))))
  }

  /** The wrappers of the extra filters, in the order the hooks returned them. */
  function ExtraWrappers(filters: seq<Entry>, fieldLabel: Key -> Option<string>, contentFields: Value): seq<ExtraWrapper> {
    if filters == [] then []
    else
      var w := ExtraWrapperFor(filters[0], fieldLabel(filters[0].key), contentFields);
      (if w.Some? then [w.value] else []) + ExtraWrappers(filters[1..], fieldLabel, contentFields)
  }

  predicate AnyOpen(ws: seq<ExtraWrapper>) {
    exists i :: 0 <= i < |ws| && ws[i].open
  }

  /**
   * Adds a wrapper for every extra filter whose field the index has, and
   * turns on the advanced-filters access flag and the "show" default as the
   * wrappers require. `extraFilters` is what the build hooks and their
   * alter hooks returned.
   */
  method BuildExtraFilters(extraFilters: Value, fieldLabel: Key -> Option<string>, contentFields: Value,
                           accessBefore: bool, showBefore: bool)
    returns (wrappers: seq<ExtraWrapper>, access: bool, showByDefault: bool)
    ensures wrappers == ExtraWrappers(EntriesOf(extraFilters), fieldLabel, contentFields)
    ensures access == (accessBefore || wrappers != [])
    ensures showByDefault == (showBefore || AnyOpen(wrappers))
  {
    wrappers := [];
    access := accessBefore;
    showByDefault := showBefore;
    if Truthy(extraFilters) && extraFilters.Arr? {
      var filters := extraFilters.entries;
      var i := 0;
      while i < |filters|
        invariant 0 <= i <= |filters|
        invariant ExtraWrappers(filters, fieldLabel, contentFields)
                  == wrappers + ExtraWrappers(filters[i..], fieldLabel, contentFields)
        invariant access == (accessBefore || wrappers != [])
        invariant showByDefault == (showBefore || AnyOpen(wrappers))
      {
        var w := ExtraWrapperFor(filters[i], fieldLabel(filters[i].key), contentFields);
        ExtraWrappersStep(filters, fieldLabel, contentFields, i, wrappers);
        if w.Some? {
          access := true;
          if w.value.open {
            showByDefault := true;
          }
          AnyOpenSnoc(wrappers, w.value);
          wrappers := wrappers + [w.value];
        }
        i := i + 1;
      }
      assert filters[|filters|..] == [];
    }
  }

  lemma ExtraWrappersStep(filters: seq<Entry>, fieldLabel: Key -> Option<string>, contentFields: Value,
                          i: nat, done: seq<ExtraWrapper>)
    requires i < |filters|
    ensures var w := ExtraWrapperFor(filters[i], fieldLabel(filters[i].key), contentFields);
            done + ExtraWrappers(filters[i..], fieldLabel, contentFields)
            == (if w.Some? then done + [w.value] else done) + ExtraWrappers(filters[i + 1..], fieldLabel, contentFields)
  {
    assert filters[i..][0] == filters[i];
    assert filters[i..][1..] == filters[i + 1..];
  }

  lemma AnyOpenSnoc(ws: seq<ExtraWrapper>, w: ExtraWrapper)
    ensures AnyOpen(ws + [w]) <==> AnyOpen(ws) || w.open
  {
    if w.open {
      assert (ws + [w])[|ws|] == w;
    }
    if AnyOpen(ws) {
      var m :| 0 <= m < |ws| && ws[m].open;
      assert (ws + [w])[m] == ws[m];
    }
    if AnyOpen(ws + [w]) {
      var m :| 0 <= m < |ws + [w]| && (ws + [w])[m].open;
      if m < |ws| {
        assert (ws + [w])[m] == ws[m];
      }
    }
  }

  /**
   * Every extra filter whose field the index has gets a wrapper holding the
   * filter exactly as the hook gave it; nothing else gets one. No field is
   * skipped for being an entity reference field.
   */
  lemma {:induction false} ExtraWrappersCover(filters: seq<Entry>, fieldLabel: Key -> Option<string>, contentFields: Value, i: int)
    requires 0 <= i < |filters|
    requires fieldLabel(filters[i].key).Some?
    ensures exists j :: 0 <= j < |ExtraWrappers(filters, fieldLabel, contentFields)|
                        && ExtraWrappers(filters, fieldLabel, contentFields)[j].fieldId == filters[i].key
                        && ExtraWrappers(filters, fieldLabel, contentFields)[j].filter == filters[i].val
                        && ExtraWrappers(filters, fieldLabel, contentFields)[j].title == fieldLabel(filters[i].key).value
  {
    var w := ExtraWrapperFor(filters[0], fieldLabel(filters[0].key), contentFields);
    var head := if w.Some? then [w.value] else [];
    var rest := ExtraWrappers(filters[1..], fieldLabel, contentFields);
    assert ExtraWrappers(filters, fieldLabel, contentFields) == head + rest;
    if i == 0 {
      assert (head + rest)[0] == w.value;
    } else {
      ExtraWrappersCover(filters[1..], fieldLabel, contentFields, i - 1);
      var j :| 0 <= j < |rest| && rest[j].fieldId == filters[i].key && rest[j].filter == filters[i].val
               && rest[j].title == fieldLabel(filters[i].key).value;
      assert (head + rest)[|head| + j] == rest[j];
    }
  }

  /** Each wrapper comes from an extra filter the index has, and offers an operator exactly when the filter does not disable it. */
  lemma {:induction false} ExtraWrappersSound(filters: seq<Entry>, fieldLabel: Key -> Option<string>, contentFields: Value, j: int)
    requires 0 <= j < |ExtraWrappers(filters, fieldLabel, contentFields)|
    ensures var w := ExtraWrappers(filters, fieldLabel, contentFields)[j];
            Entry(w.fieldId, w.filter) in filters && fieldLabel(w.fieldId) == Some(w.title) &&
            (w.operator.None? <==> Present(Lookup(w.filter, [StrKey("#disable_filter_operator")])))
  {
    var w := ExtraWrapperFor(filters[0], fieldLabel(filters[0].key), contentFields);
    var head := if w.Some? then [w.value] else [];
    var rest := ExtraWrappers(filters[1..], fieldLabel, contentFields);
    assert ExtraWrappers(filters, fieldLabel, contentFields) == head + rest;
    if j < |head| {
      assert (head + rest)[j] == w.value;
      assert Entry(filters[0].key, filters[0].val) == filters[0];
    } else {
      ExtraWrappersSound(filters[1..], fieldLabel, contentFields, j - |head|);
      assert (head + rest)[j] == rest[j - |head|];
      assert forall e :: e in filters[1..] ==> e in filters;
    }
  }
}
