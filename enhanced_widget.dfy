/**
 * The enhanced content-collection widget: the stored configuration is a JSON
 * text, edited through a few companion form fields. Modelled here is the
 * part that decides: which form `formElement` builds (or why it stops early),
 * what `validateJson` reports, the settings summary and the default settings.
 * JSON decoding, the schema validator, the index helper's checks and
 * `getSetting` (the widget's settings merged over its defaults, as the
 * plugin base class serves them) are parameters.
 */
module EnhancedWidget {
  import opened PhpValues
  import opened PhpStrings
  import opened SearchIndex

  // ---------------------------------------------------------------------
  // defaultSettings

  /** The widget's own defaults, which win over the parent widget's. */
  const OwnDefaults: seq<Entry> := [
    Entry(StrKey("schema_validation"), Bool(false)),
    Entry(StrKey("callToAction"), Bool(false)),
    Entry(StrKey("contentTypes"), Bool(true)),
    Entry(StrKey("field_topic"), Bool(true)),
    Entry(StrKey("field_tags"), Bool(true))]

  /** `defaultSettings()`: the own defaults united with the parent's (`+`). */
  function DefaultSettings(parentDefaults: seq<Entry>): seq<Entry> {
    Union(OwnDefaults, parentDefaults)
  }

  /**
   * Schema validation and the call to action start off, the three filter
   * blocks start on, whatever the parent says; every other key is the
   * parent's.
   */
  lemma DefaultSettingsGet(parentDefaults: seq<Entry>, k: Key)
    ensures var d := DefaultSettings(parentDefaults);
            && Get(d, StrKey("schema_validation")) == Some(Bool(false))
            && Get(d, StrKey("callToAction")) == Some(Bool(false))
            && Get(d, StrKey("contentTypes")) == Some(Bool(true))
            && Get(d, StrKey("field_topic")) == Some(Bool(true))
            && Get(d, StrKey("field_tags")) == Some(Bool(true))
            && (!HasKey(OwnDefaults, k) ==> Get(d, k) == Get(parentDefaults, k))
  {
    UnionGet(OwnDefaults, parentDefaults, k);
    OwnDefaultWins(parentDefaults, StrKey("schema_validation"), Bool(false));
    OwnDefaultWins(parentDefaults, StrKey("callToAction"), Bool(false));
    OwnDefaultWins(parentDefaults, StrKey("contentTypes"), Bool(true));
    OwnDefaultWins(parentDefaults, StrKey("field_topic"), Bool(true));
    OwnDefaultWins(parentDefaults, StrKey("field_tags"), Bool(true));
  }

  /** An own default is what the merged defaults hold under its key. */
  lemma OwnDefaultWins(parentDefaults: seq<Entry>, k: Key, x: Value)
    requires Get(OwnDefaults, k) == Some(x)
    ensures Get(DefaultSettings(parentDefaults), k) == Some(x)
  {
    GetHasKey(OwnDefaults, k);
    UnionGet(OwnDefaults, parentDefaults, k);
  }

  // ---------------------------------------------------------------------
  // settingsSummary

  /** 'Enabled' or 'Disabled', as the setting is truthy or not. */
  function Status(setting: string -> Value, name: string): string {
    if Truthy(setting(name)) then "Enabled" else "Disabled"
  }

  /** The five lines the widget adds to the summary, in this order. */
  function SummaryLines(setting: string -> Value): seq<string> {
    [ "Validate against the JSON schema: " +
        (if Truthy(setting("schema_validation")) then "Yes" else "No"),
      "Call To Action Field: " + Status(setting, "callToAction"),
      "Content Types Field: " + Status(setting, "contentTypes"),
      "Content Topics Field: " + Status(setting, "field_topic"),
      "Content Tags Field: " + Status(setting, "field_tags") ]
  }

  /** Whether two settings agree on the truthiness of the five summarised settings. */
  predicate SameSummarised(a: string -> Value, b: string -> Value) {
    && (Truthy(a("schema_validation")) <==> Truthy(b("schema_validation")))
    && (Truthy(a("callToAction")) <==> Truthy(b("callToAction")))
    && (Truthy(a("contentTypes")) <==> Truthy(b("contentTypes")))
    && (Truthy(a("field_topic")) <==> Truthy(b("field_topic")))
    && (Truthy(a("field_tags")) <==> Truthy(b("field_tags")))
  }

  /** A fixed label followed by different words gives different lines. */
  lemma LabelInjective(prefix: string, x: string, y: string)
    requires prefix + x == prefix + y
    ensures x == y
  {
    assert x == (prefix + x)[|prefix|..];
    assert y == (prefix + y)[|prefix|..];
  }

  /** A line that shows one of two different words shows the same word exactly when the switches agree. */
  lemma SwitchLine(prefix: string, on: string, off: string, p: bool, q: bool)
    requires on != off
    ensures prefix + (if p then on else off) == prefix + (if q then on else off) <==> (p <==> q)
  {
    if prefix + (if p then on else off) == prefix + (if q then on else off) {
      LabelInjective(prefix, if p then on else off, if q then on else off);
    }
  }

  /**
   * The summary tells the five settings apart exactly: two settings give the
   * same lines if and only if they agree on each of the five switches.
   */
  lemma SummaryLinesDetermine(a: string -> Value, b: string -> Value)
    ensures SummaryLines(a) == SummaryLines(b) <==> SameSummarised(a, b)
  {
    var la, lb := SummaryLines(a), SummaryLines(b);
    if la == lb {
      SwitchLine("Validate against the JSON schema: ", "Yes", "No",
                 Truthy(a("schema_validation")), Truthy(b("schema_validation")));
      SwitchLine("Call To Action Field: ", "Enabled", "Disabled",
                 Truthy(a("callToAction")), Truthy(b("callToAction")));
      SwitchLine("Content Types Field: ", "Enabled", "Disabled",
                 Truthy(a("contentTypes")), Truthy(b("contentTypes")));
      SwitchLine("Content Topics Field: ", "Enabled", "Disabled",
                 Truthy(a("field_topic")), Truthy(b("field_topic")));
      SwitchLine("Content Tags Field: ", "Enabled", "Disabled",
                 Truthy(a("field_tags")), Truthy(b("field_tags")));
    }
  }

  /** `settingsSummary()`: the parent's lines, then the five lines, appended one by one. */
  method SettingsSummary(parentSummary: seq<string>, setting: string -> Value) returns (summary: seq<string>)
    ensures |summary| == |parentSummary| + 5
    ensures summary[..|parentSummary|] == parentSummary
    ensures summary[|parentSummary|..] == SummaryLines(setting)
  {
    summary := parentSummary;
    var validation := if Truthy(setting("schema_validation")) then "Yes" else "No";
    summary := summary + ["Validate against the JSON schema: " + validation];
    summary := summary + ["Call To Action Field: " + Status(setting, "callToAction")];
    summary := summary + ["Content Types Field: " + Status(setting, "contentTypes")];
    summary := summary + ["Content Topics Field: " + Status(setting, "field_topic")];
    summary := summary + ["Content Tags Field: " + Status(setting, "field_tags")];
  }

  // ---------------------------------------------------------------------
  // formElement

  /** The index helper's checks on the loaded index. */
  datatype IndexChecks = IndexChecks(
    nodeTypeIndexed: Index -> bool,
    topicIndexed: Index -> bool,
    tagsIndexed: Index -> bool)

  /** A reference filter of the content tab: the default values handed to the helper, and the operator select. */
  datatype TermFilter = TermFilter(defaultValues: Value, operator: OperatorSelect)

  /** The content tab: which blocks it holds, with their defaults. */
  datatype ContentTab = ContentTab(
    contentTypes: Option<Value>,
    topic: Option<TermFilter>,
    tags: Option<TermFilter>)

  /**
   * The element `formElement` returns, reduced to what it decides: whether the
   * code editor is used, whether the raw JSON field is accessible, the index
   * error shown, the defaults of the title and description fields, whether the
   * call-to-action group exists, and the tabs (the layout tab is always an
   * empty group, so only the content tab is kept).
   */
  datatype Element = Element(
    codeMirror: bool,
    valueAccess: bool,
    error: Option<string>,
    title: Option<Value>,
    description: Option<Value>,
    callToAction: bool,
    tabs: Option<ContentTab>)

  /**
   * What `formElement` ends with: an element, or the TypeError raised when the
   * stored JSON decodes to a scalar, which `buildContentTab` does not accept as
   * its `array` parameter.
   */
  datatype FormOutcome = Built(element: Element) | TypeError

  const InvalidIndexMessage := "Invalid Search API Index."
  const NoIndexMessage := "No Search API Index has been selected for this field."

  /** The reference filter for `field`, defaulting to what the decoded JSON stores under it. */
  function TermFilterOf(json: Value, field: string): TermFilter {
    var stored := [StrKey("internal"), StrKey("contentFields"), StrKey(field)];
    TermFilter(
      Coalesce(Lookup(json, stored + [StrKey("values")]), Arr([])),
      FilterOperatorSelect(Coalesce(Lookup(json, stored + [StrKey("operator")]), Str("OR"))))
  }

  /**
   * The content tab `buildContentTab` adds for the loaded `index`: a block
   * for each filter the index covers and the settings turn on, each
   * defaulting to what the decoded JSON stores for it.
   */
  function ContentTabOf(index: Index, json: Value, setting: string -> Value, checks: IndexChecks): ContentTab {
    ContentTab(
      if checks.nodeTypeIndexed(index) && Truthy(setting("contentTypes"))
      then Some(Coalesce(Lookup(json, [StrKey("internal"), StrKey("contentTypes")]), Arr([])))
      else None,
      if checks.topicIndexed(index) && Truthy(setting("field_topic"))
      then Some(TermFilterOf(json, "field_topic")) else None,
      if checks.tagsIndexed(index) && Truthy(setting("field_tags"))
      then Some(TermFilterOf(json, "field_tags")) else None)
  }

  /** `buildContentTab`: adds the blocks one by one. */
  method BuildContentTab(index: Index, json: Value, setting: string -> Value, checks: IndexChecks)
    returns (content: ContentTab)
    ensures content == ContentTabOf(index, json, setting, checks)
  {
    content := ContentTab(None, None, None);
    if checks.nodeTypeIndexed(index) && Truthy(setting("contentTypes")) {
      content := content.(contentTypes := Some(Coalesce(Lookup(json, [StrKey("internal"), StrKey("contentTypes")]), Arr([]))));
    }
    if checks.topicIndexed(index) && Truthy(setting("field_topic")) {
      content := content.(topic := Some(TermFilterOf(json, "field_topic")));
    }
    if checks.tagsIndexed(index) && Truthy(setting("field_tags")) {
      content := content.(tags := Some(TermFilterOf(json, "field_tags")));
    }
  }

  /**
   * The outcome of `formElement`, once `getIndex` has answered `index`.
   * `webform` says whether the webform module exists, `stored` is the field's
   * text and `decode` is `json_decode`, NULL for text that does not decode.
   */
  function FormElementOutcome(index: IndexResult, webform: bool, stored: Value, decode: Value -> Value,
                              setting: string -> Value, checks: IndexChecks): FormOutcome
  {
    if !index.Loaded? then
      Built(Element(webform, false, Some(if index == Invalid then InvalidIndexMessage else NoIndexMessage),
                    None, None, false, None))
    else if Truthy(stored) && decode(stored) == Null then
      Built(Element(webform, true, None, None, None, false, None))
    else
      var json := if Truthy(stored) then decode(stored) else Null;
      if !json.Null? && !json.Arr? then TypeError
      else
        Built(Element(webform, false, None,
                      Some(Coalesce(Lookup(json, [StrKey("title")]), Str(""))),
                      Some(Coalesce(Lookup(json, [StrKey("description")]), Str(""))),
                      Truthy(setting("callToAction")),
                      Some(ContentTabOf(index.index, json, setting, checks))))
  }

  /**
   * The decisions `formElement` takes: the index errors, the raw field for a
   * text that does not decode, when the tabs and the TypeError happen, and
   * which blocks the content tab holds.
   */
  lemma FormElementDecisions(index: IndexResult, webform: bool, stored: Value, decode: Value -> Value,
                             setting: string -> Value, checks: IndexChecks)
    // Without an index only the error is added, and which error names the reason.
    ensures index == Invalid ==>
              FormElementOutcome(index, webform, stored, decode, setting, checks)
              == Built(Element(webform, false, Some(InvalidIndexMessage), None, None, false, None))
    ensures index == NotSelected ==>
              FormElementOutcome(index, webform, stored, decode, setting, checks)
              == Built(Element(webform, false, Some(NoIndexMessage), None, None, false, None))
    ensures var r := FormElementOutcome(index, webform, stored, decode, setting, checks);
            r.Built? && r.element.error.Some? <==> !index.Loaded?
    // A stored text that does not decode opens the raw field and builds nothing else.
    ensures index.Loaded? && Truthy(stored) && decode(stored) == Null ==>
              FormElementOutcome(index, webform, stored, decode, setting, checks)
              == Built(Element(webform, true, None, None, None, false, None))
    ensures var r := FormElementOutcome(index, webform, stored, decode, setting, checks);
            r.Built? && r.element.valueAccess <==> index.Loaded? && Truthy(stored) && decode(stored) == Null
    // The tabs are built exactly when there is an index and the text is empty or decodes to an array.
    ensures var r := FormElementOutcome(index, webform, stored, decode, setting, checks);
            r.Built? && r.element.tabs.Some? <==> index.Loaded? && (!Truthy(stored) || decode(stored).Arr?)
    ensures var r := FormElementOutcome(index, webform, stored, decode, setting, checks);
            r == TypeError <==> index.Loaded? && Truthy(stored) && !decode(stored).Null? && !decode(stored).Arr?
    // The call-to-action group follows its setting once the form gets that far.
    ensures var r := FormElementOutcome(index, webform, stored, decode, setting, checks);
            r.Built? ==>
              (r.element.callToAction <==> r.element.title.Some? && Truthy(setting("callToAction")))
    // The content tab holds a block exactly when the index covers it and its setting is on.
    ensures var r := FormElementOutcome(index, webform, stored, decode, setting, checks);
            r.Built? && r.element.tabs.Some? ==>
              var tab := r.element.tabs.value;
              && (tab.contentTypes.Some? <==>
                    checks.nodeTypeIndexed(index.index) && Truthy(setting("contentTypes")))
              && (tab.topic.Some? <==>
                    checks.topicIndexed(index.index) && Truthy(setting("field_topic")))
              && (tab.tags.Some? <==>
                    checks.tagsIndexed(index.index) && Truthy(setting("field_tags")))
  {
  }

  /**
   * The defaults the form shows are what the stored JSON holds, and the
   * empty string, the empty list or 'OR' where it holds nothing; an empty
   * stored text shows the defaults throughout.
   */
  lemma FormElementDefaults(index: IndexResult, webform: bool, stored: Value, decode: Value -> Value,
                            setting: string -> Value, checks: IndexChecks)
    requires FormElementOutcome(index, webform, stored, decode, setting, checks).Built?
    ensures var e := FormElementOutcome(index, webform, stored, decode, setting, checks).element;
            var json := if Truthy(stored) then decode(stored) else Null;
            && (e.tabs.Some? ==> e.title == Some(Coalesce(Lookup(json, [StrKey("title")]), Str(""))))
            && (e.tabs.Some? && !Truthy(stored) ==> e.title == Some(Str("")) && e.description == Some(Str("")))
            && (e.tabs.Some? && e.tabs.value.topic.Some? && !Truthy(stored) ==>
                  e.tabs.value.topic.value == TermFilter(Arr([]), OperatorSelect(Str("OR"), ["AND", "OR"])))
            && (e.tabs.Some? && e.tabs.value.tags.Some? ==>
                  e.tabs.value.tags.value.operator.defaultValue != Null)
  {
    var json := if Truthy(stored) then decode(stored) else Null;
    var stored3 := [StrKey("internal"), StrKey("contentFields"), StrKey("field_tags")];
    StoredOperatorSelect(Lookup(json, stored3 + [StrKey("operator")]));
    if !Truthy(stored) {
      LookupNull([StrKey("title")]);
      LookupNull([StrKey("description")]);
      LookupNull([StrKey("internal"), StrKey("contentFields"), StrKey("field_topic"), StrKey("values")]);
      LookupNull([StrKey("internal"), StrKey("contentFields"), StrKey("field_topic"), StrKey("operator")]);
    }
  }

  /**
   * `formElement`: asks the widget for its index (which may cache it), then
   * builds the element step by step, returning early without an index or
   * with a stored text that does not decode.
   */
  method FormElement(w: IndexedWidget, webform: bool, stored: Value, decode: Value -> Value,
                     setting: string -> Value, checks: IndexChecks) returns (o: FormOutcome)
    requires w.Valid()
    modifies w`index
    ensures w.Valid()
    ensures w.index == CachedAfter(old(w.index), IndexOutcome(old(w.index), w.indexSetting, w.load, w.isValidNodeIndex))
    ensures o == FormElementOutcome(IndexOutcome(old(w.index), w.indexSetting, w.load, w.isValidNodeIndex),
                                    webform, stored, decode, setting, checks)
  {
    var element := Element(webform, false, None, None, None, false, None);
    var index := w.GetIndex();
    if !index.Loaded? {
      var message := if index == Invalid then InvalidIndexMessage else NoIndexMessage;
      element := element.(error := Some(message));
      return Built(element);
    }
    var json := Null;
    if Truthy(stored) {
      json := decode(stored);
      if json == Null {
        element := element.(valueAccess := true);
        return Built(element);
      }
    }
    element := element.(title := Some(Coalesce(Lookup(json, [StrKey("title")]), Str(""))));
    element := element.(description := Some(Coalesce(Lookup(json, [StrKey("description")]), Str(""))));
    if Truthy(setting("callToAction")) {
      element := element.(callToAction := true);
    }
    if !json.Null? && !json.Arr? {
      return TypeError;
    }
    var content := BuildContentTab(index.index, json, setting, checks);
    element := element.(tabs := Some(content));
    o := Built(element);
  }

  // ---------------------------------------------------------------------
  // validateJson

  /** One violation the schema validator reports. */
  datatype Violation = Violation(property: string, message: string)

  /** How one violation is written: `[property] message`. */
  function ViolationText(v: Violation): string {
    "[" + v.property + "] " + v.message
  }

  /** The written violations, one per violation and in the validator's order. */
  function ViolationTexts(vs: seq<Violation>): (r: seq<string>)
    ensures |r| == |vs|
    ensures forall k :: 0 <= k < |vs| ==> r[k] == ViolationText(vs[k])
  {
    if vs == [] then [] else ViolationTexts(vs[..|vs| - 1]) + [ViolationText(vs[|vs| - 1])]
  }

  const InvalidJsonMessage := "Invalid JSON."
  const ViolationsPrefix := "JSON does not validate against the schema. Violations: "

  /** The error message for a non-empty list of violations. */
  function ViolationsMessage(vs: seq<Violation>): string {
    ViolationsPrefix + Implode(ViolationTexts(vs), " - ") + "."
  }

  /**
   * The error `validateJson` sets, if any. `json` is the submitted text,
   * `schema` the field storage's `schema` setting, `decode` is `json_decode`
   * (NULL for text that does not decode) and `validate` the schema validator,
   * which answers the violations it finds.
   */
  function ValidationError(json: Value, decode: Value -> Value, setting: string -> Value, schema: Value,
                           validate: (Value, Value) -> seq<Violation>): (r: Option<string>)
    // An empty value is never an error.
    ensures !Truthy(json) ==> r == None
    // Text that does not decode is reported as such, whatever the schema says.
    ensures Truthy(json) && decode(json) == Null ==> r == Some(InvalidJsonMessage)
    // Any other error comes from the schema, and only when validation is on and a schema is stored.
    ensures r.Some? && r != Some(InvalidJsonMessage) ==>
            && Truthy(json) && decode(json) != Null
            && Truthy(setting("schema_validation")) && Truthy(schema)
            && validate(decode(json), decode(schema)) != []
            && r == Some(ViolationsMessage(validate(decode(json), decode(schema))))
    ensures Truthy(json) && decode(json) != Null && Truthy(setting("schema_validation")) && Truthy(schema)
            ==> (r.None? <==> validate(decode(json), decode(schema)) == [])
    // Text that decodes is never reported as invalid JSON, and without validation or a schema it is accepted.
    ensures Truthy(json) && decode(json) != Null ==> r != Some(InvalidJsonMessage)
    ensures Truthy(json) && decode(json) != Null && (!Truthy(setting("schema_validation")) || !Truthy(schema)) ==> r == None
  {
    if !Truthy(json) then None
    else if decode(json) == Null then Some(InvalidJsonMessage)
    else if !Truthy(setting("schema_validation")) || !Truthy(schema) then None
    else
      var violations := validate(decode(json), decode(schema));
      if violations == [] then None
      else
        assert |ViolationsMessage(violations)| > |InvalidJsonMessage|;
        Some(ViolationsMessage(violations))
  }

  /**
   * `validateJson`: decodes the value, and when the schema is to be checked,
   * writes the violations one by one and joins them into one error.
   */
  method ValidateJson(json: Value, decode: Value -> Value, setting: string -> Value, schema: Value,
                      validate: (Value, Value) -> seq<Violation>) returns (error: Option<string>)
    ensures error == ValidationError(json, decode, setting, schema, validate)
  {
    error := None;
    if Truthy(json) {
      var decoded := decode(json);
      if decoded == Null {
        error := Some(InvalidJsonMessage);
      } else if Truthy(setting("schema_validation")) {
        if Truthy(schema) {
          var violations := validate(decoded, decode(schema));
          if |violations| != 0 {
            var errors: seq<string> := [];
            var i := 0;
            while i < |violations|
              invariant 0 <= i <= |violations|
              invariant errors == ViolationTexts(violations[..i])
            {
              assert violations[..i + 1][..i] == violations[..i];
              errors := errors + [ViolationText(violations[i])];
              i := i + 1;
            }
            assert violations[..i] == violations;
            error := Some(ViolationsPrefix + Implode(errors, " - ") + ".");
          }
        }
      }
    }
  }
}
