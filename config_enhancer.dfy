/**
 * The JSON:API field enhancer of the content collection configuration.
 *
 * Stored configuration is a JSON string. On its way out to the API
 * (`doUndoTransform`) it is decoded. The server index of its Search API
 * index is added, and the call-to-action link goes through the link
 * enhancer: it is handed over with its `url` copied to `uri`. On its way in
 * (`doTransform`) the server index is dropped. The call-to-action link goes
 * back through the link enhancer, and its `uri` is renamed to `url`.
 * Then the configuration is encoded again. Both link steps are gated on
 * the enhancer's `apply_link_enhancer` setting.
 *
 * JSON coding, the index helper and the link enhancer are oracles.
 */
module ConfigEnhancer {
  import opened PhpValues

  const ApplyLinkEnhancerKey := StrKey("apply_link_enhancer")
  const IndexKey := StrKey("index")
  const ServerIndexKey := StrKey("server_index")
  const CallToActionKey := StrKey("callToAction")
  const UrlKey := StrKey("url")
  const UriKey := StrKey("uri")

  /**
   * The services the enhancer calls.
   * - `decode` and `encode` are `Json::decode` and `Json::encode`.
   * - `serverIndexId(index)` is the index helper's server-index id for `index`.
   * - `linkEnhancerAvailable` says whether the plugin manager's `link_enhancer` is a `LinkEnhancer`.
   * - `linkUndo` and `linkTransform` are that enhancer's `undoTransform` and `transform`.
   */
  datatype Services = Services(
    decode: string -> Value,
    encode: Value -> string,
    serverIndexId: Value -> Value,
    linkEnhancerAvailable: bool,
    linkUndo: Value -> Value,
    linkTransform: Value -> Value)

  /** `defaultConfiguration`: the link enhancer is applied. */
  const DefaultConfiguration := Arr([Entry(ApplyLinkEnhancerKey, Bool(true))])

  /** The setting `getConfiguration()['apply_link_enhancer']`, read with `!empty`. */
  predicate LinkEnhancerOn(configuration: Value) {
    Present(Lookup(configuration, [ApplyLinkEnhancerKey]))
  }

  /**
   * The settings `getSettingsForm` shows: the enhancer settings stored for the
   * resource field when they are non-empty, else the enhancer's configuration.
   */
  function FormSettings(resourceFieldInfo: Value, configuration: Value): Value {
    var stored := Lookup(resourceFieldInfo, [StrKey("enhancer"), StrKey("settings")]);
    if Present(stored) then stored.value else configuration
  }

  /** The default value of the form's `apply_link_enhancer` checkbox. */
  function LinkEnhancerCheckbox(resourceFieldInfo: Value, configuration: Value): Value {
    LookupOrNull(FormSettings(resourceFieldInfo, configuration), [ApplyLinkEnhancerKey])
  }

  // ---------------------------------------------------------------------
  // Specification

  /** The call-to-action handed to the link enhancer on the way out: its `url` is copied to `uri`. */
  function UndoLinkInput(cta: Value): Value {
    SetPath(cta, [UriKey], LookupOrNull(cta, [UrlKey]))
  }

  /** The call-to-action after the link enhancer on the way in: its `uri` is renamed to `url`. */
  function TransformLinkOutput(cta: Value): Value {
    UnsetPath(SetPath(cta, [UrlKey], LookupOrNull(cta, [UriKey])), [UriKey])
  }

  /** Whether the way out rewrites the call-to-action. */
  predicate UndoRewritesLink(configuration: Value, decoded: Value, s: Services) {
    LinkEnhancerOn(configuration) && Present(Lookup(decoded, [CallToActionKey, UrlKey])) && s.linkEnhancerAvailable
  }

  /** Whether the way in rewrites the call-to-action. */
  predicate TransformRewritesLink(configuration: Value, data: Value, s: Services) {
    LinkEnhancerOn(configuration) && IsSet(Lookup(data, [CallToActionKey, UriKey])) && s.linkEnhancerAvailable
  }

  /** The decoded configuration with the server index added when an index is set. */
  function WithServerIndex(decoded: Value, s: Services): Value {
    if Present(Lookup(decoded, [IndexKey])) then
      SetPath(decoded, [ServerIndexKey], s.serverIndexId(LookupOrNull(decoded, [IndexKey])))
    else decoded
  }

  /** What `doUndoTransform` returns for the stored string `data`. */
  function UndoTransformed(data: string, configuration: Value, s: Services): Value {
    var withIndex := WithServerIndex(s.decode(data), s);
    if UndoRewritesLink(configuration, withIndex, s) then
      SetPath(withIndex, [CallToActionKey], s.linkUndo(UndoLinkInput(LookupOrNull(withIndex, [CallToActionKey]))))
    else withIndex
  }

  /** What `doTransform` encodes for the API value `data`. */
  function TransformedValue(data: Value, configuration: Value, s: Services): Value {
    var withoutIndex := UnsetPath(data, [ServerIndexKey]);
    if TransformRewritesLink(configuration, withoutIndex, s) then
      SetPath(withoutIndex, [CallToActionKey], TransformLinkOutput(s.linkTransform(LookupOrNull(withoutIndex, [CallToActionKey]))))
    else withoutIndex
  }

  // ---------------------------------------------------------------------
  // The enhancer

  /** `doUndoTransform`, step by step. */
  method DoUndoTransform(data: string, configuration: Value, s: Services) returns (result: Value)
    ensures result == UndoTransformed(data, configuration, s)
  {
    result := s.decode(data);
    if Present(Lookup(result, [IndexKey])) {
      result := SetPath(result, [ServerIndexKey], s.serverIndexId(LookupOrNull(result, [IndexKey])));
    }
    if LinkEnhancerOn(configuration) {
      if Present(Lookup(result, [CallToActionKey, UrlKey])) {
        var cta := LookupOrNull(result, [CallToActionKey]);
        cta := SetPath(cta, [UriKey], LookupOrNull(cta, [UrlKey]));
        if s.linkEnhancerAvailable {
          cta := s.linkUndo(cta);
          result := SetPath(result, [CallToActionKey], cta);
        }
      }
    }
  }

  /** `doTransform`, step by step. */
  method DoTransform(data: Value, configuration: Value, s: Services) returns (encoded: string)
    ensures encoded == s.encode(TransformedValue(data, configuration, s))
  {
    var d := UnsetPath(data, [ServerIndexKey]);
    if LinkEnhancerOn(configuration) {
      if IsSet(Lookup(d, [CallToActionKey, UriKey])) {
        var cta := LookupOrNull(d, [CallToActionKey]);
        if s.linkEnhancerAvailable {
          cta := s.linkTransform(cta);
          cta := SetPath(cta, [UrlKey], LookupOrNull(cta, [UriKey]));
          cta := UnsetPath(cta, [UriKey]);
          d := SetPath(d, [CallToActionKey], cta);
        }
      }
    }
    encoded := s.encode(d);
  }

  // ---------------------------------------------------------------------
  // Properties

  /** The default configuration applies the link enhancer, and the form shows it ticked when nothing is stored. */
  lemma DefaultAppliesLinkEnhancer(resourceFieldInfo: Value)
    ensures LinkEnhancerOn(DefaultConfiguration)
    ensures var stored := Lookup(resourceFieldInfo, [StrKey("enhancer"), StrKey("settings")]);
      (!Present(stored) ==> LinkEnhancerCheckbox(resourceFieldInfo, DefaultConfiguration) == Bool(true)) &&
      (Present(stored) ==> LinkEnhancerCheckbox(resourceFieldInfo, DefaultConfiguration) == LookupOrNull(stored.value, [ApplyLinkEnhancerKey]))
  {
    assert Get(DefaultConfiguration.entries, ApplyLinkEnhancerKey) == Some(Bool(true));
    assert Lookup(DefaultConfiguration, [ApplyLinkEnhancerKey]) == Some(Bool(true));
  }

  /** The link enhancer receives the call-to-action with `uri` set to its `url` and every other key as it was. */
  lemma UndoLinkInputReads(cta: Value)
    ensures Lookup(UndoLinkInput(cta), [UriKey]) == Some(LookupOrNull(cta, [UrlKey]))
    ensures forall k :: k != UriKey ==> Lookup(UndoLinkInput(cta), [k]) == Lookup(cta, [k])
  {
    LookupSetPathSame(cta, [UriKey], LookupOrNull(cta, [UrlKey]));
    forall k | k != UriKey
      ensures Lookup(UndoLinkInput(cta), [k]) == Lookup(cta, [k])
    {
      LookupSetPathOther(cta, [UriKey], LookupOrNull(cta, [UrlKey]), [k]);
    }
  }

  /** After the link enhancer, `url` holds what `uri` held, `uri` is gone and every other key is as it was. */
  lemma TransformLinkOutputReads(cta: Value)
    ensures Lookup(TransformLinkOutput(cta), [UrlKey]) == Some(LookupOrNull(cta, [UriKey]))
    ensures Lookup(TransformLinkOutput(cta), [UriKey]) == None
    ensures forall k :: k != UriKey && k != UrlKey ==> Lookup(TransformLinkOutput(cta), [k]) == Lookup(cta, [k])
  {
    var withUrl := SetPath(cta, [UrlKey], LookupOrNull(cta, [UriKey]));
    LookupSetPathSame(cta, [UrlKey], LookupOrNull(cta, [UriKey]));
    LookupUnsetPathOther(withUrl, [UriKey], [UrlKey]);
    LookupUnsetPath(withUrl, [UriKey]);
    forall k | k != UriKey && k != UrlKey
      ensures Lookup(TransformLinkOutput(cta), [k]) == Lookup(cta, [k])
    {
      LookupSetPathOther(cta, [UrlKey], LookupOrNull(cta, [UriKey]), [k]);
      LookupUnsetPathOther(withUrl, [UriKey], [k]);
    }
  }

  /**
   * On the way out, `server_index` is the helper's id for `index` exactly
   * when `index` is non-empty; otherwise it is whatever the stored
   * configuration held. The index itself is kept.
   */
  lemma UndoServerIndex(data: string, configuration: Value, s: Services)
    ensures var decoded := s.decode(data);
      var out := UndoTransformed(data, configuration, s);
      (Present(Lookup(decoded, [IndexKey])) ==>
        Lookup(out, [ServerIndexKey]) == Some(s.serverIndexId(LookupOrNull(decoded, [IndexKey])))) &&
      (!Present(Lookup(decoded, [IndexKey])) ==> Lookup(out, [ServerIndexKey]) == Lookup(decoded, [ServerIndexKey])) &&
      Lookup(out, [IndexKey]) == Lookup(decoded, [IndexKey])
  {
    var decoded := s.decode(data);
    var withIndex := WithServerIndex(decoded, s);
    var index := s.serverIndexId(LookupOrNull(decoded, [IndexKey]));
    if Present(Lookup(decoded, [IndexKey])) {
      LookupSetPathSame(decoded, [ServerIndexKey], index);
      LookupSetPathOther(decoded, [ServerIndexKey], index, [IndexKey]);
    }
    var cta := LookupOrNull(withIndex, [CallToActionKey]);
    LookupSetPathOther(withIndex, [CallToActionKey], s.linkUndo(UndoLinkInput(cta)), [ServerIndexKey]);
    LookupSetPathOther(withIndex, [CallToActionKey], s.linkUndo(UndoLinkInput(cta)), [IndexKey]);
  }

  /** Adding the server index leaves the call-to-action and every other key alone. */
  lemma WithServerIndexReads(decoded: Value, s: Services)
    ensures forall k :: k != ServerIndexKey ==> Lookup(WithServerIndex(decoded, s), [k]) == Lookup(decoded, [k])
    ensures Lookup(WithServerIndex(decoded, s), [CallToActionKey, UrlKey]) == Lookup(decoded, [CallToActionKey, UrlKey])
  {
    if Present(Lookup(decoded, [IndexKey])) {
      var index := s.serverIndexId(LookupOrNull(decoded, [IndexKey]));
      forall k | k != ServerIndexKey
        ensures Lookup(WithServerIndex(decoded, s), [k]) == Lookup(decoded, [k])
      {
        LookupSetPathOther(decoded, [ServerIndexKey], index, [k]);
      }
      LookupSetPathOther(decoded, [ServerIndexKey], index, [CallToActionKey, UrlKey]);
    }
  }

  /**
   * On the way out, the call-to-action is replaced by the link enhancer's
   * undo of it (with `uri` copied from `url`) exactly when the enhancer is
   * on, the call-to-action has a non-empty `url` and the link enhancer
   * exists; otherwise it is left as stored. Keys other than the
   * call-to-action and the server index are left as stored.
   */
  lemma UndoLink(data: string, configuration: Value, s: Services)
    ensures var decoded := s.decode(data);
      var out := UndoTransformed(data, configuration, s);
      (UndoRewritesLink(configuration, decoded, s) ==>
        Lookup(out, [CallToActionKey]) == Some(s.linkUndo(UndoLinkInput(LookupOrNull(decoded, [CallToActionKey]))))) &&
      (!UndoRewritesLink(configuration, decoded, s) ==> Lookup(out, [CallToActionKey]) == Lookup(decoded, [CallToActionKey])) &&
      forall k :: k != CallToActionKey && k != ServerIndexKey ==> Lookup(out, [k]) == Lookup(decoded, [k])
  {
    var decoded := s.decode(data);
    var withIndex := WithServerIndex(decoded, s);
    WithServerIndexReads(decoded, s);
    var x := s.linkUndo(UndoLinkInput(LookupOrNull(withIndex, [CallToActionKey])));
    if UndoRewritesLink(configuration, withIndex, s) {
      LookupSetPathSame(withIndex, [CallToActionKey], x);
      forall k | k != CallToActionKey && k != ServerIndexKey
        ensures Lookup(UndoTransformed(data, configuration, s), [k]) == Lookup(decoded, [k])
      {
        LookupSetPathOther(withIndex, [CallToActionKey], x, [k]);
      }
    }
  }

  /** On the way in, `server_index` never survives. */
  lemma TransformDropsServerIndex(data: Value, configuration: Value, s: Services)
    ensures Lookup(TransformedValue(data, configuration, s), [ServerIndexKey]) == None
  {
    var withoutIndex := UnsetPath(data, [ServerIndexKey]);
    LookupUnsetPath(data, [ServerIndexKey]);
    var cta := TransformLinkOutput(s.linkTransform(LookupOrNull(withoutIndex, [CallToActionKey])));
    LookupSetPathOther(withoutIndex, [CallToActionKey], cta, [ServerIndexKey]);
  }

  /**
   * On the way in, the call-to-action is replaced by the link enhancer's
   * transform of it, with `uri` renamed to `url`, exactly when the enhancer
   * is on, the call-to-action has a `uri` and the link enhancer exists;
   * otherwise it is left as it came. Keys other than the call-to-action and
   * the server index are left as they came.
   */
  lemma TransformLink(data: Value, configuration: Value, s: Services)
    ensures var out := TransformedValue(data, configuration, s);
      (TransformRewritesLink(configuration, data, s) ==>
        Lookup(out, [CallToActionKey]) == Some(TransformLinkOutput(s.linkTransform(LookupOrNull(data, [CallToActionKey]))))) &&
      (!TransformRewritesLink(configuration, data, s) ==> Lookup(out, [CallToActionKey]) == Lookup(data, [CallToActionKey])) &&
      forall k :: k != CallToActionKey && k != ServerIndexKey ==> Lookup(out, [k]) == Lookup(data, [k])
  {
    var withoutIndex := UnsetPath(data, [ServerIndexKey]);
    LookupUnsetPathOther(data, [ServerIndexKey], [CallToActionKey]);
    LookupUnsetPathOther(data, [ServerIndexKey], [CallToActionKey, UriKey]);
    var x := TransformLinkOutput(s.linkTransform(LookupOrNull(withoutIndex, [CallToActionKey])));
    forall k | k != ServerIndexKey
      ensures Lookup(withoutIndex, [k]) == Lookup(data, [k])
    {
      LookupUnsetPathOther(data, [ServerIndexKey], [k]);
    }
    if TransformRewritesLink(configuration, withoutIndex, s) {
      LookupSetPathSame(withoutIndex, [CallToActionKey], x);
      forall k | k != CallToActionKey && k != ServerIndexKey
        ensures Lookup(TransformedValue(data, configuration, s), [k]) == Lookup(data, [k])
      {
        LookupSetPathOther(withoutIndex, [CallToActionKey], x, [k]);
      }
    }
  }

  /** With `apply_link_enhancer` off, the call-to-action passes unchanged in both directions. */
  lemma LinkEnhancerOffKeepsCallToAction(stored: string, data: Value, configuration: Value, s: Services)
    requires !LinkEnhancerOn(configuration)
    ensures Lookup(UndoTransformed(stored, configuration, s), [CallToActionKey]) == Lookup(s.decode(stored), [CallToActionKey])
    ensures Lookup(TransformedValue(data, configuration, s), [CallToActionKey]) == Lookup(data, [CallToActionKey])
  {
    UndoLink(stored, configuration, s);
    TransformLink(data, configuration, s);
  }

  /** Copying `url` to `uri` and then renaming `uri` to `url` gives back a call-to-action that had no `uri`. */
  lemma LinkRenameRoundTrip(cta: Value)
    requires cta.Arr? && Lookup(cta, [UrlKey]).Some? && Lookup(cta, [UriKey]).None?
    ensures TransformLinkOutput(UndoLinkInput(cta)) == cta
  {
    var es := cta.entries;
    SingleKeyPaths(cta, UrlKey, Null);
    SingleKeyPaths(cta, UriKey, Null);
    var u := Get(es, UrlKey).value;
    GetHasKey(es, UriKey);
    SingleKeyPaths(cta, UriKey, u);
    var z := Arr(Put(es, UriKey, u));
    assert UndoLinkInput(cta) == z;
    GetPut(es, UriKey, u, UriKey);
    SingleKeyPaths(z, UriKey, Null);
    SingleKeyPaths(z, UrlKey, u);
    var w := Arr(Put(Put(es, UriKey, u), UrlKey, u));
    SingleKeyPaths(w, UriKey, Null);
    RemovePutOther(Put(es, UriKey, u), UrlKey, u, UriKey);
    RemovePutAbsent(es, UriKey, u);
    GetHasKey(es, UrlKey);
    PutSame(es, UrlKey);
  }

  /** The link enhancer's transform undoes its undo on the call-to-action handed over, and the undo keeps a `uri`. */
  predicate LinkEnhancerInverse(cta: Value, s: Services) {
    s.linkTransform(s.linkUndo(UndoLinkInput(cta))) == UndoLinkInput(cta) &&
    IsSet(Lookup(s.linkUndo(UndoLinkInput(cta)), [UriKey]))
  }

  /** Adding the server index to a configuration without one, then unsetting it, gives the entries back. */
  lemma ServerIndexUndone(decoded: Value, s: Services)
    requires decoded.Arr? && !HasKey(decoded.entries, ServerIndexKey)
    ensures WithServerIndex(decoded, s).Arr? && Remove(WithServerIndex(decoded, s).entries, ServerIndexKey) == decoded.entries
  {
    if Present(Lookup(decoded, [IndexKey])) {
      var x := s.serverIndexId(LookupOrNull(decoded, [IndexKey]));
      SingleKeyPaths(decoded, ServerIndexKey, x);
      RemovePutAbsent(decoded.entries, ServerIndexKey, x);
    } else {
      RemoveAbsent(decoded.entries, ServerIndexKey);
    }
  }

  /**
   * The way in, on a configuration whose server index is gone and whose
   * call-to-action the link enhancer turned into `y`: when the link steps
   * give back the original call-to-action `cta`, so does the way in.
   */
  lemma TransformRestoresCallToAction(v: Value, es: seq<Entry>, cta: Value, y: Value, configuration: Value, s: Services)
    requires UnsetPath(v, [ServerIndexKey]) == Arr(Put(es, CallToActionKey, y))
    requires Get(es, CallToActionKey) == Some(cta)
    requires LinkEnhancerOn(configuration) && s.linkEnhancerAvailable && IsSet(Lookup(y, [UriKey]))
    requires TransformLinkOutput(s.linkTransform(y)) == cta
    ensures TransformedValue(v, configuration, s) == Arr(es)
  {
    var withoutIndex := Arr(Put(es, CallToActionKey, y));
    GetPut(es, CallToActionKey, y, CallToActionKey);
    SingleKeyPaths(withoutIndex, CallToActionKey, cta);
    TwoKeyLookup(withoutIndex, CallToActionKey, UriKey);
    assert TransformRewritesLink(configuration, withoutIndex, s);
    PutPut(es, CallToActionKey, y, cta);
    GetHasKey(es, CallToActionKey);
    PutSame(es, CallToActionKey);
  }

  /**
   * Sending a stored configuration out and back in gives it back, when it
   * is an array with no `server_index` and no call-to-action `uri` of its
   * own, and the link enhancer's two directions undo each other on its
   * call-to-action.
   */
  lemma TransformUndoesUndo(data: string, configuration: Value, s: Services)
    requires s.decode(data).Arr? && !HasKey(s.decode(data).entries, ServerIndexKey)
    requires Lookup(s.decode(data), [CallToActionKey, UriKey]).None?
    requires UndoRewritesLink(configuration, s.decode(data), s) ==>
      LinkEnhancerInverse(LookupOrNull(s.decode(data), [CallToActionKey]), s)
    ensures TransformedValue(UndoTransformed(data, configuration, s), configuration, s) == s.decode(data)
  {
    var decoded := s.decode(data);
    var es := decoded.entries;
    var withIndex := WithServerIndex(decoded, s);
    WithServerIndexReads(decoded, s);
    ServerIndexUndone(decoded, s);
    var out := UndoTransformed(data, configuration, s);
    if UndoRewritesLink(configuration, decoded, s) {
      var cta := LookupOrNull(decoded, [CallToActionKey]);
      var y := s.linkUndo(UndoLinkInput(cta));
      SingleKeyPaths(withIndex, CallToActionKey, y);
      SingleKeyPaths(out, ServerIndexKey, Null);
      RemovePutOther(withIndex.entries, CallToActionKey, y, ServerIndexKey);
      TwoKeyLookup(decoded, CallToActionKey, UrlKey);
      TwoKeyLookup(decoded, CallToActionKey, UriKey);
      SingleKeyPaths(decoded, CallToActionKey, Null);
      LinkRenameRoundTrip(cta);
      TransformRestoresCallToAction(out, es, cta, y, configuration, s);
    } else {
      SingleKeyPaths(withIndex, ServerIndexKey, Null);
      assert UnsetPath(out, [ServerIndexKey]) == decoded;
    }
  }
}
