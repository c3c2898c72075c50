/**
 * What the two content-collection widgets share word for word: how a widget
 * finds and caches its Search API index (`getIndex`) and how it builds a
 * filter-operator select (`buildFilterOperatorSelect`). Both widget classes
 * carry identical copies of these two methods; the model keeps one.
 */
module SearchIndex {
  import opened PhpValues

  /** A Search API index, known by its machine name. */
  datatype Index = Index(id: string)

  /** What `getIndex` answers: the index, NULL upon failure, FALSE when no index is selected. */
  datatype IndexResult = Loaded(index: Index) | Invalid | NotSelected

  /**
   * The answer `getIndex` gives when `cached` is what `$this->index` holds,
   * `indexSetting` is the field storage's `index` setting, and the index
   * helper's `loadSearchApiIndex` and `isValidNodeIndex` are the oracles.
   */
  function IndexOutcome(cached: Option<Index>, indexSetting: Value,
                        load: Value -> Option<Index>, isValidNodeIndex: Index -> bool): (r: IndexResult)
    ensures cached.Some? ==> r == Loaded(cached.value)
    ensures cached.None? ==> (r == NotSelected <==> !Truthy(indexSetting))
    ensures cached.None? && r.Loaded? ==> load(indexSetting) == Some(r.index) && isValidNodeIndex(r.index)
    ensures cached.None? && Truthy(indexSetting) && load(indexSetting).Some? && isValidNodeIndex(load(indexSetting).value)
            ==> r.Loaded?
  {
    if cached.Some? then Loaded(cached.value)
    else if !Truthy(indexSetting) then NotSelected
    else
      match load(indexSetting)
      case Some(index) => if isValidNodeIndex(index) then Loaded(index) else Invalid
      case None => Invalid
  }

  /** What `$this->index` holds after `getIndex`: only a loaded, valid index is kept. */
  function CachedAfter(cached: Option<Index>, r: IndexResult): Option<Index> {
    if r.Loaded? then Some(r.index) else cached
  }

  /** Asking again after the first answer gives the same answer. */
  lemma IndexOutcomeStable(cached: Option<Index>, indexSetting: Value,
                           load: Value -> Option<Index>, isValidNodeIndex: Index -> bool)
    ensures var r := IndexOutcome(cached, indexSetting, load, isValidNodeIndex);
            IndexOutcome(CachedAfter(cached, r), indexSetting, load, isValidNodeIndex) == r
  {
  }

  /** The part of a widget that loads and caches its index. */
  class IndexedWidget {
    const indexSetting: Value
    const load: Value -> Option<Index>
    const isValidNodeIndex: Index -> bool
    var index: Option<Index>

    /** A cached index is the one the setting names, and it is a valid node index. */
    ghost predicate Valid()
      reads this
    {
      index.Some? ==> load(indexSetting) == index && isValidNodeIndex(index.value)
    }

    /** The constructor already calls `getIndex` once. */
    constructor (indexSetting: Value, load: Value -> Option<Index>, isValidNodeIndex: Index -> bool)
      ensures Valid()
      ensures this.indexSetting == indexSetting && this.load == load && this.isValidNodeIndex == isValidNodeIndex
      ensures index == CachedAfter(None, IndexOutcome(None, indexSetting, load, isValidNodeIndex))
    {
      this.indexSetting := indexSetting;
      this.load := load;
      this.isValidNodeIndex := isValidNodeIndex;
      index := None;
      new;
      var _ := GetIndex();
    }

    method GetIndex() returns (r: IndexResult)
      requires Valid()
      modifies this`index
      ensures Valid()
      ensures r == IndexOutcome(old(index), indexSetting, load, isValidNodeIndex)
      ensures index == CachedAfter(old(index), r)
    {
      if index.None? {
        if Truthy(indexSetting) {
          var loaded := load(indexSetting);
          if loaded.Some? && isValidNodeIndex(loaded.value) {
            index := loaded;
          }
        } else {
          return NotSelected;
        }
      }
      r := if index.Some? then Loaded(index.value) else Invalid;
    }
  }

  /** A filter-operator select: its default and the keys of its options. */
  datatype OperatorSelect = OperatorSelect(defaultValue: Value, options: seq<string>)

  /** `buildFilterOperatorSelect($default_value)`: NULL falls back to 'AND'. */
  function FilterOperatorSelect(defaultValue: Value): (r: OperatorSelect)
    ensures r.options == ["AND", "OR"]
    ensures defaultValue == Null ==> r.defaultValue == Str("AND")
    ensures defaultValue != Null ==> r.defaultValue == defaultValue
  {
    OperatorSelect(Coalesce(Some(defaultValue), Str("AND")), ["AND", "OR"])
  }

  /**
   * Every caller passes `$stored['operator'] ?? 'OR'`, so a missing or NULL
   * stored operator selects 'OR', and the 'AND' fallback is never reached.
   */
  lemma {:induction false} StoredOperatorSelect(stored: Option<Value>)
    ensures var r := FilterOperatorSelect(Coalesce(stored, Str("OR")));
            r.defaultValue != Null &&
            (IsSet(stored) ==> r.defaultValue == stored.value) &&
            (!IsSet(stored) ==> r.defaultValue == Str("OR"))
  {
  }
}
