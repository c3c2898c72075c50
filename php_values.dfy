/**
 * PHP's array-and-scalar value model, as the Drupal code manipulates it.
 *
 * A PHP array is an ordered dictionary: a sequence of entries whose keys are
 * integers or strings. Writing an existing key replaces its value in place,
 * writing a new key appends, `unset` removes, and `$a[] = x` appends under the
 * next free integer key. Reading a missing key, or reading through something
 * that is not an array, yields nothing (PHP's undefined-index notice plus NULL).
 */
module PhpValues {

  datatype Option<+T> = None | Some(value: T)

  datatype Key = IntKey(n: int) | StrKey(s: string)

  datatype Value =
    | Null
    | Bool(b: bool)
    | Int(i: int)
    | Str(s: string)
    | DateTime(instant: int)   // a DrupalDateTime object, identified by its instant
    | Arr(entries: seq<Entry>)

  datatype Entry = Entry(key: Key, val: Value)

  /** PHP's truthiness: `empty($x)` is `!Truthy($x)`. */
  predicate Truthy(v: Value) {
    match v
    case Null => false
    case Bool(b) => b
    case Int(i) => i != 0
    case Str(s) => s != "" && s != "0"
    case DateTime(_) => true
    case Arr(es) => |es| > 0
  }

  /** `!empty($a[...])` on a lookup that may have found nothing. */
  predicate Present(o: Option<Value>) {
    o.Some? && Truthy(o.value)
  }

  /** `isset($a[...])`: found and not NULL. */
  predicate IsSet(o: Option<Value>) {
    o.Some? && o.value != Null
  }

  /** `$a[...] ?? $default`. */
  function Coalesce(o: Option<Value>, default: Value): (r: Value)
    ensures IsSet(o) ==> r == o.value
    ensures !IsSet(o) ==> r == default
  {
    if o.Some? && o.value != Null then o.value else default
  }

  /** The entries of an array; `foreach` over anything else iterates nothing. */
  function EntriesOf(v: Value): seq<Entry> {
    if v.Arr? then v.entries else []
  }

  function EntriesIn(o: Option<Value>): seq<Entry> {
    if o.Some? then EntriesOf(o.value) else []
  }

  predicate HasKey(es: seq<Entry>, k: Key) {
    exists i :: 0 <= i < |es| && es[i].key == k
  }

  /** A key is in a non-empty array when it heads it or is in the rest. */
  lemma HasKeyTail(es: seq<Entry>, k: Key)
    requires es != []
    ensures HasKey(es, k) <==> es[0].key == k || HasKey(es[1..], k)
  {
    assert forall i :: 0 <= i < |es[1..]| ==> es[1..][i] == es[i + 1];
  }

  /** The first entry under `k`. */
  function Get(es: seq<Entry>, k: Key): Option<Value> {
    if es == [] then None
    else if es[0].key == k then Some(es[0].val) else Get(es[1..], k)
  }

  /** `Get` finds something exactly when the key is there. */
  lemma {:induction false} GetHasKey(es: seq<Entry>, k: Key)
    ensures Get(es, k).Some? <==> HasKey(es, k)
    decreases |es|
  {
    if es != [] {
      HasKeyTail(es, k);
      GetHasKey(es[1..], k);
    }
  }

  /** `$a[$k] = $x`: replace in place when the key exists, else append. */
  function Put(es: seq<Entry>, k: Key, x: Value): seq<Entry> {
    if es == [] then [Entry(k, x)]
    else if es[0].key == k then [Entry(k, x)] + es[1..]
    else [es[0]] + Put(es[1..], k, x)
  }

  /** `unset($a[$k])`. */
  function Remove(es: seq<Entry>, k: Key): seq<Entry> {
    if es == [] then []
    else if es[0].key == k then Remove(es[1..], k)
    else [es[0]] + Remove(es[1..], k)
  }

  /** `$a[$p0][$p1]...`: what a chain of reads finds, if anything. */
  function Lookup(v: Value, path: seq<Key>): Option<Value>
    decreases |path|
  {
    if path == [] then Some(v)
    else if !v.Arr? then None
    else
      match Get(v.entries, path[0])
      case None => None
      case Some(child) => Lookup(child, path[1..])
  }

  /** The array reached by a chain of reads, or NULL when there is none. */
  function LookupOrNull(v: Value, path: seq<Key>): Value {
    match Lookup(v, path)
    case None => Null
    case Some(x) => x
  }

  /**
   * `$a[$p0][$p1]... = $x`. Missing intermediate arrays are created, as PHP
   * does for undefined or NULL slots.
   */
  function SetPath(v: Value, path: seq<Key>, x: Value): Value
    decreases |path|
  {
    if path == [] then x
    else
      var es := EntriesOf(v);
      var child := match Get(es, path[0]) case None => Null case Some(c) => c;
      Arr(Put(es, path[0], SetPath(child, path[1..], x)))
  }

  /** `unset($a[$p0]...[$pn])`; nothing happens when an intermediate is missing. */
  function UnsetPath(v: Value, path: seq<Key>): Value
    decreases |path|
  {
    if path == [] || !v.Arr? then v
    else if |path| == 1 then Arr(Remove(v.entries, path[0]))
    else
      match Get(v.entries, path[0])
      case None => v
      case Some(child) => Arr(Put(v.entries, path[0], UnsetPath(child, path[1..])))
  }

  /** The largest non-negative integer key plus one, or 0: the key `$a[] = x` uses. */
  function NextIndex(es: seq<Entry>): nat {
    if es == [] then 0
    else
      var rest := NextIndex(es[1..]);
      if es[0].key.IntKey? && es[0].key.n >= rest then es[0].key.n + 1 else rest
  }

  /** `$a[] = $x` on a value that is (or becomes) an array. */
  function Append(v: Value, x: Value): Value {
    var es := EntriesOf(v);
    Arr(es + [Entry(IntKey(NextIndex(es)), x)])
  }

  /** `$a[$p0]...[$pn][] = $x`. */
  function AppendPath(v: Value, path: seq<Key>, x: Value): Value {
    SetPath(v, path, Append(LookupOrNull(v, path), x))
  }

  /** The values of an array in order (what `array_values` keeps). */
  function ValuesOf(v: Value): (r: seq<Value>)
    ensures |r| == |EntriesOf(v)|
  {
    var es := EntriesOf(v);
    seq(|es|, i requires 0 <= i < |es| => es[i].val)
  }

  /** `array_values`: the same values under keys 0, 1, 2, ... */
  function ListOf(vs: seq<Value>): Value {
    Arr(seq(|vs|, i requires 0 <= i < |vs| => Entry(IntKey(i), vs[i])))
  }

  /** `array_filter` without a callback: keeps the truthy entries with their keys. */
  function FilterTruthy(es: seq<Entry>): seq<Entry> {
    if es == [] then []
    else if Truthy(es[0].val) then [es[0]] + FilterTruthy(es[1..])
    else FilterTruthy(es[1..])
  }

  /** The filter keeps exactly the truthy entries, and never more entries than there were. */
  lemma {:induction false} FilterTruthyMembers(es: seq<Entry>)
    ensures |FilterTruthy(es)| <= |es|
    ensures forall e :: e in FilterTruthy(es) ==> e in es && Truthy(e.val)
    ensures forall e :: e in es && Truthy(e.val) ==> e in FilterTruthy(es)
  {
    if es != [] {
      FilterTruthyMembers(es[1..]);
      assert forall e :: e in es ==> e == es[0] || e in es[1..];
    }
  }

  /** `array_values(array_filter($a))`. */
  function FilteredValues(v: Value): Value {
    ListOf(ValuesOf(Arr(FilterTruthy(EntriesOf(v)))))
  }

  /** The entries of `b` whose key `a` does not have. */
  function NewEntries(a: seq<Entry>, b: seq<Entry>): (r: seq<Entry>)
    ensures forall e :: e in r ==> e in b && !HasKey(a, e.key)
    ensures forall e :: e in b && !HasKey(a, e.key) ==> e in r
  {
    if b == [] then []
    else if HasKey(a, b[0].key) then NewEntries(a, b[1..])
    else [b[0]] + NewEntries(a, b[1..])
  }

  /** The array union operator `$a + $b`: left-biased, `$a` first. */
  function Union(a: seq<Entry>, b: seq<Entry>): seq<Entry> {
    a + NewEntries(a, b)
  }

  /** Keys are unique, as they are in every PHP array. */
  predicate UniqueKeys(es: seq<Entry>) {
    forall i, j :: 0 <= i < j < |es| ==> es[i].key != es[j].key
  }

  // ---------------------------------------------------------------------
  // Reading back what was written.

  lemma GetPut(es: seq<Entry>, k: Key, x: Value, k': Key)
    ensures Get(Put(es, k, x), k') == if k' == k then Some(x) else Get(es, k')
  {
    if es != [] && es[0].key != k {
      GetPut(es[1..], k, x, k');
    }
  }

  lemma GetRemove(es: seq<Entry>, k: Key, k': Key)
    ensures Get(Remove(es, k), k') == if k' == k then None else Get(es, k')
  {
    if es != [] {
      GetRemove(es[1..], k, k');
    }
  }

  /** Two key paths part ways at some position: neither is a prefix of the other. */
  predicate Diverge(p: seq<Key>, q: seq<Key>) {
    |p| > 0 && |q| > 0 && (p[0] != q[0] || Diverge(p[1..], q[1..]))
  }

  lemma DivergeSymmetric(p: seq<Key>, q: seq<Key>)
    requires Diverge(p, q)
    ensures Diverge(q, p)
  {
    if p[0] == q[0] {
      DivergeSymmetric(p[1..], q[1..]);
    }
  }

  /** Extending either path keeps them apart. */
  lemma {:induction false} DivergeExtend(p: seq<Key>, q: seq<Key>, r: seq<Key>)
    requires Diverge(p, q)
    ensures Diverge(p + r, q) && Diverge(q, p + r)
  {
    assert (p + r)[0] == p[0];
    if p[0] == q[0] {
      assert (p + r)[1..] == p[1..] + r;
      DivergeExtend(p[1..], q[1..], r);
    }
    DivergeSymmetric(p + r, q);
  }

  /** Paths that share a prefix and then differ in one key part ways. */
  lemma {:induction false} DivergeAfter(p: seq<Key>, a: seq<Key>, b: seq<Key>)
    requires a != [] && b != [] && a[0] != b[0]
    ensures Diverge(p + a, p + b)
    decreases |p|
  {
    if p != [] {
      assert (p + a)[1..] == p[1..] + a && (p + b)[1..] == p[1..] + b;
      DivergeAfter(p[1..], a, b);
    }
  }

  /** Nothing is found below a path that is missing. */
  lemma {:induction false} LookupBelowMissing(v: Value, p: seq<Key>, q: seq<Key>)
    requires Lookup(v, p).None?
    ensures Lookup(v, p + q).None?
    decreases |p|
  {
    assert p != [];
    assert (p + q)[0] == p[0] && (p + q)[1..] == p[1..] + q;
    if v.Arr? && Get(v.entries, p[0]).Some? {
      LookupBelowMissing(Get(v.entries, p[0]).value, p[1..], q);
    }
  }

  lemma {:induction false} LookupSetPath(v: Value, p: seq<Key>, x: Value, q: seq<Key>)
    ensures Lookup(SetPath(v, p, x), p + q) == Lookup(x, q)
    decreases |p|
  {
    if p == [] {
      assert p + q == q;
    } else {
      var es := EntriesOf(v);
      var child := match Get(es, p[0]) case None => Null case Some(c) => c;
      GetPut(es, p[0], SetPath(child, p[1..], x), p[0]);
      assert (p + q)[0] == p[0] && (p + q)[1..] == p[1..] + q;
      LookupSetPath(child, p[1..], x, q);
    }
  }

  /** Writing at `p` and reading back at `p`. */
  lemma LookupSetPathSame(v: Value, p: seq<Key>, x: Value)
    ensures Lookup(SetPath(v, p, x), p) == Some(x)
  {
    LookupSetPath(v, p, x, []);
    assert p + [] == p;
  }

  /** Writing at `p` leaves every path that parts ways with `p` as it was. */
  lemma {:induction false} LookupSetPathOther(v: Value, p: seq<Key>, x: Value, q: seq<Key>)
    requires Diverge(p, q)
    ensures Lookup(SetPath(v, p, x), q) == Lookup(v, q)
    decreases |p|
  {
    var es := EntriesOf(v);
    var child := match Get(es, p[0]) case None => Null case Some(c) => c;
    var child' := SetPath(child, p[1..], x);
    GetPut(es, p[0], child', q[0]);
    if p[0] == q[0] {
      LookupSetPathOther(child, p[1..], x, q[1..]);
      if !v.Arr? || Get(es, p[0]).None? {
        LookupNull(q[1..]);
        LookupSetPathMissing(p[1..], x, q[1..]);
      }
    }
  }

  lemma LookupNull(q: seq<Key>)
    requires q != []
    ensures Lookup(Null, q) == None
  {
  }

  /** A write into a fresh slot creates nothing at a diverging path. */
  lemma {:induction false} LookupSetPathMissing(p: seq<Key>, x: Value, q: seq<Key>)
    requires Diverge(p, q)
    ensures Lookup(SetPath(Null, p, x), q) == None
    decreases |p|
  {
    var child' := SetPath(Null, p[1..], x);
    GetPut([], p[0], child', q[0]);
    if p[0] == q[0] {
      LookupSetPathMissing(p[1..], x, q[1..]);
    }
  }

  lemma {:induction false} LookupUnsetPath(v: Value, p: seq<Key>)
    requires p != []
    ensures Lookup(UnsetPath(v, p), p) == None
    decreases |p|
  {
    if v.Arr? {
      if |p| == 1 {
        GetRemove(v.entries, p[0], p[0]);
      } else {
        match Get(v.entries, p[0])
        case None =>
        case Some(child) =>
          GetPut(v.entries, p[0], UnsetPath(child, p[1..]), p[0]);
          LookupUnsetPath(child, p[1..]);
      }
    }
  }

  /** Unsetting at `p` leaves every path that parts ways with `p` as it was. */
  lemma {:induction false} LookupUnsetPathOther(v: Value, p: seq<Key>, q: seq<Key>)
    requires Diverge(p, q)
    ensures Lookup(UnsetPath(v, p), q) == Lookup(v, q)
    decreases |p|
  {
    if v.Arr? {
      if |p| == 1 {
        GetRemove(v.entries, p[0], q[0]);
      } else {
        match Get(v.entries, p[0])
        case None =>
        case Some(child) =>
          GetPut(v.entries, p[0], UnsetPath(child, p[1..]), q[0]);
          if p[0] == q[0] {
            LookupUnsetPathOther(child, p[1..], q[1..]);
          }
      }
    }
  }

  lemma LookupAppendPathOther(v: Value, p: seq<Key>, x: Value, q: seq<Key>)
    requires Diverge(p, q)
    ensures Lookup(AppendPath(v, p, x), q) == Lookup(v, q)
  {
    LookupSetPathOther(v, p, Append(LookupOrNull(v, p), x), q);
  }

  /** `$a[...][] = $x` adds `$x` after the values already there. */
  lemma LookupAppendPath(v: Value, p: seq<Key>, x: Value)
    ensures Lookup(AppendPath(v, p, x), p) == Some(Append(LookupOrNull(v, p), x))
    ensures ValuesOf(LookupOrNull(AppendPath(v, p, x), p)) == ValuesOf(LookupOrNull(v, p)) + [x]
  {
    LookupSetPathSame(v, p, Append(LookupOrNull(v, p), x));
  }

  // ---------------------------------------------------------------------
  // Keys, order and the union operator.

  lemma RemoveAbsent(es: seq<Entry>, k: Key)
    requires !HasKey(es, k)
    ensures Remove(es, k) == es
  {
    if es != [] {
      HasKeyTail(es, k);
      RemoveAbsent(es[1..], k);
    }
  }

  /** Writing a new key and unsetting it again gives the array back. */
  lemma RemovePutAbsent(es: seq<Entry>, k: Key, x: Value)
    requires !HasKey(es, k)
    ensures Remove(Put(es, k, x), k) == es
  {
    if es == [] {
    } else {
      HasKeyTail(es, k);
      RemovePutAbsent(es[1..], k, x);
    }
  }

  /** Writing back the value a key already has changes nothing. */
  lemma PutSame(es: seq<Entry>, k: Key)
    requires HasKey(es, k)
    ensures Get(es, k).Some? && Put(es, k, Get(es, k).value) == es
  {
    GetHasKey(es, k);
    if es[0].key != k {
      HasKeyTail(es, k);
      PutSame(es[1..], k);
    }
  }

  /** Reads, writes and unsets of a single key, spelled out on the entries. */
  lemma SingleKeyPaths(v: Value, k: Key, x: Value)
    ensures Lookup(v, [k]) == if v.Arr? then Get(v.entries, k) else None
    ensures SetPath(v, [k], x) == Arr(Put(EntriesOf(v), k, x))
    ensures UnsetPath(v, [k]) == if v.Arr? then Arr(Remove(v.entries, k)) else v
  {
    assert [k][1..] == [];
  }

  /** A read two keys deep is a read of the child. */
  lemma TwoKeyLookup(v: Value, k: Key, k': Key)
    ensures Lookup(v, [k, k']) == match Lookup(v, [k]) case None => None case Some(c) => Lookup(c, [k'])
  {
    assert [k, k'][1..] == [k'];
    assert [k][1..] == [];
  }

  /** Writing a new key appends it. */
  lemma PutAbsent(es: seq<Entry>, k: Key, x: Value)
    requires !HasKey(es, k)
    ensures Put(es, k, x) == es + [Entry(k, x)]
  {
    if es != [] {
      HasKeyTail(es, k);
      PutAbsent(es[1..], k, x);
      assert es == [es[0]] + es[1..];
    }
  }

  /** A second write to a key overrides the first. */
  lemma PutPut(es: seq<Entry>, k: Key, x: Value, y: Value)
    ensures Put(Put(es, k, x), k, y) == Put(es, k, y)
  {
    if es != [] && es[0].key != k {
      PutPut(es[1..], k, x, y);
    }
  }

  /** Unsetting one key and writing another commute. */
  lemma RemovePutOther(es: seq<Entry>, k: Key, x: Value, k': Key)
    requires k != k'
    ensures Remove(Put(es, k, x), k') == Put(Remove(es, k'), k, x)
  {
    if es != [] {
      RemovePutOther(es[1..], k, x, k');
    }
  }

  lemma HasKeyPut(es: seq<Entry>, k: Key, x: Value, k': Key)
    ensures HasKey(Put(es, k, x), k') <==> k' == k || HasKey(es, k')
  {
    GetPut(es, k, x, k');
    GetHasKey(Put(es, k, x), k');
    GetHasKey(es, k');
  }

  /**
   * The union keeps every entry of the left operand as it is, and takes from
   * the right operand exactly the keys the left one lacks.
   */
  lemma {:induction false} UnionGet(a: seq<Entry>, b: seq<Entry>, k: Key)
    ensures Get(Union(a, b), k) == if HasKey(a, k) then Get(a, k) else Get(b, k)
    decreases |b|
  {
    if b == [] {
      assert Union(a, b) == a;
      GetHasKey(a, k);
    } else if HasKey(a, b[0].key) {
      assert Union(a, b) == Union(a, b[1..]);
      UnionGet(a, b[1..], k);
      if !HasKey(a, k) {
        GetTail(b, k);
      }
    } else {
      assert Union(a, b) == (a + [b[0]]) + NewEntries(a, b[1..]);
      GetAppendSeq(a, [b[0]] + NewEntries(a, b[1..]), k);
      GetAppendSeq([b[0]], NewEntries(a, b[1..]), k);
      UnionGet(a, b[1..], k);
      GetAppendSeq(a, NewEntries(a, b[1..]), k);
      if b[0].key != k {
        GetTail(b, k);
      }
    }
  }

  lemma GetTail(b: seq<Entry>, k: Key)
    requires b != [] && b[0].key != k
    ensures Get(b, k) == Get(b[1..], k)
  {
  }

  lemma {:induction false} GetAppendSeq(a: seq<Entry>, b: seq<Entry>, k: Key)
    ensures Get(a + b, k) == if HasKey(a, k) then Get(a, k) else Get(b, k)
    decreases |a|
  {
    if a == [] {
      assert a + b == b;
    } else {
      assert (a + b)[0] == a[0] && (a + b)[1..] == a[1..] + b;
      if a[0].key != k {
        GetAppendSeq(a[1..], b, k);
        var _ := Get(a, k);
      }
    }
  }

  /** A key is in a concatenation when it is in either part. */
  lemma HasKeyAppend(a: seq<Entry>, b: seq<Entry>, k: Key)
    ensures HasKey(a + b, k) <==> HasKey(a, k) || HasKey(b, k)
  {
    GetAppendSeq(a, b, k);
    GetHasKey(a + b, k);
    GetHasKey(a, k);
    GetHasKey(b, k);
  }

  /** Reading a key from four arrays laid end to end: the first part that has it answers. */
  lemma GetInParts(a: seq<Entry>, b: seq<Entry>, c: seq<Entry>, d: seq<Entry>, k: Key)
    ensures Get(((a + b) + c) + d, k) ==
            if HasKey(a, k) then Get(a, k) else if HasKey(b, k) then Get(b, k)
            else if HasKey(c, k) then Get(c, k) else Get(d, k)
  {
    GetAppendSeq((a + b) + c, d, k);
    GetAppendSeq(a + b, c, k);
    GetAppendSeq(a, b, k);
    HasKeyAppend(a + b, c, k);
    HasKeyAppend(a, b, k);
  }

  lemma UnionEmpty(a: seq<Entry>)
    ensures Union(a, []) == a
  {
  }

  // ---------------------------------------------------------------------
  // Filters and reindexing.

  /** `array_filter` applied twice filters nothing more. */
  lemma {:induction false} FilterTruthyIdempotent(es: seq<Entry>)
    ensures FilterTruthy(FilterTruthy(es)) == FilterTruthy(es)
  {
    if es != [] {
      FilterTruthyIdempotent(es[1..]);
      if Truthy(es[0].val) {
        assert ([es[0]] + FilterTruthy(es[1..]))[1..] == FilterTruthy(es[1..]);
      }
    }
  }

  lemma FilteredValuesAreTruthy(v: Value)
    ensures forall x :: x in ValuesOf(FilteredValues(v)) ==> Truthy(x)
  {
    var kept := FilterTruthy(EntriesOf(v));
    FilterTruthyMembers(EntriesOf(v));
    forall x | x in ValuesOf(FilteredValues(v)) ensures Truthy(x) {
      var i :| 0 <= i < |ValuesOf(FilteredValues(v))| && ValuesOf(FilteredValues(v))[i] == x;
      assert kept[i] in kept;
    }
  }

  // ---------------------------------------------------------------------
  // PHP's `(int)` cast.

  predicate IsDigit(c: char) { '0' <= c <= '9' }

  predicate IsSpace(c: char) { c == ' ' || c == '\t' || c == '\n' || c == '\r' || c == '\U{000B}' || c == '\U{000C}' }

  /** The maximal run of decimal digits at the start of `s`, as a number. */
  function LeadingDigits(s: string, acc: nat): nat
    decreases |s|
  {
    if s != [] && IsDigit(s[0]) then LeadingDigits(s[1..], acc * 10 + (s[0] - '0') as int) else acc
  }

  /** `(int)$s` of a string: optional whitespace and sign, then leading digits. */
  function StringToInt(s: string): int
    decreases |s|
  {
    if s != [] && IsSpace(s[0]) then StringToInt(s[1..])
    else if s != [] && s[0] == '-' then 0 - LeadingDigits(s[1..], 0)
    else if s != [] && s[0] == '+' then LeadingDigits(s[1..], 0)
    else LeadingDigits(s, 0)
  }

  /** `(int)$v`. */
  function ToInt(v: Value): int {
    match v
    case Null => 0
    case Bool(b) => if b then 1 else 0
    case Int(i) => i
    case Str(s) => StringToInt(s)
    case DateTime(_) => 1
    case Arr(es) => if |es| == 0 then 0 else 1
  }
}
