/**
  The few pieces of PHP value semantics the plugin's decisions depend on:
  private properties that start out `null`, truthiness, strict identity
  between a value read from the user-metadata store and an integer, and the
  lazily memoised getter idiom `if (!$this->f) { $this->f = ...; } return $this->f;`.
 */
module Php {

  datatype Option<+T> = None | Some(value: T)

  /** A private property: `null` until a value is assigned to it. */
  datatype Field<+T> = Null | Val(v: T)

  /**
    A `k_post_limit` value as the metadata store hands it back. The store keeps
    strings: None is the empty string (no row, or a row written with `null`),
    Some(n) is the decimal string of n.
   */
  type MetaInt = Option<int>

  /** PHP truthiness of a stored limit: `''` and `"0"` are falsy. */
  predicate TruthyMeta(v: MetaInt) {
    v.Some? && v.value != 0
  }

  /** PHP truthiness of a user ID; 0 (no user logged in) is falsy, like `null`. */
  predicate NonZero(id: nat) {
    id != 0
  }

  /** Truthiness of the `_post_limit` property. */
  predicate TruthyLimitField(f: Field<MetaInt>) {
    f.Val? && TruthyMeta(f.v)
  }

  /** Truthiness of the `_current_user_post_count` property. */
  predicate TruthyCountField(f: Field<nat>) {
    f.Val? && f.v != 0
  }

  /**
    `$limit === $count` for the `_post_limit` property (a metadata string once
    loaded) and the `_current_user_post_count` property (an int once loaded).
    A string is never identical to an int, and neither is identical to `null`,
    so only two untouched properties compare identical.
   */
  function StrictlyIdentical(limit: Field<MetaInt>, count: Field<nat>): (r: bool)
    ensures r <==> limit.Null? && count.Null?
    ensures limit.Val? || count.Val? ==> !r
  {
    match limit
    case Null => count.Null?
    case Val(_) => false
  }

  /**
    `$count >= $limit` with an int count and a stored limit: a numeric string
    compares numerically; any count is at least the empty string.
   */
  function CountReaches(count: nat, limit: MetaInt): (r: bool)
    ensures limit.Some? ==> (r <==> count >= limit.value)
    ensures limit.None? ==> r
  {
    match limit
    case None => true
    case Some(l) => count >= l
  }

  /**
    One call of a memoised getter: a truthy cached value is kept; a falsy one
    is replaced by what the host returns now.
   */
  function MemoRead<T>(truthy: T -> bool, cached: T, reread: T): (r: T)
    ensures truthy(cached) ==> r == cached
    ensures !truthy(cached) ==> r == reread
  {
    if truthy(cached) then cached else reread
  }

  /**
    The values returned by |store| successive calls of one memoised getter,
    starting from the property value `cached`, where store[i] is what the host
    would return at the i-th call.
   */
  function MemoReads<T>(truthy: T -> bool, cached: T, store: seq<T>): (rs: seq<T>)
    ensures |rs| == |store|
    decreases |store|
  {
    if store == [] then []
    else
      var now := MemoRead(truthy, cached, store[0]);
      [now] + MemoReads(truthy, now, store[1..])
  }

  /** Once the property holds a truthy value, every later call returns it, whatever the host says. */
  lemma {:induction false} TruthyValueIsSticky<T>(truthy: T -> bool, cached: T, store: seq<T>)
    requires truthy(cached)
    ensures forall i :: 0 <= i < |store| ==> MemoReads(truthy, cached, store)[i] == cached
    decreases |store|
  {
    if store != [] {
      TruthyValueIsSticky(truthy, cached, store[1..]);
    }
  }

  /** A falsy value is never cached: while the host only returns falsy values, every call re-reads it. */
  lemma {:induction false} FalsyValuesAreReread<T>(truthy: T -> bool, cached: T, store: seq<T>)
    requires !truthy(cached)
    requires forall i :: 0 <= i < |store| ==> !truthy(store[i])
    ensures MemoReads(truthy, cached, store) == store
    decreases |store|
  {
    if store != [] {
      FalsyValuesAreReread(truthy, store[0], store[1..]);
    }
  }

  /**
    Starting from a falsy property, the calls return the host's values up to
    and including the first truthy one, and that value ever after.
   */
  lemma {:induction false} FirstTruthyValueWins<T>(truthy: T -> bool, cached: T, store: seq<T>, k: nat)
    requires !truthy(cached)
    requires k < |store| && truthy(store[k])
    requires forall i :: 0 <= i < k ==> !truthy(store[i])
    ensures forall i :: 0 <= i <= k ==> MemoReads(truthy, cached, store)[i] == store[i]
    ensures forall i :: k <= i < |store| ==> MemoReads(truthy, cached, store)[i] == store[k]
    decreases k
  {
    var rs := MemoReads(truthy, cached, store);
    assert rs[0] == store[0];
    if k == 0 {
      TruthyValueIsSticky(truthy, store[0], store[1..]);
      assert forall i :: 1 <= i < |store| ==> rs[i] == MemoReads(truthy, store[0], store[1..])[i - 1];
    } else {
      FirstTruthyValueWins(truthy, store[0], store[1..], k - 1);
      assert forall i :: 1 <= i < |store| ==> rs[i] == MemoReads(truthy, store[0], store[1..])[i - 1];
    }
  }
}
