/**
 * The hand-written memoization wrapper (src/utils/customMemo.tsx): a shallow comparison of two
 * props records with `===`, and a component wrapper that re-renders only when no props are stored
 * yet or the comparator says the props differ. Props are records of JavaScript values; objects
 * compare by identity, so they are references here. The deep comparator serialises with
 * `JSON.stringify` and is a parameter.
 */
module CustomMemo {
  import opened Options

  /** The JavaScript values a prop can hold; `Ref` is an object or function, by identity. */
  datatype JsValue =
    | Undefined
    | Null
    | Bool(b: bool)
    | Number(n: real)
    | NaN
    | Str(s: string)
    | Ref(address: nat)

  /** `a === b`: identity for references, value equality otherwise, and `NaN` equal to nothing. */
  predicate StrictEquals(a: JsValue, b: JsValue)
  {
    a != NaN && a == b
  }

  /** A props record: its own keys and their values. */
  type Props = map<string, JsValue>

  /** `props[key]`: a missing key reads as `undefined`. */
  function Lookup(props: Props, key: string): JsValue
  {
    if key in props then props[key] else Undefined
  }

  /**
   * The promise of `shallowCompare`: the same number of keys, and every key of the previous props
   * holding a `===` value in the next ones. Only the previous props' keys are inspected.
   */
  predicate ShallowEqual(prev: Props, next: Props)
  {
    |prev.Keys| == |next.Keys| && forall k :: k in prev ==> StrictEquals(prev[k], Lookup(next, k))
  }

  /** `shallowCompare`: the key-count check, then a loop over the previous keys with an early exit. */
  method ShallowCompare(prev: Props, next: Props) returns (r: bool)
    ensures r == ShallowEqual(prev, next)
  {
    if |prev.Keys| != |next.Keys| {
      return false;
    }
    var remaining := prev.Keys;
    while remaining != {}
      invariant remaining <= prev.Keys
      invariant forall k :: k in prev.Keys - remaining ==> StrictEquals(prev[k], Lookup(next, k))
      decreases |remaining|
    {
      var key :| key in remaining;
      if !StrictEquals(prev[key], Lookup(next, key)) {
        return false;
      }
      remaining := remaining - {key};
    }
    return true;
  }

  /** No value of the record is `NaN`. */
  predicate NoNaN(props: Props)
  {
    forall k :: k in props ==> props[k] != NaN
  }

  /**
   * On records with the same keys and no `NaN` in the previous one, the comparison says "equal"
   * exactly when the records are equal; in particular it is reflexive on records without `NaN`.
   */
  lemma {:induction false} ShallowEqualSameKeys(prev: Props, next: Props)
    requires prev.Keys == next.Keys && NoNaN(prev)
    ensures ShallowEqual(prev, next) <==> prev == next
  {
    if ShallowEqual(prev, next) {
      forall k | k in prev ensures prev[k] == next[k] {
        assert StrictEquals(prev[k], Lookup(next, k));
      }
    }
  }

  /** A `NaN` prop makes the comparison say the props changed, even against the same record. */
  lemma {:induction false} NaNNeverEqual(prev: Props, key: string)
    requires key in prev && prev[key] == NaN
    ensures !ShallowEqual(prev, prev)
  {
    assert !StrictEquals(prev[key], Lookup(prev, key));
  }

  /**
   * Only the previous keys are inspected: with the same number of keys, a previous key whose value
   * is `undefined` matches a next record that lacks it, so the comparison is not symmetric.
   */
  lemma MissingUndefinedKey()
    ensures ShallowEqual(map["a" := Undefined], map["b" := Number(1.0)])
    ensures !ShallowEqual(map["b" := Number(1.0)], map["a" := Undefined])
  {
    var prev: Props := map["a" := Undefined];
    var next: Props := map["b" := Number(1.0)];
    assert prev.Keys == {"a"} && next.Keys == {"b"};
    assert Lookup(prev, "b") == Undefined;
  }

  /** The props the comparison says are "equal" agree with the previous ones on every previous key. */
  lemma {:induction false} ShallowEqualAgrees(prev: Props, next: Props)
    requires ShallowEqual(prev, next)
    ensures forall k :: k in prev ==> Lookup(next, k) == prev[k] && prev[k] != NaN
    ensures |prev.Keys| == |next.Keys|
  {
  }

  // ---------------------------------------------------------------------------------------------
  // The wrapper

  /** The element `createElement(Component, props)` makes, identified by the props it was made with. */
  datatype Element = Element(props: Props)

  /** The comparator picked: the caller's `areEqual` if given, else the deep or the shallow one. */
  function CompareFunction(areEqual: Option<(Props, Props) -> bool>, useDeepComparison: bool,
                           deepCompare: (Props, Props) -> bool): (Props, Props) -> bool
  {
    if areEqual.Some? then areEqual.value
    else if useDeepComparison then deepCompare
    else (prev: Props, next: Props) => ShallowEqual(prev, next)
  }

  /** The decision: render when nothing is stored yet or the comparator says the props differ. */
  predicate ShouldRerender(prevProps: Option<Props>, props: Props, compare: (Props, Props) -> bool)
  {
    prevProps.None? || !compare(prevProps.value, props)
  }

  /**
   * The first render always renders; later, with the default shallow comparator, a render is
   * skipped exactly when the props compare shallowly equal to the stored ones, and a caller's
   * comparator overrides both defaults.
   */
  lemma {:induction false} RerenderDecision(areEqual: Option<(Props, Props) -> bool>, useDeep: bool,
                                            deepCompare: (Props, Props) -> bool, prev: Option<Props>, props: Props)
    ensures prev.None? ==> ShouldRerender(prev, props, CompareFunction(areEqual, useDeep, deepCompare))
    ensures prev.Some? && areEqual.None? && !useDeep ==>
      (ShouldRerender(prev, props, CompareFunction(areEqual, useDeep, deepCompare)) <==> !ShallowEqual(prev.value, props))
    ensures prev.Some? && areEqual.None? && useDeep ==>
      (ShouldRerender(prev, props, CompareFunction(areEqual, useDeep, deepCompare)) <==> !deepCompare(prev.value, props))
    ensures prev.Some? && areEqual.Some? ==>
      (ShouldRerender(prev, props, CompareFunction(areEqual, useDeep, deepCompare)) <==> !areEqual.value(prev.value, props))
  {
  }

  /** `MemoizedComponent`: the two refs, the stored props and the stored element. */
  class MemoizedComponent {
    const areEqual: Option<(Props, Props) -> bool>
    const useDeepComparison: bool
    const deepCompare: (Props, Props) -> bool
    var prevProps: Option<Props>
    var memoized: Option<Element>

    /** Both refs start empty. */
    constructor(areEqual: Option<(Props, Props) -> bool>, useDeepComparison: bool, deepCompare: (Props, Props) -> bool)
      ensures this.areEqual == areEqual && this.useDeepComparison == useDeepComparison
      ensures this.deepCompare == deepCompare
      ensures prevProps == None && memoized == None
      ensures Valid()
    {
      this.areEqual := areEqual;
      this.useDeepComparison := useDeepComparison;
      this.deepCompare := deepCompare;
      prevProps := None;
      memoized := None;
    }

    /** The stored element is present exactly when props are stored, and was made from them. */
    predicate Valid()
      reads this
    {
      (prevProps.None? <==> memoized.None?) && (memoized.Some? ==> memoized.value == Element(prevProps.value))
    }

    /**
     * One render of the wrapper: on a re-render the element is made anew and a copy of the props
     * stored; otherwise both refs stay. The element returned is always the one made from the
     * stored props.
     */
    method Render(props: Props) returns (e: Element)
      requires Valid()
      modifies this
      ensures Valid()
      ensures ShouldRerender(old(prevProps), props, CompareFunction(areEqual, useDeepComparison, deepCompare)) ==>
        prevProps == Some(props) && memoized == Some(Element(props))
      ensures !ShouldRerender(old(prevProps), props, CompareFunction(areEqual, useDeepComparison, deepCompare)) ==>
        prevProps == old(prevProps) && memoized == old(memoized)
      ensures memoized == Some(e) && e == Element(prevProps.value)
    {
      var compareFunction := CompareFunction(areEqual, useDeepComparison, deepCompare);
      var shouldRerender := prevProps.None? || !compareFunction(prevProps.value, props);
      if shouldRerender {
        memoized := Some(Element(props));
        prevProps := Some(props);
      }
      e := memoized.value;
    }
  }

  // ---------------------------------------------------------------------------------------------
  // The comparator of the custom-comparison demo

  /**
   * The demo's comparator as written: it returns whether `count` changed, but the wrapper reads a
   * comparator's `true` as "props equal, skip the render".
   */
  function CountChangedComparator(prev: Props, next: Props): bool
  {
    !StrictEquals(Lookup(prev, "count"), Lookup(next, "count"))
  }

  /** The comparator the demo's comment describes: props count as equal while `count` is unchanged. */
  function CountUnchangedComparator(prev: Props, next: Props): bool
  {
    StrictEquals(Lookup(prev, "count"), Lookup(next, "count"))
  }

  /** The custom-comparison demo rebuilt with the corrected comparator (the program's own uses `!==`), no deep comparison. */
  method NewCorrectedComparisonDemo(deepCompare: (Props, Props) -> bool) returns (c: MemoizedComponent)
    ensures fresh(c) && c.Valid() && c.prevProps == None
    ensures c.areEqual == Some(CountUnchangedComparator) && !c.useDeepComparison
  {
    c := new MemoizedComponent(Some(CountUnchangedComparator), false, deepCompare);
  }

  /**
   * A render of the corrected demo after its first one renders anew exactly when `count` is not
   * `===` the stored one, and otherwise hands back the element made earlier.
   */
  method RenderCorrectedComparisonDemo(c: MemoizedComponent, props: Props) returns (e: Element)
    requires c.Valid() && c.areEqual == Some(CountUnchangedComparator) && c.prevProps.Some?
    modifies c
    ensures !StrictEquals(Lookup(old(c.prevProps.value), "count"), Lookup(props, "count")) ==>
      e == Element(props) && c.prevProps == Some(props)
    ensures StrictEquals(Lookup(old(c.prevProps.value), "count"), Lookup(props, "count")) ==>
      e == old(c.memoized.value) && c.prevProps == old(c.prevProps)
  {
    e := c.Render(props);
  }

  /** As written, the demo skips its render exactly when `count` changes. */
  lemma {:induction false} CountComparatorInverted(prev: Props, next: Props)
    ensures ShouldRerender(Some(prev), next, CountChangedComparator) <==>
      StrictEquals(Lookup(prev, "count"), Lookup(next, "count"))
  {
  }

  /** A concrete case: going from count 1 to count 2 is not rendered by the demo as written. */
  lemma CountChangeSkipped()
    ensures !ShouldRerender(Some(map["count" := Number(1.0)]), map["count" := Number(2.0)], CountChangedComparator)
    ensures ShouldRerender(Some(map["count" := Number(1.0)]), map["count" := Number(2.0)], CountUnchangedComparator)
  {
    assert Lookup(map["count" := Number(1.0)], "count") == Number(1.0);
    assert Lookup(map["count" := Number(2.0)], "count") == Number(2.0);
  }

  /**
   * With the corrected comparator the demo re-renders exactly when `count` changes (a `NaN` count
   * counting as changed), whatever the other props do.
   */
  lemma {:induction false} CountComparatorCorrected(prev: Props, next: Props)
    ensures ShouldRerender(Some(prev), next, CountUnchangedComparator) <==>
      !StrictEquals(Lookup(prev, "count"), Lookup(next, "count"))
    ensures forall other: Props :: Lookup(other, "count") == Lookup(next, "count") ==>
      (ShouldRerender(Some(prev), other, CountUnchangedComparator) <==> ShouldRerender(Some(prev), next, CountUnchangedComparator))
  {
  }
}
