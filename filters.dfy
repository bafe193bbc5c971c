/**
 * Local filters of pkg/rpdac/filter.go: the translation from a ReportPortal filter, the
 * accessors the reconciler uses, and the equality that decides whether a filter is up to date.
 */
module Filters {
  import opened Equal
  import opened Kind
  import Wire

  datatype FilterCondition = FilterCondition(filteringField: string, condition: string, value: string)

  datatype FilterOrder = FilterOrder(sortingColumn: string, isAsc: bool)

  datatype Filter = Filter(kind: ObjectKind, name: string, filterType: string, description: string,
                           conditions: Slice<FilterCondition>, orders: Slice<FilterOrder>)

  /** The local copy of one condition (filter.go:29). */
  function ConditionFromWire(c: Wire.Condition): FilterCondition {
    FilterCondition(c.filteringField, c.condition, c.value)
  }

  /** The local copy of one order (filter.go:34). */
  function OrderFromWire(o: Wire.Order): FilterOrder {
    FilterOrder(o.sortingColumn, o.isAsc)
  }

  /** f applied to every element, in order. */
  function Map<A, B>(s: seq<A>, f: A -> B): (r: seq<B>)
    ensures |r| == |s| && forall i :: 0 <= i < |s| ==> r[i] == f(s[i])
  {
    if |s| == 0 then [] else [f(s[0])] + Map(s[1..], f)
  }

  /** The local filter ToFilter builds from a server filter. */
  function FilterFromWire(f: Wire.Filter): Filter {
    Filter(FilterKind, f.name, f.filterType, f.description,
           Items(Map(f.conditions, ConditionFromWire)), Items(Map(f.orders, OrderFromWire)))
  }

  /**
   * ToFilter (filter.go:25-38): allocates the condition and order lists at the server filter's
   * lengths and fills them index by index, then sets the Filter kind and copies name, type and
   * description.
   */
  method ToFilter(f: Wire.Filter) returns (r: Filter)
    ensures r.kind == FilterKind && String(r.kind) == "Filter"
    ensures r.name == f.name && r.filterType == f.filterType && r.description == f.description
    ensures r.conditions.Items? && |r.conditions.elems| == |f.conditions|
    ensures forall i :: 0 <= i < |f.conditions| ==> r.conditions.elems[i] == ConditionFromWire(f.conditions[i])
    ensures r.orders.Items? && |r.orders.elems| == |f.orders|
    ensures forall i :: 0 <= i < |f.orders| ==> r.orders.elems[i] == OrderFromWire(f.orders[i])
    ensures r == FilterFromWire(f)
  {
    var conditions := new FilterCondition[|f.conditions|](_ => FilterCondition("", "", ""));
    var i := 0;
    while i < |f.conditions|
      invariant 0 <= i <= |f.conditions|
      invariant forall k :: 0 <= k < i ==> conditions[k] == ConditionFromWire(f.conditions[k])
    {
      var c := f.conditions[i];
      conditions[i] := FilterCondition(c.filteringField, c.condition, c.value);
      i := i + 1;
    }
    var orders := new FilterOrder[|f.orders|](_ => FilterOrder("", false));
    i := 0;
    while i < |f.orders|
      invariant 0 <= i <= |f.orders|
      invariant forall k :: 0 <= k < i ==> orders[k] == OrderFromWire(f.orders[k])
      invariant forall k :: 0 <= k < |f.conditions| ==> conditions[k] == ConditionFromWire(f.conditions[k])
    {
      var o := f.orders[i];
      orders[i] := FilterOrder(o.sortingColumn, o.isAsc);
      i := i + 1;
    }
    r := Filter(FilterKind, f.name, f.filterType, f.description, Items(conditions[..]), Items(orders[..]));
  }

  /** Filter.GetName (filter.go:40-42). */
  function GetName(f: Filter): (name: string)
    ensures name == f.name
  {
    f.name
  }

  /** Filter.GetKind (filter.go:44-46). */
  function GetKind(f: Filter): (kind: ObjectKind)
    ensures kind == f.kind
  {
    f.kind
  }

  /**
   * Filter.Equals, as filter_test.go:656-895 states it: the same name, type and description, and
   * the same conditions and orders in any order, where a nil list equals only a nil list.
   */
  predicate FilterEquals(a: Filter, b: Filter) {
    a.name == b.name && a.filterType == b.filterType && a.description == b.description &&
    SameElements(a.conditions, b.conditions) && SameElements(a.orders, b.orders)
  }

  /** The translation loses nothing: it is undone by reading each field back. */
  lemma FilterFromWireInjective(a: Wire.Filter, b: Wire.Filter)
    requires FilterFromWire(a) == FilterFromWire(b)
    ensures a.name == b.name && a.filterType == b.filterType && a.description == b.description
    ensures a.conditions == b.conditions && a.orders == b.orders
  {
    var fa, fb := FilterFromWire(a), FilterFromWire(b);
    assert |a.conditions| == |b.conditions|;
    forall i | 0 <= i < |a.conditions| ensures a.conditions[i] == b.conditions[i] {
      assert fa.conditions.elems[i] == fb.conditions.elems[i];
    }
    assert |a.orders| == |b.orders|;
    forall i | 0 <= i < |a.orders| ensures a.orders[i] == b.orders[i] {
      assert fa.orders.elems[i] == fb.orders.elems[i];
    }
  }

  lemma MapConcat<A, B>(a: seq<A>, b: seq<A>, f: A -> B)
    ensures Map(a + b, f) == Map(a, f) + Map(b, f)
  {
    assert forall i :: 0 <= i < |a + b| ==> Map(a + b, f)[i] == (Map(a, f) + Map(b, f))[i];
  }

  /** Taking the first element of s out of t leaves permutations of each other. */
  lemma RemoveMatching<A>(s: seq<A>, t: seq<A>, k: nat)
    requires multiset(s) == multiset(t) && |s| > 0 && k < |t| && t[k] == s[0]
    ensures t == t[..k] + [s[0]] + t[k + 1..]
    ensures multiset(s[1..]) == multiset(t[..k] + t[k + 1..])
  {
    var t1, t2 := t[..k], t[k + 1..];
    assert t == t1 + [s[0]] + t2;
    assert s == [s[0]] + s[1..];
    assert multiset(t1 + t2) == multiset(t1) + multiset(t2);
    forall x ensures multiset(s[1..])[x] == multiset(t1 + t2)[x] {
      assert multiset(s)[x] == multiset{s[0]}[x] + multiset(s[1..])[x];
      assert multiset(t)[x] == multiset(t1)[x] + multiset{s[0]}[x] + multiset(t2)[x];
    }
  }

  /** Mapping a sequence with one element singled out. */
  lemma MapAround<A, B>(t1: seq<A>, x: A, t2: seq<A>, f: A -> B)
    ensures multiset(Map(t1 + [x] + t2, f)) == multiset{f(x)} + multiset(Map(t1 + t2, f))
  {
    MapConcat(t1, t2, f);
    MapConcat(t1 + [x], t2, f);
    MapConcat(t1, [x], f);
    assert Map([x], f) == [f(x)];
    calc {
      multiset(Map(t1 + [x] + t2, f));
      multiset(Map(t1, f) + [f(x)] + Map(t2, f));
      multiset(Map(t1, f)) + multiset{f(x)} + multiset(Map(t2, f));
    }
  }

  /** Mapping permuted sequences gives permuted sequences. */
  lemma {:induction false} MapPermutation<A, B>(s: seq<A>, t: seq<A>, f: A -> B)
    requires multiset(s) == multiset(t)
    ensures multiset(Map(s, f)) == multiset(Map(t, f))
    decreases |s|
  {
    if |s| == 0 {
      assert |t| == |multiset(t)| == 0;
    } else {
      var k := MemberIndex(s[0], t);
      RemoveMatching(s, t, k);
      MapPermutation(s[1..], t[..k] + t[k + 1..], f);
      MapAround(t[..k], s[0], t[k + 1..], f);
    }
  }

  /**
   * The server may list conditions and orders in any order: translating two such filters gives
   * filters that are equal (filter_test.go:827-895).
   */
  lemma FilterFromWireOrderInsensitive(a: Wire.Filter, b: Wire.Filter)
    requires a.name == b.name && a.filterType == b.filterType && a.description == b.description
    requires multiset(a.conditions) == multiset(b.conditions) && multiset(a.orders) == multiset(b.orders)
    ensures FilterEquals(FilterFromWire(a), FilterFromWire(b))
  {
    MapPermutation(a.conditions, b.conditions, ConditionFromWire);
    MapPermutation(a.orders, b.orders, OrderFromWire);
  }

  /** Equals is an equivalence: reflexive and symmetric. */
  lemma FilterEqualsReflexiveSymmetric(a: Filter, b: Filter)
    ensures FilterEquals(a, a)
    ensures FilterEquals(a, b) == FilterEquals(b, a)
  {
  }

  /** nil conditions or orders differ from empty ones (filter_test.go:700-760). */
  lemma FilterNilListsDiffer(f: Filter)
    requires f.conditions.Nil? || f.orders.Nil?
    ensures !FilterEquals(f, f.(conditions := Items(Elems(f.conditions)), orders := Items(Elems(f.orders))))
  {
  }

  /**
   * ToFilter always builds non-nil lists, so a filter read back from the server never equals a
   * local filter without a `conditions` or `orders` list.
   */
  lemma FilterFromWireNeverEqualsNil(wf: Wire.Filter, f: Filter)
    requires f.conditions.Nil? || f.orders.Nil?
    ensures !FilterEquals(FilterFromWire(wf), f)
  {
  }

  /**
   * With conditions (and orders) identified by their key, the multiset comparison is exactly what
   * CompareSlices with plain equality computes.
   */
  lemma ConditionsCompareAsSlices(l: Slice<FilterCondition>, r: Slice<FilterCondition>,
                                  key: FilterCondition -> string)
    requires KeysDetermine(Elems(l), key) && KeysDetermine(Elems(r), key)
    ensures SameElements(l, r) ==
            SlicesEqual(l, r, key, (c: FilterCondition) => false, (x: FilterCondition, y: FilterCondition) => x == y)
  {
    if l.Items? && r.Items? {
      var sl, sr := Sort(l.elems, key), Sort(r.elems, key);
      if multiset(l.elems) == multiset(r.elems) {
        SortPermutationInvariant(l.elems, r.elems, key);
      }
      if |l.elems| == |r.elems| && forall i :: 0 <= i < |sl| ==> sl[i] == sr[i] {
        assert sl == sr;
      }
    }
  }
}
