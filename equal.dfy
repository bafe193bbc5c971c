/**
 * Order-insensitive slice comparators of pkg/util/equal.go.
 *
 * A Go slice is either nil or a (possibly empty) sequence; `Slice` keeps the two apart in
 * values, and the comparator methods take `array?` arguments, where `null` is the nil slice.
 * `Comparable.Key()` and `Comparable.Equals` become the function parameters `key` and `equals`;
 * `isNil` tells which element values are nil interfaces.
 */
module Equal {
  import Strings

  datatype Slice<T> = Nil | Items(elems: seq<T>)

  /** Length of a Go slice: len(nil) == 0. */
  function Len<T>(s: Slice<T>): nat {
    if s.Nil? then 0 else |s.elems|
  }

  /** The elements of a Go slice (none for nil). */
  function Elems<T>(s: Slice<T>): seq<T> {
    if s.Nil? then [] else s.elems
  }

  /** The Go slice an array? stands for. */
  ghost function View<T>(a: array?<T>): Slice<T>
    reads a
  {
    if a == null then Nil else Items(a[..])
  }

  predicate SortedByKey<T>(s: seq<T>, key: T -> string) {
    forall i, j :: 0 <= i < j < |s| ==> Strings.LessOrEqual(key(s[i]), key(s[j]))
  }

  /** Equal keys mean equal elements: the pkg/util/equal.go contract that Key() is unique. */
  ghost predicate KeysDetermine<T>(s: seq<T>, key: T -> string) {
    forall i, j :: 0 <= i < |s| && 0 <= j < |s| && key(s[i]) == key(s[j]) ==> s[i] == s[j]
  }

  /** Every element of s has a key no smaller than b. */
  predicate KeyLowerBound<T>(b: string, s: seq<T>, key: T -> string) {
    forall i :: 0 <= i < |s| ==> Strings.LessOrEqual(b, key(s[i]))
  }

  /** Insert x into a key-sorted sequence, before the first element with a larger key. */
  function Insert<T>(x: T, s: seq<T>, key: T -> string): (r: seq<T>)
    ensures multiset(r) == multiset(s) + multiset{x}
    ensures |r| == |s| + 1
  {
    if |s| == 0 then [x]
    else if Strings.LessOrEqual(key(x), key(s[0])) then [x] + s
    else
      assert s == [s[0]] + s[1..];
      [s[0]] + Insert(x, s[1..], key)
  }

  lemma {:induction false} InsertLowerBound<T>(b: string, x: T, s: seq<T>, key: T -> string)
    requires KeyLowerBound(b, s, key) && Strings.LessOrEqual(b, key(x))
    ensures KeyLowerBound(b, Insert(x, s, key), key)
  {
    if |s| > 0 && !Strings.LessOrEqual(key(x), key(s[0])) {
      InsertLowerBound(b, x, s[1..], key);
      var r := Insert(x, s, key);
      assert r == [s[0]] + Insert(x, s[1..], key);
      assert forall i :: 0 < i < |r| ==> r[i] == Insert(x, s[1..], key)[i - 1];
    }
  }

  lemma SortedCons<T>(s: seq<T>, key: T -> string)
    requires |s| > 0
    ensures SortedByKey(s, key) <==> KeyLowerBound(key(s[0]), s[1..], key) && SortedByKey(s[1..], key)
  {
    assert forall i :: 0 < i < |s| ==> s[1..][i - 1] == s[i];
    if KeyLowerBound(key(s[0]), s[1..], key) && SortedByKey(s[1..], key) {
      forall i, j | 0 <= i < j < |s| ensures Strings.LessOrEqual(key(s[i]), key(s[j])) {
        if i > 0 {
          assert s[i] == s[1..][i - 1] && s[j] == s[1..][j - 1];
        } else {
          assert s[j] == s[1..][j - 1];
        }
      }
    }
  }

  lemma {:induction false} InsertSorted<T>(x: T, s: seq<T>, key: T -> string)
    requires SortedByKey(s, key)
    ensures SortedByKey(Insert(x, s, key), key)
  {
    var r := Insert(x, s, key);
    if |s| == 0 {
    } else if Strings.LessOrEqual(key(x), key(s[0])) {
      assert r[1..] == s && r[0] == x;
      SortedCons(s, key);
      forall i | 0 <= i < |s| ensures Strings.LessOrEqual(key(x), key(s[i])) {
        if i > 0 {
          Strings.LessOrEqualTransitive(key(x), key(s[0]), key(s[i]));
        }
      }
      SortedCons(r, key);
    } else {
      SortedCons(s, key);
      InsertSorted(x, s[1..], key);
      Strings.LessOrEqualTotal(key(x), key(s[0]));
      InsertLowerBound(key(s[0]), x, s[1..], key);
      assert r[0] == s[0] && r[1..] == Insert(x, s[1..], key);
      SortedCons(r, key);
    }
  }

  /** A stable insertion sort by key: the reference order of the comparators. */
  function Sort<T>(s: seq<T>, key: T -> string): (r: seq<T>)
    ensures SortedByKey(r, key)
    ensures multiset(r) == multiset(s)
    ensures |r| == |s|
  {
    if |s| == 0 then []
    else
      assert s == [s[0]] + s[1..];
      InsertSorted(s[0], Sort(s[1..], key), key);
      Insert(s[0], Sort(s[1..], key), key)
  }

  lemma KeysDeterminePermutation<T>(s: seq<T>, t: seq<T>, key: T -> string)
    requires multiset(s) == multiset(t)
    requires KeysDetermine(s, key)
    ensures KeysDetermine(t, key)
  {
    forall i, j | 0 <= i < |t| && 0 <= j < |t| && key(t[i]) == key(t[j]) ensures t[i] == t[j] {
      assert t[i] in multiset(s) && t[j] in multiset(s);
      var i' :| 0 <= i' < |s| && s[i'] == t[i];
      var j' :| 0 <= j' < |s| && s[j'] == t[j];
    }
  }

  /** Dropping the first element keeps a sequence key-sorted and key-determined. */
  lemma TailKeepsOrder<T>(s: seq<T>, key: T -> string)
    requires |s| > 0 && SortedByKey(s, key) && KeysDetermine(s, key)
    ensures SortedByKey(s[1..], key) && KeysDetermine(s[1..], key)
  {
    assert forall i :: 0 <= i < |s[1..]| ==> s[1..][i] == s[i + 1];
  }

  /** Two key-sorted arrangements of one key-determined multiset start with the same element. */
  lemma SortedPermutationsSameHead<T>(s: seq<T>, t: seq<T>, key: T -> string)
    requires |s| > 0 && |t| > 0
    requires SortedByKey(s, key) && SortedByKey(t, key)
    requires multiset(s) == multiset(t)
    requires KeysDetermine(s, key)
    ensures s[0] == t[0]
  {
    assert s[0] in multiset(t) && t[0] in multiset(s);
    var k :| 0 <= k < |t| && t[k] == s[0];
    var m :| 0 <= m < |s| && s[m] == t[0];
    assert Strings.LessOrEqual(key(s[0]), key(s[m]));
    assert Strings.LessOrEqual(key(t[0]), key(t[k]));
    Strings.LessOrEqualAntisymmetric(key(s[0]), key(t[0]));
  }

  /** Removing one common first element keeps two sequences permutations of each other. */
  lemma TailsPermutation<T>(s: seq<T>, t: seq<T>)
    requires |s| > 0 && |t| > 0 && s[0] == t[0] && multiset(s) == multiset(t)
    ensures multiset(s[1..]) == multiset(t[1..])
  {
    assert s == [s[0]] + s[1..] && t == [t[0]] + t[1..];
    assert multiset(s) == multiset{s[0]} + multiset(s[1..]);
    assert multiset(t) == multiset{t[0]} + multiset(t[1..]);
    forall x ensures multiset(s[1..])[x] == multiset(t[1..])[x] {
      assert multiset(s)[x] == multiset{s[0]}[x] + multiset(s[1..])[x];
      assert multiset(t)[x] == multiset{t[0]}[x] + multiset(t[1..])[x];
    }
  }

  /** Two key-sorted arrangements of the same elements agree when keys determine elements. */
  lemma {:induction false} SortedPermutationsEqual<T>(s: seq<T>, t: seq<T>, key: T -> string)
    requires SortedByKey(s, key) && SortedByKey(t, key)
    requires multiset(s) == multiset(t)
    requires KeysDetermine(s, key)
    ensures s == t
  {
    assert |s| == |multiset(s)| == |multiset(t)| == |t|;
    if |s| > 0 {
      SortedPermutationsSameHead(s, t, key);
      TailsPermutation(s, t);
      TailKeepsOrder(s, key);
      assert SortedByKey(t[1..], key) by {
        assert forall i :: 0 <= i < |t[1..]| ==> t[1..][i] == t[i + 1];
      }
      SortedPermutationsEqual(s[1..], t[1..], key);
      assert s == [s[0]] + s[1..] && t == [t[0]] + t[1..];
    }
  }

  /** A sorted copy of s is Sort(s) whenever keys determine the elements of s. */
  lemma SortedCopyIsSort<T>(s: seq<T>, c: seq<T>, key: T -> string)
    requires SortedByKey(c, key) && multiset(c) == multiset(s)
    requires KeysDetermine(s, key)
    ensures c == Sort(s, key)
  {
    KeysDeterminePermutation(s, c, key);
    SortedPermutationsEqual(c, Sort(s, key), key);
  }

  /** Whether two elements at the same sorted position match (equal.go, the loop body). */
  predicate ElementsMatch<T>(x: T, y: T, isNil: T -> bool, equals: (T, T) -> bool) {
    if isNil(x) || isNil(y) then isNil(x) && isNil(y) else equals(x, y)
  }

  /**
   * What CompareSlices computes: nil only equals nil; otherwise the lengths agree and the two
   * slices, each sorted by key, match position by position.
   */
  predicate SlicesEqual<T>(l: Slice<T>, r: Slice<T>, key: T -> string, isNil: T -> bool,
                           equals: (T, T) -> bool)
  {
    if l.Nil? || r.Nil? then l.Nil? && r.Nil?
    else
      |l.elems| == |r.elems| &&
      var sl, sr := Sort(l.elems, key), Sort(r.elems, key);
      forall i :: 0 <= i < |sl| ==> ElementsMatch(sl[i], sr[i], isNil, equals)
  }

  /** What CompareStringSlices computes: nil only equals nil; otherwise equal as multisets. */
  predicate SameElements<T(==)>(l: Slice<T>, r: Slice<T>) {
    if l.Nil? || r.Nil? then l.Nil? && r.Nil? else multiset(l.elems) == multiset(r.elems)
  }

  /** copySlice: a fresh array holding the same elements. */
  method CopySlice<T>(s: array<T>) returns (c: array<T>)
    ensures fresh(c)
    ensures c[..] == s[..]
  {
    c := new T[s.Length](i requires 0 <= i < s.Length reads s => s[i]);
  }

  /**
   * sortSlice and sort.StringSlice.Sort: sort in place by key. The library's algorithm is not
   * part of the source; any in-place sort meets this contract.
   */
  method SortSlice<T>(a: array<T>, key: T -> string)
    modifies a
    ensures SortedByKey(a[..], key)
    ensures multiset(a[..]) == multiset(old(a[..]))
  {
    var sorted := Sort(a[..], key);
    forall i | 0 <= i < a.Length {
      a[i] := sorted[i];
    }
    assert a[..] == sorted;
  }

  /** SlicesEqual on two non-nil slices of one length, read off their sorted arrangements. */
  lemma SlicesEqualBySorted<T>(l: seq<T>, r: seq<T>, left: seq<T>, right: seq<T>, key: T -> string,
                               isNil: T -> bool, equals: (T, T) -> bool)
    requires |l| == |r| && left == Sort(l, key) && right == Sort(r, key)
    ensures SlicesEqual(Items(l), Items(r), key, isNil, equals) <==>
              forall k :: 0 <= k < |left| ==> ElementsMatch(left[k], right[k], isNil, equals)
  {
  }

  /** With unique keys, any sorted copies decide SlicesEqual position by position. */
  lemma SortedCopiesDecide<T>(l: seq<T>, r: seq<T>, left: seq<T>, right: seq<T>, key: T -> string,
                              isNil: T -> bool, equals: (T, T) -> bool)
    requires |l| == |r| && |left| == |l| && |right| == |r|
    requires SortedByKey(left, key) && multiset(left) == multiset(l)
    requires SortedByKey(right, key) && multiset(right) == multiset(r)
    ensures KeysDetermine(l, key) && KeysDetermine(r, key) ==>
              (SlicesEqual(Items(l), Items(r), key, isNil, equals) <==>
               forall k :: 0 <= k < |left| ==> ElementsMatch(left[k], right[k], isNil, equals))
  {
    if KeysDetermine(l, key) && KeysDetermine(r, key) {
      SortedCopyIsSort(l, left, key);
      SortedCopyIsSort(r, right, key);
      SlicesEqualBySorted(l, r, left, right, key, isNil, equals);
    }
  }

  /** CompareSlices (equal.go:26-62). */
  method CompareSlices<T>(l: array?<T>, r: array?<T>, key: T -> string, isNil: T -> bool,
                          equals: (T, T) -> bool)
    returns (same: bool)
    requires l != null && l.Length >= 2 ==> forall i :: 0 <= i < l.Length ==> !isNil(l[i])
    requires r != null && r.Length >= 2 ==> forall i :: 0 <= i < r.Length ==> !isNil(r[i])
    ensures l == null || r == null ==> same == (l == null && r == null)
    ensures l != null && r != null && l.Length != r.Length ==> !same
    ensures l != null && r != null && KeysDetermine(l[..], key) && KeysDetermine(r[..], key) ==>
              same == SlicesEqual(Items(l[..]), Items(r[..]), key, isNil, equals)
    ensures l != null ==> l[..] == old(l[..])
    ensures r != null ==> r[..] == old(r[..])
  {
    if l == null || r == null {
      return l == null && r == null;
    }
    if l.Length != r.Length {
      return false;
    }
    var left := CopySlice(l);
    var right := CopySlice(r);
    SortSlice(left, key);
    SortSlice(right, key);
    SortedCopiesDecide(l[..], r[..], left[..], right[..], key, isNil, equals);
    same := MatchPositions(left, right, isNil, equals);
  }

  /** The loop of CompareSlices (equal.go:49-61): walk two sorted copies position by position. */
  method MatchPositions<T>(left: array<T>, right: array<T>, isNil: T -> bool, equals: (T, T) -> bool)
    returns (same: bool)
    requires left.Length == right.Length
    ensures same <==> forall k :: 0 <= k < left.Length ==> ElementsMatch(left[k], right[k], isNil, equals)
  {
    var i := 0;
    while i < left.Length
      invariant 0 <= i <= left.Length
      invariant forall k :: 0 <= k < i ==> ElementsMatch(left[k], right[k], isNil, equals)
    {
      var x, y := left[i], right[i];
      if isNil(x) || isNil(y) {
        if isNil(x) && isNil(y) {
          i := i + 1;
          continue;
        }
        return false;
      }
      if !equals(x, y) {
        return false;
      }
      i := i + 1;
    }
    return true;
  }

  /** The key by which sort.StringSlice orders strings: the string itself. */
  function Identity(s: string): string { s }

  /** CompareStringSlices (equal.go:64-93): nil only equals nil, otherwise multiset equality. */
  method CompareStringSlices(l: array?<string>, r: array?<string>) returns (same: bool)
    ensures same == SameElements(View(l), View(r))
    ensures l != null ==> l[..] == old(l[..])
    ensures r != null ==> r[..] == old(r[..])
  {
    if l == null || r == null {
      return l == null && r == null;
    }
    if l.Length != r.Length {
      assert |multiset(l[..])| != |multiset(r[..])|;
      return false;
    }
    var left := CopySlice(l);
    var right := CopySlice(r);
    SortSlice(left, Identity);
    SortSlice(right, Identity);
    if multiset(l[..]) == multiset(r[..]) {
      SortedPermutationsEqual(left[..], right[..], Identity);
    }
    same := SameContents(left, right);
  }

  /** The loop of CompareStringSlices (equal.go:85-92): walk two sorted copies position by position. */
  method SameContents(left: array<string>, right: array<string>) returns (same: bool)
    requires left.Length == right.Length
    ensures same <==> left[..] == right[..]
  {
    var i := 0;
    while i < left.Length
      invariant 0 <= i <= left.Length
      invariant forall k :: 0 <= k < i ==> left[k] == right[k]
    {
      if left[i] != right[i] {
        return false;
      }
      i := i + 1;
    }
    assert left[..] == right[..];
    return true;
  }

  /** Sorting a key-determined sequence does not depend on the order it arrived in. */
  lemma SortPermutationInvariant<T>(s: seq<T>, t: seq<T>, key: T -> string)
    requires multiset(s) == multiset(t) && KeysDetermine(s, key)
    ensures Sort(s, key) == Sort(t, key)
  {
    KeysDeterminePermutation(s, Sort(s, key), key);
    SortedPermutationsEqual(Sort(s, key), Sort(t, key), key);
  }

  /** With unique keys, reordering the left slice does not change SlicesEqual (equal_test.go:49-53). */
  lemma SlicesEqualOrderInsensitive<T>(l: seq<T>, l': seq<T>, r: Slice<T>, key: T -> string,
                                       isNil: T -> bool, equals: (T, T) -> bool)
    requires multiset(l) == multiset(l') && KeysDetermine(l, key)
    ensures SlicesEqual(Items(l), r, key, isNil, equals) == SlicesEqual(Items(l'), r, key, isNil, equals)
  {
    SortPermutationInvariant(l, l', key);
    assert |l| == |multiset(l)| == |multiset(l')| == |l'|;
  }

  /** SlicesEqual is symmetric when Equals is. */
  lemma SlicesEqualSymmetric<T>(l: Slice<T>, r: Slice<T>, key: T -> string, isNil: T -> bool,
                                equals: (T, T) -> bool)
    requires forall x, y :: equals(x, y) == equals(y, x)
    ensures SlicesEqual(l, r, key, isNil, equals) == SlicesEqual(r, l, key, isNil, equals)
  {
    if l.Items? && r.Items? && |l.elems| == |r.elems| {
      var sl, sr := Sort(l.elems, key), Sort(r.elems, key);
      forall i | 0 <= i < |sl|
        ensures ElementsMatch(sl[i], sr[i], isNil, equals) == ElementsMatch(sr[i], sl[i], isNil, equals)
      {
        var j := MemberIndex(sl[i], l.elems);
        var k := MemberIndex(sr[i], r.elems);
        assert equals(l.elems[j], r.elems[k]) == equals(r.elems[k], l.elems[j]);
      }
    }
  }

  /** Every slice equals itself when Equals is reflexive on its elements. */
  lemma SlicesEqualReflexive<T>(l: Slice<T>, key: T -> string, isNil: T -> bool, equals: (T, T) -> bool)
    requires forall i :: 0 <= i < Len(l) ==> equals(Elems(l)[i], Elems(l)[i])
    ensures SlicesEqual(l, l, key, isNil, equals)
  {
    if l.Items? {
      var sl := Sort(l.elems, key);
      forall i | 0 <= i < |sl| ensures ElementsMatch(sl[i], sl[i], isNil, equals) {
        var j := MemberIndex(sl[i], l.elems);
        assert Elems(l)[j] == l.elems[j];
      }
    }
  }

  /** An index at which a member of a sequence occurs. */
  lemma MemberIndex<T>(x: T, s: seq<T>) returns (j: nat)
    requires x in multiset(s)
    ensures j < |s| && s[j] == x
  {
    j :| 0 <= j < |s| && s[j] == x;
  }

  /** Two non-nil string slices have the same elements exactly when their sorted copies agree. */
  lemma SameElementsIffSortedEqual(l: seq<string>, r: seq<string>)
    ensures SameElements(Items(l), Items(r)) <==> Sort(l, Identity) == Sort(r, Identity)
  {
    if multiset(l) == multiset(r) {
      SortPermutationInvariant(l, r, Identity);
    }
  }

  /** SameElements is symmetric: CompareStringSlices(l, r) == CompareStringSlices(r, l). */
  lemma SameElementsSymmetric<T>(l: Slice<T>, r: Slice<T>)
    ensures SameElements(l, r) == SameElements(r, l)
  {
  }

  /** Only a nil slice equals a nil slice, in both comparators (equal_test.go:128-138). */
  lemma NilOnlyEqualsNil<T>(s: Slice<T>, key: T -> string, isNil: T -> bool, equals: (T, T) -> bool)
    ensures SameElements(Nil, s) <==> s.Nil?
    ensures SameElements(s, Nil) <==> s.Nil?
    ensures SlicesEqual(Nil, s, key, isNil, equals) <==> s.Nil?
    ensures SlicesEqual(s, Nil, key, isNil, equals) <==> s.Nil?
  {
  }

  /** No string is a nil element. */
  predicate NoNilString(s: string) { false }

  /** String equality, as `!=` tests it in CompareStringSlices. */
  predicate SameString(x: string, y: string) { x == y }

  /** Non-nil string slices of one length compare equal exactly when they are permutations. */
  lemma SortedStringsMatch(l: seq<string>, r: seq<string>)
    requires |l| == |r|
    ensures SlicesEqual(Items(l), Items(r), Identity, NoNilString, SameString) <==> multiset(l) == multiset(r)
  {
    var sl, sr := Sort(l, Identity), Sort(r, Identity);
    SlicesEqualBySorted(l, r, sl, sr, Identity, NoNilString, SameString);
    SameElementsIffSortedEqual(l, r);
    if forall i :: 0 <= i < |sl| ==> ElementsMatch(sl[i], sr[i], NoNilString, SameString) {
      forall i | 0 <= i < |sl| ensures sl[i] == sr[i] {
        assert ElementsMatch(sl[i], sr[i], NoNilString, SameString);
      }
      assert sl == sr;
    }
  }

  /** On strings, the general comparator keyed by the string itself is CompareStringSlices. */
  lemma StringComparatorsAgree(l: Slice<string>, r: Slice<string>)
    ensures SlicesEqual(l, r, Identity, NoNilString, SameString) == SameElements(l, r)
  {
    if l.Items? && r.Items? {
      if |l.elems| == |r.elems| {
        SortedStringsMatch(l.elems, r.elems);
      } else {
        assert |multiset(l.elems)| != |multiset(r.elems)|;
      }
    }
  }
}
