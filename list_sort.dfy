/** What the list components share about sorting: the sort-field/direction
    state and its toggle, the header icons, the string collation `localeCompare`
    (an abstract comparison), the field comparator of the theme and version
    lists, and `Array.prototype.sort` with a comparator, which sorts the array
    in place. */
module ListSort {
  import Js
  import Seqs

  datatype Direction = Asc | Desc {
    function Flip(): Direction {
      if this == Asc then Desc else Asc
    }
  }

  /** The `sortField` / `sortDirection` pair a list keeps. */
  datatype SortState = SortState(field: string, direction: Direction)

  /** Clicking the header of `field`: the direction becomes descending exactly when the
      same field was already sorted ascending; the field is always the clicked one. */
  function Toggle(s: SortState, field: string): (r: SortState)
    ensures r.field == field
    ensures r.direction == Desc <==> (s.field == field && s.direction == Asc)
  {
    if s.field == field then SortState(field, s.direction.Flip()) else SortState(field, Asc)
  }

  /** Clicking the active header twice gives back the state one started from. */
  lemma ToggleTwice(s: SortState)
    ensures Toggle(Toggle(s, s.field), s.field) == s
  {
  }

  /** Clicking a header other than the active one always starts ascending, whatever came before. */
  lemma ToggleOtherField(s: SortState, field: string)
    requires s.field != field
    ensures Toggle(s, field) == SortState(field, Asc)
  {
  }

  /** The icon beside a header: neutral for an inactive field, otherwise an arrow for the direction. */
  function SortIcon(s: SortState, field: string): (icon: string)
    ensures icon == "↕️" <==> s.field != field
    ensures icon == "↗️" <==> (s.field == field && s.direction == Asc)
    ensures icon == "↘️" <==> (s.field == field && s.direction == Desc)
  {
    assert "↕️"[0] != "↗️"[0] && "↕️"[0] != "↘️"[0] && "↗️"[0] != "↘️"[0];
    if s.field != field then "↕️"
    else
      match s.direction
      case Asc => "↗️"
      case Desc => "↘️"
  }

  /** A `localeCompare`: negative, zero or positive, with the sign reversed when the arguments are swapped. */
  ghost predicate IsCollation(collate: (string, string) -> int) {
    forall x: string, y: string :: (collate(x, y) > 0 <==> collate(y, x) < 0) && (collate(x, y) == 0 <==> collate(y, x) == 0)
  }

  /** Swapping the arguments of `cmp` reverses a strictly positive answer on the elements of `s`. */
  ghost predicate AntisymmetricOn<T>(cmp: (T, T) -> int, s: seq<T>) {
    forall i, j :: 0 <= i < |s| && 0 <= j < |s| && cmp(s[i], s[j]) > 0 ==> cmp(s[j], s[i]) < 0
  }

  /** Every neighbour pair is in order. With a transitive comparator this is full sortedness. */
  ghost predicate AdjacentSorted<T>(s: seq<T>, cmp: (T, T) -> int) {
    forall i :: 0 < i < |s| ==> cmp(s[i - 1], s[i]) <= 0
  }

  /** `cmp` orders transitively on the elements of `s`. */
  ghost predicate TransitiveOn<T>(cmp: (T, T) -> int, s: seq<T>) {
    forall i, j, k :: 0 <= i < |s| && 0 <= j < |s| && 0 <= k < |s| && cmp(s[i], s[j]) <= 0 && cmp(s[j], s[k]) <= 0 ==> cmp(s[i], s[k]) <= 0
  }

  /** With a transitive comparator, ordered neighbours mean every pair is in order. */
  lemma {:induction false} AdjacentSortedAllPairs<T>(s: seq<T>, cmp: (T, T) -> int, i: int, j: int)
    requires AdjacentSorted(s, cmp) && TransitiveOn(cmp, s)
    requires 0 <= i < j < |s|
    ensures cmp(s[i], s[j]) <= 0
    decreases j - i
  {
    if j > i + 1 {
      AdjacentSortedAllPairs(s, cmp, i, j - 1);
    }
  }

  lemma AntisymmetricPermutation<T>(cmp: (T, T) -> int, s: seq<T>, t: seq<T>)
    requires AntisymmetricOn(cmp, s)
    requires multiset(t) == multiset(s)
    ensures AntisymmetricOn(cmp, t)
  {
    forall i, j | 0 <= i < |t| && 0 <= j < |t| && cmp(t[i], t[j]) > 0
      ensures cmp(t[j], t[i]) < 0
    {
      assert t[i] in multiset(s) && t[j] in multiset(s);
      var i' :| 0 <= i' < |s| && s[i'] == t[i];
      var j' :| 0 <= j' < |s| && s[j'] == t[j];
    }
  }

  /** Neighbours with indices in `[lo, hi)` are in order. */
  ghost predicate SortedRange<T>(s: seq<T>, lo: int, hi: int, cmp: (T, T) -> int)
    requires 0 <= lo && hi <= |s|
  {
    forall k :: lo < k < hi ==> cmp(s[k - 1], s[k]) <= 0
  }

  /** Midway through inserting `s[i]`: it now sits at `j`; both sides of it are in order,
      and the element before it may be followed by the one after it. */
  ghost predicate Inserting<T>(s: seq<T>, j: int, i: int, cmp: (T, T) -> int) {
    0 <= j <= i < |s| && SortedRange(s, 0, j, cmp) && SortedRange(s, j, i + 1, cmp)
    && (0 < j < i ==> cmp(s[j - 1], s[j + 1]) <= 0)
  }

  function Swap<T>(s: seq<T>, j: int): (r: seq<T>)
    requires 0 < j < |s|
    ensures |r| == |s| && multiset(r) == multiset(s)
  {
    var r := s[j - 1 := s[j]][j := s[j - 1]];
    assert r == s[..j - 1] + [s[j], s[j - 1]] + s[j + 1..];
    assert s == s[..j - 1] + [s[j - 1], s[j]] + s[j + 1..];
    r
  }

  lemma SwapStep<T>(s: seq<T>, j: int, i: int, cmp: (T, T) -> int)
    requires Inserting(s, j, i, cmp) && j > 0 && cmp(s[j - 1], s[j]) > 0
    requires AntisymmetricOn(cmp, s)
    ensures Inserting(Swap(s, j), j - 1, i, cmp)
  {
    var r := Swap(s, j);
    assert cmp(s[j], s[j - 1]) < 0;
    forall k | j - 1 < k < i + 1
      ensures cmp(r[k - 1], r[k]) <= 0
    {
      if k == j + 1 {
        assert r[k - 1] == s[j - 1] && r[k] == s[j + 1];
      }
    }
    if 0 < j - 1 {
      assert cmp(s[j - 2], s[j - 1]) <= 0;
    }
  }

  lemma InsertingDone<T>(s: seq<T>, j: int, i: int, cmp: (T, T) -> int)
    requires Inserting(s, j, i, cmp) && (j == 0 || cmp(s[j - 1], s[j]) <= 0)
    ensures SortedRange(s, 0, i + 1, cmp)
  {
    forall k | 0 < k < i + 1
      ensures cmp(s[k - 1], s[k]) <= 0
    {
      if k < j {
        assert cmp(s[k - 1], s[k]) <= 0;
      } else if k == j {
      } else {
        assert j < k < i + 1;
      }
    }
  }

  /** `array.sort(cmp)`, as an insertion sort by neighbour swaps (stable, like the engines').
      The array ends a permutation of what it held, and in order whenever the comparator
      is antisymmetric on its elements. */
  method SortInPlace<T>(a: array<T>, cmp: (T, T) -> int)
    modifies a
    ensures multiset(a[..]) == multiset(old(a[..]))
    ensures AntisymmetricOn(cmp, old(a[..])) ==> AdjacentSorted(a[..], cmp)
  {
    ghost var anti := AntisymmetricOn(cmp, a[..]);
    var i := 0;
    while i < a.Length
      invariant 0 <= i <= a.Length
      invariant multiset(a[..]) == multiset(old(a[..]))
      invariant anti ==> SortedRange(a[..], 0, i, cmp)
    {
      var j := i;
      while j > 0 && cmp(a[j - 1], a[j]) > 0
        invariant 0 <= j <= i < a.Length
        invariant multiset(a[..]) == multiset(old(a[..]))
        invariant anti ==> Inserting(a[..], j, i, cmp)
      {
        ghost var before := a[..];
        a[j - 1], a[j] := a[j], a[j - 1];
        assert a[..] == Swap(before, j);
        if anti {
          AntisymmetricPermutation(cmp, old(a[..]), before);
          SwapStep(before, j, i, cmp);
        }
        j := j - 1;
      }
      if anti {
        InsertingDone(a[..], j, i, cmp);
      }
      i := i + 1;
    }
  }

  /** The filter-then-sort the list components run: the elements satisfying `p`, sorted
      with `cmp`; a permutation of the filter's result, so never longer than `s`. */
  method FilterSorted<T>(s: seq<T>, p: T -> bool, cmp: (T, T) -> int) returns (r: seq<T>)
    ensures multiset(r) == multiset(Seqs.Filter(s, p))
    ensures |r| <= |s|
    ensures AntisymmetricOn(cmp, Seqs.Filter(s, p)) ==> AdjacentSorted(r, cmp)
  {
    var filtered := Seqs.Filter(s, p);
    r := SortedCopy(filtered, cmp);
    assert |r| == |multiset(r)| == |multiset(filtered)| == |filtered|;
  }

  /** `filtered.sort(cmp)` on the fresh array a `filter` returned: the result is a permutation
      of the input, in order when the comparator is antisymmetric on it. */
  method SortedCopy<T>(s: seq<T>, cmp: (T, T) -> int) returns (r: seq<T>)
    ensures multiset(r) == multiset(s)
    ensures AntisymmetricOn(cmp, s) ==> AdjacentSorted(r, cmp)
  {
    var a := new T[|s|](i requires 0 <= i < |s| => s[i]);
    assert a[..] == s;
    SortInPlace(a, cmp);
    r := a[..];
  }

  /** The comparator of the theme and version lists on the values of the sort field: a falsy
      value counts as `''`; two strings are collated, reversed for a descending sort; any other
      pair is equal. */
  function CompareValues(collate: (string, string) -> int, direction: Direction, a: Js.Value, b: Js.Value): (c: int)
    ensures !(Js.Or(a, Js.Str("")).Str? && Js.Or(b, Js.Str("")).Str?) ==> c == 0
    ensures Js.Or(a, Js.Str("")).Str? && Js.Or(b, Js.Str("")).Str? ==>
      var x, y := Js.Or(a, Js.Str("")).s, Js.Or(b, Js.Str("")).s;
      c == if direction == Asc then collate(x, y) else -collate(x, y)
  {
    var av, bv := Js.Or(a, Js.Str("")), Js.Or(b, Js.Str(""));
    if av.Str? && bv.Str? then
      var comparison := collate(av.s, bv.s);
      if direction == Asc then comparison else -comparison
    else 0
  }

  /** With a collation, the field comparator is antisymmetric on any pair of values. */
  lemma CompareValuesAntisymmetric(collate: (string, string) -> int, direction: Direction, a: Js.Value, b: Js.Value)
    requires IsCollation(collate)
    ensures CompareValues(collate, direction, a, b) > 0 <==> CompareValues(collate, direction, b, a) < 0
  {
    var av, bv := Js.Or(a, Js.Str("")), Js.Or(b, Js.Str(""));
    if av.Str? && bv.Str? {
      assert collate(av.s, bv.s) > 0 <==> collate(bv.s, av.s) < 0;
      assert collate(bv.s, av.s) > 0 <==> collate(av.s, bv.s) < 0;
    }
  }

  /** Descending is ascending with the sign reversed. */
  lemma CompareValuesReversed(collate: (string, string) -> int, a: Js.Value, b: Js.Value)
    ensures CompareValues(collate, Desc, a, b) == -CompareValues(collate, Asc, a, b)
  {
  }

  /** A missing or empty value sorts exactly as the empty string would. */
  lemma MissingSortsAsEmpty(collate: (string, string) -> int, direction: Direction, a: Js.Value, b: Js.Value)
    requires !Js.Truthy(a)
    ensures CompareValues(collate, direction, a, b) == CompareValues(collate, direction, Js.Str(""), b)
  {
  }
}
