/**
 * The dashboard's sort: the column/direction state a header click updates,
 * the comparator over the six sortable columns, and the stable sort that
 * `Array.prototype.sort` performs with it.
 */
module Sorting {
  import opened Types
  import opened Seqs
  import opened Text

  /** The six sortable columns of the table. */
  datatype Column = BuilderName | CommunityName | Homes | LotSize | DateAdded | StatusLabel

  datatype Direction = Asc | Desc

  /** The active column (`None` before any header was clicked) and the direction. */
  datatype SortState = SortState(column: Option<Column>, direction: Direction)

  const InitialSort := SortState(None, Asc)

  /**
   * A header click. Clicking a different column makes it the active column,
   * ascending; clicking the active column again flips the direction. No
   * click leads back to "no column".
   */
  function HandleSort(s: SortState, column: Column): (r: SortState)
    ensures r.column == Some(column)
    ensures s.column != Some(column) ==> r.direction == Asc
    ensures s.column == Some(column) ==> r.direction != s.direction
  {
    if s.column == Some(column) then
      SortState(s.column, if s.direction == Asc then Desc else Asc)
    else
      SortState(Some(column), Asc)
  }

  /** Clicking the active column twice restores the sort state. */
  lemma ReselectTwiceRestores(s: SortState, column: Column)
    requires s.column == Some(column)
    ensures HandleSort(HandleSort(s, column), column) == s
  {
  }

  /** The value a column sorts by: text for names and status, a number otherwise. */
  datatype Key = TextKey(s: string) | NumberKey(n: real)

  function KeyOf(c: Community, column: Column): Key
  {
    match column
    case BuilderName => TextKey(c.builder.name)
    case CommunityName => TextKey(c.community.name)
    case Homes => NumberKey(c.homes as real)
    case LotSize => NumberKey(c.lotSize)
    case DateAdded => NumberKey(c.dateAdded as real)
    case StatusLabel => TextKey(Label(c.status))
  }

  /**
   * The dashboard's `<` on two keys of the same column: lexicographic for text,
   * numeric for numbers. A column never yields keys of both kinds; numbers
   * are put first only to make the order total.
   */
  predicate KeyLess(a: Key, b: Key)
  {
    match (a, b)
    case (TextKey(x), TextKey(y)) => LexLess(x, y)
    case (NumberKey(x), NumberKey(y)) => x < y
    case (NumberKey(_), TextKey(_)) => true
    case (TextKey(_), NumberKey(_)) => false
  }

  /** `KeyLess` is a strict total order: exactly one of `<`, `==`, `>` holds. */
  lemma KeyTrichotomy(a: Key, b: Key)
    ensures !(KeyLess(a, b) && KeyLess(b, a))
    ensures a == b <==> !KeyLess(a, b) && !KeyLess(b, a)
  {
    if a.TextKey? && b.TextKey? {
      if a == b {
        LexLessIrreflexive(a.s);
      } else {
        LexLessTotal(a.s, b.s);
      }
      if KeyLess(a, b) {
        LexLessAsymmetric(a.s, b.s);
      }
    }
  }

  lemma KeyLessTransitive(a: Key, b: Key, c: Key)
    requires KeyLess(a, b) && KeyLess(b, c)
    ensures KeyLess(a, c)
  {
    if a.TextKey? && b.TextKey? && c.TextKey? {
      LexLessTransitive(a.s, b.s, c.s);
    }
  }

  /**
   * The comparator handed to `sort`: 0 with no active column; otherwise -1,
   * 0 or 1 by the active column's keys, negated for a descending sort. It is
   * 0 exactly when the two keys are equal.
   */
  function Compare(a: Community, b: Community, s: SortState): (r: int)
    ensures -1 <= r <= 1
    ensures s.column == None ==> r == 0
    ensures s.column.Some? ==> (r == 0 <==> KeyOf(a, s.column.value) == KeyOf(b, s.column.value))
    ensures s.column.Some? && s.direction == Asc ==> (r < 0 <==> KeyLess(KeyOf(a, s.column.value), KeyOf(b, s.column.value)))
    ensures s.column.Some? && s.direction == Desc ==> (r < 0 <==> KeyLess(KeyOf(b, s.column.value), KeyOf(a, s.column.value)))
  {
    match s.column
    case None => 0
    case Some(column) =>
      var ka, kb := KeyOf(a, column), KeyOf(b, column);
      KeyTrichotomy(ka, kb);
      if KeyLess(ka, kb) then (if s.direction == Asc then -1 else 1)
      else if KeyLess(kb, ka) then (if s.direction == Asc then 1 else -1)
      else 0
  }

  /** Swapping the arguments negates the comparator. */
  lemma CompareAntisymmetric(a: Community, b: Community, s: SortState)
    ensures Compare(a, b, s) == -Compare(b, a, s)
  {
    if s.column.Some? {
      KeyTrichotomy(KeyOf(a, s.column.value), KeyOf(b, s.column.value));
    }
  }

  /** "Not after" is transitive, so the comparator is a consistent total preorder. */
  lemma CompareTransitive(a: Community, b: Community, c: Community, s: SortState)
    requires Compare(a, b, s) <= 0 && Compare(b, c, s) <= 0
    ensures Compare(a, c, s) <= 0
  {
    if s.column.Some? {
      var ka, kb, kc := KeyOf(a, s.column.value), KeyOf(b, s.column.value), KeyOf(c, s.column.value);
      KeyTrichotomy(ka, kc);
      if s.direction == Asc {
        if KeyLess(kc, ka) {
          if ka == kb {
            KeyTrichotomy(kb, kc);
          } else if kb == kc {
          } else {
            KeyLessTransitive(ka, kb, kc);
            KeyTrichotomy(ka, kc);
          }
        }
      } else {
        if KeyLess(ka, kc) {
          if ka == kb {
            KeyTrichotomy(kb, kc);
          } else if kb == kc {
          } else {
            KeyLessTransitive(kc, kb, ka);
            KeyTrichotomy(ka, kc);
          }
        }
      }
    }
  }

  /** Each record is not after its successor. */
  predicate Sorted(xs: seq<Community>, s: SortState)
  {
    forall i :: 0 <= i < |xs| - 1 ==> Compare(xs[i], xs[i + 1], s) <= 0
  }

  /**
   * Inserts `x` in front of the first record it is not after, so that it
   * stays behind every record of `ys` it ties with.
   */
  function Insert(x: Community, ys: seq<Community>, s: SortState): (r: seq<Community>)
    ensures |r| == |ys| + 1
    ensures multiset(r) == multiset(ys) + multiset{x}
    ensures r[0] == x || (|ys| > 0 && r[0] == ys[0])
    ensures Sorted(ys, s) ==> Sorted(r, s)
  {
    if |ys| == 0 then [x]
    else if Compare(x, ys[0], s) <= 0 then [x] + ys
    else
      var rest := Insert(x, ys[1..], s);
      CompareAntisymmetric(x, ys[0], s);
      assert ys == [ys[0]] + ys[1..];
      SortedCons(ys[0], rest, s);
      [ys[0]] + rest
  }

  /** A record not after the head of a sorted list can be put in front of it. */
  lemma SortedCons(y: Community, rest: seq<Community>, s: SortState)
    ensures Sorted(rest, s) && (|rest| > 0 ==> Compare(y, rest[0], s) <= 0) ==> Sorted([y] + rest, s)
  {
    if Sorted(rest, s) && (|rest| > 0 ==> Compare(y, rest[0], s) <= 0) {
      var r := [y] + rest;
      forall i | 0 <= i < |r| - 1
        ensures Compare(r[i], r[i + 1], s) <= 0
      {
        if i > 0 {
          assert r[i] == rest[i - 1] && r[i + 1] == rest[i];
        }
      }
    }
  }

  /**
   * The sorted table: a stable sort of `xs` under the comparator. It is a
   * permutation of `xs` in which each record is not after its successor.
   */
  function SortCommunities(xs: seq<Community>, s: SortState): (r: seq<Community>)
    ensures |r| == |xs|
    ensures multiset(r) == multiset(xs)
    ensures Sorted(r, s)
  {
    if |xs| == 0 then []
    else
      assert xs == [xs[0]] + xs[1..];
      Insert(xs[0], SortCommunities(xs[1..], s), s)
  }

  /** Records whose key in `column` is `k`. */
  function HasKey(column: Column, k: Key): Community -> bool
  {
    (c: Community) => KeyOf(c, column) == k
  }

  /**
   * Inserting `x` adds it to the front of its own key class and leaves every
   * other key class as it was.
   */
  lemma {:induction false} InsertKeyClass(x: Community, ys: seq<Community>, s: SortState, k: Key)
    requires s.column.Some?
    ensures Filter(Insert(x, ys, s), HasKey(s.column.value, k)) ==
      (if KeyOf(x, s.column.value) == k then [x] else []) + Filter(ys, HasKey(s.column.value, k))
    decreases |ys|
  {
    var column := s.column.value;
    var p := HasKey(column, k);
    if |ys| == 0 {
      FilterCons(x, [], p);
    } else if Compare(x, ys[0], s) <= 0 {
      FilterCons(x, ys, p);
    } else {
      var rest := Insert(x, ys[1..], s);
      var before := if p(ys[0]) then [ys[0]] else [];
      var own := if p(x) then [x] else [];
      assert Filter(rest, p) == own + Filter(ys[1..], p) by {
        InsertKeyClass(x, ys[1..], s, k);
      }
      assert Filter(Insert(x, ys, s), p) == before + Filter(rest, p) by {
        assert Insert(x, ys, s) == [ys[0]] + rest;
        FilterCons(ys[0], rest, p);
      }
      // x sorts after ys[0], so their keys differ and at most one is in class k
      assert before == [] || own == [];
      SwapAroundEmpty(before, own, Filter(ys[1..], p));
    }
  }

  lemma SwapAroundEmpty<T>(a: seq<T>, b: seq<T>, tail: seq<T>)
    requires a == [] || b == []
    ensures a + (b + tail) == b + (a + tail)
  {
    if a == [] {
      assert a + (b + tail) == b + tail;
    } else {
      assert b + (a + tail) == a + tail;
    }
  }

  /**
   * Stability: with an active column, the records with any one key appear
   * in the sorted table in the order they had in the input.
   */
  lemma {:induction false} SortIsStable(xs: seq<Community>, s: SortState, k: Key)
    requires s.column.Some?
    ensures Filter(SortCommunities(xs, s), HasKey(s.column.value, k)) == Filter(xs, HasKey(s.column.value, k))
    decreases |xs|
  {
    if |xs| > 0 {
      var p := HasKey(s.column.value, k);
      var sortedTail := SortCommunities(xs[1..], s);
      assert Filter(sortedTail, p) == Filter(xs[1..], p) by {
        SortIsStable(xs[1..], s, k);
      }
      assert Filter(Insert(xs[0], sortedTail, s), p) ==
        (if p(xs[0]) then [xs[0]] else []) + Filter(sortedTail, p) by {
        InsertKeyClass(xs[0], sortedTail, s, k);
      }
      assert Filter(xs, p) == (if p(xs[0]) then [xs[0]] else []) + Filter(xs[1..], p);
    }
  }

  /** With no active column the comparator ties everything and the order is kept. */
  lemma NoColumnKeepsOrder(xs: seq<Community>, s: SortState)
    requires s.column == None
    ensures SortCommunities(xs, s) == xs
  {
    AllTiedIsSorted(xs, s);
    SortedIsFixpoint(xs, s);
  }

  /** With no active column every list is in order. */
  lemma AllTiedIsSorted(xs: seq<Community>, s: SortState)
    requires s.column == None
    ensures Sorted(xs, s)
  {
  }

  /** A list that is already in order is left as it is. */
  lemma {:induction false} SortedIsFixpoint(xs: seq<Community>, s: SortState)
    requires Sorted(xs, s)
    ensures SortCommunities(xs, s) == xs
    decreases |xs|
  {
    if |xs| > 0 {
      assert Sorted(xs[1..], s);
      SortedIsFixpoint(xs[1..], s);
      assert xs == [xs[0]] + xs[1..];
    }
  }

  /** Sorting a second time under the same state changes nothing. */
  lemma SortIdempotent(xs: seq<Community>, s: SortState)
    ensures SortCommunities(SortCommunities(xs, s), s) == SortCommunities(xs, s)
  {
    SortedIsFixpoint(SortCommunities(xs, s), s);
  }

  /** In a sorted list every record is not after every later record. */
  lemma {:induction false} SortedPairwise(xs: seq<Community>, s: SortState, i: int, j: int)
    requires Sorted(xs, s) && 0 <= i < j < |xs|
    ensures Compare(xs[i], xs[j], s) <= 0
    decreases j - i
  {
    if j > i + 1 {
      SortedPairwise(xs, s, i + 1, j);
      CompareTransitive(xs[i], xs[i + 1], xs[j], s);
    }
  }

  /** Two records are swapped iff the first sorts strictly after the second. */
  lemma SortTwo(a: Community, b: Community, s: SortState)
    ensures Compare(a, b, s) > 0 ==> SortCommunities([a, b], s) == [b, a]
    ensures Compare(a, b, s) <= 0 ==> SortCommunities([a, b], s) == [a, b]
  {
    assert [a, b][1..] == [b];
    assert [b][1..] == [];
    assert SortCommunities([b], s) == [b];
  }
}
