/**
 * The table the dashboard shows: the filtered list, sorted by the active
 * column, together with worked scenarios on two sample communities.
 */
module Dashboard {
  import opened Types
  import opened Seqs
  import opened Filtering
  import opened Sorting
  import opened Text

  /**
   * The rows of the table: the filter result sorted under the sort state.
   * They are exactly the records that pass the filters, each as often as in
   * the catalog, in sorted order.
   */
  function View(all: seq<Community>, f: FilterState, s: SortState): (rows: seq<Community>)
    ensures forall c :: multiset(rows)[c] == if Passes(c, f) then multiset(all)[c] else 0
    ensures Sorted(rows, s)
  {
    SortCommunities(ApplyFilters(all, f), s)
  }

  /**
   * Before any edit or click the table lists the whole catalog in its
   * original order.
   */
  lemma InitialViewIsCatalog(all: seq<Community>)
    ensures View(all, InitialFilters, InitialSort) == all
  {
    UnconstrainedKeepsAll(all, InitialFilters);
    NoColumnKeepsOrder(all, InitialSort);
  }

  /** Without an active column the table keeps the filter result's order. */
  lemma NoColumnShowsFilterOrder(all: seq<Community>, f: FilterState, s: SortState)
    requires s.column == None
    ensures View(all, f, s) == ApplyFilters(all, f)
  {
    NoColumnKeepsOrder(ApplyFilters(all, f), s);
  }

  function Sample(id: string, builder: string, dateAdded: int, status: Status): Community
  {
    Community(id, Builder(builder, ""), Location("", "Harris County", "Texas"),
              100, 0.25, dateAdded, status, 3, [], Coordinates(29.76, -95.37))
  }

  /**
   * Two communities added on 2024-01-15 (day 19737) and 2024-01-10
   * (day 19732): the first click on "Date Added" puts the earlier first,
   * the second click reverses the order.
   */
  lemma DateAddedScenario()
    ensures var a, b := Sample("A", "D.R. Horton", 19737, Prime), Sample("B", "Lennar", 19732, Recent);
      var once := HandleSort(InitialSort, DateAdded);
      && View([a, b], InitialFilters, once) == [b, a]
      && View([a, b], InitialFilters, HandleSort(once, DateAdded)) == [a, b]
  {
    var a, b := Sample("A", "D.R. Horton", 19737, Prime), Sample("B", "Lennar", 19732, Recent);
    var once := HandleSort(InitialSort, DateAdded);
    assert once == SortState(Some(DateAdded), Asc);
    assert HandleSort(once, DateAdded) == SortState(Some(DateAdded), Desc);
    UnconstrainedKeepsAll([a, b], InitialFilters);
    assert Compare(a, b, once) == 1;
    assert Compare(a, b, HandleSort(once, DateAdded)) == -1;
    SortTwo(a, b, once);
    SortTwo(a, b, HandleSort(once, DateAdded));
  }

  /** Searching "lennar" keeps only the Lennar community. */
  lemma BuilderSearchScenario()
    ensures var a, b := Sample("A", "D.R. Horton", 19737, Prime), Sample("B", "Lennar", 19732, Recent);
      ApplyFilters([a, b], InitialFilters.(builder := "lennar")) == [b]
  {
    var a, b := Sample("A", "D.R. Horton", 19737, Prime), Sample("B", "Lennar", 19732, Recent);
    var f := InitialFilters.(builder := "lennar");
    HortonIsNotLennar();
    assert Passes(b, f) by {
      LennarIsLennar();
    }
    var passes := (c: Community) => Passes(c, f);
    assert Filter([a, b], passes) == [b] by {
      assert [a, b] == [a] + [b];
      FilterCons(a, [b], passes);
      FilterCons(b, [], passes);
      assert [b] == [b] + [];
    }
    PipelineIsOnePass([a, b], f);
  }

  lemma HortonIsNotLennar()
    ensures !IsSubstring(Lower("lennar"), Lower("D.R. Horton"))
  {
    var hay := Lower("D.R. Horton");
    assert Lower("lennar") == "lennar";
    assert forall i :: 0 <= i < |hay| ==> hay[i] != 'l';
    forall k | 0 <= k
      ensures !OccursAt("lennar", hay, k)
    {
      if k + 6 <= |hay| {
        assert hay[k..k + 6][0] == hay[k];
      }
    }
  }

  lemma LennarIsLennar()
    ensures IsSubstring(Lower("lennar"), Lower("Lennar"))
  {
    assert Lower("Lennar") == "lennar";
    assert Lower("lennar") == "lennar";
    assert OccursAt("lennar", "lennar", 0);
  }
}
