/**
 * The filter controls of the map panel: the choices each control offers and
 * the filter state each edit produces. Every edit builds a new filter state
 * from the current one; exactly the edited field changes, except that
 * choosing a state also clears the county.
 */
module Panel {
  import opened Types
  import opened Seqs

  /** The states the state dropdown offers, after "All States" (""). */
  const States: seq<string> := ["Texas", "Florida", "California", "Arizona"]

  /** The county list for each state the dropdown offers. */
  const CountyTable: map<string, seq<string>> := map[
    "Texas" := ["Dallas County", "Harris County", "Travis County", "Tarrant County"],
    "Florida" := ["Miami-Dade County", "Broward County", "Palm Beach County"],
    "California" := ["Los Angeles County", "Orange County", "San Diego County"],
    "Arizona" := ["Maricopa County", "Pima County"]]

  /** The statuses offered as checkboxes. */
  const StatusOptions: seq<string> := ["PRIME", "RECENT", "AGED", "ARCHIVED"]

  /** The checkboxes offer exactly the labels of the four statuses, each once. */
  lemma StatusOptionsAreTheStatuses()
    ensures forall st: Status :: Label(st) in StatusOptions
    ensures forall i :: 0 <= i < |StatusOptions| ==> exists st: Status :: Label(st) == StatusOptions[i]
    ensures forall i, j :: 0 <= i < j < |StatusOptions| ==> StatusOptions[i] != StatusOptions[j]
  {
    assert Label(Prime) == StatusOptions[0];
    assert Label(Recent) == StatusOptions[1];
    assert Label(Aged) == StatusOptions[2];
    assert Label(Archived) == StatusOptions[3];
  }

  /** The counties listed for a state; none for "" or a state not in the table. */
  function CountiesOf(state: string): (counties: seq<string>)
    ensures state !in CountyTable ==> counties == []
    ensures state in CountyTable ==> counties == CountyTable[state]
  {
    if state in CountyTable then CountyTable[state] else []
  }

  /** Exactly the states the state dropdown offers have counties to choose from. */
  lemma OfferedStatesHaveCounties(state: string)
    ensures |CountiesOf(state)| > 0 <==> state in States
  {
  }

  /** The values the county dropdown offers: "All Counties" ("") and the state's counties. */
  function CountyChoices(f: FilterState): (choices: seq<string>)
    ensures |choices| >= 1 && choices[0] == ""
    ensures f.state == "" ==> choices == [""]
    ensures forall c :: c in choices ==> c == "" || c in CountiesOf(f.state)
    ensures f.state != "" ==> forall c :: c in CountiesOf(f.state) ==> c in choices
  {
    [""] + (if f.state != "" then CountiesOf(f.state) else [])
  }

  /** The county dropdown is disabled while no state is chosen. */
  predicate CountyDisabled(f: FilterState)
  {
    f.state == ""
  }

  /** Choosing a state (or "All States") clears the county. */
  function SelectState(f: FilterState, state: string): (r: FilterState)
    ensures r.state == state && r.county == ""
    ensures r.builder == f.builder && r.status == f.status && r.filterByMap == f.filterByMap
  {
    f.(state := state, county := "")
  }

  function SelectCounty(f: FilterState, county: string): (r: FilterState)
    ensures r.county == county
    ensures r.state == f.state && r.builder == f.builder
    ensures r.status == f.status && r.filterByMap == f.filterByMap
  {
    f.(county := county)
  }

  function EditBuilder(f: FilterState, builder: string): (r: FilterState)
    ensures r.builder == builder
    ensures r.state == f.state && r.county == f.county
    ensures r.status == f.status && r.filterByMap == f.filterByMap
  {
    f.(builder := builder)
  }

  function SetFilterByMap(f: FilterState, on: bool): (r: FilterState)
    ensures r.filterByMap == on
    ensures r.state == f.state && r.county == f.county
    ensures r.builder == f.builder && r.status == f.status
  {
    f.(filterByMap := on)
  }

  /**
   * A status checkbox. Checking appends the status to the list; unchecking
   * removes every occurrence of it and keeps the other entries in order.
   */
  function ToggleStatus(f: FilterState, status: string, checked: bool): (r: FilterState)
    ensures r.state == f.state && r.county == f.county
    ensures r.builder == f.builder && r.filterByMap == f.filterByMap
    ensures checked ==> r.status == f.status + [status]
    ensures !checked ==> status !in r.status
    ensures !checked ==> IsSubsequence(r.status, f.status)
    ensures !checked ==> forall s :: s != status ==> multiset(r.status)[s] == multiset(f.status)[s]
  {
    var others := (s: string) => s != status;
    FilterCounts(f.status, others);
    var newStatus := if checked then f.status + [status] else Filter(f.status, others);
    f.(status := newStatus)
  }

  /** Unchecking right after checking an absent status restores the list. */
  lemma CheckThenUncheck(f: FilterState, status: string)
    requires status !in f.status
    ensures ToggleStatus(ToggleStatus(f, status, true), status, false) == f
  {
    var p := (s: string) => s != status;
    FilterConcat(f.status, [status], p);
    FilterKeepsAll(f.status, p);
    assert Filter([status], p) == [];
  }

  /** No entry occurs twice. */
  predicate NoDuplicates(xs: seq<string>)
  {
    forall i, j :: 0 <= i < j < |xs| ==> xs[i] != xs[j]
  }

  /**
   * A click on a status checkbox. The boxes are controlled: a box shows as
   * checked iff its status is in the list, so a click checks an absent
   * status and unchecks a present one.
   */
  function ClickStatus(f: FilterState, status: string): (r: FilterState)
    ensures status in r.status <==> status !in f.status
  {
    ToggleStatus(f, status, status !in f.status)
  }

  /** Checkbox clicks never put a status in the list twice. */
  lemma ClickStatusKeepsNoDuplicates(f: FilterState, status: string)
    requires NoDuplicates(f.status)
    ensures NoDuplicates(ClickStatus(f, status).status)
  {
    if status in f.status {
      FilterKeepsNoDuplicates(f.status, (s: string) => s != status);
    }
  }

  /** Filtering a list without duplicates leaves none. */
  lemma {:induction false} FilterKeepsNoDuplicates(xs: seq<string>, p: string -> bool)
    requires NoDuplicates(xs)
    ensures NoDuplicates(Filter(xs, p))
    decreases |xs|
  {
    if |xs| > 0 {
      var rest := Filter(xs[1..], p);
      assert NoDuplicates(xs[1..]) by {
        forall i, j | 0 <= i < j < |xs[1..]|
          ensures xs[1..][i] != xs[1..][j]
        {
          assert xs[1..][i] == xs[i + 1] && xs[1..][j] == xs[j + 1];
        }
      }
      FilterKeepsNoDuplicates(xs[1..], p);
      FilterCons(xs[0], xs[1..], p);
      assert xs == [xs[0]] + xs[1..];
      if p(xs[0]) {
        assert xs[0] !in xs[1..] by {
          forall j | 0 <= j < |xs[1..]|
            ensures xs[1..][j] != xs[0]
          {
            assert xs[1..][j] == xs[j + 1];
          }
        }
        FilterCounts(xs[1..], p);
        var r := [xs[0]] + rest;
        forall i, j | 0 <= i < j < |r|
          ensures r[i] != r[j]
        {
          assert r[j] == rest[j - 1];
          if i > 0 {
            assert r[i] == rest[i - 1];
          }
        }
      }
    }
  }

  /**
   * The county is unset or one of the chosen state's counties: the pairing
   * the county dropdown is meant to keep.
   */
  predicate CountyConsistent(f: FilterState)
  {
    f.county == "" || f.county in CountiesOf(f.state)
  }

  /**
   * Starting from the initial filters, edits made through the controls keep
   * the county consistent with the state: choosing a state clears the
   * county, the county dropdown offers only the state's counties, and the
   * other edits leave both alone.
   */
  lemma EditsKeepCountyConsistent(f: FilterState, v: string, on: bool)
    requires CountyConsistent(f)
    ensures CountyConsistent(InitialFilters)
    ensures CountyConsistent(SelectState(f, v))
    ensures v in CountyChoices(f) ==> CountyConsistent(SelectCounty(f, v))
    ensures CountyConsistent(EditBuilder(f, v))
    ensures CountyConsistent(ToggleStatus(f, v, on))
    ensures CountyConsistent(SetFilterByMap(f, on))
  {
  }

  /** With no state chosen the county control is disabled and offers only "All Counties". */
  lemma NoStateNoCounties(f: FilterState)
    requires f.state == ""
    ensures CountyDisabled(f) && CountyChoices(f) == [""]
  {
  }
}
