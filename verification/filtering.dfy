/**
 * The dashboard's filter pass over the full community list, and the
 * map-bounds narrowing that can replace its result.
 */
module Filtering {
  import opened Types
  import opened Seqs
  import opened Text

  /** The predicate of each filter pass, as the dashboard writes it. */
  function StateMatch(f: FilterState): Community -> bool
  {
    (c: Community) => c.community.state == f.state
  }

  function CountyMatch(f: FilterState): Community -> bool
  {
    (c: Community) => c.community.county == f.county
  }

  function BuilderMatch(f: FilterState): Community -> bool
  {
    (c: Community) => Contains(Lower(c.builder.name), Lower(f.builder))
  }

  function StatusMatch(f: FilterState): Community -> bool
  {
    (c: Community) => Label(c.status) in f.status
  }

  /**
   * The conjunction of the four criteria, each skipped when its filter
   * field holds the "no constraint" value. State and county compare by
   * equality, the builder text as a case-insensitive substring of the
   * builder's name, and the status list by membership of the label.
   */
  predicate Passes(c: Community, f: FilterState)
  {
    && (f.state == "" || c.community.state == f.state)
    && (f.county == "" || c.community.county == f.county)
    && (f.builder == "" || Contains(Lower(c.builder.name), Lower(f.builder)))
    && (|f.status| == 0 || Label(c.status) in f.status)
  }

  /** One filter pass that runs only when its field is set. */
  function Gate(xs: seq<Community>, active: bool, p: Community -> bool): seq<Community>
  {
    if active then Filter(xs, p) else xs
  }

  /**
   * The filter effect of the dashboard: four successive passes over a copy
   * of the list, for state, county, builder and status, in that order.
   */
  function Pipeline(communities: seq<Community>, f: FilterState): seq<Community>
  {
    var byState := Gate(communities, f.state != "", StateMatch(f));
    var byCounty := Gate(byState, f.county != "", CountyMatch(f));
    var byBuilder := Gate(byCounty, f.builder != "", BuilderMatch(f));
    Gate(byBuilder, |f.status| > 0, StatusMatch(f))
  }

  /**
   * The filter effect as a whole. Its result is an order-preserving
   * selection of exactly the records that pass every criterion, each kept
   * as often as it occurs in the input.
   */
  function ApplyFilters(communities: seq<Community>, f: FilterState): (r: seq<Community>)
    ensures IsSubsequence(r, communities)
    ensures forall c :: multiset(r)[c] == if Passes(c, f) then multiset(communities)[c] else 0
    ensures forall c :: c in r <==> c in communities && Passes(c, f)
  {
    PipelineIsOnePass(communities, f);
    FilterCounts(communities, (c: Community) => Passes(c, f));
    Pipeline(communities, f)
  }

  /** With every field unconstrained the filter returns the list unchanged. */
  lemma UnconstrainedKeepsAll(communities: seq<Community>, f: FilterState)
    requires f.state == "" && f.county == "" && f.builder == "" && |f.status| == 0
    ensures ApplyFilters(communities, f) == communities
  {
  }

  /** A set state admits only records of that state. */
  lemma StateCriterion(communities: seq<Community>, f: FilterState, c: Community)
    requires f.state != "" && c in ApplyFilters(communities, f)
    ensures c.community.state == f.state
  {
  }

  /**
   * A set county admits only records of that county, and it is applied
   * literally: whether or not a state is set, and whether or not the county
   * belongs to it.
   */
  lemma CountyCriterion(communities: seq<Community>, f: FilterState, c: Community)
    requires f.county != "" && c in ApplyFilters(communities, f)
    ensures c.community.county == f.county
  {
  }

  /**
   * A record of the input that meets the other criteria is kept iff the
   * lower-cased builder text occurs in its lower-cased builder name. An
   * empty builder text occurs in every name, so it excludes nothing.
   */
  lemma BuilderCriterion(communities: seq<Community>, f: FilterState, c: Community)
    requires c in communities
    requires f.state == "" || c.community.state == f.state
    requires f.county == "" || c.community.county == f.county
    requires |f.status| == 0 || Label(c.status) in f.status
    ensures c in ApplyFilters(communities, f) <==> IsSubstring(Lower(f.builder), Lower(c.builder.name))
  {
    if f.builder == "" {
      assert OccursAt(Lower(f.builder), Lower(c.builder.name), 0);
    }
  }

  /**
   * The builder search ignores ASCII case: two search texts that differ
   * only in the case of their letters keep the same records.
   */
  lemma BuilderSearchIgnoresCase(communities: seq<Community>, f: FilterState, builder: string)
    requires |builder| == |f.builder|
    requires forall i :: 0 <= i < |builder| ==> SameLetterIgnoringCase(builder[i], f.builder[i])
    ensures ApplyFilters(communities, f.(builder := builder)) == ApplyFilters(communities, f)
  {
    var g := f.(builder := builder);
    LowerIgnoresCase(builder, f.builder);
    PipelineIsOnePass(communities, f);
    PipelineIsOnePass(communities, g);
    FilterAgrees(communities, (c: Community) => Passes(c, g), (c: Community) => Passes(c, f));
  }

  /**
   * A record of the input that meets the other criteria is kept iff the
   * status list is empty or holds its label.
   */
  lemma StatusCriterion(communities: seq<Community>, f: FilterState, c: Community)
    requires c in communities
    requires f.state == "" || c.community.state == f.state
    requires f.county == "" || c.community.county == f.county
    requires f.builder == "" || IsSubstring(Lower(f.builder), Lower(c.builder.name))
    ensures c in ApplyFilters(communities, f) <==> |f.status| == 0 || Label(c.status) in f.status
  {
  }

  /** A gated pass keeps a subsequence of its input, whether it runs or not. */
  lemma GateSubsequence(xs: seq<Community>, active: bool, p: Community -> bool)
    ensures IsSubsequence(Gate(xs, active, p), xs)
  {
    if !active {
      SubsequenceReflexive(xs);
    }
  }

  /**
   * Each intermediate list of the filter effect is an order-preserving
   * subsequence of the catalog: every pass only deletes records.
   */
  lemma StagesAreSubsequences(communities: seq<Community>, f: FilterState)
    ensures var byState := Gate(communities, f.state != "", StateMatch(f));
      var byCounty := Gate(byState, f.county != "", CountyMatch(f));
      var byBuilder := Gate(byCounty, f.builder != "", BuilderMatch(f));
      && IsSubsequence(byState, communities)
      && IsSubsequence(byCounty, communities)
      && IsSubsequence(byBuilder, communities)
      && IsSubsequence(Gate(byBuilder, |f.status| > 0, StatusMatch(f)), communities)
  {
    var byState := Gate(communities, f.state != "", StateMatch(f));
    var byCounty := Gate(byState, f.county != "", CountyMatch(f));
    var byBuilder := Gate(byCounty, f.builder != "", BuilderMatch(f));
    var byStatus := Gate(byBuilder, |f.status| > 0, StatusMatch(f));
    GateSubsequence(communities, f.state != "", StateMatch(f));
    GateSubsequence(byState, f.county != "", CountyMatch(f));
    GateSubsequence(byCounty, f.builder != "", BuilderMatch(f));
    GateSubsequence(byBuilder, |f.status| > 0, StatusMatch(f));
    SubsequenceTransitive(byCounty, byState, communities);
    SubsequenceTransitive(byBuilder, byCounty, communities);
    SubsequenceTransitive(byStatus, byBuilder, communities);
  }

  /** A pass that runs only when `active` is a filter by "inactive, or `p`". */
  lemma GateIsFilter(xs: seq<Community>, active: bool, p: Community -> bool, g: Community -> bool)
    requires forall c :: g(c) == (!active || p(c))
    ensures Gate(xs, active, p) == Filter(xs, g)
  {
    if active {
      FilterAgrees(xs, p, g);
    } else {
      FilterKeepsAll(xs, g);
    }
  }

  /**
   * The four passes are one pass by the conjunction: the result is exactly
   * the input filtered by `Passes`.
   */
  lemma PipelineIsOnePass(communities: seq<Community>, f: FilterState)
    ensures Pipeline(communities, f) == Filter(communities, (c: Community) => Passes(c, f))
  {
    var g12 := (c: Community) =>
      (f.state == "" || StateMatch(f)(c)) && (f.county == "" || CountyMatch(f)(c));
    var g123 := (c: Community) => g12(c) && (f.builder == "" || BuilderMatch(f)(c));
    var all := (c: Community) => Passes(c, f);
    var byCounty := Gate(Gate(communities, f.state != "", StateMatch(f)), f.county != "", CountyMatch(f));
    assert byCounty == Filter(communities, g12) by {
      LocationStages(communities, f, g12);
    }
    var byBuilder := Gate(byCounty, f.builder != "", BuilderMatch(f));
    assert byBuilder == Filter(communities, g123) by {
      GateAfterFilter(communities, g12, f.builder != "", BuilderMatch(f), g123);
    }
    assert Gate(byBuilder, |f.status| > 0, StatusMatch(f)) == Filter(communities, all) by {
      GateAfterFilter(communities, g123, |f.status| > 0, StatusMatch(f), all);
    }
  }

  /** The state and county passes together are one filter by both criteria. */
  lemma LocationStages(communities: seq<Community>, f: FilterState, g12: Community -> bool)
    requires forall c :: g12(c) == ((f.state == "" || StateMatch(f)(c)) && (f.county == "" || CountyMatch(f)(c)))
    ensures Gate(Gate(communities, f.state != "", StateMatch(f)), f.county != "", CountyMatch(f))
      == Filter(communities, g12)
  {
    var g1 := (c: Community) => f.state == "" || StateMatch(f)(c);
    var byState := Gate(communities, f.state != "", StateMatch(f));
    assert byState == Filter(communities, g1) by {
      GateIsFilter(communities, f.state != "", StateMatch(f), g1);
    }
    GateAfterFilter(communities, g1, f.county != "", CountyMatch(f), g12);
  }

  /** A gated pass after a filter is one filter by the combined predicate. */
  lemma GateAfterFilter(xs: seq<Community>, g: Community -> bool, active: bool,
                        p: Community -> bool, combined: Community -> bool)
    requires forall c :: combined(c) == (g(c) && (!active || p(c)))
    ensures Gate(Filter(xs, g), active, p) == Filter(xs, combined)
  {
    var gated := (c: Community) => !active || p(c);
    GateIsFilter(Filter(xs, g), active, p, gated);
    FilterTwice(xs, g, gated, combined);
  }

  /**
   * The map-view handler: given bounds and with filtering by map switched
   * on, the displayed list becomes the communities of the FULL list whose
   * coordinates the bounds contain, whatever the other filters say;
   * otherwise the displayed list is left as it is.
   */
  function MapViewChange(all: seq<Community>, displayed: seq<Community>,
                         bounds: Option<(real, real) -> bool>, f: FilterState): (r: seq<Community>)
    ensures !(bounds.Some? && f.filterByMap) ==> r == displayed
    ensures bounds.Some? && f.filterByMap ==> IsSubsequence(r, all)
    ensures bounds.Some? && f.filterByMap ==>
      forall c :: multiset(r)[c] ==
        if bounds.value(c.coordinates.lat, c.coordinates.lng) then multiset(all)[c] else 0
  {
    if bounds.Some? && f.filterByMap then
      var inView := (c: Community) => bounds.value(c.coordinates.lat, c.coordinates.lng);
      FilterCounts(all, inView);
      Filter(all, inView)
    else
      displayed
  }

  /**
   * When the map narrows the list it starts again from the full catalog:
   * neither the list on display nor the other filter fields play a part.
   */
  lemma MapViewIgnoresOtherFilters(all: seq<Community>, d1: seq<Community>, d2: seq<Community>,
                                   bounds: Option<(real, real) -> bool>, f1: FilterState, f2: FilterState)
    requires bounds.Some? && f1.filterByMap && f2.filterByMap
    ensures MapViewChange(all, d1, bounds, f1) == MapViewChange(all, d2, bounds, f2)
  {
  }
}
