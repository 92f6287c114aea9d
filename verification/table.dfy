/**
 * The decisions the data table makes per row and per header: which cells a
 * tier sees, the unlock button's label, the sort indicator, the expanded
 * rows and the status badge colour.
 */
module Table {
  import opened Types
  import opened Text
  import opened Sorting
  import opened Tiers

  /**
   * The expand/collapse button of a row: the id leaves the set of expanded
   * rows if it was in it and joins it otherwise.
   */
  function ToggleRow(expanded: set<string>, id: string): (r: set<string>)
    ensures id in r <==> id !in expanded
    ensures forall other :: other != id ==> (other in r <==> other in expanded)
  {
    if id in expanded then expanded - {id} else expanded + {id}
  }

  /** Toggling the same row twice restores the set of expanded rows. */
  lemma ToggleRowTwice(expanded: set<string>, id: string)
    ensures ToggleRow(ToggleRow(expanded, id), id) == expanded
  {
  }

  const Gray := "bg-gray-100 text-gray-800"

  /** The badge classes for a status label; unknown labels get the gray default. */
  function StatusColor(status: string): (cls: string)
    ensures status != "PRIME" && status != "RECENT" && status != "AGED" ==> cls == Gray
  {
    match status
    case "PRIME" => "bg-green-100 text-green-800"
    case "RECENT" => "bg-blue-100 text-blue-800"
    case "AGED" => "bg-yellow-100 text-yellow-800"
    case "ARCHIVED" => Gray
    case _ => Gray
  }

  /**
   * PRIME, RECENT and AGED each get a colour of their own; ARCHIVED shares
   * the gray of the default branch.
   */
  lemma StatusColorsDistinguishStatuses(a: Status, b: Status)
    ensures StatusColor(Label(a)) == StatusColor(Label(b)) <==> a == b
    ensures StatusColor(Label(Archived)) == Gray
  {
  }

  /** The arrow shown after a header: only on the active column, up for ascending. */
  function SortIcon(s: SortState, column: Column): (icon: Option<string>)
    ensures icon.Some? <==> s.column == Some(column)
    ensures icon.Some? ==> |icon.value| == 1
    ensures icon.Some? && s.direction == Asc ==> icon.value == "\U{2191}"
    ensures icon.Some? && s.direction == Desc ==> icon.value == "\U{2193}"
  {
    if s.column != Some(column) then None
    else if s.direction == Asc then Some("\U{2191}")
    else Some("\U{2193}")
  }

  /**
   * After a click on a header, exactly that header shows an arrow, and a
   * second click on it turns the arrow around.
   */
  lemma ClickedHeaderShowsArrow(s: SortState, clicked: Column, other: Column)
    requires other != clicked
    ensures SortIcon(HandleSort(s, clicked), clicked).Some?
    ensures SortIcon(HandleSort(s, clicked), other) == None
    ensures s.column == Some(clicked) ==> SortIcon(HandleSort(s, clicked), clicked) != SortIcon(s, clicked)
  {
  }

  /** The sitemap cell: a lock with an upgrade hint, or a link button. */
  datatype SitemapCell = Locked(hint: string) | LinkButton

  /** A metric cell: the figure, or a dash with a "coming soon" hint. */
  datatype MetricCell = Figure(text: string) | ComingSoon(placeholder: string, hint: string)

  const ComingSoonCell := ComingSoon("\U{2014}", "Coming soon in our Intelligence Plan")

  function SitemapCellFor(t: Tier): (cell: SitemapCell)
    ensures cell.Locked? <==> t == Basic
  {
    if t == Basic then Locked("Upgrade to Pro for access") else LinkButton
  }

  /** The fixed sample figures of the homes-sold and average-price columns. */
  const HomesSoldFigure := "42 / 200"
  const AvgPriceFigure := "$425,000"

  /**
   * A metric cell (homes sold, average price): the figure for the
   * Intelligence tier, the "coming soon" dash for every other tier.
   */
  function MetricCellFor(t: Tier, figure: string): (cell: MetricCell)
    ensures cell.Figure? <==> t == Intelligence
    ensures cell.Figure? ==> cell.text == figure
    ensures cell.ComingSoon? ==> cell == ComingSoonCell
  {
    if t == Intelligence then Figure(figure) else ComingSoonCell
  }

  const UnlockPrefix := "Unlock for "
  const UnlockSuffix := " Credits"

  /**
   * The unlock button's text: the fixed words around the decimal credit
   * count, which can be read back from the label.
   */
  function UnlockLabel(credits: nat): (text: string)
    ensures |text| > |UnlockPrefix| + |UnlockSuffix|
    ensures text[..|UnlockPrefix|] == UnlockPrefix
    ensures text[|text| - |UnlockSuffix|..] == UnlockSuffix
    ensures AllDigits(text[|UnlockPrefix|..|text| - |UnlockSuffix|])
    ensures DecimalValue(text[|UnlockPrefix|..|text| - |UnlockSuffix|]) == credits
    ensures |text| > |UnlockPrefix| + |UnlockSuffix| + 1 ==> text[|UnlockPrefix|] != '0'
  {
    var digits := Decimal(credits);
    var text := UnlockPrefix + digits + UnlockSuffix;
    assert text[|UnlockPrefix|..|text| - |UnlockSuffix|] == digits;
    text
  }

  /** A record that costs 3 credits shows "Unlock for 3 Credits". */
  lemma UnlockLabelThreeCredits()
    ensures UnlockLabel(3) == "Unlock for 3 Credits"
  {
  }

  /** Different credit counts give different labels. */
  lemma UnlockLabelInjective(a: nat, b: nat)
    requires UnlockLabel(a) == UnlockLabel(b)
    ensures a == b
  {
  }

  /** The part of a row shown below it when it is expanded. */
  datatype DetailPanel = DetailPanel(pricingFactors: seq<string>, unlockLabel: string)

  /** What the table shows for one community. */
  datatype RowView = RowView(
    unlockLabel: string,
    sitemap: SitemapCell,
    homesSold: MetricCell,
    avgPrice: MetricCell,
    detail: Option<DetailPanel>)

  function RenderRow(t: Tier, c: Community, expanded: set<string>): (v: RowView)
    ensures v.unlockLabel == UnlockLabel(c.creditsRequired)
    ensures v.detail.Some? <==> c.id in expanded
    ensures v.detail.Some? ==> v.detail.value.unlockLabel == v.unlockLabel
    ensures v.detail.Some? ==> v.detail.value.pricingFactors == c.pricingFactors
    ensures v.sitemap.Locked? <==> t == Basic
    ensures v.homesSold.Figure? <==> t == Intelligence
    ensures v.avgPrice.Figure? <==> t == Intelligence
  {
    var unlock := UnlockLabel(c.creditsRequired);
    RowView(
      unlock,
      SitemapCellFor(t),
      MetricCellFor(t, HomesSoldFigure),
      MetricCellFor(t, AvgPriceFigure),
      if c.id in expanded then Some(DetailPanel(c.pricingFactors, unlock)) else None)
  }

  /**
   * The unlock label does not depend on the tier or on the expanded rows:
   * every tier sees the same label, derived from the record's credits, in
   * the row and in its expanded panel.
   */
  lemma UnlockLabelForEveryTier(t1: Tier, t2: Tier, c: Community, e1: set<string>, e2: set<string>)
    ensures RenderRow(t1, c, e1).unlockLabel == RenderRow(t2, c, e2).unlockLabel == UnlockLabel(c.creditsRequired)
    ensures DecimalValue(RenderRow(t1, c, e1).unlockLabel[|UnlockPrefix|..|RenderRow(t1, c, e1).unlockLabel| - |UnlockSuffix|]) == c.creditsRequired
  {
  }

  /** The tier-gated features a row shows. */
  datatype Feature = SitemapLink | HomesSold | AvgPrice

  function Features(v: RowView): set<Feature>
  {
    (if v.sitemap.LinkButton? then {SitemapLink} else {})
    + (if v.homesSold.Figure? then {HomesSold} else {})
    + (if v.avgPrice.Figure? then {AvgPrice} else {})
  }

  /** Basic sees none of the features, Pro the link only, Intelligence all three. */
  lemma FeaturesPerTier(c: Community, expanded: set<string>)
    ensures Features(RenderRow(Basic, c, expanded)) == {}
    ensures Features(RenderRow(Pro, c, expanded)) == {SitemapLink}
    ensures Features(RenderRow(Intelligence, c, expanded)) == {SitemapLink, HomesSold, AvgPrice}
  {
  }

  /** A higher tier sees every feature a lower tier sees. */
  lemma FeaturesMonotone(t1: Tier, t2: Tier, c: Community, expanded: set<string>)
    requires Rank(t1) <= Rank(t2)
    ensures Features(RenderRow(t1, c, expanded)) <= Features(RenderRow(t2, c, expanded))
  {
    FeaturesPerTier(c, expanded);
  }
}
