/**
 * The record and filter shapes of the community dashboard, and the
 * subscription tier. Every value here is immutable: the dashboard replaces
 * its filter state wholesale on each edit and never mutates a record.
 */
module Types {

  /** An optional value; `None` stands for the code's `null` and `''`. */
  datatype Option<T> = None | Some(value: T)

  /** The four lifecycle labels a community can carry. */
  datatype Status = Prime | Recent | Aged | Archived

  /** The label string the dashboard stores and compares for a status. */
  function Label(st: Status): (s: string)
    ensures |s| >= 4
  {
    match st
    case Prime => "PRIME"
    case Recent => "RECENT"
    case Aged => "AGED"
    case Archived => "ARCHIVED"
  }

  /** Distinct statuses have distinct labels, so a label names one status. */
  lemma LabelInjective(a: Status, b: Status)
    ensures Label(a) == Label(b) <==> a == b
  {
  }

  datatype Builder = Builder(name: string, logo: string)

  datatype Location = Location(name: string, county: string, state: string)

  /** Latitude and longitude, in degrees. */
  datatype Coordinates = Coordinates(lat: real, lng: real)

  /**
   * One catalog entry. `dateAdded` is a day number (later days are larger);
   * `lotSize` is in acres.
   */
  datatype Community = Community(
    id: string,
    builder: Builder,
    community: Location,
    homes: int,
    lotSize: real,
    dateAdded: int,
    status: Status,
    creditsRequired: nat,
    pricingFactors: seq<string>,
    coordinates: Coordinates)

  /**
   * The user's filter choices. The empty string and the empty list mean
   * "no constraint"; `status` holds label strings, as the checkboxes do.
   */
  datatype FilterState = FilterState(
    state: string,
    county: string,
    builder: string,
    status: seq<string>,
    filterByMap: bool)

  /** The filter state the dashboard starts with: nothing constrained. */
  const InitialFilters := FilterState("", "", "", [], false)

  datatype Tier = Basic | Pro | Intelligence
}
