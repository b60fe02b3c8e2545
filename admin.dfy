/** The admin page's driver list: the search box and status filter that
    select which drivers are shown, and the status badge of each. The list
    itself is an input here rather than fetched. */
module Admin {
  import opened Text

  /** The driver fields the list page reads. */
  datatype Driver = Driver(name: string, driverId: string, email: string, phone: string, status: string)

  /** The search term appears, ignoring ASCII case, in the name, the driver
      id or the email, or appears as typed in the phone number. */
  predicate MatchesSearch(d: Driver, term: string)
  {
    var t := Lower(term);
    Contains(Lower(d.name), t) || Contains(Lower(d.driverId), t) || Contains(Lower(d.email), t)
    || Contains(d.phone, term)
  }

  /** A driver is shown when it passes the search (skipped for an empty
      term) and the status filter (skipped for "all"). */
  predicate Shown(d: Driver, term: string, status: string)
  {
    (term == "" || MatchesSearch(d, term)) && (status == "all" || d.status == status)
  }

  /** `filterDrivers`: the search filter, then the status filter. */
  function FilterDrivers(drivers: seq<Driver>, term: string, status: string): seq<Driver>
  {
    var searched := if term != "" then Filter(drivers, (d: Driver) => MatchesSearch(d, term)) else drivers;
    if status != "all" then Filter(searched, (d: Driver) => d.status == status) else searched
  }

  /** The two filters in a row are one filter by `Shown`. */
  lemma FilterDriversIsShown(drivers: seq<Driver>, term: string, status: string)
    ensures FilterDrivers(drivers, term, status) == Filter(drivers, d => Shown(d, term, status))
  {
    var shown := (d: Driver) => Shown(d, term, status);
    var search := (d: Driver) => MatchesSearch(d, term);
    var byStatus := (d: Driver) => d.status == status;
    if term != "" && status != "all" {
      FilterFilter(drivers, search, byStatus, shown);
    } else if term != "" {
      FilterSame(drivers, search, shown);
    } else if status != "all" {
      FilterSame(drivers, byStatus, shown);
    } else {
      FilterAll(drivers, shown);
    }
  }

  /** What the list shows: exactly the drivers passing both filters, in
      their original order. */
  lemma FilterDriversSpec(drivers: seq<Driver>, term: string, status: string)
    ensures forall d :: d in FilterDrivers(drivers, term, status) <==> d in drivers && Shown(d, term, status)
    ensures IsSubsequence(FilterDrivers(drivers, term, status), drivers)
    ensures status != "all" ==> forall d :: d in FilterDrivers(drivers, term, status) ==> d.status == status
    ensures term == "" && status == "all" ==> FilterDrivers(drivers, term, status) == drivers
  {
    var shown := (d: Driver) => Shown(d, term, status);
    FilterDriversIsShown(drivers, term, status);
    forall d ensures d in FilterDrivers(drivers, term, status) <==> d in drivers && Shown(d, term, status) {
      FilterMembership(drivers, shown, d);
    }
    FilterIsSubsequence(drivers, shown);
  }

  /** Case is ignored in the name: a term found in the name, in any mix of
      upper and lower case, finds the driver. */
  lemma NameSearchIgnoresCase(d: Driver, term: string)
    requires Contains(Lower(d.name), Lower(term))
    ensures MatchesSearch(d, term) && MatchesSearch(d, Lower(term))
  {
    LowerIdempotent(term);
  }

  lemma LowerIdempotent(s: string)
    ensures Lower(Lower(s)) == Lower(s)
  {
  }

  datatype BadgeConfig = BadgeConfig(color: string, text: string)

  const InactiveBadge := BadgeConfig("bg-gray-500", "Inactive")

  /** `getStatusBadge`: the three known statuses have their own badge and
      any other falls back to the inactive one. */
  function StatusBadge(status: string): (r: BadgeConfig)
    ensures status == "active" ==> r == BadgeConfig("bg-green-500", "Active")
    ensures status == "busy" ==> r == BadgeConfig("bg-yellow-500", "Busy")
    ensures status !in {"active", "busy"} ==> r == InactiveBadge
  {
    if status == "active" then BadgeConfig("bg-green-500", "Active")
    else if status == "inactive" then InactiveBadge
    else if status == "busy" then BadgeConfig("bg-yellow-500", "Busy")
    else InactiveBadge
  }

  /** The list page's filter state; the shown list follows every change of
      the drivers, the term or the status filter. */
  class DriverList {
    var drivers: seq<Driver>
    var searchTerm: string
    var statusFilter: string
    var filteredDrivers: seq<Driver>

    ghost predicate Valid()
      reads this
    {
      filteredDrivers == FilterDrivers(drivers, searchTerm, statusFilter)
    }

    constructor ()
      ensures Valid()
      ensures drivers == [] && searchTerm == "" && statusFilter == "all" && filteredDrivers == []
    {
      drivers := [];
      searchTerm := "";
      statusFilter := "all";
      filteredDrivers := [];
    }

    /** A fetch delivered a new list. */
    method SetDrivers(ds: seq<Driver>)
      modifies this
      ensures Valid()
      ensures drivers == ds && searchTerm == old(searchTerm) && statusFilter == old(statusFilter)
    {
      drivers := ds;
      filteredDrivers := FilterDrivers(drivers, searchTerm, statusFilter);
    }

    method SetSearchTerm(term: string)
      modifies this
      ensures Valid()
      ensures searchTerm == term && drivers == old(drivers) && statusFilter == old(statusFilter)
    {
      searchTerm := term;
      filteredDrivers := FilterDrivers(drivers, searchTerm, statusFilter);
    }

    method SetStatusFilter(status: string)
      modifies this
      ensures Valid()
      ensures statusFilter == status && drivers == old(drivers) && searchTerm == old(searchTerm)
    {
      statusFilter := status;
      filteredDrivers := FilterDrivers(drivers, searchTerm, statusFilter);
    }
  }
}
