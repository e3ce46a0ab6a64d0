/** The job-card list: a case-insensitive search over the card's id, customer,
    registration and "make model", ANDed with an optional status filter. An empty query
    or status filter ("") is "not set". */
module JobCardList {
  import opened Text
  import opened Collections
  import opened Entities

  const NoneFoundText := "No job cards found."

  predicate MatchesSearch(j: JobCard, query: string) {
    var q := ToLower(query);
    query == "" || Includes(ToLower(j.id), q) || Includes(ToLower(j.customerName), q)
    || Includes(ToLower(j.vehicleReg), q) || Includes(ToLower(j.vehicleMake + " " + j.vehicleModel), q)
  }

  predicate MatchesStatus(j: JobCard, statusFilter: string) {
    statusFilter == "" || j.status == statusFilter
  }

  function Matches(query: string, statusFilter: string): JobCard -> bool {
    (j: JobCard) => MatchesSearch(j, query) && MatchesStatus(j, statusFilter)
  }

  /** `filteredJobCards`: the cards passing both tests, in their order. */
  function FilteredJobCards(cards: seq<JobCard>, query: string, statusFilter: string): (r: seq<JobCard>)
    ensures r == Filter(cards, Matches(query, statusFilter))
    ensures forall x :: x in r <==> x in cards && MatchesSearch(x, query) && MatchesStatus(x, statusFilter)
  {
    Filter(cards, Matches(query, statusFilter))
  }

  /** With neither a query nor a status filter every card is listed, in order. */
  lemma NoFilterListsAll(cards: seq<JobCard>)
    ensures FilteredJobCards(cards, "", "") == cards
  {
    FilterAll(cards, Matches("", ""));
  }

  /** The query's case does not matter. */
  lemma QueryCaseIgnored(cards: seq<JobCard>, query: string, statusFilter: string)
    ensures FilteredJobCards(cards, ToLower(query), statusFilter) == FilteredJobCards(cards, query, statusFilter)
  {
    ToLowerIdempotent(query);
    FilterSame(cards, Matches(ToLower(query), statusFilter), Matches(query, statusFilter));
  }

  /** A card is found by its own id, and by its "make model" text, under its status. */
  lemma CardFindsItself(cards: seq<JobCard>, j: JobCard)
    requires j in cards
    ensures j in FilteredJobCards(cards, j.id, j.status)
    ensures j in FilteredJobCards(cards, j.vehicleMake + " " + j.vehicleModel, "")
  {
    IncludesSelf(ToLower(j.id));
    IncludesSelf(ToLower(j.vehicleMake + " " + j.vehicleModel));
  }

  /** A status filter admits only cards of that status. */
  lemma StatusFilterExact(cards: seq<JobCard>, query: string, statusFilter: string)
    requires statusFilter != ""
    ensures forall k :: 0 <= k < |FilteredJobCards(cards, query, statusFilter)| ==>
              FilteredJobCards(cards, query, statusFilter)[k].status == statusFilter
  {
  }

  /** "No job cards found." is shown exactly when nothing is listed. */
  function EmptyMessage(cards: seq<JobCard>, query: string, statusFilter: string): (r: string)
    ensures r == NoneFoundText <==> FilteredJobCards(cards, query, statusFilter) == []
  {
    if FilteredJobCards(cards, query, statusFilter) == [] then NoneFoundText else ""
  }
}
