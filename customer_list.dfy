/** The customer list: an empty query lists everyone; otherwise the name and the email
    are searched case-insensitively and the mobile number as typed. */
module CustomerList {
  import opened Wrappers
  import opened Text
  import opened Collections
  import opened Entities

  const NoCustomersText := "No customers have been added yet"

  predicate MatchesSearch(c: Customer, query: string) {
    query == ""
    || Includes(ToLower(c.name), ToLower(query))
    || Includes(c.mobile, query)
    || (c.email.Some? && c.email.value != "" && Includes(ToLower(c.email.value), ToLower(query)))
  }

  function MatchesP(query: string): Customer -> bool { (c: Customer) => MatchesSearch(c, query) }

  /** `filteredCustomers` */
  function FilteredCustomers(customers: seq<Customer>, query: string): (r: seq<Customer>)
    ensures r == Filter(customers, MatchesP(query))
    ensures forall x :: x in r <==> x in customers && MatchesSearch(x, query)
  {
    Filter(customers, MatchesP(query))
  }

  lemma EmptyQueryListsAll(customers: seq<Customer>)
    ensures FilteredCustomers(customers, "") == customers
  {
    FilterAll(customers, MatchesP(""));
  }

  /** A customer without an email is found only through the name or the mobile. */
  lemma NoEmailMatch(c: Customer, query: string)
    requires c.email.None? || c.email == Some("")
    ensures MatchesSearch(c, query) <==>
              query == "" || Includes(ToLower(c.name), ToLower(query)) || Includes(c.mobile, query)
  {
  }

  /** The mobile number is searched as typed: a query differing from it only in case
      finds the customer only through the other fields. */
  lemma MobileCaseSensitive(c: Customer, query: string)
    requires query != "" && !Includes(c.mobile, query)
    requires !Includes(ToLower(c.name), ToLower(query))
    requires c.email.None?
    ensures !MatchesSearch(c, query)
  {
  }

  /** The text under "No customers found": the query in quotes when there is one. */
  function EmptyText(query: string): (r: string)
    ensures query != "" ==> r == "No results for \"" + query + "\""
    ensures query != "" ==> Includes(r, query) && StartsWith(r, "No results for \"")
    ensures query == "" ==> r == NoCustomersText
  {
    if query != "" then
      IncludesMiddle("No results for \"", query, "\"");
      StartsWithAppend("No results for \"", query + "\"");
      AppendAssoc("No results for \"", query, "\"");
      "No results for \"" + query + "\""
    else NoCustomersText
  }
}
