/** The mechanic list: a case-insensitive name search, the workload badge, and the
    expertise tags. */
module MechanicList {
  import opened Wrappers
  import opened Text
  import opened Collections
  import opened Entities

  const Available := "Available"

  predicate NameMatches(m: Mechanic, query: string) { Includes(ToLower(m.name), ToLower(query)) }

  function NameP(query: string): Mechanic -> bool { (m: Mechanic) => NameMatches(m, query) }

  function FilteredMechanics(mechanics: seq<Mechanic>, query: string): (r: seq<Mechanic>)
    ensures r == Filter(mechanics, NameP(query))
    ensures forall x :: x in r <==> x in mechanics && NameMatches(x, query)
  {
    Filter(mechanics, NameP(query))
  }

  lemma EmptyQueryListsAll(mechanics: seq<Mechanic>)
    ensures FilteredMechanics(mechanics, "") == mechanics
  {
    forall k | 0 <= k < |mechanics| ensures NameP("")(mechanics[k]) {
      IncludesEmpty(ToLower(mechanics[k].name));
    }
    FilterAll(mechanics, NameP(""));
  }

  /** The badge: "N active job", with an "s" when N > 1, or 'Available' for N <= 0. */
  function ActiveBadge(n: int): string {
    if n > 0 then IntToString(n) + " active job" + (if n > 1 then "s" else "") else Available
  }

  lemma ActiveBadgeForms(n: int)
    ensures n <= 0 ==> ActiveBadge(n) == Available
    ensures n == 1 ==> ActiveBadge(n) == "1 active job"
    ensures n > 1 ==> ActiveBadge(n) == IntToString(n) + " active jobs"
  {
    if n == 1 {
      assert IntToString(1) == "1";
      assert "1" + " active job" + "" == "1 active job";
    } else if n > 1 {
      assert IntToString(n) + " active job" + "s" == IntToString(n) + " active jobs";
    }
  }

  /** What the expertise row shows: the tags, or the 'No expertise listed' fallback. */
  datatype ExpertiseView = Tags(tags: seq<string>) | NoExpertiseListed

  /** `expertise?.map(...) || fallback`: the fallback only when the list is absent; an
      empty list is an (empty) row of tags. */
  function ExpertiseShown(m: Mechanic): (r: ExpertiseView)
    ensures r.NoExpertiseListed? <==> m.expertise.None?
    ensures m.expertise == Some([]) ==> r == Tags([])
  {
    if m.expertise.Some? then Tags(m.expertise.value) else NoExpertiseListed
  }

  /** The grid: the cards of the listed mechanics, or "No mechanics found". */
  datatype Grid = Cards(items: seq<Mechanic>) | NoMechanicsFound

  function GridShown(mechanics: seq<Mechanic>, query: string): (r: Grid)
    ensures r.NoMechanicsFound? <==> FilteredMechanics(mechanics, query) == []
    ensures r.Cards? ==> r.items == FilteredMechanics(mechanics, query)
  {
    var f := FilteredMechanics(mechanics, query);
    if |f| > 0 then Cards(f) else NoMechanicsFound
  }

  /** Without a query the empty state means there are no mechanics at all. */
  lemma NoneFoundWithoutQuery(mechanics: seq<Mechanic>)
    ensures GridShown(mechanics, "").NoMechanicsFound? <==> mechanics == []
  {
    EmptyQueryListsAll(mechanics);
  }
}
