/** The company search box: what the user typed, the latest results, whether a search is
    running, and whether the box has focus. A query that is not blank schedules a
    debounced search; the timer firing and the search settling are separate events here,
    so searches that overlap and settle out of order can be followed. */
module CompanyLookup {
  import opened Wrappers
  import opened Text
  import opened Domain
  import ClearbitService

  /** Whether the widget shows the search box (rather than the selected company):
      `!selectedCompany || !selectedCompany.id`, so a selection with the empty id counts
      as none. */
  function ShowsSearch(selected: Option<Company>): (shows: bool)
    ensures shows <==> !(selected.Some? && IsTruthy(Some(selected.value.id)))
    ensures !shows ==> selected.Some? && selected.value.id != ""
  {
    selected.None? || selected.value.id == ""
  }

  /** What the results card shows. */
  datatype Dropdown =
    | Hidden                     // no card
    | LoadingRows                // three skeleton rows
    | ResultList(companies: seq<Company>)
    | NoMatches(query: string)   // `No companies found matching "<query>"`
    | EmptyCard                  // the card with nothing inside

  /** Inside the card: skeleton rows while loading, else the results, else the no-match
      line for a non-empty query, else nothing. */
  function CardContent(isLoading: bool, results: seq<Company>, query: string): (d: Dropdown)
    ensures !d.Hidden?
    ensures d.LoadingRows? <==> isLoading
    ensures d.ResultList? <==> !isLoading && |results| > 0
    ensures d.ResultList? ==> d.companies == results
    ensures d.NoMatches? <==> !isLoading && results == [] && query != ""
    ensures d.NoMatches? ==> d.query == query
  {
    if isLoading then LoadingRows
    else if |results| > 0 then ResultList(results)
    else if query != "" then NoMatches(query)
    else EmptyCard
  }

  class Lookup {
    var query: string
    var results: seq<Company>
    var isLoading: bool
    var isFocused: bool
    /** The query of the debounce timer that is set, if one is. */
    var pending: Option<string>
    /** The queries whose searches have started and not settled, oldest first. */
    var inFlight: seq<string>
    /** The companies handed to `onSelect`, in order. */
    var emitted: seq<Company>

    /** A timer is only ever set for the current query, and never for a blank one. */
    predicate Valid()
      reads this
    {
      pending.Some? ==> pending.value == query && Trim(query) != []
    }

    constructor ()
      ensures Valid()
      ensures query == "" && results == [] && !isLoading && !isFocused
      ensures pending == None && inFlight == [] && emitted == []
    {
      query := "";
      results := [];
      isLoading := false;
      isFocused := false;
      pending := None;
      inFlight := [];
      emitted := [];
    }

    /** The visibility rule of the results card inside the search view (line 110). */
    predicate DropdownVisible()
      reads this
    {
      isFocused && (query != "" || |results| > 0)
    }

    /** Whether the results card is mounted, given the parent's selection: only the
        search view holds it, and there only while it is visible. */
    predicate CardMounted(selected: Option<Company>)
      reads this
    {
      ShowsSearch(selected) && DropdownVisible()
    }

    /** The results card: hidden unless mounted, otherwise what `CardContent` says. */
    function DropdownContent(selected: Option<Company>): (d: Dropdown)
      reads this
      ensures d.Hidden? <==> !ShowsSearch(selected) || !isFocused || (query == "" && results == [])
      ensures d.LoadingRows? <==> CardMounted(selected) && isLoading
      ensures d.ResultList? ==> d.companies == results && |results| > 0
      ensures d.NoMatches? ==> d.query == query && results == [] && query != ""
    {
      if CardMounted(selected) then CardContent(isLoading, results, query) else Hidden
    }

    /** The empty card is never shown: a mounted card has a query or results. */
    lemma NeverEmptyCard(selected: Option<Company>)
      ensures !DropdownContent(selected).EmptyCard?
    {
    }

    /** The input's `onChange`, followed by the effect on `query`: the old timer is
        cleared; a blank query empties the results and sets no timer, any other query
        sets one. Typing the same text again changes nothing. */
    method SetQuery(q: string)
      requires Valid()
      modifies this
      ensures Valid()
      ensures query == q
      ensures q == old(query) ==> results == old(results) && pending == old(pending)
      ensures q != old(query) && Trim(q) == [] ==> results == [] && pending == None
      ensures q != old(query) && Trim(q) != [] ==> results == old(results) && pending == Some(q)
      ensures isLoading == old(isLoading) && isFocused == old(isFocused)
      ensures inFlight == old(inFlight) && emitted == old(emitted)
    {
      if q != query {
        query := q;
        if Trim(q) == [] {
          results := [];
          pending := None;
        } else {
          pending := Some(q);
        }
      }
    }

    /** The debounce timer fires: the search for its query starts. */
    method FireSearch()
      requires Valid() && pending.Some?
      modifies this
      ensures Valid()
      ensures isLoading && pending == None
      ensures inFlight == old(inFlight) + [old(pending).value]
      ensures Trim(inFlight[|inFlight| - 1]) != []
      ensures query == old(query) && results == old(results) && isFocused == old(isFocused)
      ensures emitted == old(emitted)
    {
      inFlight := inFlight + [pending.value];
      pending := None;
      isLoading := true;
    }

    /** The `k`-th running search settles: on success its companies replace the results
        (whatever the query is by now); a rejection keeps the old results. Loading ends
        either way, even if other searches are still running. */
    method FinishSearch(k: nat, rejects: bool)
      requires Valid() && k < |inFlight|
      modifies this
      ensures Valid()
      ensures !isLoading
      ensures inFlight == old(inFlight[..k] + inFlight[k + 1..])
      ensures !rejects ==> results == ClearbitService.SearchCompanies(old(inFlight[k]))
      ensures !rejects ==> forall c :: c in results ==> ClearbitService.Matches(c, old(inFlight[k]))
      ensures rejects ==> results == old(results)
      ensures query == old(query) && pending == old(pending) && isFocused == old(isFocused)
      ensures emitted == old(emitted)
    {
      if !rejects {
        results := ClearbitService.SearchCompanies(inFlight[k]);
      }
      isLoading := false;
      inFlight := inFlight[..k] + inFlight[k + 1..];
    }

    /** The input's `onFocus`. */
    method Focus()
      requires Valid()
      modifies this
      ensures Valid()
      ensures isFocused
      ensures query == old(query) && results == old(results) && isLoading == old(isLoading)
      ensures pending == old(pending) && inFlight == old(inFlight) && emitted == old(emitted)
    {
      isFocused := true;
    }

    /** A mouse press outside both the input and the card, while the parent's selection
        is `selected`. The listener acts only while both elements are mounted: with the
        card unmounted its ref is null and focus is kept. */
    method ClickOutside(selected: Option<Company>)
      requires Valid()
      modifies this
      ensures Valid()
      ensures old(CardMounted(selected)) ==> !isFocused && !CardMounted(selected)
      ensures !old(CardMounted(selected)) ==> isFocused == old(isFocused)
      ensures query == old(query) && results == old(results) && isLoading == old(isLoading)
      ensures pending == old(pending) && inFlight == old(inFlight) && emitted == old(emitted)
    {
      if CardMounted(selected) {
        isFocused := false;
      }
    }

    /** `handleSelect(company)`: hands the company over, then empties the query and the
        results and drops focus; the emptied query cancels any timer. */
    method HandleSelect(company: Company)
      requires Valid()
      modifies this
      ensures Valid()
      ensures emitted == old(emitted) + [company]
      ensures query == "" && results == [] && !isFocused && pending == None
      ensures !DropdownVisible()
      ensures isLoading == old(isLoading) && inFlight == old(inFlight)
    {
      emitted := emitted + [company];
      query := "";
      results := [];
      isFocused := false;
      pending := None;
    }

    /** `clearSelection()`: hands over a company with empty id and name, which the parent
        treats as no selection. The input is not mounted while a company is shown, so
        the call to focus it does nothing. */
    method ClearSelection()
      requires Valid()
      modifies this
      ensures Valid()
      ensures emitted == old(emitted) + [BareCompany("", "")]
      ensures ShowsSearch(Some(emitted[|emitted| - 1]))
      ensures query == old(query) && results == old(results) && isLoading == old(isLoading)
      ensures isFocused == old(isFocused) && pending == old(pending) && inFlight == old(inFlight)
    {
      emitted := emitted + [BareCompany("", "")];
    }
  }
}
