/** The server-paginated list pages (products, customers, brands) share one
    shape: a table state fed by list and search responses, a search box
    whose term decides between listing and searching, a reload after a
    successful create/update/delete, and timers scheduled per keystroke.
    Requests are returned as values; the network is not modelled. */
module ListView {
  import opened Wrappers
  import opened Text
  import opened JsValues
  import opened Seqs
  import opened Api

  /** What a table page holds: its rows, `totalRows` (whatever the
      server's pagination block says), the current page and the loading
      flag. */
  datatype Table<T> = Table(rows: seq<T>, total: Json, page: int, loading: bool)

  /** Applying a list (`resetsPage` false) or search (`resetsPage` true)
      response. A thrown call, a failure envelope, or a pagination block
      whose `total` cannot be read all leave the table empty with total 0;
      only a fully applied search moves to page 1. */
  function ApplyResponse<T>(t: Table<T>, fetched: Outcome<Listing<T>>, resetsPage: bool): (r: Table<T>)
    ensures !r.loading
    ensures fetched.Threw? || !fetched.value.success ==> r == Table([], Num0(), t.page, false)
    ensures fetched.Returned? && fetched.value.success && Property(fetched.value.pagination, "total").Returned? ==>
      r.rows == fetched.value.data.GetOr([]) && r.total == Get(fetched.value.pagination, "total")
      && r.page == (if resetsPage then 1 else t.page)
    ensures r.page == t.page || (resetsPage && r.page == 1)
  {
    match fetched
    case Threw(_) => Table([], Num0(), t.page, false)
    case Returned(l) =>
      if !l.success then Table([], Num0(), t.page, false)
      else
        match Property(l.pagination, "total")
        case Threw(_) => Table([], Num0(), t.page, false)
        case Returned(total) => Table(l.data.GetOr([]), total, if resetsPage then 1 else t.page, false)
  }

  /** A successful listing from a mapper always carries a pagination block
      that can be read, so applying it shows the mapped rows. */
  lemma MapperSuccessIsShown<T>(t: Table<T>, response: Json, idKey: string, decode: Json -> Outcome<T>, id: T -> Num, okMessage: string, resetsPage: bool)
    ensures var r := MapListing(response, idKey, decode, id, okMessage);
      r.Returned? && r.value.success ==> ApplyResponse(t, r, resetsPage).rows == r.value.data.value
  {
    var r := MapListing(response, idKey, decode, id, okMessage);
    if r.Returned? && r.value.success {
      assert Property(r.value.pagination, "total").Returned?;
    }
  }

  // ---------------------------------------------------------------------
  // Requests
  // ---------------------------------------------------------------------

  /** A request the page issues: a page of the listing, or a page of
      search results for a term. */
  datatype Request = ListPage(page: int) | SearchPage(term: string, page: int)

  /** Whether a search response was applied in full (a success whose
      `total` could be read): only then does the search step move the
      table to page 1. */
  predicate Applied<T>(fetched: Outcome<Listing<T>>) {
    fetched.Returned? && fetched.value.success && Property(fetched.value.pagination, "total").Returned?
  }

  /** The listing callback captures the current page, so the effect that
      runs it fires again whenever the page changes, listing the new
      page. */
  function PageEffect(before: int, after: int): (r: seq<Request>)
    ensures before == after <==> r == []
    ensures before != after ==> r == [ListPage(after)]
  {
    if before != after then [ListPage(after)] else []
  }

  /** What the search step does with a term, given the current page and
      whether the search response gets applied: the page it ends on and
      every request issued, in order. A non-blank term searches page 1 and,
      once the search is applied, sets page 1. A blank term sets page 1 and
      reloads through the listing captured with the old page. Either way a
      page change makes the page effect list page 1 afterwards. */
  function Dispatch(term: string, currentPage: int, applied: bool): (r: (int, seq<Request>))
    ensures r.0 == 1 || r.0 == currentPage
    ensures |r.1| >= 1 && (r.1[0].ListPage? <==> Trim(term) == "")
    ensures Trim(term) != "" ==> r.1[0] == SearchPage(term, 1) && r.0 == (if applied then 1 else currentPage)
    ensures Trim(term) == "" ==> r.0 == 1 && r.1[0] == ListPage(currentPage)
    ensures r.0 != currentPage ==> |r.1| == 2 && r.1[1] == ListPage(r.0)
    ensures r.0 == currentPage ==> |r.1| == 1
  {
    if Trim(term) != "" then
      var page := if applied then 1 else currentPage;
      (page, [SearchPage(term, 1)] + PageEffect(currentPage, page))
    else (1, [ListPage(currentPage)] + PageEffect(currentPage, 1))
  }

  /** Every search the box issues asks for page 1, and a blank term never
      searches. Whatever the term, when the page was not already 1 the
      last request lists page 1. */
  lemma DispatchSearchesFirstPage(term: string, currentPage: int, applied: bool)
    ensures forall q :: q in Dispatch(term, currentPage, applied).1 && q.SearchPage? ==> q.page == 1 && Trim(term) != ""
    ensures IsBlank(term) <==> forall q :: q in Dispatch(term, currentPage, applied).1 ==> q.ListPage?
    ensures var reqs := Dispatch(term, currentPage, applied).1;
      currentPage != 1 && (IsBlank(term) || applied) ==> reqs[|reqs| - 1] == ListPage(1)
  {
    var reqs := Dispatch(term, currentPage, applied).1;
    if !IsBlank(term) {
      assert reqs[0] == SearchPage(term, 1);
      assert reqs[0] in reqs && !reqs[0].ListPage?;
    }
  }

  /** The search step agrees with the table: the page it ends on is the
      page applying the search response leaves the table on. */
  lemma SearchPageMatchesTable<T>(t: Table<T>, term: string, fetched: Outcome<Listing<T>>)
    requires Trim(term) != ""
    ensures ApplyResponse(t, fetched, true).page == Dispatch(term, t.page, Applied(fetched)).0
  {
  }

  /** A search applied from a later page is followed by a listing of page
      1, whose response replaces the search results in the table. */
  lemma SearchFromLaterPageListsAfter(term: string, currentPage: int)
    requires Trim(term) != "" && currentPage != 1
    ensures Dispatch(term, currentPage, true).1 == [SearchPage(term, 1), ListPage(1)]
  {
  }

  /** The search step as evidently intended: a search that moves to page
      1 is not followed by a listing, so its results stay in the table. */
  function DispatchIntended(term: string, currentPage: int, applied: bool): (r: (int, seq<Request>))
    ensures r.0 == Dispatch(term, currentPage, applied).0
    ensures Trim(term) == "" ==> r == Dispatch(term, currentPage, applied)
    ensures Trim(term) != "" ==> r.1 == [SearchPage(term, 1)]
  {
    if Trim(term) != "" then (if applied then 1 else currentPage, [SearchPage(term, 1)])
    else Dispatch(term, currentPage, applied)
  }

  /** With the intended search step, whenever a term is searched the last
      request is that search. */
  lemma IntendedSearchIsLast(term: string, currentPage: int, applied: bool)
    requires Trim(term) != ""
    ensures var reqs := DispatchIntended(term, currentPage, applied).1;
      reqs[|reqs| - 1] == SearchPage(term, 1)
  {
  }

  /** After a create, update or delete: nothing on failure; on success the
      current search again through the search step when the box holds a
      term, otherwise the current page of the listing. */
  function ReloadAfterMutation(success: bool, term: string, currentPage: int, applied: bool): (r: seq<Request>)
    ensures !success <==> r == []
    ensures success ==> r[0] == ReloadStart(term, currentPage)
    ensures success && Trim(term) != "" ==> r == Dispatch(term, currentPage, applied).1
    ensures success && Trim(term) == "" ==> r == [ListPage(currentPage)]
  {
    if !success then []
    else if Trim(term) != "" then Dispatch(term, currentPage, applied).1
    else [ListPage(currentPage)]
  }

  /** The first request a successful reload issues. */
  function ReloadStart(term: string, currentPage: int): Request {
    if Trim(term) != "" then SearchPage(term, 1) else ListPage(currentPage)
  }

  /** With a term in the box, a successful reload from page 1 is the single
      search; from a later page an applied search is again followed by a
      listing of page 1. */
  lemma ReloadMatchesDispatch(term: string, currentPage: int, applied: bool)
    requires Trim(term) != ""
    ensures currentPage == 1 ==> ReloadAfterMutation(true, term, currentPage, applied) == [SearchPage(term, 1)]
    ensures currentPage != 1 && applied ==> ReloadAfterMutation(true, term, currentPage, applied) == [SearchPage(term, 1), ListPage(1)]
  {
  }

  // ---------------------------------------------------------------------
  // Keystrokes
  // ---------------------------------------------------------------------

  /** The customers box: every keystroke starts its own timer and none is
      ever cancelled. */
  function ScheduleEach(pending: seq<string>, value: string): seq<string> {
    pending + [value]
  }

  /** The products and brands boxes: a keystroke cancels the pending timer
      and starts one for the new value. */
  function ScheduleLatest(pending: seq<string>, value: string): seq<string> {
    [value]
  }

  /** The timers pending after typing `values` one keystroke at a time. */
  function Typed(values: seq<string>, cancelling: bool): (pending: seq<string>)
    ensures values == [] ==> pending == []
  {
    if values == [] then []
    else
      var before := Typed(values[..|values| - 1], cancelling);
      var v := values[|values| - 1];
      if cancelling then ScheduleLatest(before, v) else ScheduleEach(before, v)
  }

  /** Without cancelling every typed value is searched, in typing order;
      with cancelling only the last one is. */
  lemma {:induction false} TypedTimers(values: seq<string>)
    ensures Typed(values, false) == values
    ensures values != [] ==> Typed(values, true) == [values[|values| - 1]]
    decreases |values|
  {
    if values != [] {
      TypedTimers(values[..|values| - 1]);
      assert values[..|values| - 1] + [values[|values| - 1]] == values;
    }
  }

  // ---------------------------------------------------------------------
  // Text filters
  // ---------------------------------------------------------------------

  /** The case-insensitive `includes` test the pages use. */
  predicate ContainsIgnoringCase(text: string, term: string) {
    Contains(ToLower(text), ToLower(term))
  }

  /** A filter that shows everything for a blank term and otherwise the
      rows `matches` accepts, in order. */
  function FilterUnlessBlank<T>(rows: seq<T>, term: string, matches: T -> bool): (r: seq<T>)
    ensures IsBlank(term) ==> r == rows
    ensures !IsBlank(term) ==> r == Filter(rows, matches)
  {
    if Trim(term) == "" then rows else Filter(rows, matches)
  }
}
