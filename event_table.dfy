/** `EventTable` (src/components/EventTable.tsx): one page of events from the
    server, a search over title, description and embedded location, an in-place
    sort with missing values last, the page / rows-per-page / search handlers,
    the request parameters, the rendered page and a confirmed local delete.
    The requests, `window.confirm` and `localeCompare` are inputs. */
module EventTable {
  import opened Wrappers
  import opened Js
  import opened Types
  import Seqs
  import ListSort

  /** The search of `filterAndSortEvents`: the lower-cased term occurs in the title, in a
      non-empty description, or, for an embedded location record, in its name or city. */
  function Matches(searchTerm: string): Event -> bool {
    (e: Event) =>
      var term := Lower(searchTerm);
      Includes(Lower(e.title), term)
      || (e.description.Some? && e.description.value != "" && Includes(Lower(e.description.value), term))
      || (e.location.LocationRecord? &&
          (Includes(Lower(e.location.record.name), term) || Includes(Lower(e.location.record.city), term)))
  }

  /** An event is kept exactly when one of the three searched places contains the term. */
  lemma KeptIff(events: seq<Event>, searchTerm: string, e: Event)
    ensures e in Seqs.Filter(events, Matches(searchTerm)) <==>
      e in events &&
      (Includes(Lower(e.title), Lower(searchTerm))
       || (e.description.Some? && e.description.value != "" && Includes(Lower(e.description.value), Lower(searchTerm)))
       || (e.location.LocationRecord? &&
           (Includes(Lower(e.location.record.name), Lower(searchTerm)) || Includes(Lower(e.location.record.city), Lower(searchTerm)))))
  {
    Seqs.FilterMembership(events, Matches(searchTerm), e);
  }

  /** An event whose location is a bare id is found only through its title or description. */
  lemma NumericLocationNeverMatches(events: seq<Event>, searchTerm: string, e: Event)
    requires e.location.LocationId?
    requires !Includes(Lower(e.title), Lower(searchTerm))
    requires e.description.None?
    ensures e !in Seqs.Filter(events, Matches(searchTerm))
  {
    Seqs.FilterMembership(events, Matches(searchTerm), e);
  }

  /** The comparator of `filterAndSortEvents` on the sort field's values: equal values are
      equal; a nullish `a` goes after, a nullish `b` before, whatever the direction; two
      strings are collated in the sort direction; anything else is equal. */
  function CompareValues(collate: (string, string) -> int, direction: ListSort.Direction, a: Value, b: Value): (c: int)
    ensures a == b ==> c == 0
    ensures a != b && IsNullish(a) ==> c == 1
    ensures a != b && !IsNullish(a) && IsNullish(b) ==> c == -1
    ensures a != b && a.Str? && b.Str? ==> c == if direction == ListSort.Asc then collate(a.s, b.s) else collate(b.s, a.s)
    ensures a != b && !IsNullish(a) && !IsNullish(b) && !(a.Str? && b.Str?) ==> c == 0
  {
    if a == b then 0
    else if IsNullish(a) then 1
    else if IsNullish(b) then -1
    else if a.Str? && b.Str? then
      if direction == ListSort.Asc then collate(a.s, b.s) else collate(b.s, a.s)
    else 0
  }

  /** Missing values go last in both directions. */
  lemma NullishLast(collate: (string, string) -> int, direction: ListSort.Direction, a: Value, b: Value)
    requires IsNullish(a) && !IsNullish(b)
    ensures CompareValues(collate, direction, a, b) > 0 && CompareValues(collate, direction, b, a) < 0
  {
  }

  /** With a collation the comparator is antisymmetric, except between `null` and `undefined`,
      which both come out "after" the other. */
  lemma CompareValuesAntisymmetric(collate: (string, string) -> int, direction: ListSort.Direction, a: Value, b: Value)
    requires ListSort.IsCollation(collate)
    requires !(IsNullish(a) && IsNullish(b) && a != b)
    ensures CompareValues(collate, direction, a, b) > 0 <==> CompareValues(collate, direction, b, a) < 0
  {
    if a != b && a.Str? && b.Str? {
      assert collate(a.s, b.s) > 0 <==> collate(b.s, a.s) < 0;
      assert collate(b.s, a.s) > 0 <==> collate(a.s, b.s) < 0;
    }
  }

  lemma NullAndUndefinedBothAfter(collate: (string, string) -> int, direction: ListSort.Direction)
    ensures CompareValues(collate, direction, Null, Undefined) == 1 == CompareValues(collate, direction, Undefined, Null)
  {
  }

  function EventOrder(collate: (string, string) -> int, sort: ListSort.SortState): (Event, Event) -> int {
    (a: Event, b: Event) => CompareValues(collate, sort.direction, EventField(a, sort.field), EventField(b, sort.field))
  }

  /** A typed event has no `null` members (an absent one reads as `undefined`), so the
      comparator is antisymmetric on any list of events. */
  lemma EventOrderAntisymmetric(collate: (string, string) -> int, sort: ListSort.SortState, s: seq<Event>)
    requires ListSort.IsCollation(collate)
    ensures ListSort.AntisymmetricOn(EventOrder(collate, sort), s)
  {
    forall i, j | 0 <= i < |s| && 0 <= j < |s|
      ensures EventOrder(collate, sort)(s[i], s[j]) > 0 ==> EventOrder(collate, sort)(s[j], s[i]) < 0
    {
      CompareValuesAntisymmetric(collate, sort.direction, EventField(s[i], sort.field), EventField(s[j], sort.field));
    }
  }

  /** The events matching `term`, sorted by `sort`'s field and direction. */
  method SortedMatches(events: seq<Event>, term: string, collate: (string, string) -> int, sort: ListSort.SortState)
    returns (r: seq<Event>)
    ensures multiset(r) == multiset(Seqs.Filter(events, Matches(term)))
    ensures |r| <= |events|
    ensures ListSort.IsCollation(collate) ==> ListSort.AdjacentSorted(r, EventOrder(collate, sort))
  {
    if ListSort.IsCollation(collate) {
      EventOrderAntisymmetric(collate, sort, Seqs.Filter(events, Matches(term)));
    }
    r := ListSort.FilterSorted(events, Matches(term), EventOrder(collate, sort));
  }

  /** The query `loadEvents` sends. */
  datatype Params = Params(page: int, page_size: int, ordering: string, search: Option<string>)

  /** `page + 1` (the API counts from 1), the page size, the sort field prefixed with `-` for a
      descending sort, and the search term only when it is non-empty. */
  function RequestParams(page: nat, rowsPerPage: nat, sort: ListSort.SortState, searchTerm: string): (p: Params)
    ensures p.page == page + 1 && p.page_size == rowsPerPage
    ensures sort.direction == ListSort.Desc ==> p.ordering == "-" + sort.field
    ensures sort.direction == ListSort.Asc ==> p.ordering == sort.field
    ensures p.search.Some? <==> searchTerm != ""
    ensures p.search.Some? ==> p.search.value == searchTerm
  {
    Params(page + 1, rowsPerPage, (if sort.direction == ListSort.Desc then "-" else "") + sort.field,
           if searchTerm != "" then Some(searchTerm) else None)
  }

  /** The ordering string names the field and tells the direction back. */
  lemma OrderingDecodes(sort: ListSort.SortState, page: nat, rowsPerPage: nat, searchTerm: string)
    requires |sort.field| > 0 && sort.field[0] != '-'
    ensures var o := RequestParams(page, rowsPerPage, sort, searchTerm).ordering;
      (StartsWith(o, "-") <==> sort.direction == ListSort.Desc)
      && (if StartsWith(o, "-") then o[1..] else o) == sort.field
  {
    var o := RequestParams(page, rowsPerPage, sort, searchTerm).ordering;
    if sort.direction == ListSort.Desc {
      assert o[1..] == sort.field;
    } else {
      assert o[..1] == [sort.field[0]];
    }
  }

  /** JavaScript `slice(start, end)` for non-negative bounds: both are clamped to the length. */
  function Slice<T>(s: seq<T>, start: nat, end: nat): (r: seq<T>)
    ensures |r| <= if end >= start then end - start else 0
    ensures start <= end && start <= |s| ==> r == s[start..if end <= |s| then end else |s|]
    ensures start >= |s| || end <= start ==> r == []
  {
    var lo := if start <= |s| then start else |s|;
    var hi := if end <= |s| then end else |s|;
    if lo < hi then s[lo..hi] else []
  }

  /** The rows the table renders, as written: `filtered.slice(page * rpp, page * rpp + rpp)`,
      the window of at most `rowsPerPage` events starting at `page * rowsPerPage`, empty when
      the window starts at or past the end. */
  function PageRows(filtered: seq<Event>, page: nat, rowsPerPage: nat): (rows: seq<Event>)
    ensures |rows| <= rowsPerPage
    ensures page * rowsPerPage < |filtered| ==>
      rows == filtered[page * rowsPerPage..if page * rowsPerPage + rowsPerPage <= |filtered| then page * rowsPerPage + rowsPerPage else |filtered|]
    ensures page * rowsPerPage >= |filtered| ==> rows == []
  {
    Slice(filtered, page * rowsPerPage, page * rowsPerPage + rowsPerPage)
  }

  /** The events already are the server's page `page + 1` of `rowsPerPage` events, so slicing
      them again by `page` shows nothing on every page after the first. */
  lemma LaterPagesEmpty(filtered: seq<Event>, page: nat, rowsPerPage: nat)
    requires page >= 1 && |filtered| <= rowsPerPage
    ensures PageRows(filtered, page, rowsPerPage) == []
  {
    assert page * rowsPerPage >= rowsPerPage;
  }

  /** The rows of the server's page, which is what the paging evidently intends: the loaded,
      filtered events themselves, at most one page of them. */
  function ServerPageRows(filtered: seq<Event>, rowsPerPage: nat): (rows: seq<Event>)
    ensures |rows| <= rowsPerPage
    ensures |filtered| <= rowsPerPage ==> rows == filtered
    ensures forall i :: 0 <= i < |rows| ==> rows[i] == filtered[i]
  {
    Slice(filtered, 0, rowsPerPage)
  }

  /** On every page the server's events are all shown, when it honours the page size. */
  lemma ServerPageShowsAll(filtered: seq<Event>, rowsPerPage: nat, e: Event)
    requires |filtered| <= rowsPerPage && e in filtered
    ensures e in ServerPageRows(filtered, rowsPerPage)
  {
  }

  /** The status badge text: Programado, Completado, and Cancelado for anything else. */
  function StatusLabel(status: string): (text: string)
    ensures text == "Programado" <==> status == "scheduled"
    ensures text == "Completado" <==> status == "completed"
    ensures text == "Cancelado" <==> status != "scheduled" && status != "completed"
  {
    if status == "scheduled" then "Programado" else if status == "completed" then "Completado" else "Cancelado"
  }

  /** `getStatusColor`: the badge's class, empty for an unknown status. */
  function StatusClass(status: string): (cls: string)
    ensures status !in {"scheduled", "completed", "cancelled"} ==> cls == ""
    ensures status == "scheduled" ==> cls == "status-scheduled"
    ensures status == "completed" ==> cls == "status-completed"
    ensures status == "cancelled" ==> cls == "status-cancelled"
  {
    match status
    case "scheduled" => "status-scheduled"
    case "completed" => "status-completed"
    case "cancelled" => "status-cancelled"
    case _ => ""
  }

  /** The description preview: a description longer than 100 characters shows its first 100
      and `...`; a shorter one shows whole. */
  function DescriptionPreview(description: string): (preview: string)
    ensures |description| > 100 ==> preview == description[..100] + "..." && |preview| == 103
    ensures |description| <= 100 ==> preview == description
    ensures StartsWith(preview, if |description| > 100 then description[..100] else description)
  {
    if |description| > 100 then description[..100] + "..." else description
  }

  /** The location cell: `name, city` for an embedded record, nothing for a bare id. */
  function LocationText(location: EventLocation): (text: Option<string>)
    ensures text.Some? <==> location.LocationRecord?
    ensures text.Some? ==> text.value == location.record.name + ", " + location.record.city
  {
    match location
    case LocationRecord(l) => Some(l.name + ", " + l.city)
    case LocationId(_) => None
  }

  function OtherId(id: int): Event -> bool {
    (e: Event) => e.id != id
  }

  datatype View = Loading | ErrorView(message: string) | TableView(rows: seq<Event>)

  class EventTable {
    var events: seq<Event>
    var filteredEvents: seq<Event>
    var loading: bool
    var error: Option<string>
    var searchTerm: string
    var sort: ListSort.SortState
    var page: nat
    var rowsPerPage: nat
    var totalCount: int

    /** The initial state: loading, by start time ascending, first page of 10. */
    constructor ()
      ensures events == [] && filteredEvents == [] && loading && error == None && searchTerm == ""
      ensures sort == ListSort.SortState("start_time", ListSort.Asc)
      ensures page == 0 && rowsPerPage == 10 && totalCount == 0
    {
      events, filteredEvents := [], [];
      loading, error, searchTerm := true, None, "";
      sort := ListSort.SortState("start_time", ListSort.Asc);
      page, rowsPerPage, totalCount := 0, 10, 0;
    }

    /** A `loadEvents` closure running: it sends `request`, the parameters it read from the
        state of the render that created it, then stores the server's `results` and `count`,
        or the error; loading ends either way. */
    method LoadWith(request: Params, response: Result<(seq<Event>, int)>) returns (params: Params)
      modifies this
      ensures params == request && !loading
      ensures response.Ok? ==> events == response.value.0 && totalCount == response.value.1 && error == old(error)
      ensures response.Err? ==>
        events == old(events) && totalCount == old(totalCount) && error == Some("Error al cargar los eventos")
      ensures filteredEvents == old(filteredEvents) && searchTerm == old(searchTerm) && sort == old(sort)
      ensures page == old(page) && rowsPerPage == old(rowsPerPage)
    {
      loading := true;
      params := request;
      if response.Ok? {
        events := response.value.0;
        totalCount := response.value.1;
      } else {
        error := Some("Error al cargar los eventos");
      }
      loading := false;
    }

    /** `loadEvents` from the current render, as the mount and the debounced search run it:
        it asks for the current page with the current sort and term. */
    method LoadEvents(response: Result<(seq<Event>, int)>) returns (params: Params)
      modifies this
      ensures params == RequestParams(old(page), old(rowsPerPage), old(sort), old(searchTerm))
      ensures !loading
      ensures response.Ok? ==> events == response.value.0 && totalCount == response.value.1 && error == old(error)
      ensures response.Err? ==>
        events == old(events) && totalCount == old(totalCount) && error == Some("Error al cargar los eventos")
      ensures filteredEvents == old(filteredEvents) && searchTerm == old(searchTerm) && sort == old(sort)
      ensures page == old(page) && rowsPerPage == old(rowsPerPage)
    {
      params := LoadWith(RequestParams(page, rowsPerPage, sort, searchTerm), response);
    }

    /** `filterAndSortEvents`. */
    method FilterAndSortEvents(collate: (string, string) -> int)
      modifies this
      ensures multiset(filteredEvents) == multiset(Seqs.Filter(events, Matches(searchTerm)))
      ensures |filteredEvents| <= |events|
      ensures ListSort.IsCollation(collate) ==> ListSort.AdjacentSorted(filteredEvents, EventOrder(collate, sort))
      ensures events == old(events) && searchTerm == old(searchTerm) && sort == old(sort)
      ensures page == old(page) && rowsPerPage == old(rowsPerPage) && totalCount == old(totalCount)
      ensures loading == old(loading) && error == old(error)
    {
      var r := SortedMatches(events, searchTerm, collate, sort);
      filteredEvents := r;
    }

    /** `handleSort`: descending exactly when the same field was ascending; back to the first
        page. The `loadEvents` it then calls belongs to the render before the change, so the
        request carries the old sort and page; the response is then stored. */
    method HandleSort(field: string, response: Result<(seq<Event>, int)>) returns (params: Params)
      modifies this
      ensures sort.field == field
      ensures sort.direction == ListSort.Desc <==> old(sort.field) == field && old(sort.direction) == ListSort.Asc
      ensures page == 0
      ensures params == RequestParams(old(page), old(rowsPerPage), old(sort), old(searchTerm))
      ensures !loading
      ensures response.Ok? ==> events == response.value.0 && totalCount == response.value.1 && error == old(error)
      ensures response.Err? ==>
        events == old(events) && totalCount == old(totalCount) && error == Some("Error al cargar los eventos")
      ensures filteredEvents == old(filteredEvents) && searchTerm == old(searchTerm) && rowsPerPage == old(rowsPerPage)
    {
      var request := RequestParams(page, rowsPerPage, sort, searchTerm);
      var isAsc := sort.field == field && sort.direction == ListSort.Asc;
      var newDirection := if isAsc then ListSort.Desc else ListSort.Asc;
      sort := ListSort.SortState(field, newDirection);
      page := 0;
      params := LoadWith(request, response);
    }

    /** `handleChangePage`: the page changes, and the `loadEvents` called from the same closure
        asks for the old page. */
    method HandleChangePage(newPage: nat, response: Result<(seq<Event>, int)>) returns (params: Params)
      modifies this
      ensures page == newPage
      ensures params == RequestParams(old(page), old(rowsPerPage), old(sort), old(searchTerm))
      ensures !loading
      ensures response.Ok? ==> events == response.value.0 && totalCount == response.value.1 && error == old(error)
      ensures response.Err? ==>
        events == old(events) && totalCount == old(totalCount) && error == Some("Error al cargar los eventos")
      ensures filteredEvents == old(filteredEvents) && searchTerm == old(searchTerm)
      ensures sort == old(sort) && rowsPerPage == old(rowsPerPage)
    {
      var request := RequestParams(page, rowsPerPage, sort, searchTerm);
      page := newPage;
      params := LoadWith(request, response);
    }

    /** A new page size starts again at the first page; the request still carries the old
        page and page size. */
    method HandleChangeRowsPerPage(newRowsPerPage: nat, response: Result<(seq<Event>, int)>) returns (params: Params)
      modifies this
      ensures rowsPerPage == newRowsPerPage && page == 0
      ensures params == RequestParams(old(page), old(rowsPerPage), old(sort), old(searchTerm))
      ensures !loading
      ensures response.Ok? ==> events == response.value.0 && totalCount == response.value.1 && error == old(error)
      ensures response.Err? ==>
        events == old(events) && totalCount == old(totalCount) && error == Some("Error al cargar los eventos")
      ensures filteredEvents == old(filteredEvents) && searchTerm == old(searchTerm) && sort == old(sort)
    {
      var request := RequestParams(page, rowsPerPage, sort, searchTerm);
      rowsPerPage := newRowsPerPage;
      page := 0;
      params := LoadWith(request, response);
    }

    /** What the page change evidently intends: the new page is requested, as a reload from
        the next render (an effect on `page`) would do. */
    method HandleChangePageFresh(newPage: nat, response: Result<(seq<Event>, int)>) returns (params: Params)
      modifies this
      ensures page == newPage
      ensures params == RequestParams(newPage, old(rowsPerPage), old(sort), old(searchTerm))
      ensures params.page == newPage + 1
      ensures !loading
      ensures response.Ok? ==> events == response.value.0 && totalCount == response.value.1 && error == old(error)
      ensures response.Err? ==>
        events == old(events) && totalCount == old(totalCount) && error == Some("Error al cargar los eventos")
      ensures filteredEvents == old(filteredEvents) && searchTerm == old(searchTerm)
      ensures sort == old(sort) && rowsPerPage == old(rowsPerPage)
    {
      page := newPage;
      params := LoadEvents(response);
    }

    /** A new search term starts again at the first page. */
    method HandleSearch(term: string)
      modifies this
      ensures searchTerm == term && page == 0
      ensures events == old(events) && filteredEvents == old(filteredEvents) && sort == old(sort)
      ensures rowsPerPage == old(rowsPerPage) && totalCount == old(totalCount)
      ensures loading == old(loading) && error == old(error)
    {
      searchTerm := term;
      page := 0;
    }

    /** `handleDelete(id)`: the delete request is made only after confirmation, and only when it
        succeeds do the events with that id leave the list. */
    method HandleDelete(id: int, confirmed: bool, deleted: bool) returns (requested: bool)
      modifies this
      ensures requested == confirmed
      ensures confirmed && deleted ==> events == Seqs.Filter(old(events), OtherId(id))
      ensures !(confirmed && deleted) ==> events == old(events)
      ensures filteredEvents == old(filteredEvents) && searchTerm == old(searchTerm) && sort == old(sort)
      ensures page == old(page) && rowsPerPage == old(rowsPerPage) && totalCount == old(totalCount)
      ensures loading == old(loading) && error == old(error)
    {
      requested := false;
      if confirmed {
        requested := true;
        if deleted {
          events := Seqs.Filter(events, OtherId(id));
        }
      }
    }

    /** Loading, else the error, else the table with the rows `filteredEvents.slice(page *
        rowsPerPage, page * rowsPerPage + rowsPerPage)`, as written. */
    function Render(): (v: View)
      reads this
      ensures v == Loading <==> loading
      ensures v.ErrorView? <==> !loading && error.Some? && error.value != ""
      ensures v.ErrorView? ==> v.message == error.value
      ensures v.TableView? ==> v.rows == PageRows(filteredEvents, page, rowsPerPage)
    {
      if loading then Loading
      else if error.Some? && error.value != "" then ErrorView(error.value)
      else TableView(PageRows(filteredEvents, page, rowsPerPage))
    }
  }

  /** A page change from `oldPage` to another page asks the server for the old page's
      number, never for the new one. */
  lemma PageChangeAsksOldPage(oldPage: nat, newPage: nat, rowsPerPage: nat, sort: ListSort.SortState, searchTerm: string)
    requires oldPage != newPage
    ensures RequestParams(oldPage, rowsPerPage, sort, searchTerm).page == oldPage + 1
    ensures RequestParams(oldPage, rowsPerPage, sort, searchTerm) != RequestParams(newPage, rowsPerPage, sort, searchTerm)
  {
  }

  /** A successful delete removes exactly the rows with that id and keeps the rest in order. */
  lemma DeleteRemovesExactly(events: seq<Event>, id: int, e: Event)
    ensures e in Seqs.Filter(events, OtherId(id)) <==> e in events && e.id != id
  {
    Seqs.FilterMembership(events, OtherId(id), e);
  }
}
