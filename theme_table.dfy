/** `ThemeTable` (src/components/ThemeTable.tsx): the loaded themes, a
    case-insensitive search over title and artist, and a sort by any theme field
    applied in place to the filtered copy. The list request and `localeCompare`
    are inputs. */
module ThemeTable {
  import opened Wrappers
  import opened Js
  import opened Types
  import Seqs
  import ListSort

  /** The search predicate: the lower-cased title contains the lower-cased term, or the
      artist is non-empty and its lower-cased form contains it. */
  function Matches(searchTerm: string): Theme -> bool {
    (t: Theme) => Includes(Lower(t.title), Lower(searchTerm))
      || (t.artist != "" && Includes(Lower(t.artist), Lower(searchTerm)))
  }

  /** The comparator `filterAndSortThemes` passes to `sort`. */
  function ThemeOrder(collate: (string, string) -> int, sort: ListSort.SortState): (Theme, Theme) -> int {
    (a: Theme, b: Theme) => ListSort.CompareValues(collate, sort.direction, ThemeField(a, sort.field), ThemeField(b, sort.field))
  }

  /** A theme is listed exactly when it is loaded and matches the search. */
  lemma KeptIff(themes: seq<Theme>, searchTerm: string, t: Theme)
    ensures t in Seqs.Filter(themes, Matches(searchTerm)) <==>
      t in themes && (Includes(Lower(t.title), Lower(searchTerm)) || (t.artist != "" && Includes(Lower(t.artist), Lower(searchTerm))))
  {
    Seqs.FilterMembership(themes, Matches(searchTerm), t);
  }

  /** The search ignores the case of accented capitals: a theme titled `ÓPERA` is listed
      for the term `ópera`. */
  lemma AccentedTitleFound(themes: seq<Theme>, t: Theme)
    requires t in themes && t.title == "ÓPERA"
    ensures t in Seqs.Filter(themes, Matches("ópera"))
  {
    LowerAccented();
    assert StartsWith(Lower(t.title), Lower("ópera"));
    KeptIff(themes, "ópera", t);
  }

  /** The empty search keeps every theme, in order. */
  lemma EmptySearchKeepsAll(themes: seq<Theme>)
    ensures Seqs.Filter(themes, Matches("")) == themes
  {
    forall i | 0 <= i < |themes|
      ensures Matches("")(themes[i])
    {
      assert StartsWith(Lower(themes[i].title), "");
    }
    Seqs.FilterAll(themes, Matches(""));
  }

  /** With a collation the comparator is antisymmetric on any list, so the sort orders it. */
  lemma ThemeOrderAntisymmetric(collate: (string, string) -> int, sort: ListSort.SortState, s: seq<Theme>)
    requires ListSort.IsCollation(collate)
    ensures ListSort.AntisymmetricOn(ThemeOrder(collate, sort), s)
  {
    forall i, j | 0 <= i < |s| && 0 <= j < |s|
      ensures ThemeOrder(collate, sort)(s[i], s[j]) > 0 ==> ThemeOrder(collate, sort)(s[j], s[i]) < 0
    {
      ListSort.CompareValuesAntisymmetric(collate, sort.direction, ThemeField(s[i], sort.field), ThemeField(s[j], sort.field));
    }
  }

  /** What the component renders: the loading text, else the error with a retry button, else the table. */
  datatype View = Loading | ErrorView(message: string) | TableView

  /** The themes matching `term`, sorted by `sort`'s field and direction. */
  method SortedMatches(themes: seq<Theme>, term: string, collate: (string, string) -> int, sort: ListSort.SortState)
    returns (r: seq<Theme>)
    ensures multiset(r) == multiset(Seqs.Filter(themes, Matches(term)))
    ensures |r| <= |themes|
    ensures ListSort.IsCollation(collate) ==> ListSort.AdjacentSorted(r, ThemeOrder(collate, sort))
  {
    if ListSort.IsCollation(collate) {
      ThemeOrderAntisymmetric(collate, sort, Seqs.Filter(themes, Matches(term)));
    }
    r := ListSort.FilterSorted(themes, Matches(term), ThemeOrder(collate, sort));
  }

  class ThemeTable {
    var themes: seq<Theme>
    var filteredThemes: seq<Theme>
    var loading: bool
    var error: string
    var searchTerm: string
    var sort: ListSort.SortState

    /** The initial state: loading, nothing loaded, sorted by title ascending. */
    constructor ()
      ensures themes == [] && filteredThemes == [] && loading && error == "" && searchTerm == ""
      ensures sort == ListSort.SortState("title", ListSort.Asc)
    {
      themes, filteredThemes := [], [];
      loading, error, searchTerm := true, "", "";
      sort := ListSort.SortState("title", ListSort.Asc);
    }

    /** `loadThemes`: on success the themes are replaced; on failure the error is set and the
        old themes stay. Loading ends either way. */
    method LoadThemes(response: Result<seq<Theme>>)
      modifies this
      ensures !loading
      ensures response.Ok? ==> themes == response.value && error == old(error)
      ensures response.Err? ==> themes == old(themes) && error == "Error al cargar los temas"
      ensures filteredThemes == old(filteredThemes) && searchTerm == old(searchTerm) && sort == old(sort)
    {
      loading := true;
      if response.Ok? {
        themes := response.value;
      } else {
        error := "Error al cargar los temas";
      }
      loading := false;
    }

    /** `filterAndSortThemes`: the matching themes, sorted; a permutation of the filter's
        result (so never more than the loaded themes) and in order under a collation. */
    method FilterAndSortThemes(collate: (string, string) -> int)
      modifies this
      ensures multiset(filteredThemes) == multiset(Seqs.Filter(themes, Matches(searchTerm)))
      ensures |filteredThemes| <= |themes|
      ensures ListSort.IsCollation(collate) ==> ListSort.AdjacentSorted(filteredThemes, ThemeOrder(collate, sort))
      ensures themes == old(themes) && searchTerm == old(searchTerm) && sort == old(sort)
      ensures loading == old(loading) && error == old(error)
    {
      var r := SortedMatches(themes, searchTerm, collate, sort);
      filteredThemes := r;
    }

    /** `handleSort`: the shared header toggle. */
    method HandleSort(field: string)
      modifies this
      ensures sort == ListSort.Toggle(old(sort), field)
      ensures themes == old(themes) && filteredThemes == old(filteredThemes) && searchTerm == old(searchTerm)
      ensures loading == old(loading) && error == old(error)
    {
      if sort.field == field {
        sort := ListSort.SortState(sort.field, if sort.direction == ListSort.Asc then ListSort.Desc else ListSort.Asc);
      } else {
        sort := ListSort.SortState(field, ListSort.Asc);
      }
    }

    method SetSearchTerm(term: string)
      modifies this
      ensures searchTerm == term
      ensures themes == old(themes) && filteredThemes == old(filteredThemes) && sort == old(sort)
      ensures loading == old(loading) && error == old(error)
    {
      searchTerm := term;
    }

    /** Loading takes precedence over an error, an error over the table. */
    function Render(): (v: View)
      reads this
      ensures v == Loading <==> loading
      ensures v.ErrorView? <==> !loading && error != ""
      ensures v.ErrorView? ==> v.message == error
    {
      if loading then Loading else if error != "" then ErrorView(error) else TableView
    }
  }
}
