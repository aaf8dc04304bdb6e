/** `ThemeDetail` (src/components/ThemeDetail.tsx): the versions of one theme,
    searched by title or notes, filtered by type tab and sorted in place like the
    theme table. The version request and `localeCompare` are inputs. */
module ThemeDetail {
  import opened Wrappers
  import opened Js
  import opened Types
  import Seqs
  import ListSort
  import VersionTypes

  /** `version.title?.toLowerCase().includes(term)`, truthy exactly when there is a title containing it. */
  predicate OptIncludes(field: Option<string>, searchTerm: string) {
    field.Some? && Includes(Lower(field.value), Lower(searchTerm))
  }

  /** The filter of `filterAndSortVersions`: the search matches the title or the notes, and the
      selected tab is `all` or the version's type code. */
  function Matches(searchTerm: string, selectedType: string): Version -> bool {
    (v: Version) => (OptIncludes(v.title, searchTerm) || OptIncludes(v.notes, searchTerm))
      && (selectedType == "all" || v.vtype.Code() == selectedType)
  }

  /** The filter of `loadVersions`. */
  function OfTheme(themeId: int): Version -> bool {
    (v: Version) => v.theme == themeId
  }

  function VersionOrder(collate: (string, string) -> int, sort: ListSort.SortState): (Version, Version) -> int {
    (a: Version, b: Version) => ListSort.CompareValues(collate, sort.direction, VersionField(a, sort.field), VersionField(b, sort.field))
  }

  /** A version is shown exactly when it is loaded, its title or notes contain the term, and
      its type is the selected one (any type under `all`). */
  lemma ShownIff(versions: seq<Version>, searchTerm: string, selectedType: string, v: Version)
    ensures v in Seqs.Filter(versions, Matches(searchTerm, selectedType)) <==>
      v in versions
      && ((v.title.Some? && Includes(Lower(v.title.value), Lower(searchTerm)))
          || (v.notes.Some? && Includes(Lower(v.notes.value), Lower(searchTerm))))
      && (selectedType == "all" || v.vtype.Code() == selectedType)
  {
    Seqs.FilterMembership(versions, Matches(searchTerm, selectedType), v);
  }

  /** A version with neither title nor notes is never shown, whatever the search. */
  lemma UntitledNeverShown(versions: seq<Version>, searchTerm: string, selectedType: string, v: Version)
    requires v.title.None? && v.notes.None?
    ensures v !in Seqs.Filter(versions, Matches(searchTerm, selectedType))
  {
    Seqs.FilterMembership(versions, Matches(searchTerm, selectedType), v);
  }

  /** Exactly the versions of the theme are kept, in their order. */
  lemma LoadedAreTheTheme(all: seq<Version>, themeId: int, v: Version)
    ensures v in Seqs.Filter(all, OfTheme(themeId)) <==> v in all && v.theme == themeId
  {
    Seqs.FilterMembership(all, OfTheme(themeId), v);
  }

  lemma VersionOrderAntisymmetric(collate: (string, string) -> int, sort: ListSort.SortState, s: seq<Version>)
    requires ListSort.IsCollation(collate)
    ensures ListSort.AntisymmetricOn(VersionOrder(collate, sort), s)
  {
    forall i, j | 0 <= i < |s| && 0 <= j < |s|
      ensures VersionOrder(collate, sort)(s[i], s[j]) > 0 ==> VersionOrder(collate, sort)(s[j], s[i]) < 0
    {
      ListSort.CompareValuesAntisymmetric(collate, sort.direction, VersionField(s[i], sort.field), VersionField(s[j], sort.field));
    }
  }

  /** The versions matching `term` and the type tab, sorted by `sort`'s field and direction. */
  method SortedMatches(versions: seq<Version>, term: string, selectedType: string, collate: (string, string) -> int, sort: ListSort.SortState)
    returns (r: seq<Version>)
    ensures multiset(r) == multiset(Seqs.Filter(versions, Matches(term, selectedType)))
    ensures |r| <= |versions|
    ensures ListSort.IsCollation(collate) ==> ListSort.AdjacentSorted(r, VersionOrder(collate, sort))
  {
    if ListSort.IsCollation(collate) {
      VersionOrderAntisymmetric(collate, sort, Seqs.Filter(versions, Matches(term, selectedType)));
    }
    r := ListSort.FilterSorted(versions, Matches(term, selectedType), VersionOrder(collate, sort));
  }

  class ThemeDetail {
    const theme: Theme
    var versions: seq<Version>
    var filteredVersions: seq<Version>
    var loading: bool
    var error: string
    var searchTerm: string
    var selectedType: string
    var sort: ListSort.SortState

    /** The initial state: loading, tab `all`, newest first. */
    constructor (theme: Theme)
      ensures this.theme == theme && versions == [] && filteredVersions == [] && loading && error == ""
      ensures searchTerm == "" && selectedType == "all" && sort == ListSort.SortState("created_at", ListSort.Desc)
    {
      this.theme := theme;
      versions, filteredVersions := [], [];
      loading, error, searchTerm, selectedType := true, "", "", "all";
      sort := ListSort.SortState("created_at", ListSort.Desc);
    }

    /** `loadVersions`: of all versions, those whose `theme` is this theme's id. */
    method LoadVersions(response: Result<seq<Version>>)
      modifies this
      ensures !loading
      ensures response.Ok? ==> versions == Seqs.Filter(response.value, OfTheme(theme.id)) && error == old(error)
      ensures response.Err? ==> versions == old(versions) && error == "Error al cargar las versiones"
      ensures filteredVersions == old(filteredVersions) && searchTerm == old(searchTerm)
      ensures selectedType == old(selectedType) && sort == old(sort)
    {
      loading := true;
      if response.Ok? {
        versions := Seqs.Filter(response.value, OfTheme(theme.id));
      } else {
        error := "Error al cargar las versiones";
      }
      loading := false;
    }

    /** `filterAndSortVersions`: the shown versions, sorted; never more than the loaded ones. */
    method FilterAndSortVersions(collate: (string, string) -> int)
      modifies this
      ensures multiset(filteredVersions) == multiset(Seqs.Filter(versions, Matches(searchTerm, selectedType)))
      ensures |filteredVersions| <= |versions|
      ensures ListSort.IsCollation(collate) ==> ListSort.AdjacentSorted(filteredVersions, VersionOrder(collate, sort))
      ensures versions == old(versions) && searchTerm == old(searchTerm) && selectedType == old(selectedType)
      ensures sort == old(sort) && loading == old(loading) && error == old(error)
    {
      var r := SortedMatches(versions, searchTerm, selectedType, collate, sort);
      filteredVersions := r;
    }

    method HandleSort(field: string)
      modifies this
      ensures sort == ListSort.Toggle(old(sort), field)
      ensures versions == old(versions) && filteredVersions == old(filteredVersions) && searchTerm == old(searchTerm)
      ensures selectedType == old(selectedType) && loading == old(loading) && error == old(error)
    {
      if sort.field == field {
        sort := ListSort.SortState(sort.field, if sort.direction == ListSort.Asc then ListSort.Desc else ListSort.Asc);
      } else {
        sort := ListSort.SortState(field, ListSort.Asc);
      }
    }

    /** Clicking a tab. */
    method SelectType(tab: string)
      modifies this
      ensures selectedType == tab
      ensures versions == old(versions) && filteredVersions == old(filteredVersions) && searchTerm == old(searchTerm)
      ensures sort == old(sort) && loading == old(loading) && error == old(error)
    {
      selectedType := tab;
    }

    method SetSearchTerm(term: string)
      modifies this
      ensures searchTerm == term
      ensures versions == old(versions) && filteredVersions == old(filteredVersions) && selectedType == old(selectedType)
      ensures sort == old(sort) && loading == old(loading) && error == old(error)
    {
      searchTerm := term;
    }
  }
}
