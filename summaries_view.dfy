/**
  The tender-summaries dashboard: the pagination window over the filtered
  summaries, the page buttons shown around the current page, the three filters,
  the guarded page change, and the display helpers for text, confidence and
  category.
 */
module SummariesView {
  import opened Wrappers
  import opened Js
  import DocumentProcessor

  /** The fields of a public summary that the dashboard filters on. */
  datatype SummaryItem = SummaryItem(overview: string, workType: string, location: string, projectScope: string)

  /** `itemsPerPage`, which the component sets to 6 and never changes. */
  const ItemsPerPage: nat := 6

  // ---------------------------------------------------------------------------
  // Pagination
  // ---------------------------------------------------------------------------

  /** `paginatedSummaries`: the slice from `(currentPage - 1) * itemsPerPage`
      to `itemsPerPage` further on. */
  function PageOf(items: seq<SummaryItem>, currentPage: int): seq<SummaryItem> {
    var start := (currentPage - 1) * ItemsPerPage;
    Slice(items, start, start + ItemsPerPage)
  }

  /** `totalPages`: `Math.ceil(filteredSummaries.length / itemsPerPage)`. */
  function TotalPages(count: nat): nat {
    (count + ItemsPerPage - 1) / ItemsPerPage
  }

  /** From page 1 on, a page is the contiguous run of at most six items that
      starts six items per earlier page in. */
  lemma PageOfWindow(items: seq<SummaryItem>, currentPage: int)
    requires currentPage >= 1
    ensures var start := (currentPage - 1) * ItemsPerPage;
      && PageOf(items, currentPage) == items[Min(start, |items|)..Min(start + ItemsPerPage, |items|)]
      && |PageOf(items, currentPage)| <= ItemsPerPage
  {
    MulNonNegative(currentPage - 1, ItemsPerPage);
    SliceWindow(items, (currentPage - 1) * ItemsPerPage, ItemsPerPage);
  }

  /** The page count is the least number of six-item pages that hold every item. */
  lemma TotalPagesIsCeiling(count: nat)
    ensures TotalPages(count) * ItemsPerPage >= count
    ensures TotalPages(count) == 0 || (TotalPages(count) - 1) * ItemsPerPage < count
    ensures TotalPages(count) == 0 <==> count == 0
  {
  }

  /** Every item is shown on one page within the page count, at the place its
      index says. */
  lemma ItemShown(items: seq<SummaryItem>, i: nat)
    requires i < |items|
    ensures var page := i / ItemsPerPage + 1;
      && 1 <= page <= TotalPages(|items|)
      && i % ItemsPerPage < |PageOf(items, page)|
      && PageOf(items, page)[i % ItemsPerPage] == items[i]
  {
    var page := i / ItemsPerPage + 1;
    PageOfWindow(items, page);
    assert (page - 1) * ItemsPerPage + i % ItemsPerPage == i;
  }

  /** `visiblePages`: the page numbers from two before the current page to two
      after it, clipped to `1..totalPages`. */
  method VisiblePages(currentPage: int, totalPages: int) returns (pages: seq<int>)
    ensures var first := if currentPage - 2 > 1 then currentPage - 2 else 1;
      && (forall i | 0 <= i < |pages| :: pages[i] == first + i)
      && |pages| == (if Min(totalPages, currentPage + 2) >= first then Min(totalPages, currentPage + 2) - first + 1 else 0)
    ensures |pages| <= 5
    ensures forall i | 0 <= i < |pages| :: 1 <= pages[i] <= totalPages
    ensures totalPages <= 0 ==> pages == []
    ensures 1 <= currentPage <= totalPages ==> currentPage in pages
  {
    pages := [];
    var start := if currentPage - 2 > 1 then currentPage - 2 else 1;
    var end := Min(totalPages, currentPage + 2);
    var i := start;
    while i <= end
      invariant start <= i
      invariant i <= end + 1 || (i == start && end < start)
      invariant |pages| == i - start
      invariant forall k | 0 <= k < |pages| :: pages[k] == start + k
      decreases end - i
    {
      pages := pages + [i];
      i := i + 1;
    }
    if 1 <= currentPage <= totalPages {
      assert pages[currentPage - start] == currentPage;
    }
  }

  // ---------------------------------------------------------------------------
  // Filters
  // ---------------------------------------------------------------------------

  /** The text search: the lowercased query occurs in one of four fields. */
  predicate MatchesQuery(s: SummaryItem, query: string) {
    || Contains(Lower(s.overview), query)
    || Contains(Lower(s.workType), query)
    || Contains(Lower(s.location), query)
    || Contains(Lower(s.projectScope), query)
  }

  /** An item passes every active filter; a filter whose input is blank (the
      work type: empty) is inactive. */
  predicate PassesFilters(s: SummaryItem, searchQuery: string, workType: string, location: string) {
    && (Trim(searchQuery) == "" || MatchesQuery(s, Lower(searchQuery)))
    && (workType == "" || s.workType == workType)
    && (Trim(location) == "" || Contains(Lower(s.location), Lower(location)))
  }

  /** The summaries that pass every active filter, in their order. */
  function FilteredOf(summaries: seq<SummaryItem>, searchQuery: string, workType: string, location: string): seq<SummaryItem> {
    Filter(summaries, (s: SummaryItem) => PassesFilters(s, searchQuery, workType, location))
  }

  /** The filtered list keeps exactly the summaries that pass every active
      filter, in their order. */
  lemma FilteredSummariesSpec(summaries: seq<SummaryItem>, searchQuery: string, workType: string, location: string)
    ensures var r := FilteredOf(summaries, searchQuery, workType, location);
      && IsSubsequence(r, summaries)
      && forall s :: s in r <==> s in summaries && PassesFilters(s, searchQuery, workType, location)
  {
    var p := (s: SummaryItem) => PassesFilters(s, searchQuery, workType, location);
    FilterIsSubsequence(summaries, p);
    FilterMembers(summaries, p);
  }

  // The three filters of `filterSummaries` as the source applies them, and
  // each as a filter that lets everything through when it is inactive.

  function HasQuery(query: string): SummaryItem -> bool {
    (s: SummaryItem) => MatchesQuery(s, query)
  }

  function HasType(workType: string): SummaryItem -> bool {
    (s: SummaryItem) => s.workType == workType
  }

  function AtLocation(location: string): SummaryItem -> bool {
    (s: SummaryItem) => Contains(Lower(s.location), location)
  }

  function ByQuery(searchQuery: string): SummaryItem -> bool {
    (s: SummaryItem) => Trim(searchQuery) == "" || MatchesQuery(s, Lower(searchQuery))
  }

  function ByType(workType: string): SummaryItem -> bool {
    (s: SummaryItem) => workType == "" || s.workType == workType
  }

  function ByLocation(location: string): SummaryItem -> bool {
    (s: SummaryItem) => Trim(location) == "" || Contains(Lower(s.location), Lower(location))
  }

  lemma QueryStep(items: seq<SummaryItem>, searchQuery: string)
    ensures Filter(items, ByQuery(searchQuery))
      == if Trim(searchQuery) != "" then Filter(items, HasQuery(Lower(searchQuery))) else items
  {
    if Trim(searchQuery) != "" {
      FilterExt(items, HasQuery(Lower(searchQuery)), ByQuery(searchQuery));
    } else {
      FilterKeepsAll(items, ByQuery(searchQuery));
    }
  }

  lemma TypeStep(items: seq<SummaryItem>, workType: string)
    ensures Filter(items, ByType(workType)) == if workType != "" then Filter(items, HasType(workType)) else items
  {
    if workType != "" {
      FilterExt(items, HasType(workType), ByType(workType));
    } else {
      FilterKeepsAll(items, ByType(workType));
    }
  }

  lemma LocationStep(items: seq<SummaryItem>, location: string)
    ensures Filter(items, ByLocation(location))
      == if Trim(location) != "" then Filter(items, AtLocation(Lower(location))) else items
  {
    if Trim(location) != "" {
      FilterExt(items, AtLocation(Lower(location)), ByLocation(location));
    } else {
      FilterKeepsAll(items, ByLocation(location));
    }
  }

  /** The three filters one after another are the combined filter. */
  lemma StepsCompose(items: seq<SummaryItem>, searchQuery: string, workType: string, location: string)
    ensures Filter(Filter(Filter(items, ByQuery(searchQuery)), ByType(workType)), ByLocation(location))
      == FilteredOf(items, searchQuery, workType, location)
  {
    var both := (s: SummaryItem) => ByQuery(searchQuery)(s) && ByType(workType)(s);
    FilterFilter(items, ByQuery(searchQuery), ByType(workType), both);
    FilterFilter(items, both, ByLocation(location),
      (s: SummaryItem) => PassesFilters(s, searchQuery, workType, location));
  }

  // ---------------------------------------------------------------------------
  // The component
  // ---------------------------------------------------------------------------

  class TenderSummariesPanel {
    var summaries: seq<SummaryItem>
    var filteredSummaries: seq<SummaryItem>
    var searchQuery: string
    var filterWorkType: string
    var filterLocation: string
    var currentPage: int

    /** The page number never drops below 1. */
    predicate Valid()
      reads this
    {
      currentPage >= 1
    }

    /** The component's initial data. */
    constructor()
      ensures Valid()
      ensures summaries == [] && filteredSummaries == []
      ensures searchQuery == "" && filterWorkType == "" && filterLocation == ""
      ensures currentPage == 1
    {
      summaries := [];
      filteredSummaries := [];
      searchQuery := "";
      filterWorkType := "";
      filterLocation := "";
      currentPage := 1;
    }

    /** The state after `loadSummaries` has received `loaded`: both lists hold it. */
    method Loaded(loaded: seq<SummaryItem>)
      modifies this
      ensures summaries == loaded && filteredSummaries == loaded
      ensures searchQuery == old(searchQuery) && filterWorkType == old(filterWorkType)
      ensures filterLocation == old(filterLocation) && currentPage == old(currentPage)
    {
      summaries := loaded;
      filteredSummaries := loaded;
    }

    /** `filterSummaries`: apply the active filters one after another, and go
        back to the first page. */
    method FilterSummaries()
      modifies this
      ensures filteredSummaries == FilteredOf(summaries, searchQuery, filterWorkType, filterLocation)
      ensures currentPage == 1 && Valid()
      ensures summaries == old(summaries) && searchQuery == old(searchQuery)
      ensures filterWorkType == old(filterWorkType) && filterLocation == old(filterLocation)
    {
      var filtered := summaries;
      QueryStep(filtered, searchQuery);
      if Trim(searchQuery) != "" {
        var query := Lower(searchQuery);
        filtered := Filter(filtered, HasQuery(query));
      }
      TypeStep(filtered, filterWorkType);
      if filterWorkType != "" {
        filtered := Filter(filtered, HasType(filterWorkType));
      }
      LocationStep(filtered, filterLocation);
      if Trim(filterLocation) != "" {
        var location := Lower(filterLocation);
        filtered := Filter(filtered, AtLocation(location));
      }
      StepsCompose(summaries, searchQuery, filterWorkType, filterLocation);
      filteredSummaries := filtered;
      currentPage := 1;
    }

    /** `changePage`: move to `page` only when it is one of the pages. */
    method ChangePage(page: int)
      requires Valid()
      modifies this
      ensures currentPage == if 1 <= page <= TotalPages(|filteredSummaries|) then page else old(currentPage)
      ensures Valid()
      ensures summaries == old(summaries) && filteredSummaries == old(filteredSummaries)
      ensures searchQuery == old(searchQuery) && filterWorkType == old(filterWorkType)
      ensures filterLocation == old(filterLocation)
    {
      if page >= 1 && page <= TotalPages(|filteredSummaries|) {
        currentPage := page;
      }
    }
  }

  // ---------------------------------------------------------------------------
  // Display helpers
  // ---------------------------------------------------------------------------

  /** `truncateText`: an absent or empty text gives `""`; a text within the
      limit is kept; a longer one is cut to the limit and marked with `...`. */
  function TruncateText(text: Option<string>, maxLength: int): string {
    if text.None? || text.value == "" || |text.value| <= maxLength then text.GetOr("")
    else text.value[..if maxLength < 0 then 0 else maxLength] + "..."
  }

  /** A kept text is returned whole; a cut one is a prefix of the text followed
      by `...`, at most three characters over the limit. */
  lemma TruncateTextSpec(text: Option<string>, maxLength: int)
    ensures text.None? || text == Some("") ==> TruncateText(text, maxLength) == ""
    ensures text.Some? && |text.value| <= maxLength ==> TruncateText(text, maxLength) == text.value
    ensures text.Some? && text.value != "" && |text.value| > maxLength ==>
      var r := TruncateText(text, maxLength);
      && |r| >= 3 && r[|r| - 3..] == "..."
      && StartsWith(text.value, r[..|r| - 3])
      && (maxLength >= 0 ==> |r| == maxLength + 3)
  {
  }

  /** Truncating a truncated text again changes nothing. */
  lemma TruncateTextIdempotent(text: Option<string>, maxLength: int)
    ensures TruncateText(Some(TruncateText(text, maxLength)), maxLength) == TruncateText(text, maxLength)
  {
    var r := TruncateText(text, maxLength);
    if text.Some? && text.value != "" && |text.value| > maxLength {
      var n := if maxLength < 0 then 0 else maxLength;
      assert r[..n] == text.value[..n];
    }
  }

  /** `getConfidenceBadge`. */
  function ConfidenceBadge(confidence: int): string {
    if confidence >= 80 then "badge badge-success"
    else if confidence >= 60 then "badge badge-warning"
    else "badge badge-danger"
  }

  /** The three badges split the scores at 60 and 80, and a higher score never
      gets a worse badge. */
  lemma ConfidenceBadgeThresholds(confidence: int, higher: int)
    ensures ConfidenceBadge(confidence) == "badge badge-success" <==> confidence >= 80
    ensures ConfidenceBadge(confidence) == "badge badge-warning" <==> 60 <= confidence < 80
    ensures ConfidenceBadge(confidence) == "badge badge-danger" <==> confidence < 60
    ensures confidence <= higher && ConfidenceBadge(confidence) != "badge badge-danger" ==>
      ConfidenceBadge(higher) != "badge badge-danger"
    ensures confidence <= higher && ConfidenceBadge(confidence) == "badge badge-success" ==>
      ConfidenceBadge(higher) == "badge badge-success"
  {
  }

  const CategoryColors: map<string, string> := map[
    "roads" := "card-header-warning",
    "construction" := "card-header-info",
    "bridges" := "card-header-success",
    "water" := "card-header-primary",
    "electrical" := "card-header-rose",
    "maintenance" := "card-header-default",
    "supply" := "card-header-dark"
  ]

  /** `getCategoryColor`: the colour of a known category, else `card-header-info`. */
  function CategoryColor(category: string): string {
    if category in CategoryColors then CategoryColors[category] else "card-header-info"
  }

  /** Every colour is a card-header class, and every project type the document
      processor detects has a colour of its own. */
  lemma CategoryColorSpec(category: string)
    ensures StartsWith(CategoryColor(category), "card-header-")
    ensures category !in DocumentProcessor.TypeNames && category !in CategoryColors ==>
      CategoryColor(category) == "card-header-info"
    ensures forall t | t in DocumentProcessor.TypeNames :: t in CategoryColors
  {
  }
}
