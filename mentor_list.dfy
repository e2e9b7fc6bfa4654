/**
 * The mentor list: loaded mentors (each with its `menteeCount`), a search query and a current page held as state;
 * the filtered list, the page count and the visible page derived from them.
 */
module MentorListPage {
  import opened Wrappers
  import opened Schema
  import opened Sequences
  import opened Listing
  import opened Api

  /** The search predicate over a mentor's name, email and subcounty. */
  function MentorMatches(query: string): Counted<MentorWithMentees> -> bool {
    (m: Counted<MentorWithMentees>) => MatchesQuery(m.entry.mentor.name, m.entry.mentor.email, SubcountyName(m.entry.mentor.subcounty), query)
  }

  class MentorList {
    var mentors: seq<Counted<MentorWithMentees>>
    var loading: bool
    var searchQuery: string
    var currentPage: int

    constructor ()
      ensures mentors == [] && loading && searchQuery == "" && currentPage == 1
    {
      mentors, loading, searchQuery, currentPage := [], true, "", 1;
    }

    /**
     * `filteredMentors`: a mentor is listed exactly when the query matches it; the
     * list keeps the loaded order, and an empty query lists everyone.
     */
    function FilteredMentors(): (r: seq<Counted<MentorWithMentees>>)
      reads this
      ensures forall m :: m in r <==> m in mentors && MentorMatches(searchQuery)(m)
      ensures IsSubsequence(r, mentors)
      ensures searchQuery == "" ==> r == mentors
      ensures |r| == Count(mentors, MentorMatches(searchQuery))
    {
      FilterLengthIsCount(mentors, MentorMatches(searchQuery));
      FilterMembershipAll(mentors, MentorMatches(searchQuery));
      FilterIsSubsequence(mentors, MentorMatches(searchQuery));
      EmptyQueryKeepsAll(mentors, searchQuery);
      Filter(mentors, MentorMatches(searchQuery))
    }

    /** `totalPages` */
    function TotalPages(): (r: nat)
      reads this
      ensures r * ItemsPerPage >= |FilteredMentors()|
      ensures r > 0 ==> (r - 1) * ItemsPerPage < |FilteredMentors()|
      ensures r == 0 <==> |FilteredMentors()| == 0
    {
      TotalPagesZeroIffEmpty(|FilteredMentors()|);
      Listing.TotalPages(|FilteredMentors()|)
    }

    /**
     * `paginatedMentors`: from page 1 on, the run of at most ten filtered mentors
     * starting at (currentPage - 1) * 10; a page past the last is empty.
     */
    function PaginatedMentors(): (r: seq<Counted<MentorWithMentees>>)
      reads this
      ensures currentPage >= 1 ==> |r| <= ItemsPerPage
      ensures currentPage >= 1 ==>
        r == FilteredMentors()[Min((currentPage - 1) * ItemsPerPage, |FilteredMentors()|)..Min(currentPage * ItemsPerPage, |FilteredMentors()|)]
      ensures 1 <= currentPage <= TotalPages() ==> |r| > 0
      ensures currentPage > TotalPages() ==> r == []
    {
      var xs := FilteredMentors();
      if currentPage < 1 then
        Page(xs, currentPage)
      else
        PageShape(xs, currentPage);
        Page(xs, currentPage)
    }

    /** The pagination control is rendered exactly when some mentor matches, that is when there are pages. */
    function PaginationShown(): (r: bool)
      reads this
      ensures r <==> TotalPages() > 0
      ensures r <==> exists m :: m in mentors && MentorMatches(searchQuery)(m)
    {
      var xs := FilteredMentors();
      TotalPagesZeroIffEmpty(|xs|);
      assert |xs| > 0 ==> xs[0] in xs;
      |xs| > 0
    }

    /**
     * The search input's `onChange`: only the query changes. The page is kept, so a
     * page beyond the new last page shows nothing.
     */
    method SetSearchQuery(query: string)
      modifies this
      ensures searchQuery == query
      ensures mentors == old(mentors) && loading == old(loading) && currentPage == old(currentPage)
      ensures currentPage > TotalPages() ==> PaginatedMentors() == []
    {
      searchQuery := query;
    }

    /** The pagination control's `onPageChange`. */
    method SetCurrentPage(page: int)
      modifies this
      ensures currentPage == page
      ensures mentors == old(mentors) && loading == old(loading) && searchQuery == old(searchQuery)
    {
      currentPage := page;
    }

    /**
     * `loadMentors`, run on mount and after a mentor is created: on success the list
     * becomes what `getMentors` returned, on failure it is kept; loading ends either way.
     */
    method LoadMentors(store: Store, fault: bool)
      modifies this
      ensures !loading
      ensures store.GetMentors(fault).Success? ==> mentors == store.GetMentors(fault).value
      ensures store.GetMentors(fault).Failure? ==> mentors == old(mentors)
      ensures searchQuery == old(searchQuery) && currentPage == old(currentPage)
    {
      var data := store.GetMentors(fault);
      if data.Success? {
        mentors := data.value;
      }
      loading := false;
    }
  }

  lemma EmptyQueryKeepsAll(mentors: seq<Counted<MentorWithMentees>>, query: string)
    ensures query == "" ==> Filter(mentors, MentorMatches(query)) == mentors
  {
    if query == "" {
      forall m | m in mentors ensures MentorMatches(query)(m) {
        EmptyQueryMatchesAll(m.entry.mentor.name, m.entry.mentor.email, SubcountyName(m.entry.mentor.subcounty));
      }
      FilterKeepsAll(mentors, MentorMatches(query));
    }
  }
}
