/**
 * The mentee list: loaded mentees, a search query and a current page held as state;
 * the filtered list, the page count and the visible page derived from them.
 */
module MenteeListPage {
  import opened Wrappers
  import opened Schema
  import opened Sequences
  import opened Listing
  import opened Api

  /** The search predicate over a mentee's name, email and subcounty. */
  function MenteeMatches(query: string): MenteeWithMentor -> bool {
    (m: MenteeWithMentor) => MatchesQuery(m.mentee.name, m.mentee.email, SubcountyName(m.mentee.subcounty), query)
  }

  class MenteeList {
    var mentees: seq<MenteeWithMentor>
    var loading: bool
    var searchQuery: string
    var currentPage: int

    constructor ()
      ensures mentees == [] && loading && searchQuery == "" && currentPage == 1
    {
      mentees, loading, searchQuery, currentPage := [], true, "", 1;
    }

    /**
     * `filteredMentees`: a mentee is listed exactly when the query matches it; the
     * list keeps the loaded order, and an empty query lists everyone.
     */
    function FilteredMentees(): (r: seq<MenteeWithMentor>)
      reads this
      ensures forall m :: m in r <==> m in mentees && MenteeMatches(searchQuery)(m)
      ensures IsSubsequence(r, mentees)
      ensures searchQuery == "" ==> r == mentees
      ensures |r| == Count(mentees, MenteeMatches(searchQuery))
    {
      FilterLengthIsCount(mentees, MenteeMatches(searchQuery));
      FilterMembershipAll(mentees, MenteeMatches(searchQuery));
      FilterIsSubsequence(mentees, MenteeMatches(searchQuery));
      EmptyQueryKeepsAll(mentees, searchQuery);
      Filter(mentees, MenteeMatches(searchQuery))
    }

    /** `totalPages` */
    function TotalPages(): (r: nat)
      reads this
      ensures r * ItemsPerPage >= |FilteredMentees()|
      ensures r > 0 ==> (r - 1) * ItemsPerPage < |FilteredMentees()|
      ensures r == 0 <==> |FilteredMentees()| == 0
    {
      TotalPagesZeroIffEmpty(|FilteredMentees()|);
      Listing.TotalPages(|FilteredMentees()|)
    }

    /**
     * `paginatedMentees`: from page 1 on, the run of at most ten filtered mentees
     * starting at (currentPage - 1) * 10; a page past the last is empty.
     */
    function PaginatedMentees(): (r: seq<MenteeWithMentor>)
      reads this
      ensures currentPage >= 1 ==> |r| <= ItemsPerPage
      ensures currentPage >= 1 ==>
        r == FilteredMentees()[Min((currentPage - 1) * ItemsPerPage, |FilteredMentees()|)..Min(currentPage * ItemsPerPage, |FilteredMentees()|)]
      ensures 1 <= currentPage <= TotalPages() ==> |r| > 0
      ensures currentPage > TotalPages() ==> r == []
    {
      var xs := FilteredMentees();
      if currentPage < 1 then
        Page(xs, currentPage)
      else
        PageShape(xs, currentPage);
        Page(xs, currentPage)
    }

    /**
     * The search input's `onChange`: only the query changes. The page is kept, so a
     * page beyond the new last page shows nothing.
     */
    method SetSearchQuery(query: string)
      modifies this
      ensures searchQuery == query
      ensures mentees == old(mentees) && loading == old(loading) && currentPage == old(currentPage)
      ensures currentPage > TotalPages() ==> PaginatedMentees() == []
    {
      searchQuery := query;
    }

    /** The pagination control's `onPageChange`. */
    method SetCurrentPage(page: int)
      modifies this
      ensures currentPage == page
      ensures mentees == old(mentees) && loading == old(loading) && searchQuery == old(searchQuery)
    {
      currentPage := page;
    }

    /**
     * `loadMentees`, run on mount and after a mentee is created: on success the list
     * becomes what `getMentees` returned, on failure it is kept; loading ends either way.
     */
    method LoadMentees(store: Store, fault: bool)
      modifies this
      ensures !loading
      ensures store.GetMentees(fault).Success? ==> mentees == store.GetMentees(fault).value
      ensures store.GetMentees(fault).Failure? ==> mentees == old(mentees)
      ensures searchQuery == old(searchQuery) && currentPage == old(currentPage)
    {
      var data := store.GetMentees(fault);
      if data.Success? {
        mentees := data.value;
      }
      loading := false;
    }
  }

  lemma EmptyQueryKeepsAll(mentees: seq<MenteeWithMentor>, query: string)
    ensures query == "" ==> Filter(mentees, MenteeMatches(query)) == mentees
  {
    if query == "" {
      forall m | m in mentees ensures MenteeMatches(query)(m) {
        EmptyQueryMatchesAll(m.mentee.name, m.mentee.email, SubcountyName(m.mentee.subcounty));
      }
      FilterKeepsAll(mentees, MenteeMatches(query));
    }
  }
}
