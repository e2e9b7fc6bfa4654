/**
 * The cohorts page: the fetched cohort list, the status badge colour, the count and
 * subcounty cells, and the create dialog.
 */
module CohortsPage {
  import opened Wrappers
  import opened Schema
  import opened Text
  import opened Api

  /**
   * A row of `getCohorts`, as the page reads it: the cohort's status and subcounty as
   * text, the nested mentors and mentees (absent when the join gives none) and the
   * `mentor_count`/`mentee_count` fields the page falls back to, which the select does
   * not produce.
   */
  datatype CohortListing = CohortListing(
    id: Id, name: string, status: string, subcounty: Option<string>,
    mentors: Option<seq<MentorRow>>, mentees: Option<seq<MenteeRow>>,
    mentorCount: Option<int>, menteeCount: Option<int>)

  const Green := "bg-green-100 text-green-800"
  const Blue := "bg-blue-100 text-blue-800"
  const Yellow := "bg-yellow-100 text-yellow-800"
  const Gray := "bg-gray-100 text-gray-800"

  /** `getStatusColor`: a `switch` on the status text with a default. */
  function StatusColor(status: string): string {
    if status == "active" then Green
    else if status == "completed" then Blue
    else if status == "pending" then Yellow
    else Gray
  }

  /** Each status of the enumeration has its own colour; everything else is gray. */
  lemma StatusColors()
    ensures StatusColor(StatusName(Active)) == Green
    ensures StatusColor(StatusName(Completed)) == Blue
    ensures StatusColor(StatusName(Pending)) == Yellow
  {
  }

  /** The badge is gray exactly when the text is not one of the three statuses. */
  lemma GrayIffUnknownStatus(status: string)
    ensures StatusColor(status) == Gray <==> ParseStatus(status).None?
  {
    if ParseStatus(status).Some? {
      StatusNameRoundTrip(ParseStatus(status).value);
    }
  }

  /** Distinct statuses get distinct colours. */
  lemma StatusColorInjective(s: CohortStatus, t: CohortStatus)
    ensures StatusColor(StatusName(s)) == StatusColor(StatusName(t)) ==> s == t
  {
  }

  /**
   * `cohort.mentors?.length || cohort.mentor_count || 0` (and the same for mentees):
   * the nested list's length unless it is absent or empty, then the fallback unless it
   * is absent or 0, then 0.
   */
  function CountDisplay<T>(nested: Option<seq<T>>, fallback: Option<int>): (r: int)
    ensures LengthOrZero(nested) > 0 ==> r == LengthOrZero(nested)
    ensures LengthOrZero(nested) == 0 && fallback.Some? ==> r == fallback.value
    ensures r == 0 <==> LengthOrZero(nested) == 0 && (fallback.None? || fallback.value == 0)
    ensures (fallback.None? || fallback.value >= 0) ==> r >= 0
  {
    if nested.Some? && |nested.value| != 0 then |nested.value|
    else if fallback.Some? && fallback.value != 0 then fallback.value
    else 0
  }

  function MentorCountCell(c: CohortListing): int { CountDisplay(c.mentors, c.mentorCount) }

  function MenteeCountCell(c: CohortListing): int { CountDisplay(c.mentees, c.menteeCount) }

  /**
   * `cohort.subcounty ? capitalised : "Not specified"`: a missing or empty subcounty
   * reads "Not specified"; any other is shown with its first letter upper-cased.
   */
  function SubcountyDisplay(subcounty: Option<string>): (r: string)
    ensures !Truthy(subcounty) ==> r == "Not specified"
    ensures Truthy(subcounty) ==> |r| == |subcounty.value| && r[0] == UpperChar(subcounty.value[0])
                                  && r[1..] == subcounty.value[1..]
  {
    if Truthy(subcounty) then Capitalize(subcounty.value) else "Not specified"
  }

  /** Every real subcounty is shown by its capitalised name, never as "Not specified". */
  lemma KnownSubcountyIsNamed(s: Subcounty)
    ensures SubcountyDisplay(Some(SubcountyName(s))) == Capitalize(SubcountyName(s))
    ensures SubcountyDisplay(Some(SubcountyName(s))) != "Not specified"
  {
    assert |SubcountyName(s)| < |"Not specified"| by {
      match s
      case Likoni =>
      case Mvita =>
      case Kisauni =>
      case Nyali =>
      case Changamwe =>
      case Jomvu =>
    }
  }

  class Cohorts {
    var cohorts: seq<CohortListing>
    var loading: bool
    var dialogOpen: bool

    constructor ()
      ensures cohorts == [] && loading && !dialogOpen
    {
      cohorts, loading, dialogOpen := [], true, false;
    }

    /**
     * `fetchCohorts`: on success the list is what `getCohorts` returned; on failure it is
     * kept (and a toast is shown); `loading` ends false either way.
     */
    method FetchCohorts(fetched: Result<seq<CohortListing>, ApiError>)
      modifies this
      ensures !loading && dialogOpen == old(dialogOpen)
      ensures fetched.Success? ==> cohorts == fetched.value
      ensures fetched.Failure? ==> cohorts == old(cohorts)
    {
      if fetched.Success? {
        cohorts := fetched.value;
      }
      loading := false;
    }

    /** `handleCohortCreated`: close the dialog, then fetch the list again. */
    method HandleCohortCreated(fetched: Result<seq<CohortListing>, ApiError>)
      modifies this
      ensures !dialogOpen && !loading
      ensures fetched.Success? ==> cohorts == fetched.value
      ensures fetched.Failure? ==> cohorts == old(cohorts)
    {
      dialogOpen := false;
      FetchCohorts(fetched);
    }

    /** The dialog's `onOpenChange`. */
    method SetDialogOpen(open: bool)
      modifies this
      ensures dialogOpen == open && cohorts == old(cohorts) && loading == old(loading)
    {
      dialogOpen := open;
    }
  }
}
