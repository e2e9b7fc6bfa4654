/**
 * The form that puts a mentee into a cohort: it offers the mentees that are in no
 * cohort yet and, on submit, patches the chosen mentee's `cohort_id`.
 */
module AssignMenteeFormModel {
  import opened Wrappers
  import opened Schema
  import opened Sequences
  import opened Api

  /** `!mentee.cohort_id`: no cohort, or an empty id. */
  predicate Unassigned(m: MenteeWithMentor) {
    !Truthy(m.mentee.cohortId)
  }

  function IsUnassigned(): MenteeWithMentor -> bool {
    (m: MenteeWithMentor) => Unassigned(m)
  }

  /**
   * `data.filter((mentee) => !mentee.cohort_id)`: exactly the loaded mentees in no
   * cohort, in the loaded order.
   */
  function Candidates(data: seq<MenteeWithMentor>): (r: seq<MenteeWithMentor>)
    ensures forall m :: m in r <==> m in data && Unassigned(m)
    ensures forall m :: m in r ==> m.mentee.cohortId.None? || m.mentee.cohortId == Some("")
    ensures IsSubsequence(r, data)
    ensures |r| == Count(data, IsUnassigned())
  {
    FilterLengthIsCount(data, IsUnassigned());
    FilterMembershipAll(data, IsUnassigned());
    FilterIsSubsequence(data, IsUnassigned());
    Filter(data, IsUnassigned())
  }

  /** `{ cohort_id: cohortId }` */
  function AssignPatch(cohortId: Id): MenteePatch {
    EmptyMenteePatch.(cohortId := Some(Some(cohortId)))
  }

  /** The patch sets the cohort and leaves every other column as it was. */
  lemma AssignPatchSetsOnlyCohort(r: MenteeRow, cohortId: Id)
    ensures PatchMentee(r, AssignPatch(cohortId)) == r.(cohortId := Some(cohortId))
  {
  }

  /**
   * Assigning patches the row with the chosen id, and no other; once assigned to a
   * cohort with a non-empty id, the mentee is no longer a candidate.
   */
  lemma AssignTouchesOnlyChosen(rows: seq<MenteeRow>, chosen: Id, cohortId: Id, i: nat)
    requires i < |rows|
    ensures rows[i].id != chosen ==> PatchMentees(rows, chosen, AssignPatch(cohortId))[i] == rows[i]
    ensures rows[i].id == chosen ==> PatchMentees(rows, chosen, AssignPatch(cohortId))[i] == rows[i].(cohortId := Some(cohortId))
    ensures rows[i].id == chosen && cohortId != "" ==>
      !Unassigned(MenteeWithMentor(PatchMentees(rows, chosen, AssignPatch(cohortId))[i], None))
  {
    AssignPatchSetsOnlyCohort(rows[i], cohortId);
  }

  class AssignMenteeForm {
    const cohortId: Id
    var mentees: seq<MenteeWithMentor>
    var selectedMentee: Id
    var loading: bool

    constructor (cohortId: Id)
      ensures this.cohortId == cohortId
      ensures mentees == [] && selectedMentee == "" && !loading
    {
      this.cohortId := cohortId;
      mentees, selectedMentee, loading := [], "", false;
    }

    /** `loadMentees`: on success the candidates of the loaded mentees; on failure nothing changes. */
    method LoadMentees(store: Store, fault: bool)
      modifies this
      ensures store.GetMentees(fault).Success? ==> mentees == Candidates(store.GetMentees(fault).value)
      ensures store.GetMentees(fault).Failure? ==> mentees == old(mentees)
      ensures selectedMentee == old(selectedMentee) && loading == old(loading)
    {
      var data := store.GetMentees(fault);
      if data.Success? {
        mentees := Candidates(data.value);
      }
    }

    /** The select's `onValueChange`. */
    method SelectMentee(id: Id)
      modifies this
      ensures selectedMentee == id
      ensures mentees == old(mentees) && loading == old(loading)
    {
      selectedMentee := id;
    }

    /**
     * `handleSubmit`: with `loading` set, patch only the selected mentee's `cohort_id`;
     * `onSuccess` is called exactly when the update succeeded; `loading` is cleared
     * whatever the outcome.
     */
    method HandleSubmit(store: Store, fault: bool) returns (onSuccessCalled: bool, ghost loadingDuringRequest: bool)
      requires store.Valid()
      modifies this, store
      ensures store.Valid()
      ensures loadingDuringRequest && !loading
      ensures mentees == old(mentees) && selectedMentee == old(selectedMentee)
      ensures onSuccessCalled <==>
        !fault && old(HasKey(store.mentees, MenteeKey, selectedMentee)) && old(HasKey(store.cohorts, CohortKey, cohortId))
      ensures onSuccessCalled ==> store.mentees == PatchMentees(old(store.mentees), selectedMentee, AssignPatch(cohortId))
      ensures !onSuccessCalled ==> store.mentees == old(store.mentees)
      ensures store.mentors == old(store.mentors) && store.cohorts == old(store.cohorts)
      ensures store.cohortMentors == old(store.cohortMentors)
    {
      loading := true;
      loadingDuringRequest := loading;
      var r := store.UpdateMentee(selectedMentee, AssignPatch(cohortId), fault);
      onSuccessCalled := r.Success?;
      loading := false;
    }
  }
}
