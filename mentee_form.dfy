/**
 * The form that creates a mentee: its field transitions, the effect that reloads
 * the subcounty's mentors, the mentor selector's visibility, the create payload and
 * the avatar's fallback initial.
 */
module MenteeFormModel {
  import opened Wrappers
  import opened Schema
  import opened Text
  import opened Api

  /** `formData`: every field is text, as the inputs hold it; "" is unset. */
  datatype MenteeFormData = MenteeFormData(
    name: string, email: string, subcounty: string, mentorId: string, idNumber: string, phoneNumber: string)

  const EmptyForm := MenteeFormData("", "", "", "", "", "")

  /** The fields edited directly; the subcounty has a transition of its own. */
  datatype FormField = NameField | EmailField | MentorField | IdNumberField | PhoneNumberField

  function FieldValue(f: MenteeFormData, field: FormField): string {
    match field
    case NameField => f.name
    case EmailField => f.email
    case MentorField => f.mentorId
    case IdNumberField => f.idNumber
    case PhoneNumberField => f.phoneNumber
  }

  /** `setFormData((prev) => ({ ...prev, [field]: value }))` */
  function WithField(f: MenteeFormData, field: FormField, value: string): (g: MenteeFormData)
    ensures FieldValue(g, field) == value
    ensures forall other :: other != field ==> FieldValue(g, other) == FieldValue(f, other)
    ensures g.subcounty == f.subcounty
  {
    match field
    case NameField => f.(name := value)
    case EmailField => f.(email := value)
    case MentorField => f.(mentorId := value)
    case IdNumberField => f.(idNumber := value)
    case PhoneNumberField => f.(phoneNumber := value)
  }

  /**
   * The payload of `createMentee`: name, email, subcounty and `mentor_id` as typed ("" when
   * no mentor was chosen); no id number, phone number or cohort. A subcounty that is not
   * one of the six is refused by the store, so there is no payload for it.
   */
  function CreatePayload(f: MenteeFormData): (r: Option<MenteeInsert>)
    ensures r.Some? <==> ParseSubcounty(f.subcounty).Some?
    ensures r.Some? ==> && r.value.name == f.name && r.value.email == f.email
                        && SubcountyName(r.value.subcounty) == f.subcounty
                        && r.value.mentorId == Some(f.mentorId)
                        && r.value.cohortId.None? && r.value.id.None? && r.value.createdAt.None?
  {
    match ParseSubcounty(f.subcounty)
    case None => None
    case Some(s) => Some(MenteeInsert(None, None, f.email, None, f.name, s, Some(f.mentorId)))
  }

  /** The created row never carries what was typed as id number or phone number. */
  lemma PayloadDropsIdAndPhone(f: MenteeFormData, generatedId: Id, now: Timestamp)
    requires CreatePayload(f).Some?
    ensures NewMentee(CreatePayload(f).value, generatedId, now).idNumber.None?
    ensures NewMentee(CreatePayload(f).value, generatedId, now).phoneNumber.None?
    ensures NewMentee(CreatePayload(f).value, generatedId, now).id == generatedId
    ensures NewMentee(CreatePayload(f).value, generatedId, now).createdAt == now
  {
  }

  /** `formData.name ? formData.name[0].toUpperCase() : "?"` */
  function AvatarInitial(name: string): (r: string)
    ensures |r| == 1 && !IsLowerAscii(r[0])
    ensures name == "" ==> r == "?"
    ensures name != "" ==> LowerChar(r[0]) == LowerChar(name[0])
  {
    if name == "" then "?" else [UpperChar(name[0])]
  }

  /** The initial is the same whatever the case of the name. */
  lemma AvatarInitialIgnoresCase(name: string)
    ensures AvatarInitial(Upper(name)) == AvatarInitial(name)
  {
  }

  class MenteeForm {
    var loading: bool
    var mentors: seq<Counted<MentorWithCohorts>>
    var profilePicture: Option<string>
    var previewUrl: Option<string>
    var formData: MenteeFormData

    constructor ()
      ensures !loading && mentors == [] && profilePicture.None? && previewUrl.None? && formData == EmptyForm
    {
      loading, mentors := false, [];
      profilePicture, previewUrl, formData := None, None, EmptyForm;
    }

    /** The mentor select is rendered exactly when a subcounty is chosen and it has mentors. */
    predicate MentorSelectorShown()
      reads this
    {
      formData.subcounty != "" && |mentors| > 0
    }

    /**
     * The subcounty select's `onValueChange`: it sets the subcounty and clears the chosen
     * mentor; the other fields and the list of mentors are left for the effect.
     */
    method ChangeSubcounty(value: string)
      modifies this
      ensures formData == old(formData).(subcounty := value, mentorId := "")
      ensures mentors == old(mentors) && loading == old(loading)
      ensures profilePicture == old(profilePicture) && previewUrl == old(previewUrl)
    {
      formData := formData.(subcounty := value, mentorId := "");
    }

    /** An input's `onChange`. */
    method EditField(field: FormField, value: string)
      modifies this
      ensures formData == WithField(old(formData), field, value)
      ensures mentors == old(mentors) && loading == old(loading)
      ensures profilePicture == old(profilePicture) && previewUrl == old(previewUrl)
    {
      formData := WithField(formData, field, value);
    }

    /** `handleFileChange`: a picked file and its preview URL; no file changes nothing. */
    method ChooseFile(file: Option<string>, objectUrl: string)
      modifies this
      ensures file.Some? ==> profilePicture == file && previewUrl == Some(objectUrl)
      ensures file.None? ==> profilePicture == old(profilePicture) && previewUrl == old(previewUrl)
      ensures formData == old(formData) && mentors == old(mentors) && loading == old(loading)
    {
      if file.Some? {
        profilePicture := file;
        previewUrl := Some(objectUrl);
      }
    }

    /**
     * The effect on `formData.subcounty`: with a subcounty, the mentors `getMentorsBySubcounty`
     * returns for it, kept as they were if the request fails or the text names no
     * subcounty; without one, no mentors.
     * `fetched` is the joined select the request runs.
     */
    method SubcountyEffect(fetched: Result<seq<MentorWithCohorts>, ApiError>)
      modifies this
      ensures formData.subcounty == "" ==> mentors == [] && !MentorSelectorShown()
      ensures formData.subcounty != "" && fetched.Success? && MentorsBySubcounty(fetched.value, formData.subcounty).Success? ==>
        mentors == MentorsBySubcounty(fetched.value, formData.subcounty).value
      ensures formData.subcounty != "" && (fetched.Failure? || MentorsBySubcounty(fetched.value, formData.subcounty).Failure?) ==>
        mentors == old(mentors)
      ensures mentors != old(mentors) ==> forall m :: m in mentors ==> SubcountyName(m.entry.mentor.subcounty) == formData.subcounty
      ensures formData == old(formData) && loading == old(loading)
      ensures profilePicture == old(profilePicture) && previewUrl == old(previewUrl)
    {
      if formData.subcounty != "" {
        if fetched.Success? {
          var result := MentorsBySubcounty(fetched.value, formData.subcounty);
          if result.Success? {
            mentors := result.value;
          }
        }
      } else {
        mentors := [];
      }
    }

    /**
     * `handleSubmit`: create the mentee from the payload; `onSuccess` is called exactly
     * when the store accepted it; `loading` is cleared whatever the outcome. The form is
     * not reset.
     */
    method HandleSubmit(store: Store, generatedId: Id, now: Timestamp, fault: bool)
      returns (onSuccessCalled: bool, ghost loadingDuringRequest: bool)
      requires store.Valid()
      modifies this, store
      ensures store.Valid()
      ensures loadingDuringRequest && !loading
      ensures formData == old(formData) && mentors == old(mentors)
      ensures profilePicture == old(profilePicture) && previewUrl == old(previewUrl)
      ensures onSuccessCalled <==>
        && CreatePayload(formData).Some? && !fault
        && !old(HasKey(store.mentees, MenteeKey, NewMentee(CreatePayload(formData).value, generatedId, now).id))
      ensures onSuccessCalled ==> store.mentees == old(store.mentees) + [NewMentee(CreatePayload(formData).value, generatedId, now)]
      ensures !onSuccessCalled ==> store.mentees == old(store.mentees)
      ensures store.mentors == old(store.mentors) && store.cohorts == old(store.cohorts)
      ensures store.cohortMentors == old(store.cohortMentors)
    {
      loading := true;
      loadingDuringRequest := loading;
      var payload := CreatePayload(formData);
      if payload.Some? {
        var r := store.CreateMentee(payload.value, generatedId, now, fault);
        onSuccessCalled := r.Success?;
      } else {
        onSuccessCalled := false;
      }
      loading := false;
    }
  }
}
