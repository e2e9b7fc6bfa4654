/**
 * The profile page of one mentor or mentee, chosen by the route's `type` and `id`:
 * loading the user with their mentees (a mentor) or their mentor (a mentee), the
 * edit form, saving and cancelling.
 */
module UserProfilePage {
  import opened Wrappers
  import opened Schema
  import opened Sequences
  import opened Api

  /** The user the page shows: a mentor row or a mentee row. */
  datatype ProfileUser = MentorUser(mentor: MentorRow) | MenteeUser(mentee: MenteeRow)
  {
    function Id(): Id {
      match this
      case MentorUser(m) => m.id
      case MenteeUser(m) => m.id
    }

    function Name(): string {
      match this
      case MentorUser(m) => m.name
      case MenteeUser(m) => m.name
    }

    function Email(): string {
      match this
      case MentorUser(m) => m.email
      case MenteeUser(m) => m.email
    }

    function Subcounty(): Subcounty {
      match this
      case MentorUser(m) => m.subcounty
      case MenteeUser(m) => m.subcounty
    }

    function IdNumber(): Option<string> {
      match this
      case MentorUser(m) => m.idNumber
      case MenteeUser(m) => m.idNumber
    }

    function PhoneNumber(): Option<string> {
      match this
      case MentorUser(m) => m.phoneNumber
      case MenteeUser(m) => m.phoneNumber
    }

    /** A mentor has no `mentor_id`; a mentee's may be null. */
    function MentorId(): Option<Id> {
      match this
      case MentorUser(_) => None
      case MenteeUser(m) => m.mentorId
    }
  }

  /** `formData`: every field is text, as the inputs hold it. */
  datatype ProfileForm = ProfileForm(name: string, email: string, subcounty: string, idNumber: string, phoneNumber: string)

  const EmptyForm := ProfileForm("", "", "", "", "")

  /**
   * The form filled from a loaded user: name, email and subcounty copied, a null
   * `id_number` or `phone_number` shown as "".
   */
  function FormFor(u: ProfileUser): (f: ProfileForm)
    ensures f.name == u.Name() && f.email == u.Email()
    ensures ParseSubcounty(f.subcounty) == Some(u.Subcounty())
    ensures u.IdNumber().Some? ==> f.idNumber == u.IdNumber().value
    ensures u.IdNumber().None? ==> f.idNumber == ""
    ensures u.PhoneNumber().Some? ==> f.phoneNumber == u.PhoneNumber().value
    ensures u.PhoneNumber().None? ==> f.phoneNumber == ""
  {
    SubcountyNameRoundTrip(u.Subcounty());
    ProfileForm(u.Name(), u.Email(), SubcountyName(u.Subcounty()), u.IdNumber().GetOr(""), u.PhoneNumber().GetOr(""))
  }

  datatype FormField = NameField | EmailField | SubcountyField | IdNumberField | PhoneNumberField

  function FieldValue(f: ProfileForm, field: FormField): string {
    match field
    case NameField => f.name
    case EmailField => f.email
    case SubcountyField => f.subcounty
    case IdNumberField => f.idNumber
    case PhoneNumberField => f.phoneNumber
  }

  /** `setFormData((prev) => ({ ...prev, [field]: value }))`: that field is set, the others kept. */
  function WithField(f: ProfileForm, field: FormField, value: string): (g: ProfileForm)
    ensures FieldValue(g, field) == value
    ensures forall other :: other != field ==> FieldValue(g, other) == FieldValue(f, other)
  {
    match field
    case NameField => f.(name := value)
    case EmailField => f.(email := value)
    case SubcountyField => f.(subcounty := value)
    case IdNumberField => f.(idNumber := value)
    case PhoneNumberField => f.(phoneNumber := value)
  }

  /** `type === "mentor" ? getMentorById(id) : getMenteeById(id)` */
  function FetchUser(store: Store, kind: string, id: Id, fault: bool): (r: Result<ProfileUser, ApiError>)
    reads store
    ensures fault ==> r == Failure(StoreFault)
    ensures r.Success? ==> r.value.Id() == id && (r.value.MentorUser? <==> kind == "mentor")
    ensures !fault && kind == "mentor" ==> (r.Success? <==> HasKey(store.mentors, MentorKey, id))
    ensures !fault && kind != "mentor" ==> (r.Success? <==> HasKey(store.mentees, MenteeKey, id))
  {
    if kind == "mentor" then
      match store.GetMentorById(id, fault)
      case Success(m) => Success(MentorUser(m))
      case Failure(e) => Failure(e)
    else
      match store.GetMenteeById(id, fault)
      case Success(m) => Success(MenteeUser(m))
      case Failure(e) => Failure(e)
  }

  /** `mentee.mentor_id === id` */
  function MentorIdIs(id: Id): MenteeWithMentor -> bool {
    (m: MenteeWithMentor) => m.mentee.mentorId == Some(id)
  }

  /** A mentor's profile lists as many mentees as the mentor list counts for that mentor. */
  lemma ProfileAgreesWithMentorList(store: Store, i: nat)
    requires i < |store.mentors|
    ensures |Filter(store.GetMentees(false).value, MentorIdIs(store.mentors[i].id))|
            == store.GetMentors(false).value[i].menteeCount
  {
    var id := store.mentors[i].id;
    var rows := store.GetMentees(false).value;
    FilterLengthIsCount(rows, MentorIdIs(id));
    CountAlong(rows, MentorIdIs(id), store.mentees, IsMenteeOf(id));
  }

  /** The update `updateMentor(id, formData)` sends: every form field. */
  function MentorPatchFor(f: ProfileForm, s: Subcounty): MentorPatch {
    MentorPatch(None, Some(f.email), Some(f.name), Some(s), Some(f.idNumber), Some(f.phoneNumber))
  }

  /** The update `updateMentee(id, formData)` sends: every form field. */
  function MenteePatchFor(f: ProfileForm, s: Subcounty): MenteePatch {
    MenteePatch(None, None, Some(f.email), Some(f.name), Some(s), None, Some(f.idNumber), Some(f.phoneNumber))
  }

  /**
   * Saving the form as loaded leaves the row as it was, except that a null
   * `id_number` or `phone_number` is written back as "".
   */
  lemma SavingLoadedFormOnlyFillsBlanks(u: ProfileUser)
    ensures u.MentorUser? ==>
      PatchMentor(u.mentor, MentorPatchFor(FormFor(u), u.Subcounty()))
      == u.mentor.(idNumber := Some(u.mentor.idNumber.GetOr("")), phoneNumber := Some(u.mentor.phoneNumber.GetOr("")))
    ensures u.MenteeUser? ==>
      PatchMentee(u.mentee, MenteePatchFor(FormFor(u), u.Subcounty()))
      == u.mentee.(idNumber := Some(u.mentee.idNumber.GetOr("")), phoneNumber := Some(u.mentee.phoneNumber.GetOr("")))
  {
  }

  /** A picked file; the model never reads its contents. */
  type File = string

  class UserProfile {
    const kind: string
    const id: Id
    var user: Option<ProfileUser>
    var mentees: seq<MenteeWithMentor>
    var mentor: Option<MentorRow>
    var loading: bool
    var editing: bool
    var profilePicture: Option<File>
    var previewUrl: Option<string>
    var formData: ProfileForm

    constructor (kind: string, id: Id)
      ensures this.kind == kind && this.id == id
      ensures user.None? && mentees == [] && mentor.None? && loading && !editing
      ensures profilePicture.None? && previewUrl.None? && formData == EmptyForm
    {
      this.kind, this.id := kind, id;
      user, mentees, mentor := None, [], None;
      loading, editing := true, false;
      profilePicture, previewUrl, formData := None, None, EmptyForm;
    }

    /**
     * `loadData`: the user and the form first; then a mentor's mentees (those whose
     * `mentor_id` is this id, in order) or, for a mentee with a `mentor_id`, that
     * mentor. A failing request stops the rest and keeps what was already set;
     * `loading` ends false either way.
     */
    method LoadData(store: Store, userFault: bool, menteesFault: bool, mentorFault: bool)
      modifies this
      ensures !loading
      ensures editing == old(editing) && profilePicture == old(profilePicture) && previewUrl == old(previewUrl)
      ensures FetchUser(store, kind, id, userFault).Failure? ==>
        user == old(user) && formData == old(formData) && mentees == old(mentees) && mentor == old(mentor)
      ensures FetchUser(store, kind, id, userFault).Success? ==>
        user == Some(FetchUser(store, kind, id, userFault).value) && formData == FormFor(user.value)
      ensures mentees ==
        if kind == "mentor" && FetchUser(store, kind, id, userFault).Success? && store.GetMentees(menteesFault).Success?
        then Filter(store.GetMentees(menteesFault).value, MentorIdIs(id))
        else old(mentees)
      ensures kind == "mentor" && FetchUser(store, kind, id, userFault).Success? && store.GetMentees(menteesFault).Success? ==>
        forall m :: m in mentees <==> m in store.GetMentees(menteesFault).value && m.mentee.mentorId == Some(id)
      ensures mentor ==
        if && kind == "mentee" && FetchUser(store, kind, id, userFault).Success?
           && Truthy(FetchUser(store, kind, id, userFault).value.MentorId())
           && store.GetMentorById(FetchUser(store, kind, id, userFault).value.MentorId().value, mentorFault).Success?
        then Some(store.GetMentorById(FetchUser(store, kind, id, userFault).value.MentorId().value, mentorFault).value)
        else old(mentor)
    {
      var data := FetchUser(store, kind, id, userFault);
      if data.Success? {
        user := Some(data.value);
        formData := FormFor(data.value);
        if kind == "mentor" {
          var allMentees := store.GetMentees(menteesFault);
          if allMentees.Success? {
            FilterMembershipAll(allMentees.value, MentorIdIs(id));
            mentees := Filter(allMentees.value, MentorIdIs(id));
          }
        } else if kind == "mentee" && Truthy(data.value.MentorId()) {
          var mentorData := store.GetMentorById(data.value.MentorId().value, mentorFault);
          if mentorData.Success? {
            mentor := Some(mentorData.value);
          }
        }
      }
      loading := false;
    }

    /** "Edit Profile" */
    method StartEditing()
      modifies this
      ensures editing
      ensures user == old(user) && formData == old(formData)
      ensures profilePicture == old(profilePicture) && previewUrl == old(previewUrl)
      ensures mentees == old(mentees) && mentor == old(mentor) && loading == old(loading)
    {
      editing := true;
    }

    /** An input's `onChange`. */
    method EditField(field: FormField, value: string)
      modifies this
      ensures formData == WithField(old(formData), field, value)
      ensures user == old(user) && editing == old(editing)
      ensures profilePicture == old(profilePicture) && previewUrl == old(previewUrl)
      ensures mentees == old(mentees) && mentor == old(mentor) && loading == old(loading)
    {
      formData := WithField(formData, field, value);
    }

    /** `handleFileChange`: a picked file and its preview URL; no file changes nothing. */
    method ChooseFile(file: Option<File>, objectUrl: string)
      modifies this
      ensures file.Some? ==> profilePicture == file && previewUrl == Some(objectUrl)
      ensures file.None? ==> profilePicture == old(profilePicture) && previewUrl == old(previewUrl)
      ensures user == old(user) && editing == old(editing) && formData == old(formData)
      ensures mentees == old(mentees) && mentor == old(mentor) && loading == old(loading)
    {
      if file.Some? {
        profilePicture := file;
        previewUrl := Some(objectUrl);
      }
    }

    /** "Cancel": leave editing and drop the picture; the edited form and the user stay. */
    method Cancel()
      modifies this
      ensures !editing && profilePicture.None? && previewUrl.None?
      ensures user == old(user) && formData == old(formData)
      ensures mentees == old(mentees) && mentor == old(mentor) && loading == old(loading)
    {
      editing := false;
      profilePicture := None;
      previewUrl := None;
    }

    /**
     * `handleSubmit`: send the whole form as an update of this id. On success the page
     * shows the row the store now holds and leaves editing without a picture; on failure,
     * including a subcounty the store refuses, nothing changes.
     */
    method HandleSubmit(store: Store, fault: bool) returns (saved: bool)
      requires store.Valid()
      modifies this, store
      ensures store.Valid()
      ensures saved <==> && ParseSubcounty(formData.subcounty).Some? && !fault
                         && (if kind == "mentor" then old(HasKey(store.mentors, MentorKey, id))
                             else old(HasKey(store.mentees, MenteeKey, id)))
      ensures formData == old(formData) && mentees == old(mentees) && mentor == old(mentor) && loading == old(loading)
      ensures saved ==> !editing && profilePicture.None? && previewUrl.None?
      ensures saved ==> FetchUser(store, kind, id, false).Success? && user == Some(FetchUser(store, kind, id, false).value)
      ensures saved && kind == "mentor" ==>
        store.mentors == PatchMentors(old(store.mentors), id, MentorPatchFor(formData, ParseSubcounty(formData.subcounty).value))
      ensures saved && kind != "mentor" ==>
        store.mentees == PatchMentees(old(store.mentees), id, MenteePatchFor(formData, ParseSubcounty(formData.subcounty).value))
      ensures !saved ==> user == old(user) && editing == old(editing)
      ensures !saved ==> profilePicture == old(profilePicture) && previewUrl == old(previewUrl)
      ensures kind == "mentor" || !saved ==> store.mentees == old(store.mentees)
      ensures kind != "mentor" || !saved ==> store.mentors == old(store.mentors)
      ensures store.cohorts == old(store.cohorts) && store.cohortMentors == old(store.cohortMentors)
    {
      var subcounty := ParseSubcounty(formData.subcounty);
      if subcounty.None? {
        return false;
      }
      var updated: Result<ProfileUser, ApiError>;
      if kind == "mentor" {
        var r := store.UpdateMentor(id, MentorPatchFor(formData, subcounty.value), fault);
        updated := if r.Success? then Success(MentorUser(r.value)) else Failure(r.error);
      } else {
        var r := store.UpdateMentee(id, MenteePatchFor(formData, subcounty.value), fault);
        updated := if r.Success? then Success(MenteeUser(r.value)) else Failure(r.error);
      }
      if updated.Failure? {
        return false;
      }
      user := Some(updated.value);
      editing := false;
      profilePicture := None;
      previewUrl := None;
      saved := true;
    }
  }
}
