/**
 * The database schema of the mentorship console: the two enumerations and the Row,
 * Insert and Update shapes of the tables `cohort_mentors`, `cohorts`, `mentees` and
 * `mentors`. An Update shape is a patch: every column is optional and an absent
 * column is left as it was.
 */
module Schema {
  import opened Wrappers

  /** Row identities (uuids) and timestamps are strings on the wire. */
  type Id = string
  type Timestamp = string

  // ---------------------------------------------------------------- enumerations

  /** `mombasa_subcounty` */
  datatype Subcounty = Likoni | Mvita | Kisauni | Nyali | Changamwe | Jomvu

  /** `cohort_status` */
  datatype CohortStatus = Active | Completed | Pending

  function SubcountyName(s: Subcounty): string {
    match s
    case Likoni => "likoni"
    case Mvita => "mvita"
    case Kisauni => "kisauni"
    case Nyali => "nyali"
    case Changamwe => "changamwe"
    case Jomvu => "jomvu"
  }

  /** The six subcounties in the order every screen lists them. */
  const AllSubcounties: seq<Subcounty> := [Likoni, Mvita, Kisauni, Nyali, Changamwe, Jomvu]

  /** Reading an enumeration value off the wire: only the six names are accepted. */
  function ParseSubcounty(t: string): (r: Option<Subcounty>)
    ensures r.Some? ==> SubcountyName(r.value) == t
    ensures r.None? ==> forall s: Subcounty :: SubcountyName(s) != t
  {
    if t == "likoni" then Some(Likoni)
    else if t == "mvita" then Some(Mvita)
    else if t == "kisauni" then Some(Kisauni)
    else if t == "nyali" then Some(Nyali)
    else if t == "changamwe" then Some(Changamwe)
    else if t == "jomvu" then Some(Jomvu)
    else None
  }

  lemma SubcountyNameRoundTrip(s: Subcounty)
    ensures ParseSubcounty(SubcountyName(s)) == Some(s)
  {
  }

  /** Each subcounty is listed exactly once, and the listing has six entries. */
  lemma AllSubcountiesListsEachOnce()
    ensures |AllSubcounties| == 6
    ensures forall s: Subcounty :: s in AllSubcounties
    ensures forall i, j :: 0 <= i < j < |AllSubcounties| ==> AllSubcounties[i] != AllSubcounties[j]
  {
    forall s: Subcounty ensures s in AllSubcounties {
      match s
      case Likoni => assert AllSubcounties[0] == s;
      case Mvita => assert AllSubcounties[1] == s;
      case Kisauni => assert AllSubcounties[2] == s;
      case Nyali => assert AllSubcounties[3] == s;
      case Changamwe => assert AllSubcounties[4] == s;
      case Jomvu => assert AllSubcounties[5] == s;
    }
  }

  /** Distinct subcounties have distinct names. */
  lemma SubcountyNameInjective(s: Subcounty, t: Subcounty)
    ensures SubcountyName(s) == SubcountyName(t) ==> s == t
  {
    SubcountyNameRoundTrip(s);
    SubcountyNameRoundTrip(t);
  }

  function StatusName(s: CohortStatus): string {
    match s
    case Active => "active"
    case Completed => "completed"
    case Pending => "pending"
  }

  function ParseStatus(t: string): (r: Option<CohortStatus>)
    ensures r.Some? ==> StatusName(r.value) == t
    ensures r.None? ==> forall s: CohortStatus :: StatusName(s) != t
  {
    if t == "active" then Some(Active)
    else if t == "completed" then Some(Completed)
    else if t == "pending" then Some(Pending)
    else None
  }

  lemma StatusNameRoundTrip(s: CohortStatus)
    ensures ParseStatus(StatusName(s)) == Some(s)
  {
  }

  /** A nullable text column read as a condition, as JavaScript does: null and "" are false. */
  predicate Truthy(v: Option<string>) {
    v.Some? && v.value != ""
  }

  // ---------------------------------------------------------------- cohort_mentors

  /** The join between cohorts and mentors; it has no key of its own. */
  datatype CohortMentorRow = CohortMentorRow(cohortId: Id, createdAt: Timestamp, mentorId: Id)

  datatype CohortMentorInsert = CohortMentorInsert(cohortId: Id, createdAt: Option<Timestamp>, mentorId: Id)

  /** The declared Update shape; no operation of the console updates this table. */
  datatype CohortMentorPatch = CohortMentorPatch(cohortId: Option<Id>, createdAt: Option<Timestamp>, mentorId: Option<Id>)

  // ---------------------------------------------------------------- cohorts

  datatype CohortRow = CohortRow(
    createdAt: Timestamp, id: Id, name: string,
    status: CohortStatus, subcounty: Subcounty, updatedAt: Timestamp)

  /** Only the name and the subcounty must be given; the store supplies the rest. */
  datatype CohortInsert = CohortInsert(
    createdAt: Option<Timestamp>, id: Option<Id>, name: string,
    status: Option<CohortStatus>, subcounty: Subcounty, updatedAt: Option<Timestamp>)

  /** The declared Update shape; no operation of the console updates this table. */
  datatype CohortPatch = CohortPatch(
    createdAt: Option<Timestamp>, name: Option<string>, status: Option<CohortStatus>,
    subcounty: Option<Subcounty>, updatedAt: Option<Timestamp>)

  // ---------------------------------------------------------------- mentees

  /**
   * `cohort_id` is nullable. `mentor_id`, `id_number` and `phone_number` are columns the
   * screens read and write although the generated types do not list them.
   */
  datatype MenteeRow = MenteeRow(
    cohortId: Option<Id>, createdAt: Timestamp, email: string, id: Id, name: string,
    subcounty: Subcounty, mentorId: Option<Id>, idNumber: Option<string>, phoneNumber: Option<string>)

  datatype MenteeInsert = MenteeInsert(
    cohortId: Option<Id>, createdAt: Option<Timestamp>, email: string, id: Option<Id>, name: string,
    subcounty: Subcounty, mentorId: Option<Id>)

  /** `cohortId` is a patch of a nullable column: absent, or set to null or to an id. */
  datatype MenteePatch = MenteePatch(
    cohortId: Option<Option<Id>>, createdAt: Option<Timestamp>, email: Option<string>,
    name: Option<string>, subcounty: Option<Subcounty>, mentorId: Option<Option<Id>>,
    idNumber: Option<string>, phoneNumber: Option<string>)

  const EmptyMenteePatch := MenteePatch(None, None, None, None, None, None, None, None)

  function PatchMentee(r: MenteeRow, p: MenteePatch): (q: MenteeRow)
    ensures q.id == r.id
    ensures p.cohortId.None? ==> q.cohortId == r.cohortId
    ensures p.cohortId.Some? ==> q.cohortId == p.cohortId.value
    ensures q.createdAt == p.createdAt.GetOr(r.createdAt)
    ensures q.email == p.email.GetOr(r.email)
    ensures q.name == p.name.GetOr(r.name)
    ensures q.subcounty == p.subcounty.GetOr(r.subcounty)
    ensures p.mentorId.None? ==> q.mentorId == r.mentorId
    ensures p.mentorId.Some? ==> q.mentorId == p.mentorId.value
    ensures p.idNumber.None? ==> q.idNumber == r.idNumber
    ensures p.idNumber.Some? ==> q.idNumber == p.idNumber
    ensures p.phoneNumber.None? ==> q.phoneNumber == r.phoneNumber
    ensures p.phoneNumber.Some? ==> q.phoneNumber == p.phoneNumber
  {
    MenteeRow(
      p.cohortId.GetOr(r.cohortId), p.createdAt.GetOr(r.createdAt), p.email.GetOr(r.email), r.id,
      p.name.GetOr(r.name), p.subcounty.GetOr(r.subcounty), p.mentorId.GetOr(r.mentorId),
      if p.idNumber.Some? then p.idNumber else r.idNumber,
      if p.phoneNumber.Some? then p.phoneNumber else r.phoneNumber)
  }

  function Later<T>(first: Option<T>, second: Option<T>): Option<T> {
    if second.Some? then second else first
  }

  /** Two patches sent one after the other, as one patch: the later value of a column wins. */
  function MergeMenteePatches(p: MenteePatch, q: MenteePatch): MenteePatch {
    MenteePatch(
      Later(p.cohortId, q.cohortId), Later(p.createdAt, q.createdAt), Later(p.email, q.email),
      Later(p.name, q.name), Later(p.subcounty, q.subcounty), Later(p.mentorId, q.mentorId),
      Later(p.idNumber, q.idNumber), Later(p.phoneNumber, q.phoneNumber))
  }

  lemma EmptyMenteePatchChangesNothing(r: MenteeRow)
    ensures PatchMentee(r, EmptyMenteePatch) == r
  {
  }

  lemma MenteePatchesCompose(r: MenteeRow, p: MenteePatch, q: MenteePatch)
    ensures PatchMentee(PatchMentee(r, p), q) == PatchMentee(r, MergeMenteePatches(p, q))
  {
  }

  lemma MenteePatchIdempotent(r: MenteeRow, p: MenteePatch)
    ensures PatchMentee(PatchMentee(r, p), p) == PatchMentee(r, p)
  {
  }

  // ---------------------------------------------------------------- mentors

  /** `id_number` and `phone_number` are columns the profile screen reads and writes. */
  datatype MentorRow = MentorRow(
    createdAt: Timestamp, email: string, id: Id, name: string, subcounty: Subcounty,
    idNumber: Option<string>, phoneNumber: Option<string>)

  datatype MentorInsert = MentorInsert(
    createdAt: Option<Timestamp>, email: string, id: Option<Id>, name: string, subcounty: Subcounty)

  datatype MentorPatch = MentorPatch(
    createdAt: Option<Timestamp>, email: Option<string>, name: Option<string>,
    subcounty: Option<Subcounty>, idNumber: Option<string>, phoneNumber: Option<string>)

  const EmptyMentorPatch := MentorPatch(None, None, None, None, None, None)

  function PatchMentor(r: MentorRow, p: MentorPatch): (q: MentorRow)
    ensures q.id == r.id
    ensures q.createdAt == p.createdAt.GetOr(r.createdAt)
    ensures q.email == p.email.GetOr(r.email)
    ensures q.name == p.name.GetOr(r.name)
    ensures q.subcounty == p.subcounty.GetOr(r.subcounty)
    ensures p.idNumber.None? ==> q.idNumber == r.idNumber
    ensures p.idNumber.Some? ==> q.idNumber == p.idNumber
    ensures p.phoneNumber.None? ==> q.phoneNumber == r.phoneNumber
    ensures p.phoneNumber.Some? ==> q.phoneNumber == p.phoneNumber
  {
    MentorRow(
      p.createdAt.GetOr(r.createdAt), p.email.GetOr(r.email), r.id, p.name.GetOr(r.name),
      p.subcounty.GetOr(r.subcounty),
      if p.idNumber.Some? then p.idNumber else r.idNumber,
      if p.phoneNumber.Some? then p.phoneNumber else r.phoneNumber)
  }

  function MergeMentorPatches(p: MentorPatch, q: MentorPatch): MentorPatch {
    MentorPatch(
      Later(p.createdAt, q.createdAt), Later(p.email, q.email), Later(p.name, q.name),
      Later(p.subcounty, q.subcounty), Later(p.idNumber, q.idNumber), Later(p.phoneNumber, q.phoneNumber))
  }

  lemma EmptyMentorPatchChangesNothing(r: MentorRow)
    ensures PatchMentor(r, EmptyMentorPatch) == r
  {
  }

  lemma MentorPatchesCompose(r: MentorRow, p: MentorPatch, q: MentorPatch)
    ensures PatchMentor(PatchMentor(r, p), q) == PatchMentor(r, MergeMentorPatches(p, q))
  {
  }

  lemma MentorPatchIdempotent(r: MentorRow, p: MentorPatch)
    ensures PatchMentor(PatchMentor(r, p), p) == PatchMentor(r, p)
  {
  }
}
