/**
 * The data-access layer: an in-memory stand-in for the hosted store, with the reads,
 * patches, inserts and the cohort-mentor assignment of `api`, each reporting the
 * store's error as a `Failure` (the call throws and returns no data); and the two
 * `menteeCount` derivations of `getMentors` and `getMentorsBySubcounty`, written over
 * the nested rows those joined selects return.
 */
module Api {
  import opened Wrappers
  import opened Schema
  import opened Sequences

  /**
   * Why a request failed: the store reported a fault (network, permissions, ...);
   * `.single()` found no row; a primary key was already taken; a declared foreign key
   * points at no row; an enumeration value was not one of the listed names.
   */
  datatype ApiError = StoreFault | NoRow | DuplicateKey | ForeignKeyViolation | InvalidValue

  // ---------------------------------------------------------------- keyed tables

  function MentorKey(r: MentorRow): Id { r.id }
  function MenteeKey(r: MenteeRow): Id { r.id }
  function CohortKey(r: CohortRow): Id { r.id }

  predicate HasKey<T>(rows: seq<T>, key: T -> Id, id: Id) {
    exists i :: 0 <= i < |rows| && key(rows[i]) == id
  }

  ghost predicate UniqueKeys<T>(rows: seq<T>, key: T -> Id) {
    forall i, j :: 0 <= i < j < |rows| ==> key(rows[i]) != key(rows[j])
  }

  /** The row with the given key (the first, should there be several). */
  function Find<T>(rows: seq<T>, key: T -> Id, id: Id): (r: Option<T>)
    ensures r.Some? ==> key(r.value) == id && exists i :: 0 <= i < |rows| && rows[i] == r.value
    ensures r.None? <==> !HasKey(rows, key, id)
  {
    if rows == [] then None
    else if key(rows[0]) == id then Some(rows[0])
    else
      var r := Find(rows[1..], key, id);
      assert forall i :: 0 < i < |rows| ==> rows[i] == rows[1..][i - 1];
      r
  }

  /** Under unique keys, the row found is the one at any index carrying that key. */
  lemma FindUnique<T>(rows: seq<T>, key: T -> Id, k: nat)
    requires UniqueKeys(rows, key) && k < |rows|
    ensures Find(rows, key, key(rows[k])) == Some(rows[k])
  {
    var r := Find(rows, key, key(rows[k]));
    var i :| 0 <= i < |rows| && rows[i] == r.value;
    assert key(rows[i]) == key(rows[k]);
  }

  /** A foreign key that may be null: null, or a key present in `rows`. */
  predicate RefersOrNull<T>(rows: seq<T>, key: T -> Id, ref: Option<Id>) {
    ref.None? || HasKey(rows, key, ref.value)
  }

  /** `.update(updates).eq("id", id)` on the mentees table. */
  function PatchMentees(rows: seq<MenteeRow>, id: Id, p: MenteePatch): seq<MenteeRow> {
    seq(|rows|, i requires 0 <= i < |rows| => if rows[i].id == id then PatchMentee(rows[i], p) else rows[i])
  }

  /** `.update(updates).eq("id", id)` on the mentors table. */
  function PatchMentors(rows: seq<MentorRow>, id: Id, p: MentorPatch): seq<MentorRow> {
    seq(|rows|, i requires 0 <= i < |rows| => if rows[i].id == id then PatchMentor(rows[i], p) else rows[i])
  }

  /**
   * Patching by id touches only the row with that id, leaves every key where it was,
   * and a read by that id afterwards returns the patched row.
   */
  lemma PatchMenteesReadBack(rows: seq<MenteeRow>, id: Id, p: MenteePatch)
    requires UniqueKeys(rows, MenteeKey) && HasKey(rows, MenteeKey, id)
    ensures UniqueKeys(PatchMentees(rows, id, p), MenteeKey)
    ensures forall k :: HasKey(PatchMentees(rows, id, p), MenteeKey, k) <==> HasKey(rows, MenteeKey, k)
    ensures Find(PatchMentees(rows, id, p), MenteeKey, id) == Some(PatchMentee(Find(rows, MenteeKey, id).value, p))
  {
    var after := PatchMentees(rows, id, p);
    assert forall i :: 0 <= i < |rows| ==> MenteeKey(after[i]) == MenteeKey(rows[i]);
    var k :| 0 <= k < |rows| && MenteeKey(rows[k]) == id;
    FindUnique(rows, MenteeKey, k);
    FindUnique(after, MenteeKey, k);
    forall k' ensures HasKey(after, MenteeKey, k') <==> HasKey(rows, MenteeKey, k') {
      if HasKey(rows, MenteeKey, k') {
        var j :| 0 <= j < |rows| && MenteeKey(rows[j]) == k';
        assert MenteeKey(after[j]) == k';
      }
    }
  }

  lemma PatchMentorsReadBack(rows: seq<MentorRow>, id: Id, p: MentorPatch)
    requires UniqueKeys(rows, MentorKey) && HasKey(rows, MentorKey, id)
    ensures UniqueKeys(PatchMentors(rows, id, p), MentorKey)
    ensures forall k :: HasKey(PatchMentors(rows, id, p), MentorKey, k) <==> HasKey(rows, MentorKey, k)
    ensures Find(PatchMentors(rows, id, p), MentorKey, id) == Some(PatchMentor(Find(rows, MentorKey, id).value, p))
  {
    var after := PatchMentors(rows, id, p);
    assert forall i :: 0 <= i < |rows| ==> MentorKey(after[i]) == MentorKey(rows[i]);
    var k :| 0 <= k < |rows| && MentorKey(rows[k]) == id;
    FindUnique(rows, MentorKey, k);
    FindUnique(after, MentorKey, k);
    forall k' ensures HasKey(after, MentorKey, k') <==> HasKey(rows, MentorKey, k') {
      if HasKey(rows, MentorKey, k') {
        var j :| 0 <= j < |rows| && MentorKey(rows[j]) == k';
        assert MentorKey(after[j]) == k';
      }
    }
  }

  /** Appending a row whose key is new keeps the keys unique and adds exactly that key. */
  lemma AppendFreshKey<T>(rows: seq<T>, key: T -> Id, r: T)
    requires UniqueKeys(rows, key) && !HasKey(rows, key, key(r))
    ensures UniqueKeys(rows + [r], key)
    ensures forall k :: HasKey(rows + [r], key, k) <==> HasKey(rows, key, k) || k == key(r)
  {
    var after := rows + [r];
    forall k | HasKey(rows, key, k) ensures HasKey(after, key, k) {
      var j :| 0 <= j < |rows| && key(rows[j]) == k;
      assert after[j] == rows[j];
    }
    assert after[|rows|] == r;
  }

  /** The rows the store fills in for an insert: a generated id, the current time. */
  function NewMentor(ins: MentorInsert, generatedId: Id, now: Timestamp): MentorRow {
    MentorRow(ins.createdAt.GetOr(now), ins.email, ins.id.GetOr(generatedId), ins.name, ins.subcounty, None, None)
  }

  function NewMentee(ins: MenteeInsert, generatedId: Id, now: Timestamp): MenteeRow {
    MenteeRow(ins.cohortId, ins.createdAt.GetOr(now), ins.email, ins.id.GetOr(generatedId), ins.name,
              ins.subcounty, ins.mentorId, None, None)
  }

  /** A new cohort is pending unless a status is given. */
  function NewCohort(ins: CohortInsert, generatedId: Id, now: Timestamp): CohortRow {
    CohortRow(ins.createdAt.GetOr(now), ins.id.GetOr(generatedId), ins.name, ins.status.GetOr(Pending),
              ins.subcounty, ins.updatedAt.GetOr(now))
  }

  function NewCohortMentor(ins: CohortMentorInsert, now: Timestamp): CohortMentorRow {
    CohortMentorRow(ins.cohortId, ins.createdAt.GetOr(now), ins.mentorId)
  }

  /** How many join rows pair this cohort with this mentor. */
  function AssignmentCount(rows: seq<CohortMentorRow>, cohortId: Id, mentorId: Id): nat {
    if rows == [] then 0
    else AssignmentCount(rows[..|rows| - 1], cohortId, mentorId)
         + (if rows[|rows| - 1].cohortId == cohortId && rows[|rows| - 1].mentorId == mentorId then 1 else 0)
  }

  /** No uniqueness check: each assignment adds one more matching join row, however many exist. */
  lemma AssignmentAddsOne(rows: seq<CohortMentorRow>, cohortId: Id, mentorId: Id, now: Timestamp)
    ensures AssignmentCount(rows + [CohortMentorRow(cohortId, now, mentorId)], cohortId, mentorId)
            == AssignmentCount(rows, cohortId, mentorId) + 1
  {
    assert (rows + [CohortMentorRow(cohortId, now, mentorId)])[..|rows|] == rows;
  }

  // ---------------------------------------------------------------- the store

  class Store {
    var mentors: seq<MentorRow>
    var mentees: seq<MenteeRow>
    var cohorts: seq<CohortRow>
    var cohortMentors: seq<CohortMentorRow>

    /**
     * Primary keys are unique, and every declared foreign key refers to a row:
     * `mentees.cohort_id` (or null) to a cohort, both columns of `cohort_mentors`
     * to a cohort and a mentor.
     */
    ghost predicate Valid()
      reads this
    {
      && UniqueKeys(mentors, MentorKey)
      && UniqueKeys(mentees, MenteeKey)
      && UniqueKeys(cohorts, CohortKey)
      && (forall i :: 0 <= i < |mentees| ==> RefersOrNull(cohorts, CohortKey, mentees[i].cohortId))
      && (forall i :: 0 <= i < |cohortMentors| ==>
            HasKey(cohorts, CohortKey, cohortMentors[i].cohortId) && HasKey(mentors, MentorKey, cohortMentors[i].mentorId))
    }

    constructor ()
      ensures Valid()
      ensures mentors == [] && mentees == [] && cohorts == [] && cohortMentors == []
    {
      mentors, mentees, cohorts, cohortMentors := [], [], [], [];
    }

    /** `getMentorById`: `.eq("id", id).single()` */
    function GetMentorById(id: Id, fault: bool): (r: Result<MentorRow, ApiError>)
      reads this
      ensures fault ==> r == Failure(StoreFault)
      ensures !fault ==> (r.Success? <==> HasKey(mentors, MentorKey, id))
      ensures !fault && r.Failure? ==> r.error == NoRow
      ensures r.Success? ==> r.value in mentors && r.value.id == id
    {
      if fault then Failure(StoreFault)
      else match Find(mentors, MentorKey, id)
        case Some(m) => Success(m)
        case None => Failure(NoRow)
    }

    /** `getMenteeById`: `.eq("id", id).single()` */
    function GetMenteeById(id: Id, fault: bool): (r: Result<MenteeRow, ApiError>)
      reads this
      ensures fault ==> r == Failure(StoreFault)
      ensures !fault ==> (r.Success? <==> HasKey(mentees, MenteeKey, id))
      ensures !fault && r.Failure? ==> r.error == NoRow
      ensures r.Success? ==> r.value in mentees && r.value.id == id
    {
      if fault then Failure(StoreFault)
      else match Find(mentees, MenteeKey, id)
        case Some(m) => Success(m)
        case None => Failure(NoRow)
    }

    /** The mentor a mentee's `mentor_id` names, when that id is a mentor's. */
    function MentorOf(m: MenteeRow): (r: Option<MentorRow>)
      reads this
      ensures r.Some? <==> m.mentorId.Some? && HasKey(mentors, MentorKey, m.mentorId.value)
      ensures r.Some? ==> r.value in mentors && r.value.id == m.mentorId.value
    {
      if m.mentorId.None? then None else Find(mentors, MentorKey, m.mentorId.value)
    }

    /** `getMentees`: every mentee, in table order, with the mentor it names nested as `mentor`. */
    function GetMentees(fault: bool): (r: Result<seq<MenteeWithMentor>, ApiError>)
      reads this
      ensures fault ==> r == Failure(StoreFault)
      ensures !fault ==> r.Success? && |r.value| == |mentees|
      ensures r.Success? ==> forall i :: 0 <= i < |r.value| ==>
        r.value[i].mentee == mentees[i] && r.value[i].mentor == MentorOf(mentees[i])
    {
      if fault then Failure(StoreFault)
      else Success(seq(|mentees|, i reads this requires 0 <= i < |mentees| => MenteeWithMentor(mentees[i], MentorOf(mentees[i]))))
    }

    /**
     * `getMentors`: every mentor, in table order, kept whole, with `menteeCount` the
     * number of mentees whose `mentor_id` is its id.
     */
    function GetMentors(fault: bool): (r: Result<seq<Counted<MentorWithMentees>>, ApiError>)
      reads this
      ensures fault ==> r == Failure(StoreFault)
      ensures !fault ==> r.Success? && |r.value| == |mentors|
      ensures r.Success? ==> forall i :: 0 <= i < |mentors| ==>
        && r.value[i].entry.mentor == mentors[i]
        && r.value[i].entry.mentees == Some(Filter(mentees, IsMenteeOf(mentors[i].id)))
        && r.value[i].menteeCount == Count(mentees, IsMenteeOf(mentors[i].id))
    {
      if fault then Failure(StoreFault)
      else
        NestedCountsAreOwnMentees(mentors, mentees);
        Success(MentorsWithCounts(NestMentees(mentors, mentees)))
    }

    /** The foreign key a mentee patch may set: `cohort_id`, to null or to a cohort's id. */
    predicate PatchRefersToCohort(p: MenteePatch)
      reads this
    {
      p.cohortId.None? || RefersOrNull(cohorts, CohortKey, p.cohortId.value)
    }

    /** `updateMentee`: patch the row with this id and return it. */
    method UpdateMentee(id: Id, updates: MenteePatch, fault: bool) returns (r: Result<MenteeRow, ApiError>)
      requires Valid()
      modifies this
      ensures Valid()
      ensures mentors == old(mentors) && cohorts == old(cohorts) && cohortMentors == old(cohortMentors)
      ensures fault ==> r == Failure(StoreFault)
      ensures !fault && !old(HasKey(mentees, MenteeKey, id)) ==> r == Failure(NoRow)
      ensures !fault && old(HasKey(mentees, MenteeKey, id)) && !old(PatchRefersToCohort(updates)) ==> r == Failure(ForeignKeyViolation)
      ensures r.Success? <==> !fault && old(HasKey(mentees, MenteeKey, id)) && old(PatchRefersToCohort(updates))
      ensures r.Failure? ==> mentees == old(mentees)
      ensures r.Success? ==> mentees == PatchMentees(old(mentees), id, updates)
      ensures r.Success? ==> r.value == PatchMentee(old(GetMenteeById(id, false)).value, updates)
      ensures r.Success? ==> GetMenteeById(id, false) == r
    {
      if fault {
        return Failure(StoreFault);
      }
      var found := Find(mentees, MenteeKey, id);
      if found.None? {
        return Failure(NoRow);
      }
      if !PatchRefersToCohort(updates) {
        return Failure(ForeignKeyViolation);
      }
      PatchMenteesReadBack(mentees, id, updates);
      ghost var before := mentees;
      mentees := PatchMentees(mentees, id, updates);
      assert forall i :: 0 <= i < |mentees| ==>
        mentees[i].cohortId == before[i].cohortId || mentees[i].cohortId == updates.cohortId.value;
      r := Success(PatchMentee(found.value, updates));
    }

    /** `updateMentor`: patch the row with this id and return it. */
    method UpdateMentor(id: Id, updates: MentorPatch, fault: bool) returns (r: Result<MentorRow, ApiError>)
      requires Valid()
      modifies this
      ensures Valid()
      ensures mentees == old(mentees) && cohorts == old(cohorts) && cohortMentors == old(cohortMentors)
      ensures fault ==> r == Failure(StoreFault)
      ensures !fault ==> (r.Success? <==> old(HasKey(mentors, MentorKey, id)))
      ensures !fault && r.Failure? ==> r.error == NoRow
      ensures r.Failure? ==> mentors == old(mentors)
      ensures r.Success? ==> mentors == PatchMentors(old(mentors), id, updates)
      ensures r.Success? ==> r.value == PatchMentor(old(GetMentorById(id, false)).value, updates)
      ensures r.Success? ==> GetMentorById(id, false) == r
    {
      if fault {
        return Failure(StoreFault);
      }
      var found := Find(mentors, MentorKey, id);
      if found.None? {
        return Failure(NoRow);
      }
      PatchMentorsReadBack(mentors, id, updates);
      mentors := PatchMentors(mentors, id, updates);
      r := Success(PatchMentor(found.value, updates));
    }

    /** `createMentor`: insert and return the new row. */
    method CreateMentor(ins: MentorInsert, generatedId: Id, now: Timestamp, fault: bool)
      returns (r: Result<MentorRow, ApiError>)
      requires Valid()
      modifies this
      ensures Valid()
      ensures mentees == old(mentees) && cohorts == old(cohorts) && cohortMentors == old(cohortMentors)
      ensures fault ==> r == Failure(StoreFault)
      ensures !fault ==> (r.Success? <==> !old(HasKey(mentors, MentorKey, NewMentor(ins, generatedId, now).id)))
      ensures !fault && r.Failure? ==> r.error == DuplicateKey
      ensures r.Failure? ==> mentors == old(mentors)
      ensures r.Success? ==> r.value == NewMentor(ins, generatedId, now) && mentors == old(mentors) + [r.value]
    {
      if fault {
        return Failure(StoreFault);
      }
      var row := NewMentor(ins, generatedId, now);
      if Find(mentors, MentorKey, row.id).Some? {
        return Failure(DuplicateKey);
      }
      AppendFreshKey(mentors, MentorKey, row);
      mentors := mentors + [row];
      r := Success(row);
    }

    /** `createMentee`: insert and return the new row. */
    method CreateMentee(ins: MenteeInsert, generatedId: Id, now: Timestamp, fault: bool)
      returns (r: Result<MenteeRow, ApiError>)
      requires Valid()
      modifies this
      ensures Valid()
      ensures mentors == old(mentors) && cohorts == old(cohorts) && cohortMentors == old(cohortMentors)
      ensures fault ==> r == Failure(StoreFault)
      ensures !fault && old(HasKey(mentees, MenteeKey, NewMentee(ins, generatedId, now).id)) ==> r == Failure(DuplicateKey)
      ensures (!fault && !old(HasKey(mentees, MenteeKey, NewMentee(ins, generatedId, now).id))
               && !old(RefersOrNull(cohorts, CohortKey, ins.cohortId))) ==> r == Failure(ForeignKeyViolation)
      ensures r.Success? <==> (!fault && !old(HasKey(mentees, MenteeKey, NewMentee(ins, generatedId, now).id))
                               && old(RefersOrNull(cohorts, CohortKey, ins.cohortId)))
      ensures r.Failure? ==> mentees == old(mentees)
      ensures r.Success? ==> r.value == NewMentee(ins, generatedId, now) && mentees == old(mentees) + [r.value]
    {
      if fault {
        return Failure(StoreFault);
      }
      var row := NewMentee(ins, generatedId, now);
      if Find(mentees, MenteeKey, row.id).Some? {
        return Failure(DuplicateKey);
      }
      if !RefersOrNull(cohorts, CohortKey, row.cohortId) {
        return Failure(ForeignKeyViolation);
      }
      AppendFreshKey(mentees, MenteeKey, row);
      mentees := mentees + [row];
      r := Success(row);
    }

    /** `createCohort`: insert and return the new row. */
    method CreateCohort(ins: CohortInsert, generatedId: Id, now: Timestamp, fault: bool)
      returns (r: Result<CohortRow, ApiError>)
      requires Valid()
      modifies this
      ensures Valid()
      ensures mentors == old(mentors) && mentees == old(mentees) && cohortMentors == old(cohortMentors)
      ensures fault ==> r == Failure(StoreFault)
      ensures !fault ==> (r.Success? <==> !old(HasKey(cohorts, CohortKey, NewCohort(ins, generatedId, now).id)))
      ensures !fault && r.Failure? ==> r.error == DuplicateKey
      ensures r.Failure? ==> cohorts == old(cohorts)
      ensures r.Success? ==> r.value == NewCohort(ins, generatedId, now) && cohorts == old(cohorts) + [r.value]
    {
      if fault {
        return Failure(StoreFault);
      }
      var row := NewCohort(ins, generatedId, now);
      if Find(cohorts, CohortKey, row.id).Some? {
        return Failure(DuplicateKey);
      }
      ghost var before := cohorts;
      AppendFreshKey(cohorts, CohortKey, row);
      cohorts := cohorts + [row];
      assert forall k :: HasKey(before, CohortKey, k) ==> HasKey(cohorts, CohortKey, k);
      r := Success(row);
    }

    /** `assignMentorToCohort`: insert one join row; an existing identical pair is not checked for. */
    method AssignMentorToCohort(cohortId: Id, mentorId: Id, now: Timestamp, fault: bool)
      returns (r: Result<(), ApiError>)
      requires Valid()
      modifies this
      ensures Valid()
      ensures mentors == old(mentors) && mentees == old(mentees) && cohorts == old(cohorts)
      ensures fault ==> r == Failure(StoreFault)
      ensures !fault ==> (r.Success? <==> HasKey(cohorts, CohortKey, cohortId) && HasKey(mentors, MentorKey, mentorId))
      ensures !fault && r.Failure? ==> r.error == ForeignKeyViolation
      ensures r.Failure? ==> cohortMentors == old(cohortMentors)
      ensures r.Success? ==> cohortMentors == old(cohortMentors) + [NewCohortMentor(CohortMentorInsert(cohortId, None, mentorId), now)]
      ensures r.Success? ==> AssignmentCount(cohortMentors, cohortId, mentorId) == AssignmentCount(old(cohortMentors), cohortId, mentorId) + 1
    {
      if fault {
        return Failure(StoreFault);
      }
      if !HasKey(cohorts, CohortKey, cohortId) || !HasKey(mentors, MentorKey, mentorId) {
        return Failure(ForeignKeyViolation);
      }
      var row := NewCohortMentor(CohortMentorInsert(cohortId, None, mentorId), now);
      AssignmentAddsOne(cohortMentors, cohortId, mentorId, now);
      cohortMentors := cohortMentors + [row];
      r := Success(());
    }

    /**
     * The row the select of `getMentorsBySubcounty` builds for mentor `m`: the `cohort_id`
     * of every `cohort_mentors` row naming it, in table order, and through those rows the
     * cohorts, each with the ids of its mentees (a cohort that is gone nests as null).
     */
    function BySubcountyRow(m: MentorRow): (r: MentorWithCohorts)
      reads this
      ensures r.mentor == m
      ensures r.cohortMentors.Some? && r.cohorts.Some?
      ensures var links := Filter(cohortMentors, IsAssignmentOf(m.id));
        && |r.cohortMentors.value| == |links| == |r.cohorts.value|
        && forall i :: 0 <= i < |links| ==>
             r.cohortMentors.value[i] == links[i].cohortId && r.cohorts.value[i] == NestedCohortOf(links[i].cohortId)
      ensures |r.cohorts.value| == Count(cohortMentors, IsAssignmentOf(m.id))
    {
      var links := Filter(cohortMentors, IsAssignmentOf(m.id));
      FilterLengthIsCount(cohortMentors, IsAssignmentOf(m.id));
      MentorWithCohorts(m, Some(seq(|links|, i requires 0 <= i < |links| => links[i].cohortId)), Some(NestedCohorts(links)))
    }

    /** `cohorts!cohort_mentors`: the cohort behind each join row, in order. */
    function NestedCohorts(links: seq<CohortMentorRow>): (r: seq<Option<NestedCohort>>)
      reads this
      ensures |r| == |links|
      ensures forall i :: 0 <= i < |links| ==> r[i] == NestedCohortOf(links[i].cohortId)
    {
      seq(|links|, i reads this requires 0 <= i < |links| => NestedCohortOf(links[i].cohortId))
    }

    /**
     * The mentees behind a list of join rows, counted from the tables: for each row whose
     * cohort exists, the number of mentees whose `cohort_id` is that cohort.
     */
    function LinkedMenteeTotal(links: seq<CohortMentorRow>): nat
      reads this
    {
      if links == [] then 0
      else
        var c := links[|links| - 1].cohortId;
        LinkedMenteeTotal(links[..|links| - 1]) + (if HasKey(cohorts, CohortKey, c) then Count(mentees, IsInCohort(c)) else 0)
    }

    /** Folding the nested cohorts counts exactly the mentees the tables put in them. */
    lemma {:induction false} NestedTotalIsLinkedTotal(links: seq<CohortMentorRow>)
      ensures CohortMenteeTotal(NestedCohorts(links)) == LinkedMenteeTotal(links)
      decreases |links|
    {
      if links != [] {
        var init := links[..|links| - 1];
        NestedTotalIsLinkedTotal(init);
        assert NestedCohorts(links)[..|links| - 1] == NestedCohorts(init);
      }
    }

    /**
     * `getMentorsBySubcounty`'s `menteeCount` for a mentor, on the store: the mentees of
     * every cohort a `cohort_mentors` row links it to, a cohort linked twice counting twice.
     */
    lemma BySubcountyCount(m: MentorRow)
      ensures CohortBasedCount(BySubcountyRow(m)) == LinkedMenteeTotal(Filter(cohortMentors, IsAssignmentOf(m.id)))
    {
      NestedTotalIsLinkedTotal(Filter(cohortMentors, IsAssignmentOf(m.id)));
    }

    /** `mentees (id)` nested under cohort `c`: the ids of the mentees whose `cohort_id` is `c`. */
    function NestedCohortOf(c: Id): (r: Option<NestedCohort>)
      reads this
      ensures r.Some? <==> HasKey(cohorts, CohortKey, c)
      ensures r.Some? ==> r.value.mentees.Some? && |r.value.mentees.value| == Count(mentees, IsInCohort(c))
    {
      if HasKey(cohorts, CohortKey, c) then
        var members := Filter(mentees, IsInCohort(c));
        FilterLengthIsCount(mentees, IsInCohort(c));
        Some(NestedCohort(Some(seq(|members|, i requires 0 <= i < |members| => members[i].id))))
      else None
    }
  }

  /** A `cohort_mentors` row is the mentor's when its `mentor_id` is the mentor's id. */
  function IsAssignmentOf(mentorId: Id): CohortMentorRow -> bool {
    (a: CohortMentorRow) => a.mentorId == mentorId
  }

  /** A mentee is in the cohort when its `cohort_id` is the cohort's id. */
  function IsInCohort(cohortId: Id): MenteeRow -> bool {
    (m: MenteeRow) => m.cohortId == Some(cohortId)
  }

  // ---------------------------------------------------------------- menteeCount

  /** A row of a joined select with the count the screen shows next to it. */
  datatype Counted<T> = Counted(entry: T, menteeCount: nat)

  /** `xs?.length || 0` */
  function LengthOrZero<T>(xs: Option<seq<T>>): nat {
    if xs.Some? then |xs.value| else 0
  }

  /** A row of `select("*, mentees!mentor_id (*)")`; the nested list may be absent. */
  datatype MentorWithMentees = MentorWithMentees(mentor: MentorRow, mentees: Option<seq<MenteeRow>>)

  /** `getMentors`: one entry per row, in order, each row kept whole beside its `menteeCount`. */
  function MentorsWithCounts(data: seq<MentorWithMentees>): (r: seq<Counted<MentorWithMentees>>)
    ensures |r| == |data|
    ensures forall i :: 0 <= i < |data| ==> r[i].entry == data[i]
    ensures forall i :: 0 <= i < |data| ==> r[i].menteeCount == LengthOrZero(data[i].mentees)
  {
    seq(|data|, i requires 0 <= i < |data| => Counted(data[i], LengthOrZero(data[i].mentees)))
  }

  /** A mentee is the mentor's when its `mentor_id` is the mentor's id. */
  function IsMenteeOf(mentorId: Id): MenteeRow -> bool {
    (m: MenteeRow) => m.mentorId == Some(mentorId)
  }

  /** The nested select `mentees!mentor_id (*)`: each mentor with the mentees naming it. */
  function NestMentees(mentors: seq<MentorRow>, table: seq<MenteeRow>): seq<MentorWithMentees> {
    seq(|mentors|, i requires 0 <= i < |mentors| =>
      MentorWithMentees(mentors[i], Some(Filter(table, IsMenteeOf(mentors[i].id)))))
  }

  /**
   * When the nested lists are what the `mentor_id` join yields, `getMentors`' count is
   * the number of mentees whose `mentor_id` is the mentor's id.
   */
  lemma NestedCountsAreOwnMentees(mentors: seq<MentorRow>, table: seq<MenteeRow>)
    ensures forall i :: 0 <= i < |mentors| ==>
      MentorsWithCounts(NestMentees(mentors, table))[i].menteeCount == Count(table, IsMenteeOf(mentors[i].id))
  {
    forall i | 0 <= i < |mentors|
      ensures MentorsWithCounts(NestMentees(mentors, table))[i].menteeCount == Count(table, IsMenteeOf(mentors[i].id))
    {
      FilterLengthIsCount(table, IsMenteeOf(mentors[i].id));
    }
  }

  /** A row of `select("*, mentor:mentors!mentor_id (*)")`: the mentee and the mentor it names, if any. */
  datatype MenteeWithMentor = MenteeWithMentor(mentee: MenteeRow, mentor: Option<MentorRow>)

  /** A cohort nested under a mentor by `cohorts!cohort_mentors (mentees (id))`; it may be null. */
  datatype NestedCohort = NestedCohort(mentees: Option<seq<Id>>)

  /** A row of the select of `getMentorsBySubcounty`. */
  datatype MentorWithCohorts = MentorWithCohorts(
    mentor: MentorRow, cohortMentors: Option<seq<Id>>, cohorts: Option<seq<Option<NestedCohort>>>)

  /** `(cohort?.mentees?.length || 0)` */
  function CohortMentees(c: Option<NestedCohort>): nat {
    if c.Some? then LengthOrZero(c.value.mentees) else 0
  }

  /** `cohorts.reduce((acc, cohort) => acc + ..., 0)`, folding from the left. */
  function CohortMenteeTotal(cohorts: seq<Option<NestedCohort>>): nat {
    if cohorts == [] then 0
    else CohortMenteeTotal(cohorts[..|cohorts| - 1]) + CohortMentees(cohorts[|cohorts| - 1])
  }

  /** The total is additive: the mentees of two lists of cohorts add up. */
  lemma {:induction false} CohortMenteeTotalAppend(a: seq<Option<NestedCohort>>, b: seq<Option<NestedCohort>>)
    ensures CohortMenteeTotal(a + b) == CohortMenteeTotal(a) + CohortMenteeTotal(b)
    decreases |b|
  {
    if b == [] {
      assert a + b == a;
    } else {
      var b' := b[..|b| - 1];
      assert (a + b)[..|a + b| - 1] == a + b';
      CohortMenteeTotalAppend(a, b');
    }
  }

  /** A cohort without a list of mentees, or a null cohort, adds nothing. */
  lemma CohortMenteeTotalSkipsEmpty(cohorts: seq<Option<NestedCohort>>, c: Option<NestedCohort>)
    requires c.None? || c.value.mentees.None?
    ensures CohortMenteeTotal(cohorts + [c]) == CohortMenteeTotal(cohorts)
  {
    assert (cohorts + [c])[..|cohorts|] == cohorts;
  }

  /** `mentor.cohorts?.reduce(...) || 0` */
  function CohortBasedCount(m: MentorWithCohorts): nat {
    if m.cohorts.Some? then CohortMenteeTotal(m.cohorts.value) else 0
  }

  function HasSubcounty(subcounty: string): MentorWithCohorts -> bool {
    (m: MentorWithCohorts) => SubcountyName(m.mentor.subcounty) == subcounty
  }

  function WithCohortCount(m: MentorWithCohorts): Counted<MentorWithCohorts> {
    Counted(m, CohortBasedCount(m))
  }

  /** The rows of a counted list, without their counts. */
  function Entries<T>(xs: seq<Counted<T>>): (r: seq<T>)
    ensures |r| == |xs|
    ensures forall i :: 0 <= i < |xs| ==> r[i] == xs[i].entry
  {
    seq(|xs|, i requires 0 <= i < |xs| => xs[i].entry)
  }

  /**
   * `getMentorsBySubcounty` over the rows its select returns: a text that is not one of
   * the six subcounties is refused by the enumeration column, so the call throws;
   * otherwise `.eq("subcounty", subcounty)` keeps exactly the mentors of that subcounty,
   * once each and in order, and each gets the mentees of its cohorts as `menteeCount`.
   */
  function MentorsBySubcounty(data: seq<MentorWithCohorts>, subcounty: string): (r: Result<seq<Counted<MentorWithCohorts>>, ApiError>)
    ensures r.Failure? <==> ParseSubcounty(subcounty).None?
    ensures r.Failure? ==> r.error == InvalidValue
    ensures r.Success? ==> |r.value| == Count(data, HasSubcounty(subcounty))
    ensures r.Success? ==> IsSubsequence(Entries(r.value), data)
    ensures r.Success? ==> forall x :: x in r.value ==>
      x.entry in data && SubcountyName(x.entry.mentor.subcounty) == subcounty && x.menteeCount == CohortBasedCount(x.entry)
    ensures r.Success? ==> forall m :: m in data && SubcountyName(m.mentor.subcounty) == subcounty ==> WithCohortCount(m) in r.value
  {
    if ParseSubcounty(subcounty).None? then
      Failure(InvalidValue)
    else
      var kept := Filter(data, HasSubcounty(subcounty));
      BySubcountyKeepsEveryMatch(data, subcounty);
      FilterLengthIsCount(data, HasSubcounty(subcounty));
      FilterIsSubsequence(data, HasSubcounty(subcounty));
      assert Entries(WithCohortCounts(kept)) == kept;
      Success(WithCohortCounts(kept))
  }

  /** `data.map(...)`: one entry per row, in order, each with its cohort-based count. */
  function WithCohortCounts(kept: seq<MentorWithCohorts>): (r: seq<Counted<MentorWithCohorts>>)
    ensures |r| == |kept|
    ensures forall i :: 0 <= i < |kept| ==> r[i] == WithCohortCount(kept[i])
    ensures forall x :: x in r ==> x.entry in kept && x == WithCohortCount(x.entry)
  {
    var r := seq(|kept|, i requires 0 <= i < |kept| => WithCohortCount(kept[i]));
    assert forall x :: x in r ==> exists i :: 0 <= i < |kept| && x == WithCohortCount(kept[i]);
    r
  }

  lemma BySubcountyKeepsEveryMatch(data: seq<MentorWithCohorts>, subcounty: string)
    ensures forall m :: m in data && SubcountyName(m.mentor.subcounty) == subcounty ==>
      WithCohortCount(m) in WithCohortCounts(Filter(data, HasSubcounty(subcounty)))
  {
    var kept := Filter(data, HasSubcounty(subcounty));
    var r := WithCohortCounts(kept);
    forall m | m in data && SubcountyName(m.mentor.subcounty) == subcounty ensures WithCohortCount(m) in r {
      FilterMembership(data, HasSubcounty(subcounty), m);
      var i :| 0 <= i < |kept| && kept[i] == m;
      assert r[i] == WithCohortCount(m);
    }
  }

  /**
   * The two derivations disagree on one and the same store: a mentor named by a mentee
   * but assigned to no cohort is listed with that mentee by `getMentors` and with no
   * mentee by `getMentorsBySubcounty`.
   */
  lemma MenteeCountsDisagree(store: Store, i: nat, k: nat)
    requires i < |store.mentors| && k < |store.mentees|
    requires store.mentees[k].mentorId == Some(store.mentors[i].id)
    requires forall j :: 0 <= j < |store.cohortMentors| ==> store.cohortMentors[j].mentorId != store.mentors[i].id
    ensures store.GetMentors(false).value[i].menteeCount > 0
    ensures CohortBasedCount(store.BySubcountyRow(store.mentors[i])) == 0
  {
    var id := store.mentors[i].id;
    FilterMembership(store.mentees, IsMenteeOf(id), store.mentees[k]);
    FilterLengthIsCount(store.mentees, IsMenteeOf(id));
    assert forall a :: a in store.cohortMentors ==> !IsAssignmentOf(id)(a);
    FilterKeepsNone(store.cohortMentors, IsAssignmentOf(id));
    FilterLengthIsCount(store.cohortMentors, IsAssignmentOf(id));
  }
}
