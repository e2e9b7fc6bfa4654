# Mentorship console: a Dafny model of its data rules and screen state

The console manages mentors and mentees in the six subcounties of Mombasa and groups them
into cohorts. It is a React front end over a hosted database. This project models:

- the schema;
- the data-access layer (`api`);
- the state and derived values of the screens that carry logic: the mentor and mentee lists,
  the subcounty chart, the assign-mentee form, the profile page, the mentee form, the cohorts page.

Each source file is one module. Pure code (filters, slices, tallies, record patches, colour and
count mappings) is written as functions and lemmas. Code that updates state in steps is written as
classes with `modifies` clauses. Classes hold the store's tables and each component's `useState`
fields, and each handler is a method.

- `wrappers.dfy`: `Option` and `Result`.
- `text.dfy`: ASCII `toLowerCase`/`toUpperCase`, the capitalisation the screens use, `includes`.
- `sequences.dfy`: `filter`, with membership, order and length lemmas; counting.
- `schema.dfy`: the enumerations and the Row/Insert/Update shapes of the four tables. An Update
  shape is a patch: every column is optional, and an absent column is left unchanged.
- `api.dfy`: the store.
  - Tables are sequences in insertion order. Primary keys are unique, and the declared foreign keys
    refer to existing rows.
  - It implements the reads, patches, inserts and the cohort-mentor assignment. A store error is a
    `Failure`: the call throws and returns no data.
  - It also holds the two `menteeCount` derivations.
- `listing.dfy`: the search predicate and the page arithmetic shared by both lists.
- `mentee_list.dfy`, `mentor_list.dfy`, `subcounty_distribution.dfy`, `assign_mentee_form.dfy`,
  `user_profile.dfy`, `mentee_form.dfy`, `cohorts.dfy`: one class per component.

Environment inputs are method parameters:
- a store fault is `fault: bool`;
- the id and the time a store generates are `generatedId` and `now`;
- the object URL of a picked file is `objectUrl`.

The joined selects of `getMentees` and `getMentors` are computed from the store's own tables. The
joined selects of `getMentorsBySubcounty` and `getCohorts` are given as nested values;
`Api.Store.BySubcountyRow` states what the first puts into one mentor's row.

Three columns appear on rows although the generated types do not list them: `mentees.mentor_id`,
and `id_number` and `phone_number` on both people tables. The screens read and write all three.
JavaScript truthiness is followed throughout. For example, a `cohort_id` of `""` counts as no
cohort, and a `mentor_id` of `""` as no mentor.

A mentor's `menteeCount` is the number of mentees whose `mentor_id` names it in `getMentors`,
while `getMentorsBySubcounty` adds up the mentees of the mentor's cohorts instead.
`Api.MenteeCountsDisagree` shows, on one store, a mentor for whom the two counts differ.

## Model

| member | source | states |
|---|---|---|
| Text.LowerChar | src/components/users/MenteeList.tsx:36-38 | an upper-case ASCII letter becomes lower case; every other character is kept; the result is never upper case |
| Text.UpperChar | src/components/users/forms/MenteeForm.tsx:91 | a lower-case ASCII letter becomes upper case and lowers back to itself; every other character is kept |
| Text.LowerIdempotent | src/components/users/MenteeList.tsx:36-38 | lower-casing twice equals lower-casing once |
| Text.LowerOfUpper | src/components/users/MenteeList.tsx:36-38 | upper-casing a string first does not change its lower-cased form |
| Text.Lower | src/components/users/MenteeList.tsx:36-38 | `toLowerCase` character by character; its properties are LowerChar, LowerIdempotent and LowerOfUpper |
| Text.Capitalize | src/components/dashboard/SubcountyDistribution.tsx:30 | same length; the first character is upper-cased and the rest is kept; "" stays "" |
| Text.IncludesMeansOccurs | src/components/users/MenteeList.tsx:36-38 | `includes` holds exactly when the substring occurs at some position |
| Text.IncludesHasOccurrence | src/components/users/MenteeList.tsx:36-38 | when `includes` holds, an occurrence exists |
| Text.OccurrenceIsIncluded | src/components/users/MenteeList.tsx:36-38 | an occurrence at any position makes `includes` hold |
| Text.IncludesEmpty | src/components/users/MenteeList.tsx:36-38 | every string includes "" |
| Text.Includes | src/components/users/MenteeList.tsx:36-38 | `includes`, a scan over start positions; IncludesMeansOccurs proves it means an occurrence |
| Sequences.Filter | src/components/users/MenteeList.tsx:34 | the result is no longer than the input, and each kept element is in the input and satisfies the predicate |
| Sequences.FilterMembership | src/components/users/MenteeList.tsx:34 | an element is in the result exactly when it is in the input and satisfies the predicate |
| Sequences.FilterMembershipAll | src/components/users/MentorList.tsx:34 | the membership equivalence, for all elements at once |
| Sequences.FilterIsSubsequence | src/components/users/MentorList.tsx:34 | the result is an order-preserving subsequence of the input |
| Sequences.FilterKeepsAll | src/components/users/MenteeList.tsx:34-39 | if every element satisfies the predicate, the result equals the input |
| Sequences.FilterKeepsNone | src/lib/api.ts:94 | if no element satisfies the predicate, the result is empty |
| Sequences.CountSnoc | src/components/dashboard/SubcountyDistribution.tsx:39-45 | appending an element adds one to the count exactly when that element is counted |
| Sequences.CountAlong | src/pages/UserProfile.tsx:71-73 | two lists that agree element by element on the predicate have equal counts |
| Sequences.FilterLengthIsCount | src/lib/api.ts:80 | the length of the result is the number of elements satisfying the predicate |
| Schema.ParseSubcounty | src/types/supabase.ts:140-146 | it accepts exactly the six subcounty names, and the accepted value's name is the input text |
| Schema.SubcountyNameRoundTrip | src/types/supabase.ts:140-146 | parsing a subcounty's name gives that subcounty back |
| Schema.AllSubcountiesListsEachOnce | src/components/dashboard/SubcountyDistribution.tsx:13-20 | the fixed list has six entries, contains every subcounty and has no repeats |
| Schema.SubcountyNameInjective | src/types/supabase.ts:140-146 | distinct subcounties have distinct names |
| Schema.ParseStatus | src/types/supabase.ts:139 | it accepts exactly active, completed and pending, and the accepted value's name is the input text |
| Schema.StatusNameRoundTrip | src/types/supabase.ts:139 | parsing a status's name gives that status back |
| Schema.PatchMentee | src/types/supabase.ts:89-96 | the id is kept; each column is replaced only when the patch gives it; a nullable `cohort_id` can be set to null |
| Schema.EmptyMenteePatchChangesNothing | src/types/supabase.ts:89-96 | the empty mentee patch leaves a row unchanged |
| Schema.MenteePatchesCompose | src/types/supabase.ts:89-96 | two mentee patches in a row equal one merged patch in which the later value wins |
| Schema.MenteePatchIdempotent | src/types/supabase.ts:89-96 | applying the same mentee patch twice equals applying it once |
| Schema.PatchMentor | src/types/supabase.ts:122-128 | the id is kept; each column is replaced only when the patch gives it |
| Schema.EmptyMentorPatchChangesNothing | src/types/supabase.ts:122-128 | the empty mentor patch leaves a row unchanged |
| Schema.MentorPatchesCompose | src/types/supabase.ts:122-128 | two mentor patches in a row equal one merged patch |
| Schema.MentorPatchIdempotent | src/types/supabase.ts:122-128 | applying the same mentor patch twice equals applying it once |
| Api.Find | src/lib/api.ts:51-58 | it finds a row with the key exactly when one exists, and the row found carries that key |
| Api.FindUnique | src/lib/api.ts:117-124 | under unique keys, the row found for a key is the row at that key's index |
| Api.PatchMenteesReadBack | src/lib/api.ts:127-136 | patching by id keeps keys unique and the key set the same, and a read of that id gives back the patched row |
| Api.PatchMentorsReadBack | src/lib/api.ts:61-70 | patching by id keeps keys unique and the key set the same, and a read of that id gives back the patched row |
| Api.PatchMentees | src/lib/api.ts:127-136 | `.update().eq("id", id)` on the mentees table; PatchMenteesReadBack proves what it does |
| Api.PatchMentors | src/lib/api.ts:61-70 | `.update().eq("id", id)` on the mentors table; PatchMentorsReadBack proves what it does |
| Api.NewMentor | src/lib/api.ts:106-114 | the stored mentor row: the given columns, a generated id and the current time unless given, no id number or phone number |
| Api.NewMentee | src/lib/api.ts:147-157 | the stored mentee row: the given columns, a generated id and the current time unless given, no id number or phone number |
| Api.NewCohort | src/lib/api.ts:38-48 | the stored cohort row: status pending and both times now unless given, a generated id unless given |
| Api.AppendFreshKey | src/lib/api.ts:106-114 | appending a row with a new key keeps keys unique and adds exactly that key |
| Api.AssignmentAddsOne | src/lib/api.ts:160-165 | appending a join row adds exactly one to the number of rows for that cohort-mentor pair, however many already exist |
| Api.Store.constructor | src/types/supabase.ts:12-128 | an empty database: all four tables empty, which satisfies unique keys and foreign keys |
| Api.Store.GetMentorById | src/lib/api.ts:51-59 | a fault fails; otherwise it succeeds exactly when a mentor has the id, with that mentor, and fails with NoRow when none has it |
| Api.Store.GetMenteeById | src/lib/api.ts:117-125 | a fault fails; otherwise it succeeds exactly when a mentee has the id, with that mentee, and fails with NoRow when none has it |
| Api.Store.MentorOf | src/lib/api.ts:141 | the embedded `mentor` is present exactly when `mentor_id` names an existing mentor, and it is that mentor |
| Api.Store.GetMentees | src/lib/api.ts:138-145 | a fault fails; otherwise every mentee appears once, in table order, with the mentor its `mentor_id` names |
| Api.Store.GetMentors | src/lib/api.ts:72-82 | a fault fails; otherwise every mentor appears once, in table order and unchanged, carrying the list of exactly the mentees naming it, in table order, and `menteeCount` equal to their number |
| Api.Store.UpdateMentee | src/lib/api.ts:127-136 | the possible failures are StoreFault, NoRow and a `cohort_id` naming no cohort, and each leaves the tables unchanged; on success only the row with the id is patched, and it is returned and read back; the store invariant is kept |
| Api.Store.UpdateMentor | src/lib/api.ts:61-70 | it succeeds exactly when there is no fault and the id exists; only that row is patched, and it is returned and read back; a failure changes nothing |
| Api.Store.CreateMentor | src/lib/api.ts:106-114 | on success the new row, with generated id and time, is appended and returned; a taken id or a fault changes nothing |
| Api.Store.CreateMentee | src/lib/api.ts:147-157 | it succeeds exactly when there is no fault, the id is new and the `cohort_id` is null or names a cohort; it then appends the row and returns it; a failure changes nothing |
| Api.Store.CreateCohort | src/lib/api.ts:38-48 | on success the new cohort is appended and returned; the status defaults to pending and the times to now; a failure changes nothing |
| Api.Store.AssignMentorToCohort | src/lib/api.ts:160-165 | with no fault and both ids existing, exactly one join row is appended, with no duplicate check, and that pair's count rises by one; otherwise nothing changes |
| Api.Store.BySubcountyRow | src/lib/api.ts:84-94 | the row the select builds for one mentor: the mentor, then for each `cohort_mentors` row naming it, in table order, that row's `cohort_id` and the cohort it links to |
| Api.Store.NestedCohorts | src/lib/api.ts:91 | `cohorts!cohort_mentors`: one nested cohort per join row, in order, the one that row links to |
| Api.Store.LinkedMenteeTotal | src/lib/api.ts:96-103 | the mentees behind a list of join rows, counted from the tables: for each row whose cohort exists, the mentees whose `cohort_id` is that cohort |
| Api.Store.NestedTotalIsLinkedTotal | src/lib/api.ts:96-103 | folding the nested cohorts with `reduce` gives exactly that table count |
| Api.Store.BySubcountyCount | src/lib/api.ts:84-104 | on the store, a mentor's `menteeCount` from `getMentorsBySubcounty` is the number of mentees in the cohorts its join rows link it to, a cohort linked twice counting twice |
| Api.Store.NestedCohortOf | src/lib/api.ts:91 | a cohort nested by the select is present exactly when the cohort exists, and carries one id per mentee whose `cohort_id` it is |
| Api.MentorsWithCounts | src/lib/api.ts:78-81 | one entry per input row, in order, keeping the row whole; `menteeCount` is the nested list's length, or 0 when the list is absent |
| Api.NestMentees | src/lib/api.ts:72-77 | the nested select `mentees!mentor_id (*)`: each mentor with the mentees naming it; NestedCountsAreOwnMentees states its counts |
| Api.NestedCountsAreOwnMentees | src/lib/api.ts:72-82 | when the nesting is the `mentor_id` join, each count equals the number of mentees naming that mentor |
| Api.CohortMenteeTotal | src/lib/api.ts:99-102 | the `reduce` over a mentor's cohorts, folding from the left; CohortMenteeTotalAppend and CohortMenteeTotalSkipsEmpty state its properties |
| Api.CohortMenteeTotalAppend | src/lib/api.ts:99-102 | the fold over cohorts is additive over concatenation |
| Api.CohortMenteeTotalSkipsEmpty | src/lib/api.ts:100 | a null cohort or a cohort without a mentee list adds 0 |
| Api.MentorsBySubcounty | src/lib/api.ts:84-104 | a text that names no subcounty fails with InvalidValue, as the enumeration column refuses it; otherwise the result holds exactly the mentors of that subcounty, once each (its length is their count) and in row order, each with the total mentees of its cohorts, or 0 without cohorts |
| Api.WithCohortCounts | src/lib/api.ts:96-103 | one entry per row, in the same order, each the row paired with its cohort-based count |
| Api.Entries | src/lib/api.ts:96-103 | the rows of a counted list without their counts, one per entry in order |
| Api.BySubcountyKeepsEveryMatch | src/lib/api.ts:94 | every fetched mentor of the subcounty appears in the result |
| Api.MenteeCountsDisagree | src/lib/api.ts:72-104 | on one store, a mentor named by a mentee and linked to no cohort gets a positive count from `getMentors` and 0 from the row `getMentorsBySubcounty` selects for it |
| Listing.MatchesQuery | src/components/users/MenteeList.tsx:34-39 | the search of both lists over name, email and subcounty; MatchesQueryMeaning and SearchIgnoresCase state what it means |
| Listing.MatchesQueryMeaning | src/components/users/MenteeList.tsx:34-39 | a row matches exactly when the lower-cased query occurs in its lower-cased name, email or subcounty |
| Listing.EmptyQueryMatchesAll | src/components/users/MenteeList.tsx:30-39 | the empty query matches every row |
| Listing.SearchIgnoresCase | src/components/users/MentorList.tsx:34-39 | changing the case of the query or of the fields does not change which rows match |
| Listing.SearchExample | src/components/users/MenteeList.tsx:34-39 | the query "NYA" matches a row in nyali |
| Listing.TotalPages | src/components/users/MenteeList.tsx:32-41 | the smallest page count that holds the list: count*10 >= n and (count-1)*10 < n |
| Listing.TotalPagesZeroIffEmpty | src/components/users/MentorList.tsx:41-127 | there are no pages exactly when the list is empty |
| Listing.RelativeIndex | src/components/users/MenteeList.tsx:42-45 | a `slice` index is clipped into the list; a non-negative index is clipped at the length |
| Listing.Slice | src/components/users/MenteeList.tsx:42-45 | `Array.prototype.slice` with clipped and negative indices; PageIsRun states what it gives for a page |
| Listing.Page | src/components/users/MenteeList.tsx:42-45 | the slice for one page number; PageIsRun, ItemPage and PagesReproduceList state its properties |
| Listing.PageIsRun | src/components/users/MenteeList.tsx:42-45 | from page 1 on, a page is the run from (p-1)*10 to p*10, clipped to the list, so at most 10 items |
| Listing.PageShape | src/components/users/MenteeList.tsx:41-45 | from page 1 on, a page is the clipped run from (p-1)*10 to p*10, its k-th item is item (p-1)*10+k, and it is non-empty exactly up to totalPages |
| Listing.PageItem | src/components/users/MentorList.tsx:42-45 | the k-th item of page p is item (p-1)*10+k of the list |
| Listing.ItemPage | src/components/users/MentorList.tsx:42-45 | item i is at slot i%10 of page i/10+1 and lies in no other page's range, so pages are disjoint |
| Listing.PageWithinRangeIsNonEmpty | src/components/users/MenteeList.tsx:41-45 | every page from 1 to totalPages is non-empty |
| Listing.PageBeyondLastIsEmpty | src/components/users/MenteeList.tsx:31-45 | a page above totalPages is empty |
| Listing.PageZeroIsEmpty | src/components/users/MenteeList.tsx:42-45 | page 0 is the empty slice |
| Listing.PagesUpToIsPrefix | src/components/users/MenteeList.tsx:42-45 | pages 1 to k, concatenated, are the first min(10k, n) items |
| Listing.PagesReproduceList | src/components/users/MenteeList.tsx:41-45 | pages 1 to totalPages, concatenated, are exactly the filtered list |
| Listing.TwentyFiveItems | src/components/users/MenteeList.tsx:32-45 | 25 items make 3 pages: items 1-10, 11-20 and 21-25 |
| MenteeListPage.EmptyQueryKeepsAll | src/components/users/MenteeList.tsx:30-39 | with the empty query, the filter keeps every mentee in order |
| MenteeListPage.MenteeList.constructor | src/components/users/MenteeList.tsx:28-31 | no mentees, loading, empty query, page 1 |
| MenteeListPage.MenteeList.FilteredMentees | src/components/users/MenteeList.tsx:34-39 | a mentee is listed exactly when the query matches it, as often as it was loaded (the length is the number of matches), in loaded order; the empty query lists everyone |
| MenteeListPage.MenteeList.TotalPages | src/components/users/MenteeList.tsx:41 | the fewest pages of 10 that hold the filtered list; 0 exactly when nothing matches |
| MenteeListPage.MenteeList.PaginatedMentees | src/components/users/MenteeList.tsx:42-45 | from page 1 on, exactly the filtered mentees from index (page-1)*10 to page*10, clipped to the list, so at most 10; non-empty up to totalPages and empty after it |
| MenteeListPage.MenteeList.SetSearchQuery | src/components/users/MenteeList.tsx:91 | only the query changes; the page is kept, so a page past the new last page shows nothing |
| MenteeListPage.MenteeList.SetCurrentPage | src/components/users/MenteeList.tsx:132 | only the page changes |
| MenteeListPage.MenteeList.LoadMentees | src/components/users/MenteeList.tsx:51-60 | on success the list is what getMentees returned; on failure it is kept; loading ends false either way |
| MentorListPage.EmptyQueryKeepsAll | src/components/users/MentorList.tsx:30-39 | with the empty query, the filter keeps every mentor in order |
| MentorListPage.MentorList.constructor | src/components/users/MentorList.tsx:28-31 | no mentors, loading, empty query, page 1 |
| MentorListPage.MentorList.FilteredMentors | src/components/users/MentorList.tsx:34-39 | a mentor is listed exactly when the query matches it, as often as it was loaded (the length is the number of matches), in loaded order; the empty query lists everyone |
| MentorListPage.MentorList.TotalPages | src/components/users/MentorList.tsx:41 | the fewest pages of 10 that hold the filtered list; 0 exactly when nothing matches |
| MentorListPage.MentorList.PaginatedMentors | src/components/users/MentorList.tsx:42-45 | from page 1 on, exactly the filtered mentors from index (page-1)*10 to page*10, clipped to the list, so at most 10; non-empty up to totalPages and empty after it |
| MentorListPage.MentorList.PaginationShown | src/components/users/MentorList.tsx:127-133 | the control is shown exactly when there are pages, that is when some mentor matches |
| MentorListPage.MentorList.SetSearchQuery | src/components/users/MentorList.tsx:91 | only the query changes; the page is not clamped, so a page past the new last page shows nothing |
| MentorListPage.MentorList.SetCurrentPage | src/components/users/MentorList.tsx:132 | only the page changes |
| MentorListPage.MentorList.LoadMentors | src/components/users/MentorList.tsx:51-60 | on success the list is what getMentors returned; on failure it is kept; loading ends false |
| SubcountyDistributionChart.Labels | src/components/dashboard/SubcountyDistribution.tsx:30-48 | the six labels are Likoni, Mvita, Kisauni, Nyali, Changamwe and Jomvu |
| SubcountyDistributionChart.Tally | src/components/dashboard/SubcountyDistribution.tsx:39-45 | a key is present exactly when some mentee has that subcounty name, and its value is the number of such mentees |
| SubcountyDistributionChart.Distribution | src/components/dashboard/SubcountyDistribution.tsx:39-50 | the reference chart: one bar per subcounty, in the fixed order, with the number of its mentees; DistributionShape and DistributionAddsUp state its properties |
| SubcountyDistributionChart.Formatted | src/components/dashboard/SubcountyDistribution.tsx:47-50 | the `map` from the tally to bars, a missing key reading 0; FormattedTallyIsDistribution ties it to the reference chart |
| SubcountyDistributionChart.FormattedTallyIsDistribution | src/components/dashboard/SubcountyDistribution.tsx:47-50 | laying out the tally over the six subcounties, a missing key reading 0, gives the reference chart |
| SubcountyDistributionChart.DistributionShape | src/components/dashboard/SubcountyDistribution.tsx:13-50 | exactly six bars, in the fixed order, with distinct labels |
| SubcountyDistributionChart.EmptyRegionShowsZero | src/components/dashboard/SubcountyDistribution.tsx:49 | a subcounty without mentees keeps its bar, with count 0 |
| SubcountyDistributionChart.RegionCountsAddUp | src/components/dashboard/SubcountyDistribution.tsx:39-45 | the six per-subcounty counts add up to the number of mentees |
| SubcountyDistributionChart.DistributionAddsUp | src/components/dashboard/SubcountyDistribution.tsx:39-50 | the bars add up to the number of mentees |
| SubcountyDistributionChart.InitialData | src/components/dashboard/SubcountyDistribution.tsx:28-33 | before loading, the chart is the six subcounties at 0, the chart of no mentees |
| SubcountyDistributionChart.SubcountyDistribution.constructor | src/components/dashboard/SubcountyDistribution.tsx:28-33 | the chart starts as the initial data |
| SubcountyDistributionChart.SubcountyDistribution.LoadData | src/components/dashboard/SubcountyDistribution.tsx:36-56 | on success the chart is the distribution of the loaded mentees; on failure it is unchanged |
| AssignMenteeFormModel.Candidates | src/components/forms/AssignMenteeForm.tsx:30 | exactly the loaded mentees without a `cohort_id`, as often as loaded and in order; none already in a cohort |
| AssignMenteeFormModel.AssignPatch | src/components/forms/AssignMenteeForm.tsx:41 | the update `{ cohort_id: cohortId }`; AssignPatchSetsOnlyCohort proves it changes nothing else |
| AssignMenteeFormModel.AssignPatchSetsOnlyCohort | src/components/forms/AssignMenteeForm.tsx:41 | the patch sets `cohort_id` and changes no other column |
| AssignMenteeFormModel.AssignTouchesOnlyChosen | src/components/forms/AssignMenteeForm.tsx:41 | only the chosen mentee's row changes, and only its cohort; once assigned, it is no longer a candidate |
| AssignMenteeFormModel.AssignMenteeForm.constructor | src/components/forms/AssignMenteeForm.tsx:18-21 | no mentees, nothing selected, not loading |
| AssignMenteeFormModel.AssignMenteeForm.LoadMentees | src/components/forms/AssignMenteeForm.tsx:27-34 | on success the candidates of the loaded mentees; on failure nothing changes |
| AssignMenteeFormModel.AssignMenteeForm.SelectMentee | src/components/forms/AssignMenteeForm.tsx:56 | only the selection changes |
| AssignMenteeFormModel.AssignMenteeForm.HandleSubmit | src/components/forms/AssignMenteeForm.tsx:36-48 | loading is set during the request and cleared after; only the selected mentee's `cohort_id` is patched; `onSuccess` is called exactly when the update succeeded; a failure changes no table |
| UserProfilePage.FormFor | src/pages/UserProfile.tsx:61-67 | name and email are copied and the subcounty as its name; a null `id_number` or `phone_number` becomes "" |
| UserProfilePage.WithField | src/pages/UserProfile.tsx:164-243 | the edited field takes the value and every other field is kept |
| UserProfilePage.FetchUser | src/pages/UserProfile.tsx:56-59 | `type` "mentor" reads a mentor and any other `type` a mentee, by this id; it succeeds exactly when that row exists |
| UserProfilePage.ProfileAgreesWithMentorList | src/pages/UserProfile.tsx:70-74 | a mentor's profile lists as many mentees as the mentor list counts for that mentor |
| UserProfilePage.SavingLoadedFormOnlyFillsBlanks | src/pages/UserProfile.tsx:61-101 | saving the form as loaded leaves the row unchanged, except that a null `id_number` or `phone_number` is written as "" |
| UserProfilePage.MentorPatchFor | src/pages/UserProfile.tsx:100-101 | the update `updateMentor(id, formData)` sends: every form field; SavingLoadedFormOnlyFillsBlanks states its effect |
| UserProfilePage.MenteePatchFor | src/pages/UserProfile.tsx:100-101 | the update `updateMentee(id, formData)` sends: every form field; SavingLoadedFormOnlyFillsBlanks states its effect |
| UserProfilePage.UserProfile.constructor | src/pages/UserProfile.tsx:38-51 | no user, mentees or mentor; loading; not editing; no picture; empty form |
| UserProfilePage.UserProfile.LoadData | src/pages/UserProfile.tsx:54-84 | the user and the form are set from the fetched row; a mentor gets exactly the mentees whose `mentor_id` is the id, in order; a mentee with a truthy `mentor_id` gets that mentor; after a failure, what was already set stays; loading ends false |
| UserProfilePage.UserProfile.StartEditing | src/pages/UserProfile.tsx:287 | editing starts and nothing else changes |
| UserProfilePage.UserProfile.EditField | src/pages/UserProfile.tsx:164-243 | one form field changes and nothing else |
| UserProfilePage.UserProfile.ChooseFile | src/pages/UserProfile.tsx:88-95 | a picked file sets the picture and the preview URL; no file changes nothing |
| UserProfilePage.UserProfile.Cancel | src/pages/UserProfile.tsx:251-255 | editing, picture and preview are cleared; the form and the user are kept |
| UserProfilePage.UserProfile.HandleSubmit | src/pages/UserProfile.tsx:97-109 | the whole form is sent as a patch of this id; on success the user becomes the stored row and editing, picture and preview are reset; on failure nothing changes |
| MenteeFormModel.WithField | src/components/users/forms/MenteeForm.tsx:116-208 | the edited field takes the value and the others are kept, the subcounty included |
| MenteeFormModel.CreatePayload | src/components/users/forms/MenteeForm.tsx:59-66 | name, email, subcounty and `mentor_id` as typed; no cohort, id number or phone number; no payload for a text that names no subcounty |
| MenteeFormModel.PayloadDropsIdAndPhone | src/components/users/forms/MenteeForm.tsx:59-66 | the created row has null id number and phone number, a generated id and the current time |
| MenteeFormModel.AvatarInitial | src/components/users/forms/MenteeForm.tsx:91 | one character and never lower case; "?" for an empty name; otherwise the name's first letter |
| MenteeFormModel.AvatarInitialIgnoresCase | src/components/users/forms/MenteeForm.tsx:91 | the initial of the upper-cased name is the same initial |
| MenteeFormModel.MenteeForm.constructor | src/components/users/forms/MenteeForm.tsx:26-37 | not loading, no mentors, no picture, every field "" |
| MenteeFormModel.MenteeForm.MentorSelectorShown | src/components/users/forms/MenteeForm.tsx:163 | the mentor select is rendered when a subcounty is chosen and it has mentors; SubcountyEffect states when it is hidden |
| MenteeFormModel.MenteeForm.ChangeSubcounty | src/components/users/forms/MenteeForm.tsx:141-146 | the subcounty is set and `mentor_id` reset to ""; all other state is kept |
| MenteeFormModel.MenteeForm.EditField | src/components/users/forms/MenteeForm.tsx:116-208 | one field changes and nothing else |
| MenteeFormModel.MenteeForm.ChooseFile | src/components/users/forms/MenteeForm.tsx:76-83 | a picked file sets the picture and the preview; no file changes nothing |
| MenteeFormModel.MenteeForm.SubcountyEffect | src/components/users/forms/MenteeForm.tsx:39-53 | with a subcounty, the mentors are those getMentorsBySubcounty returns, all of that subcounty; they are kept when the request fails or the text names no subcounty; without a subcounty there are no mentors and no selector |
| MenteeFormModel.MenteeForm.HandleSubmit | src/components/users/forms/MenteeForm.tsx:55-74 | loading is set during the request and cleared after; the mentee is created from the payload; `onSuccess` is called exactly when the store accepted it; a failure changes no table; the form is not reset |
| CohortsPage.StatusColor | src/pages/Cohorts.tsx:57-68 | `getStatusColor`; StatusColors, GrayIffUnknownStatus and StatusColorInjective state its properties |
| CohortsPage.StatusColors | src/pages/Cohorts.tsx:57-64 | active is green, completed blue, pending yellow |
| CohortsPage.GrayIffUnknownStatus | src/pages/Cohorts.tsx:57-68 | the badge is gray exactly when the text is not one of the three statuses |
| CohortsPage.StatusColorInjective | src/pages/Cohorts.tsx:57-68 | distinct statuses get distinct colours |
| CohortsPage.CountDisplay | src/pages/Cohorts.tsx:138-141 | a non-empty nested list shows its length; otherwise the fallback count if it is present and non-zero; otherwise 0; it shows 0 only when both give nothing |
| CohortsPage.MentorCountCell | src/pages/Cohorts.tsx:138 | the mentors cell: CountDisplay of the nested mentors and `mentor_count` |
| CohortsPage.MenteeCountCell | src/pages/Cohorts.tsx:141 | the mentees cell: CountDisplay of the nested mentees and `mentee_count` |
| CohortsPage.SubcountyDisplay | src/pages/Cohorts.tsx:132-135 | a missing or empty subcounty reads "Not specified"; any other is shown with its first letter upper-cased |
| CohortsPage.KnownSubcountyIsNamed | src/pages/Cohorts.tsx:132-135 | each real subcounty shows as its capitalised name, never "Not specified" |
| CohortsPage.Cohorts.constructor | src/pages/Cohorts.tsx:27-29 | no cohorts, loading, dialog closed |
| CohortsPage.Cohorts.FetchCohorts | src/pages/Cohorts.tsx:36-50 | on success the list is the fetched one; on failure it is unchanged; loading ends false |
| CohortsPage.Cohorts.HandleCohortCreated | src/pages/Cohorts.tsx:52-55 | the dialog is closed and the list fetched again |
| CohortsPage.Cohorts.SetDialogOpen | src/pages/Cohorts.tsx:78 | only the dialog's open flag changes |

## Left out

- `getCurriculums` and `createCurriculum` (src/lib/api.ts:10-24): the `curriculums` table is not among the generated types, and its `content` is free JSON.
- Joined selects of `getCohorts` and `getMentorsBySubcounty`: their embedding and inner-join semantics are not modelled. The pages take their results as given nested values, so a cohort without mentors, which the inner join drops, is also left to the caller.
- Updates of `cohorts` and `cohort_mentors`: `api` never updates these tables, so their Update shapes are declared as datatypes but have no patch function.
- The `id` column of the Update shapes: patches in the model cannot change a row's identity.
- The `profilePicture` argument that the profile page and the mentee form pass to `updateMentor`, `updateMentee` and `createMentee`: those functions ignore it, so the model drops it. `profile_picture_url` display and file upload are not modelled.
- `URL.createObjectURL`: its result is the `objectUrl` parameter.
- The database's rejection of a subcounty text that is not one of the six: the model checks the text itself. `getMentorsBySubcounty` then fails with InvalidValue, and the mentee form creates nothing.
- The type of the `mentor_id` column: a mentee created without a chosen mentor is stored with `mentor_id` `""`, as sent.
- Date formatting with `date-fns` on the cohorts page; the `start_date`/`end_date` columns it reads are not in the types.
- Toasts and `console.error` output.
- Asynchronous scheduling: each handler and each effect is one atomic method. Interleaved requests, stale responses and unmounted components are not modelled.
- Rendering: table cells, links, "Not Assigned", "No mentees assigned yet", "Loading..." and "User not found" are not modelled. Neither is the profile avatar `user.name[0].toUpperCase()`, which fails on an empty name.
- Unicode case mapping: `toLowerCase`/`toUpperCase` are ASCII-only.
- JavaScript numbers: page numbers and counts are unbounded integers; floating-point behaviour is not modelled.
- src/pages/CohortDetails.tsx, src/components/dashboard/CohortManagement.tsx, MetricsGrid.tsx, MetricCard.tsx, QuickActions.tsx, Sidebar.tsx, the cohort, mentor, curriculum and assign-mentor forms, routing and layout are not part of this model.
