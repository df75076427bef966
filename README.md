# Talent Directory: a Dafny model of the store and the pages

Talent Directory is a React and Redux front end for a directory of
developer profiles (a name, an email, a list of skills, years of experience
and a creation time). This project models its core in Dafny:

- the `talents` slice of the Redux store: its state, the two plain reducers,
  and the pending, fulfilled and rejected cases of the fetch, add, update
  and delete operations;
- the add page, the edit page and the stand-alone talent form, each with its
  draft, its skill editor, its field validation and its submit handler;
- the dashboard's derived views: the experience-range filter, the sort, the
  popular skills, the CSV export text, the card labels and the choice of page
  body;
- the details page (lookup, redirect, initials, labels, delete handler), the
  skill filter panel and the list component.

Modules, one per file:

| file | module | models |
|---|---|---|
| seqs.dfy | `Seqs` | `Option`, `filter`, subsequences, first occurrences, `new Set(...)` order, a stable insertion sort |
| text.dfy | `Text` | `trim`, ASCII case folding, `includes`, `split`/`join`, number to text, string order |
| talents.dfy | `Talents` | the record, the skill search, removal, lookup and replacement by `_id`, distinct skills, experience levels |
| thunks.dfy | `Thunks` | what the four asynchronous operations report, and their fallback messages |
| talents_slice.dfy | `TalentsSlice` | the slice's state as a value with `Reduce`, and the class `Store` with one method per reducer case |
| validation.dfy | `Validation` | drafts, the four field checks, the email pattern, the errors object, the record sent |
| skill_tags.dfy | `SkillTags` | the tag editor and the comma-separated skills text |
| add_talent.dfy | `AddTalent` | class `AddTalentForm`, the add page |
| edit_talent.dfy | `EditTalent` | class `EditTalentForm`, the edit page |
| talent_form.dfy | `TalentForm` | class `TalentFormState`, the stand-alone form |
| dashboard.dfy | `Dashboard` | the dashboard's derived views |
| talent_details.dfy | `TalentDetails` | the details page |
| skill_filter.dfy | `SkillFilter` | class `FilterPanel` and the skill chips |
| talent_list.dfy | `TalentList` | the list component's panels |

The store and the forms change state in place, so they are classes. Each
class has a method per handler, and each method states its new state
against a function of the old one: `TalentsSlice.Reduce` for the store, and
`Validation.Errors` and `SkillTags.AddTag` for the forms. The HTTP answer of
each operation is an `Outcome` parameter (`Fulfilled(value)` or
`Rejected(message)`). A handler that awaits an operation performs the
pending case and then the settled case. Navigation is a returned route.
Timers are methods that the page would call when the timer fires.

## Model

| member | source | states |
|---|---|---|
| TalentsSlice.Store.constructor | src/redux/slices/talentsSlice.js:4-11 | the initial state: no records, not loading, no messages, empty filter |
| TalentsSlice.InitialStateInvariants | src/redux/slices/talentsSlice.js:4-11 | the initial state satisfies both store invariants |
| TalentsSlice.Store.ClearMessages | src/redux/slices/talentsSlice.js:17-20 | `error` and `successMessage` become null; nothing else changes |
| TalentsSlice.Store.SetFilter | src/redux/slices/talentsSlice.js:21-31 | the filter is stored and the shown list becomes the filter applied to `talents` (all records for an empty filter); the rest is unchanged |
| TalentsSlice.SetFilterSpec | src/redux/slices/talentsSlice.js:21-31 | after `setFilter(f)` the shown list holds exactly the records with a skill matching `f`, in order; applying it twice equals once |
| TalentsSlice.Store.Pending | src/redux/slices/talentsSlice.js:36-39 | every pending case sets `loading` and clears `error` only |
| TalentsSlice.Store.Rejected | src/redux/slices/talentsSlice.js:46-49 | every rejected case clears `loading` and stores the message only |
| TalentsSlice.PendingRejectedSpec | src/redux/slices/talentsSlice.js:36-49 | the whole state after a pending and after a rejected case, for every operation |
| TalentsSlice.Store.FetchFulfilled | src/redux/slices/talentsSlice.js:40-45 | both lists become the payload, `loading` and `error` are cleared |
| TalentsSlice.FetchFulfilledConsistency | src/redux/slices/talentsSlice.js:40-45 | after a fetch, the shown list agrees with the filter iff the filter keeps every fetched record |
| TalentsSlice.StaleListAfterRefetch | src/redux/slices/talentsSlice.js:40-45 | with filter "go" set, a fetch of one "Rust" record shows it anyway: the filter and the list disagree |
| TalentsSlice.Store.AddFulfilled | src/redux/slices/talentsSlice.js:57-69 | the record is put first, the shown list is recomputed from the filter, the success message is set |
| TalentsSlice.AddFulfilledSpec | src/redux/slices/talentsSlice.js:57-69 | `talents` grows by one with the new record first and the old list after it |
| TalentsSlice.Store.UpdateFulfilled | src/redux/slices/talentsSlice.js:81-96 | the first record with the payload's id is replaced, the shown list is recomputed, the success message is set |
| TalentsSlice.UpdateFulfilledSpec | src/redux/slices/talentsSlice.js:81-96 | length kept; only the first record with the id changes; with no such record the list is unchanged but success is still reported |
| TalentsSlice.Store.DeleteFulfilled | src/redux/slices/talentsSlice.js:108-116 | the id is removed from both lists directly and the success message is set |
| TalentsSlice.DeleteFulfilledSpec | src/redux/slices/talentsSlice.js:108-116 | with unique ids, exactly the record with the id leaves both lists, the others keep their order, and the list shrinks by one iff the id was present |
| TalentsSlice.Store.Dispatch | src/redux/slices/talentsSlice.js:16-121 | every action leaves the store equal to `Reduce` of the old state and keeps the shown list a subsequence of `talents` |
| TalentsSlice.ReduceKeepsSubsequence | src/redux/slices/talentsSlice.js:16-121 | every transition keeps the shown list a subsequence of `talents` |
| TalentsSlice.ReduceKeepsConsistent | src/redux/slices/talentsSlice.js:17-120 | every transition except a fulfilled fetch keeps the shown list equal to the filter applied to `talents` |
| TalentsSlice.RunKeepsSubsequence | src/redux/slices/talentsSlice.js:16-121 | any run of actions keeps the subsequence invariant |
| TalentsSlice.RunKeepsConsistent | src/redux/slices/talentsSlice.js:16-121 | any run with no fetch fulfilled under a non-empty filter keeps the filter invariant |
| TalentsSlice.RejectedFetchScenario | src/redux/slices/talentsSlice.js:36-49 | a rejected first fetch ends not loading, with the message and no records |
| Thunks.RejectionMessage | src/redux/thunks/talentsThunks.js:11-15 | the server's message when it is non-empty, otherwise the operation's fallback; never empty |
| TalentsSlice.Store.Await | src/redux/thunks/talentsThunks.js:20-47 | awaiting an add or update applies its pending case, then its settled case; the result is the rejected, add-fulfilled or update-fulfilled case applied to the state before the call, as the outcome says |
| TalentsSlice.Store.AwaitDelete | src/redux/thunks/talentsThunks.js:50-62 | awaiting a delete applies its pending case, then its settled case; the result is the rejected case, or the delete-fulfilled case for the id the thunk was given, applied to the state before the call |
| TalentsSlice.Store.AwaitFetch | src/redux/thunks/talentsThunks.js:5-17 | awaiting a fetch applies its pending case, then its settled case; the result is the rejected case, or the fetch-fulfilled case with the server's list, applied to the state before the call |
| Talents.FilterView | src/redux/slices/talentsSlice.js:23-30 | an empty filter keeps every record; otherwise exactly the records with a skill containing the filter, case-insensitively, in order |
| Talents.FilterViewIdempotent | src/redux/slices/talentsSlice.js:21-31 | filtering the shown list again by the same filter changes nothing |
| Talents.NoSkillsNeverMatches | src/redux/slices/talentsSlice.js:27-29 | a record without skills never matches a non-empty filter |
| Talents.WithoutIdSpec | src/redux/slices/talentsSlice.js:110-113 | removal keeps exactly the records with another id, in order, and changes nothing when the id is absent |
| Talents.WithoutIdCommutes | src/redux/slices/talentsSlice.js:108-113 | removing by id and filtering by skill commute, so direct removal from the shown list stays consistent |
| Talents.WithoutIdRemovesOne | src/redux/slices/talentsSlice.js:110 | with unique ids, removal shrinks the list by one iff the id is present |
| Talents.IndexOfId | src/redux/slices/talentsSlice.js:83 | `findIndex`: the first position with the id, or -1 iff none |
| Talents.ReplaceFirstById | src/redux/slices/talentsSlice.js:83-86 | the record at that position becomes the payload and every other position is unchanged |
| Talents.ReplaceKeepsUniqueIds | src/redux/slices/talentsSlice.js:83-86 | replacement keeps ids unique |
| Talents.PrependKeepsUniqueIds | src/redux/slices/talentsSlice.js:59 | prepending a record with a new id keeps ids unique |
| Talents.FindById | src/pages/TalentDetails.jsx:29 | `find`: none iff no record has the id, otherwise the first record with it |
| Talents.AllSkills | src/pages/Dashboard.jsx:44 | every skill of every record, once, in order of first occurrence |
| Talents.CountLabel | src/pages/Dashboard.jsx:317 | the count followed by "Talent", with a final "s" iff the count is not 1 |
| Talents.LevelOf | src/pages/Dashboard.jsx:355-360 | the tier: up to 2, up to 5, up to 10, above 10 |
| Talents.LevelMonotonic | src/pages/Dashboard.jsx:355-360 | more experience never gives a lower tier |
| Validation.Apply | src/pages/AddTalent.jsx:87-92 | read through the field getter `Get`, the edited field holds the new value and every other field holds what it held |
| Validation.ApplyDetermined | src/pages/AddTalent.jsx:87-92 | any draft whose edited field holds the new value and whose other fields are unchanged is `Apply`'s result: the spread update is the only such draft |
| Validation.NameError | src/pages/AddTalent.jsx:58-62 | "Name is required" iff blank after trimming, too short iff one character, none iff at least 2 |
| Validation.IsEmailMatchesPattern | src/pages/AddTalent.jsx:64 | the executable email test accepts exactly the texts `^[^\s@]+@[^\s@]+\.[^\s@]+$` matches |
| Validation.EmailError | src/pages/AddTalent.jsx:65-69 | "Email is required" iff blank after trimming; else the page's format message iff the untrimmed text fails the test |
| Validation.EmailErrorMatchesPattern | src/pages/AddTalent.jsx:64-69 | the email passes iff it matches the pattern, so any white space, surrounding included, fails |
| Validation.SampleEmailMatches | src/pages/AddTalent.jsx:64 | "a@b.co" matches the pattern |
| Validation.ExperienceError | src/pages/AddTalent.jsx:75-81 | required (falsy value), then not negative, then at most 50; none iff truthy and from 0 to 50 |
| Validation.ZeroExperience | src/pages/EditTalent.jsx:41-48 | a typed "0" passes, a stored 0 is reported as missing |
| Validation.ExperienceOverFiftyBlocks | src/pages/AddTalent.jsx:79-81 | an experience over 50 always yields the "cannot exceed 50 years" error |
| Validation.ErrorMap | src/pages/AddTalent.jsx:55-85 | one entry per failing check, holding its message; empty iff every check passes |
| Validation.PassingDraft | src/pages/AddTalent.jsx:55-85 | a draft passes iff all four checks pass |
| Validation.PassingDraftFields | src/pages/AddTalent.jsx:55-85 | a passing draft has a trimmed name of 2+ characters, a matching email that trimming leaves alone, skills, and experience 0 to 50 |
| Validation.Validate | src/pages/AddTalent.jsx:55-85 | the errors object equals `Errors` of the draft and the result is true iff it has no keys |
| Validation.CheckName | src/pages/AddTalent.jsx:58-62 | the branch chain yields `NameError` |
| Validation.CheckEmail | src/pages/AddTalent.jsx:65-69 | the branch chain yields `EmailError` |
| Validation.CheckExperience | src/pages/AddTalent.jsx:75-81 | the branch chain yields `ExperienceError` |
| Validation.NoKeys | src/pages/AddTalent.jsx:84 | `Object.keys(errors).length === 0` iff the object is empty |
| Validation.PassingDraftGivesAcceptableInput | src/pages/AddTalent.jsx:119-131 | a passing draft sends a record with a trimmed 2+ character name, a matching email, skills and experience 0 to 50 |
| Validation.PayloadEmail | src/pages/AddTalent.jsx:128 | the sent email equals the typed one when it passes the test |
| Validation.PayloadName | src/pages/AddTalent.jsx:127 | the sent name has no white space at either end |
| Validation.ClearFieldError | src/pages/AddTalent.jsx:93-98 | a field showing a message gets the empty message; every other entry is unchanged |
| SkillTags.TagToAdd | src/pages/AddTalent.jsx:104-105 | the trimmed input is added iff it is non-empty and not already a tag |
| SkillTags.AddTagSpec | src/pages/AddTalent.jsx:101-113 | a commit appends the trimmed input at the end when new, else changes nothing |
| SkillTags.AddTagKeepsWellFormed | src/pages/AddTalent.jsx:101-113 | tags stay non-empty, trimmed and distinct |
| SkillTags.AddTagIdempotent | src/pages/AddTalent.jsx:101-113 | committing the same input twice adds it once |
| SkillTags.RemoveTagSpec | src/pages/AddTalent.jsx:115-117 | removal drops that skill and keeps the others in order |
| SkillTags.RemoveTagKeepsWellFormed | src/pages/AddTalent.jsx:115-117 | removal keeps tags non-empty, trimmed and distinct |
| SkillTags.RemoveUndoesAdd | src/pages/AddTalent.jsx:101-117 | adding a new skill and removing it gives the tags back |
| SkillTags.SplitSkills | src/components/TalentForm.jsx:73-76 | every parsed skill is non-empty, trimmed and comma-free |
| SkillTags.SplitSkillsJoin | src/components/TalentForm.jsx:73-76 | parsing skills joined with "," gives them back |
| SkillTags.CommasOnlyParseToNothing | src/components/TalentForm.jsx:35-37 | ", ," is not blank after trimming yet parses to no skill |
| AddTalent.AddTalentForm.constructor | src/pages/AddTalent.jsx:34-43 | empty draft, no tags, empty input, no errors |
| AddTalent.AddTalentForm.HandleChange | src/pages/AddTalent.jsx:87-99 | a name, email or experience edit goes into the draft and the field's message is blanked if shown; tags and input unchanged |
| AddTalent.AddTalentForm.TypeSkill | src/pages/AddTalent.jsx:284 | the skill input takes the text |
| AddTalent.AddTalentForm.HandleAddSkill | src/pages/AddTalent.jsx:101-113 | tags become `AddTag` on a commit key; when a tag is added the input empties and the skills message is blanked |
| AddTalent.AddTalentForm.HandleRemoveSkill | src/pages/AddTalent.jsx:115-117 | tags become `RemoveTag` and stay well formed |
| AddTalent.AddTalentForm.ValidateForm | src/pages/AddTalent.jsx:55-85 | the errors become those of the draft with "no tags" as the skills test; true iff none; the draft, the tags and the tag input are unchanged |
| AddTalent.AddTalentForm.HandleSubmit | src/pages/AddTalent.jsx:119-146 | nothing is sent iff the draft fails; a sent record is the trimmed, acceptable payload; the store goes through add pending then settled; a fulfilled add empties the form |
| AddTalent.AddTalentForm.AwaitAdd | src/pages/AddTalent.jsx:133-145 | the store goes through add pending then settled; the form resets iff fulfilled |
| AddTalent.SuccessTimerFires | src/pages/AddTalent.jsx:45-53 | with a success message, the messages are cleared and the route is "/"; otherwise nothing happens |
| EditTalent.SeededDraft | src/pages/EditTalent.jsx:41-48 | the draft takes the record's name, email and stored experience |
| EditTalent.SeededDraftPasses | src/pages/EditTalent.jsx:101-130 | an unedited record passes iff its trimmed name has 2+ characters, its email passes, it has a skill, and its experience is 1 to 50 |
| EditTalent.SeededPayloadRoundTrip | src/pages/EditTalent.jsx:132-146 | saving an unedited, already trimmed record sends its own fields back |
| EditTalent.EditTalentForm.constructor | src/pages/EditTalent.jsx:31-39 | empty draft, no tags, no errors, the route's id |
| EditTalent.EditTalentForm.Found | src/pages/EditTalent.jsx:28 | none iff no record has the id, otherwise the first record with it (the one at `IndexOfId`) |
| EditTalent.EditTalentForm.ShowsNotFound | src/pages/EditTalent.jsx:149-160 | "Talent not found" iff nothing is loading and no record has the id |
| EditTalent.EditTalentForm.Seed | src/pages/EditTalent.jsx:41-50 | a found record seeds the draft and the tags; otherwise nothing changes |
| EditTalent.EditTalentForm.HandleChange | src/pages/EditTalent.jsx:63-77 | a name, email or experience edit goes into the draft and the field's message is blanked if shown |
| EditTalent.EditTalentForm.TypeSkill | src/pages/EditTalent.jsx:287 | the skill input takes the text |
| EditTalent.EditTalentForm.HandleAddSkill | src/pages/EditTalent.jsx:79-94 | tags become `AddTag` on a commit key and stay well formed if they were |
| EditTalent.EditTalentForm.HandleRemoveSkill | src/pages/EditTalent.jsx:96-98 | tags become `RemoveTag` and stay well formed if they were |
| EditTalent.EditTalentForm.ValidateForm | src/pages/EditTalent.jsx:101-130 | the errors of the draft with the edit page's email message; true iff none; the draft, the tags and the tag input are unchanged |
| EditTalent.EditTalentForm.HandleSubmit | src/pages/EditTalent.jsx:132-147 | nothing is sent iff the draft fails; a sent request carries the route's id and the acceptable payload; the store goes through update pending then settled; the form is kept |
| EditTalent.EditTalentForm.SuccessTimerFires | src/pages/EditTalent.jsx:52-61 | with a success message, the messages are cleared and the route is this talent's page |
| TalentForm.WrittenSkillsMissing | src/components/TalentForm.jsx:35-37 | the check as written fails iff the text is all white space |
| TalentForm.WrittenCheckAdmitsNoSkills | src/components/TalentForm.jsx:35-37 | with the check as written, ", ," passes and the record sent has no skill and is not acceptable |
| TalentForm.IntendedCheckIsStricter | src/components/TalentForm.jsx:35-37 | every text the written check rejects, the parsed-list check rejects too |
| TalentForm.CorrectionOnlyForEmptyParse | src/components/TalentForm.jsx:35-37 | the two checks disagree exactly on a text that is not blank but parses to no skill |
| TalentForm.IntendedCheckGivesAcceptableInput | src/components/TalentForm.jsx:66-84 | with the parsed-list check, a passing draft sends an acceptable record |
| TalentForm.TalentFormState.constructor | src/components/TalentForm.jsx:10-17 | empty draft and no errors |
| TalentForm.TalentFormState.HandleChange | src/components/TalentForm.jsx:51-64 | the draft takes the edit and the field's message is blanked if shown |
| TalentForm.TalentFormState.ValidateForm | src/components/TalentForm.jsx:19-49 | the errors of the draft with the corrected skills check (see Findings); true iff none; the draft is unchanged |
| TalentForm.TalentFormState.HandleSubmit | src/components/TalentForm.jsx:66-101 | nothing is sent iff the draft fails under the corrected skills check (see Findings); a sent record is the payload with the parsed skills and is acceptable; a fulfilled add empties the form |
| TalentForm.TalentFormState.AwaitAdd | src/components/TalentForm.jsx:85-94 | the store goes through add pending then settled; the form resets iff fulfilled |
| TalentForm.ClearTimerFires | src/components/TalentForm.jsx:97-99 | the timer clears the store's messages |
| Dashboard.FilterByExperience | src/pages/Dashboard.jsx:48-61 | "all" keeps the list; otherwise exactly the records in the range, in order |
| Dashboard.RangesPartition | src/pages/Dashboard.jsx:50-57 | each non-negative experience is in exactly the range of its card tier (10 is in "6-10"); a negative one is in none |
| Dashboard.SortTalents | src/pages/Dashboard.jsx:64-80 | the result is a permutation of the input; an unknown key keeps the order |
| Dashboard.OrdersArePreorders | src/pages/Dashboard.jsx:67-76 | each comparator orders the records totally and transitively |
| Dashboard.SortTalentsStable | src/pages/Dashboard.jsx:64-80 | records that the selected key ties keep their order in the sorted copy, as `Array.prototype.sort` promises |
| Dashboard.SortTalentsOrdered | src/pages/Dashboard.jsx:64-80 | the copy is newest first, oldest first, by name, or by experience high or low, as selected |
| Dashboard.DisplayedTalentsSpec | src/pages/Dashboard.jsx:110 | the displayed records are a reordering of the shown records that are in the range |
| Dashboard.TopSkills | src/pages/Dashboard.jsx:45 | the first five distinct skills (all when fewer), distinct |
| Dashboard.TopSkillsShown | src/pages/Dashboard.jsx:276 | the popular-skills row shows iff some record has a skill |
| Dashboard.Quote | src/pages/Dashboard.jsx:95 | the cell between two double quotes |
| Dashboard.CsvLines | src/pages/Dashboard.jsx:84-96 | the header line, then one row per displayed record in order |
| Dashboard.CsvTextLines | src/pages/Dashboard.jsx:84-96 | when no field holds a line break, splitting the CSV text at line breaks gives the header and one row per record |
| Dashboard.RowOnOneLine | src/pages/Dashboard.jsx:85-95 | a row of fields without line breaks has none |
| Dashboard.CardLabel | src/pages/Dashboard.jsx:355-360 | "Junior" up to 2, "Mid-level" up to 5, "Senior" up to 10, "Expert" above |
| Dashboard.YearsBadge | src/pages/Dashboard.jsx:377 | the number then "yr", ending in "s" iff it is not 1 |
| Dashboard.CardSkills | src/pages/Dashboard.jsx:390 | the first four skills |
| Dashboard.MoreSkills | src/pages/Dashboard.jsx:395-397 | "+n more" shows iff there are more than four skills, n counting the unlisted ones |
| Dashboard.EmptyState | src/pages/Dashboard.jsx:321-339 | "No Matching Talents" iff a search text or a range is set; the add-first button iff not |
| Dashboard.SelectBody | src/pages/Dashboard.jsx:112-129 | the skeleton iff loading with no records; else the empty card iff nothing is displayed; else the grid of displayed records |
| TalentDetails.SelectPage | src/pages/TalentDetails.jsx:29 | the placeholder iff no record has the id, otherwise the profile of the first record with it (the one at `IndexOfId`) |
| TalentDetails.RedirectOnlyFromPlaceholder | src/pages/TalentDetails.jsx:31-35 | the page redirects iff no record has the id and nothing is loading |
| TalentDetails.DeletedTalentRedirects | src/pages/TalentDetails.jsx:31-40 | after a fulfilled delete of the page's record the page redirects |
| TalentDetails.RejectedDeleteKeepsProfile | src/pages/TalentDetails.jsx:37-40 | a rejected delete keeps the profile shown and reports the message |
| TalentDetails.HandleDelete | src/pages/TalentDetails.jsx:37-40 | the store goes through delete pending then settled, and the route is "/" whatever the outcome |
| TalentDetails.FirstChars | src/pages/TalentDetails.jsx:57-59 | one character per non-empty piece, its first |
| TalentDetails.Initials | src/pages/TalentDetails.jsx:55-62 | at most two characters, a prefix of the upper-cased first characters of the space-separated pieces |
| TalentDetails.InitialsOfWords | src/pages/TalentDetails.jsx:55-62 | a name of words separated by single spaces gets the upper-cased first letters of its first two words |
| TalentDetails.DetailsLabel | src/pages/TalentDetails.jsx:72-93 | "Junior Developer" up to 2, "Mid-level Developer" up to 5, "Senior Developer" up to 10, "Expert/Lead" above |
| TalentDetails.LabelsAgree | src/pages/TalentDetails.jsx:72-93 | the page and the card put every record in the same tier |
| TalentDetails.YearsWord | src/pages/TalentDetails.jsx:199 | "Year" iff 1, otherwise "Years" |
| TalentDetails.SkillsWord | src/pages/TalentDetails.jsx:219 | "skill" iff 1, otherwise "skills" |
| SkillFilter.SortedSkills | src/components/SkillFilter.jsx:22 | every skill of every record, once each, in sorted order |
| SkillFilter.SortedCopy | src/components/SkillFilter.jsx:22 | sorting distinct skills keeps them distinct and keeps each |
| SkillFilter.SkillOrderIsPreorder | src/components/SkillFilter.jsx:22 | the default string order is total and transitive |
| SkillFilter.Chips | src/components/SkillFilter.jsx:50 | the first ten sorted skills |
| SkillFilter.ChipsShown | src/components/SkillFilter.jsx:46 | the chip row shows iff some record has a skill |
| SkillFilter.ChipFindsItsRecords | src/components/SkillFilter.jsx:53-56 | searching for a listed skill keeps every record that has it, so the list is never empty |
| SkillFilter.FilterPanel.constructor | src/components/SkillFilter.jsx:8 | the input starts from the store's search text |
| SkillFilter.FilterPanel.ShowsClear | src/components/SkillFilter.jsx:36 | the clear button shows iff the input is non-empty |
| SkillFilter.FilterPanel.HandleFilterChange | src/components/SkillFilter.jsx:10-14 | the input and the store's filter both become the typed text |
| SkillFilter.FilterPanel.HandleClear | src/components/SkillFilter.jsx:16-19 | the input empties and the store shows every record again |
| SkillFilter.FilterPanel.PickChip | src/components/SkillFilter.jsx:53-56 | the input and the filter become the skill; a listed chip gives a non-empty list |
| TalentList.SelectListView | src/components/TalentList.jsx:16-127 | spinner iff loading with nothing shown; else the error panel iff an error message is set; else the empty panel; else the list with its count |
| TalentList.FetchViews | src/components/TalentList.jsx:12-14 | while a fetch is pending the list keeps what it had; a rejection shows the error panel; a fulfilment shows neither spinner nor error |
| TalentList.FetchAgain | src/components/TalentList.jsx:66 | the store goes through fetch pending then settled; a rejection shows its message |
| Text.SplitJoin | src/pages/Dashboard.jsx:93-96 | splitting a join of separator-free pieces gives the pieces back |
| Text.LexLeTotal | src/pages/Dashboard.jsx:68 | the string order is total |
| Text.LexLeTransitive | src/pages/Dashboard.jsx:68 | the string order is transitive |
| Seqs.Dedupe | src/pages/Dashboard.jsx:44 | `new Set`: distinct, same members, order of first occurrence |
| Seqs.SortIsSorted | src/pages/Dashboard.jsx:64-80 | the insertion sort's result is ordered |
| Seqs.SortIsStable | src/pages/Dashboard.jsx:64-80 | the sort is stable: the elements tied with any given one keep their relative order |
| Seqs.FilterMultiset | src/redux/slices/talentsSlice.js:23-30 | `filter` keeps every copy of each element that passes and no copy of one that fails |
| Seqs.PermutationKeepsNoDuplicates | src/components/SkillFilter.jsx:22 | sorting distinct values keeps them distinct |

## Left out

- The HTTP client and the server: each operation's answer is an `Outcome` parameter. Request bodies, status codes and the skill query of the fetch call are not modelled.
- Timers and navigation: the success and clear timers are methods to call when the timer fires, and a route is a returned string. Cancelling a timer when a page unmounts is not modelled.
- Dashboard's `handleSearch`, `handleClearSearch` and the fetch on mount: they dispatch the same actions as `SkillFilter.FilterPanel` and `TalentList.FetchAgain`, so they are not repeated.
- Dashboard's average experience: it uses floating point and `toFixed(1)`, which are not modelled.
- The CSV file download (Blob, object URL, anchor click, file name from the current date) is I/O. The CSV text itself is modelled.
- Dates: `createdAt` is an integer timestamp. The locale date text in the CSV is a parameter. The details page's date formatting is not modelled.
- Dashboard.SortTalents: the name sort uses character-code order in place of `localeCompare`. Locale collation is not modelled.
- SkillFilter.SortedSkills: the default `sort()` compares UTF-16 code units; the model compares characters, which is the same order for text without surrogate pairs.
- Text.Lower and Text.Upper fold ASCII letters only. White space for `trim` and `\s` is an explicit character set; Unicode tables are not modelled.
- Validation.NumberOf: the experience field holds whole numbers. Fractional or exponent text and `NaN` from `Number(...)` are not modelled.
- The edit page's draft has no skills text; its `skills` stays empty and only the tag list is used, as on the page.
- The pages' markup, CSS classes, icons, dialogs (the delete confirmation's open state) and the clipboard copy are presentation and are not modelled.
- Concurrency: two operations in flight at once are not modelled; each handler awaits one operation, whose two cases are applied back to back.
- TalentsSlice.Store.Rejected: the pending and rejected cases leave `successMessage` as it was, as the reducers do.
- TalentForm.TalentFormState.ValidateForm runs the corrected skills check (the parsed list is empty) instead of the trimmed-text check at src/components/TalentForm.jsx:35, so it rejects a text such as ", ," that the form as written accepts. The written check is `TalentForm.WrittenSkillsMissing`, and `TalentForm.CorrectionOnlyForEmptyParse` states where the two differ.
- TalentForm.TalentFormState.HandleSubmit sends nothing for a skills text that parses to no skill, where the form as written sends `skills: []` (`TalentForm.WrittenCheckAdmitsNoSkills`).
- Validation.NameError counts characters, while `length` in JavaScript counts UTF-16 code units: a name made of one character outside the Basic Multilingual Plane has length 2 there and passes, while the model reports it as too short.
- TalentDetails.FirstChars takes the first character of each piece, while `n[0]` in JavaScript takes the first UTF-16 code unit, which is half a surrogate pair for a character outside the Basic Multilingual Plane.
- TalentDetails.Initials works on characters for the same reason; for names made of characters of the Basic Multilingual Plane the two agree.

## Findings

| source | as written | input that shows it | evidently intended | confidence | as-written member | corrected member |
|---|---|---|---|---|---|---|
| src/components/TalentForm.jsx:35-37 | the skills check tests only that the trimmed text is non-empty, while the record sent holds the text split at commas, trimmed, with empty pieces dropped (73-76) | skills text ", ," with valid name, email and experience: the form passes and sends `skills: []` | "At least one skill is required" should hold of the parsed list: reject when it is empty | high (derived from the code, not executed) | TalentForm.WrittenCheckAdmitsNoSkills | TalentForm.IntendedCheckGivesAcceptableInput, TalentForm.TalentFormState.ValidateForm, TalentForm.TalentFormState.HandleSubmit |
