# TopHive sales briefings: a verified model of the decision logic

TopHive is a web app that prepares sales-meeting briefings. A signed-in user:

1. looks up a company (a name filter over a fixed table of ten companies);
2. picks a meeting type, a contact and focus areas;
3. generates a briefing.

Generating writes a request row and then a briefing row to the hosted store. It runs a mock generator in between and shows a simulated progress bar. The result page loads a briefing and shows it with notes and feedback.

This project models the logic behind these screens. Screen layout is not modelled.

- Pure pieces are Dafny functions and lemmas:
  - the company search filter and the logo-URL convention;
  - the password-strength scorer;
  - the progress-stage message;
  - the route guard;
  - the briefing badge;
  - the generator's shape;
  - the result page's string helpers (website without scheme, contact initials).
- Stateful pieces are classes whose methods change the component's fields:
  - both briefing forms;
  - the company lookup widget;
  - the briefing card;
  - the result page;
  - the sign-up form.
- The interval's progress ticks form a loop (`ProgressClamp.RunTicks`). It is proved against `AfterTicks`, the function that specifies it.

Modules follow the source files:

| module | source file |
|---|---|
| `ClearbitService` | `src/services/clearbitService.ts` |
| `SignUp` | `src/pages/SignUp.tsx` |
| `BriefingFormPage` | `src/pages/briefing/BriefingFormPage.tsx` |
| `BriefingForm` | `src/pages/BriefingForm.tsx` |
| `CompanyLookup` | `src/components/CompanyLookup.tsx` |
| `GenerationProgress` | `src/pages/briefing/components/BriefingGenerationProgress.tsx` |
| `ProtectedRoute` | `src/components/ProtectedRoute.tsx` |
| `BriefingCard` | `src/components/BriefingCard.tsx` |
| `BriefingService` | `src/utils/briefingService.ts` |
| `BriefingResult` | `src/pages/BriefingResult.tsx` |

Shared modules:

| module | holds |
|---|---|
| `Wrappers` | `Option`, `Result` |
| `Sequences` | subsequences |
| `Text` | the JavaScript string operations the code uses |
| `Domain` | the records and the notifications ("toasts") |
| `FocusAreas` | the focus-area toggle both forms share |
| `ProgressClamp` | the clamped progress counter both forms share |

Inputs that come from outside the code are parameters of the operations that use them:

- the clock and the random briefing id (`BriefingService.Ambient`);
- the random progress increments (`ticks`);
- the signed-in user;
- each store insert's answer (`InsertOutcome`);
- whether the generator's promise rejects.

Behaviour the model keeps as the code has it, although a reader might expect otherwise:

- There is no normaliser for stored briefings, and no operation that updates notes. `getBriefingById` is a fixture that knows only id "1".
- The request row is inserted with status "generating" and never updated afterwards.
- The lookup's outside-click listener drops focus only while the results card is mounted. A click outside while the card is closed (for example after clearing the query with a search still running) keeps focus, so results that arrive later open the card (`CompanyLookup.Lookup.ClickOutside`).
- The lookup widget has no last-query-wins guard. A search that settles late overwrites newer results (`CompanyLookup.Lookup.FinishSearch`).
- At the service level an empty query returns all ten companies. The widget never asks for a blank query.
- After a success the two-step page leaves `isGenerating` true and navigates away. Progress is never reset to 0 before a new attempt, and a failure keeps the last clamped value.

## Model

| member | source | states |
|---|---|---|
| ClearbitService.GetLogoUrl | src/services/clearbitService.ts:124-126 | the logo URL is the logo host followed by the domain, which can be read back off the URL |
| ClearbitService.LogoUrlInjective | src/services/clearbitService.ts:124-126 | distinct domains give distinct logo URLs |
| ClearbitService.FixtureLogoAt | src/services/clearbitService.ts:23-104 | the fixture at each index has a domain, and its logo is `getLogoUrl` of that domain |
| ClearbitService.FixtureLogosFollowConvention | src/services/clearbitService.ts:23-104 | every fixture's logo equals `getLogoUrl(domain)` |
| ClearbitService.FixtureIdsDistinct | src/services/clearbitService.ts:23-104 | the fixture table has ten companies with pairwise distinct ids |
| ClearbitService.Matches | src/services/clearbitService.ts:108 | a company matches iff the lower-cased query occurs at some index of its lower-cased name |
| ClearbitService.FilterByName | src/services/clearbitService.ts:107-109 | a company is in the result iff it is in the input and its lower-cased name includes the lower-cased query; the result keeps input order (a subsequence) |
| ClearbitService.SearchCompanies | src/services/clearbitService.ts:107-111 | exactly the fixtures whose name matches, in fixture order, at most 10 of them |
| ClearbitService.FilterIgnoresQueryCase | src/services/clearbitService.ts:108 | filtering by a query and by its lower-cased form gives the same list |
| ClearbitService.SearchIgnoresQueryCase | src/services/clearbitService.ts:108 | `searchCompanies(q) == searchCompanies(q.toLowerCase())` |
| ClearbitService.FilterEmptyQueryKeepsAll | src/services/clearbitService.ts:107-109 | the empty query keeps every company, since every name includes "" |
| ClearbitService.EmptyQueryReturnsAll | src/services/clearbitService.ts:107-111 | the empty query returns the whole fixture table |
| ClearbitService.FilterNoneMatch | src/services/clearbitService.ts:107-109 | when no company matches, the filter returns the empty list |
| ClearbitService.OnlySnowflakeMatchesSno | src/services/clearbitService.ts:32-103 | no fixture after Snowflake has "sno" in its lower-cased name |
| ClearbitService.LowerNamesUpTo3 | src/services/clearbitService.ts:32-55 | the lower-cased names of fixtures 2-4 hold no "sn" |
| ClearbitService.LowerNamesUpTo6 | src/services/clearbitService.ts:56-79 | the lower-cased names of fixtures 5-7 hold no "sn" |
| ClearbitService.LowerNamesUpTo9 | src/services/clearbitService.ts:80-103 | the lower-cased names of fixtures 8-10 hold no "sn" |
| ClearbitService.FilterOnlyHead | src/services/clearbitService.ts:107-109 | when only the first company matches, the filter returns just that company |
| ClearbitService.SearchSnoFindsSnowflake | src/services/clearbitService.ts:24-31 | the query "sno" returns exactly `[Snowflake]` |
| Text.Lower | src/services/clearbitService.ts:108 | `toLowerCase` keeps the length and lowers each ASCII letter in place |
| Text.LowerIdempotent | src/services/clearbitService.ts:108 | lower-casing twice is lower-casing once |
| Text.Utf16Length | src/pages/SignUp.tsx:34 | `length` counts UTF-16 code units: between one and two per character |
| Text.Utf16LengthAppend | src/pages/SignUp.tsx:34 | the UTF-16 length of a concatenation is the sum of the lengths |
| Text.Utf16LengthOfBmp | src/pages/SignUp.tsx:34 | for text inside the Basic Multilingual Plane, `length` is the number of characters |
| Text.ContainsIffOccurs | src/services/clearbitService.ts:108 | `includes` holds exactly when the needle occurs at some index of the haystack |
| Text.ContainsEmpty | src/services/clearbitService.ts:107-109 | every string includes the empty string |
| Text.ContainsNoBigram | src/services/clearbitService.ts:108 | a string where the query's first two characters never stand side by side does not include the query |
| Text.TrimEmptyIffBlank | src/components/CompanyLookup.tsx:51 | `!query.trim()` holds exactly when the query is whitespace only |
| Sequences.SubsequenceLength | src/services/clearbitService.ts:107-111 | a subsequence is no longer than the sequence it comes from |
| SignUp.PasswordStrength | src/pages/SignUp.tsx:31-39 | the score is at most 4, and the empty password scores 0; it is 4 iff all four criteria hold and 0 iff none does, with the length counted in UTF-16 code units |
| SignUp.ChecklistOf | src/pages/SignUp.tsx:129-157 | each tick is its own test: UTF-16 length ≥ 8, some A-Z, some 0-9, some character outside A-Za-z0-9 |
| SignUp.FourEmojiScoreTwo | src/pages/SignUp.tsx:31-39 | four emoji are eight code units, so they score 2 (length and special character) |
| SignUp.StrengthLabel | src/pages/SignUp.tsx:111-115 | scores 0 to 3 read "Weak", "Fair", "Good", "Strong"; every score from 4 on reads "Very strong" |
| SignUp.StrengthCountsTicks | src/pages/SignUp.tsx:31-39 | the score equals the number of satisfied criteria (length ≥ 8, an A-Z, a 0-9, a character outside A-Za-z0-9), also for "" |
| SignUp.AppendNeverLowersStrength | src/pages/SignUp.tsx:34-37 | appending a character never lowers the score |
| SignUp.LowercaseOnlyScoresOne | src/pages/SignUp.tsx:34-37 | a lower-case-only password of length ≥ 8 scores exactly 1 |
| SignUp.StrengthExamples | src/pages/SignUp.tsx:31-39 | "Aaaaaaaa" scores 2, "Aa1!aaaa" scores 4, "abc" scores 0 |
| SignUp.LabelsDistinguishScores | src/pages/SignUp.tsx:111-115 | the labels of the five reachable scores are pairwise distinct |
| SignUp.Meter | src/pages/SignUp.tsx:100-160 | the meter shows only for a non-empty password, with that score's label and the four criteria ticks |
| SignUp.SignUpForm.Submit | src/pages/SignUp.tsx:18-23 | submitting sets the loading flag (which disables the button, line 167) and calls sign-up once with the form's email, password and name |
| SignUp.SignUpForm.Settle | src/pages/SignUp.tsx:24-28 | the loading flag drops (re-enabling the button) whether sign-up succeeded or threw; no further sign-up call is made |
| GenerationProgress.Stage | src/pages/briefing/components/BriefingGenerationProgress.tsx:9-19 | the stage is the number of thresholds (30, 60, 85) reached |
| GenerationProgress.ProgressMessage | src/pages/briefing/components/BriefingGenerationProgress.tsx:9-19 | below 30, [30,60), [60,85) and from 85 give the four messages in order |
| GenerationProgress.BoundariesBelongToLaterStage | src/pages/briefing/components/BriefingGenerationProgress.tsx:10-16 | 30, 60 and 85 fall into the later stage |
| GenerationProgress.StageMonotone | src/pages/briefing/components/BriefingGenerationProgress.tsx:9-19 | more progress never shows an earlier stage |
| GenerationProgress.MessageDeterminesStage | src/pages/briefing/components/BriefingGenerationProgress.tsx:9-19 | two progress values show the same message iff they are in the same stage |
| ProtectedRoute.Guard | src/components/ProtectedRoute.tsx:10-26 | the placeholder iff loading; the redirect to "/login" with replace iff not loading and no user; the children iff not loading and a user; exactly one of the three |
| BriefingCard.BadgeLabel | src/components/BriefingCard.tsx:88-90 | "Complete" iff completed, "Generating" iff generating, "Failed" for anything else |
| BriefingCard.BadgeVariantOf | src/components/BriefingCard.tsx:84-87 | the variant follows the label: default with "Complete", outline with "Generating", destructive with "Failed" |
| BriefingCard.BadgeIdentifiesStatus | src/components/BriefingCard.tsx:84-91 | the badge label, and separately the variant, tell every status apart |
| BriefingCard.ActionsEnabled | src/components/BriefingCard.tsx:140-160 | Share, Download and View are enabled iff the badge reads "Complete", i.e. iff it has the default variant |
| BriefingCard.Card.HandleFeedback | src/components/BriefingCard.tsx:40-46 | the feedback becomes the clicked kind (the last click wins), with a thank-you notice |
| BriefingCard.Card.HandleDownload | src/components/BriefingCard.tsx:26-31 | an enabled Download only raises a notice naming the briefing |
| BriefingCard.Card.HandleShare | src/components/BriefingCard.tsx:33-38 | an enabled Share only raises the link-copied notice |
| FocusAreas.Without | src/pages/briefing/BriefingFormPage.tsx:48 | the value is gone, every other value keeps its count, order is kept, and a list without the value is unchanged |
| FocusAreas.Toggled | src/pages/briefing/BriefingFormPage.tsx:44-50 | a check appends the value at the end; an uncheck removes every copy and keeps the rest |
| FocusAreas.AsOptional | src/pages/briefing/BriefingFormPage.tsx:83 | the list is null iff it is empty |
| FocusAreas.CheckAddsCopy | src/pages/briefing/BriefingFormPage.tsx:46 | checking never deduplicates: each check adds one more copy |
| FocusAreas.UncheckUndoesCheck | src/pages/briefing/BriefingFormPage.tsx:44-50 | unchecking right after checking equals unchecking alone, and restores a list that lacked the value |
| FocusAreas.UncheckIdempotent | src/pages/briefing/BriefingFormPage.tsx:48 | unchecking twice is unchecking once |
| FocusAreas.WithoutCountsRemoved | src/pages/briefing/BriefingFormPage.tsx:48 | unchecking shortens the list by exactly the number of copies removed |
| ProgressClamp.ClampedStep | src/pages/briefing/BriefingFormPage.tsx:66-69 | a tick stays below 100: the sum when below 100, otherwise 99 |
| ProgressClamp.StepNeverLowersBelowClamp | src/pages/briefing/BriefingFormPage.tsx:66-69 | from at most 99 a non-negative tick never lowers the bar |
| ProgressClamp.StepCanMoveBack | src/pages/briefing/BriefingFormPage.tsx:66-69 | above 99 the clamp moves the bar back (99.5 plus 1 shows 99) |
| ProgressClamp.AfterTicks | src/pages/briefing/BriefingFormPage.tsx:65-70 | no ticks leave the bar alone; after any tick it is below 100; non-negative ticks keep it non-negative |
| ProgressClamp.AfterTicksSplit | src/pages/briefing/BriefingFormPage.tsx:65-70 | the ticks apply one after another |
| ProgressClamp.AfterTicksMonotone | src/pages/briefing/BriefingFormPage.tsx:65-70 | from a start of at most 99, non-negative ticks never lower the bar |
| ProgressClamp.AfterTicksAboveClamp | src/pages/briefing/BriefingFormPage.tsx:65-70 | from above 99 the bar stays in [99, 100) |
| ProgressClamp.RunTicks | src/pages/briefing/BriefingFormPage.tsx:65-70 | the interval's ticks, applied in a loop, give `AfterTicks` of the ticks |
| Domain.BareCompany | src/components/CompanyLookup.tsx:83 | a company with the given id and name and no other property |
| Domain.ContactPerson | src/pages/briefing/BriefingFormPage.tsx:18-22 | a contact with id, name and title and no other property |
| Domain.FindById | src/pages/briefing/BriefingFormPage.tsx:93-95 | `find` returns the first contact with the id, or none iff no contact has it |
| Domain.SelectedContactObject | src/pages/briefing/BriefingFormPage.tsx:92-95 | no contact for no or the empty selection or an unknown id; otherwise the reference contact with that id |
| Domain.SelectedContactExamples | src/pages/briefing/BriefingFormPage.tsx:171-177 | picking "2" hands over John Rogers; "4" hands over nothing |
| BriefingFormPage.RequestRowOf | src/pages/briefing/BriefingFormPage.tsx:76-85 | the request row carries the user, company, meeting type and contact, status "generating", and focus areas null iff empty |
| BriefingFormPage.ContactToJson | src/pages/briefing/BriefingFormPage.tsx:108-115 | one contact keeps its id, name, title, company and activity; its LinkedIn is null iff falsy and kept otherwise |
| BriefingFormPage.KeyContactsJson | src/pages/briefing/BriefingFormPage.tsx:108-115 | the same contacts in order, with id, name, title, company and activity kept and a falsy LinkedIn made null |
| BriefingFormPage.KeyContactsJsonAppend | src/pages/briefing/BriefingFormPage.tsx:108-115 | the reshaping works contact by contact, so it distributes over concatenation |
| BriefingFormPage.BriefingRowOf | src/pages/briefing/BriefingFormPage.tsx:117-133 | the row carries the request id and the briefing's title, summary, overview, insights, hypotheses, competitors and talking points, its contacts reshaped one by one, and status "completed" |
| BriefingFormPage.Blocked | src/pages/briefing/BriefingFormPage.tsx:53 | nobody signed in always blocks; for a signed-in user the guard blocks exactly while no company with an id is selected (the lookup's search view) |
| BriefingFormPage.Succeeds | src/pages/briefing/BriefingFormPage.tsx:74-168 | a failed request or a rejected generator fails; a request without an id succeeds without a briefing row; with an id it succeeds iff the briefing row is stored |
| BriefingFormPage.StoredBriefingId | src/pages/briefing/BriefingFormPage.tsx:105-137 | an id exists only when the request came back with an id and the briefing insert succeeded, and it is that insert's id |
| BriefingFormPage.NavigationTarget | src/pages/briefing/BriefingFormPage.tsx:148-154 | `/briefing/<id>` for a returned briefing id, else `/dashboard` |
| BriefingFormPage.NavigationOpensBriefingIffId | src/pages/briefing/BriefingFormPage.tsx:148-154 | the page opens a briefing iff the store returned a briefing id |
| BriefingFormPage.GenerationWrites | src/pages/briefing/BriefingFormPage.tsx:74-137 | first the request row; a second, briefing row iff the generator ran and the request came back with an id |
| BriefingFormPage.RunGeneration | src/pages/briefing/BriefingFormPage.tsx:72-137 | writes exactly `GenerationWrites`; no briefing insert after a failed request; the generator gets the company, meeting type, picked contact and focus list (undefined when empty); it succeeds iff every step did |
| BriefingFormPage.Page.ShowsDetails | src/pages/briefing/BriefingFormPage.tsx:205-214 | the details step shows iff not generating, on the details step, with a company selected that has an id |
| BriefingFormPage.Page.HandleCompanySelect | src/pages/briefing/BriefingFormPage.tsx:37-42 | the company is always stored; the step moves to details iff its id is non-empty, else it is unchanged; the details then show iff the id is non-empty (and no generation runs) |
| BriefingFormPage.Page.HandleFocusChange | src/pages/briefing/BriefingFormPage.tsx:44-50 | the focus list becomes `Toggled` of the old one; nothing else changes |
| BriefingFormPage.Page.HandleGenerate | src/pages/briefing/BriefingFormPage.tsx:52-168 | a blocked attempt (no company, empty id or no user) only raises a notice: no writes and no generating; otherwise the request and briefing writes; success sets 100 and navigates to the stored briefing or the dashboard; failure clears generating and keeps the clamped progress |
| BriefingFormPage.Page.GenerateAfterGuard | src/pages/briefing/BriefingFormPage.tsx:62-168 | past the guard: the form fields are kept, the writes are `GenerationWrites`, success leaves generating on at 100 with a notice and the navigation, failure turns generating off at the clamped progress with a failure notice |
| BriefingForm.StatusMessage | src/pages/BriefingForm.tsx:156-164 | the form's inline message uses the same thresholds 30, 60, 85 and texts as the progress panel (`GenerationProgress.ProgressMessage`) |
| BriefingForm.GenerateEnabled | src/pages/BriefingForm.tsx:263 | the Generate button is enabled iff a company with a truthy id is selected, i.e. iff the lookup widget shows a selection rather than the search box |
| BriefingForm.Form.ProgressText | src/pages/BriefingForm.tsx:144-165 | a message shows iff generating, and it is the progress panel's message for the current progress, one of the four stage messages |
| BriefingForm.Form.HandleCompanySelect | src/pages/BriefingForm.tsx:47-49 | the company is stored whatever its id; Generate is enabled iff the id is non-empty |
| BriefingForm.Form.HandleFocusChange | src/pages/BriefingForm.tsx:51-57 | the focus list becomes `Toggled` of the old one, as on the two-step page |
| BriefingForm.Form.HandleGenerate | src/pages/BriefingForm.tsx:59-116 | the guard is exactly the disabled button's condition (line 263); success echoes the inputs to the generator, with focus undefined when empty, sets 100 and navigates to "/briefing/1"; a rejection clears generating and keeps the clamped progress |
| CompanyLookup.CardContent | src/components/CompanyLookup.tsx:115-164 | skeleton rows iff loading, else the results iff any, else the no-match line iff the query is non-empty |
| CompanyLookup.Lookup.DropdownContent | src/components/CompanyLookup.tsx:91-110 | the card is hidden iff a company is selected (no search view), the input is not focused, or the query and the results are both empty |
| CompanyLookup.Lookup.NeverEmptyCard | src/components/CompanyLookup.tsx:110-164 | a mounted card is never empty |
| CompanyLookup.Lookup.SetQuery | src/components/CompanyLookup.tsx:50-73 | a blank query clears the results and schedules no search; any other new query schedules one |
| CompanyLookup.Lookup.FireSearch | src/components/CompanyLookup.tsx:56-61 | the debounced search starts for the query it was scheduled for, and loading begins |
| CompanyLookup.Lookup.FinishSearch | src/components/CompanyLookup.tsx:59-67 | success replaces the results with that query's matches; a failure keeps the old results; loading ends either way |
| CompanyLookup.Lookup.Focus | src/components/CompanyLookup.tsx:104 | focusing the input sets the focus flag only |
| CompanyLookup.Lookup.ClickOutside | src/components/CompanyLookup.tsx:33-41 | a click outside drops focus only while the card and the input are both mounted; otherwise focus is kept, so results that arrive later still open the card |
| CompanyLookup.ShowsSearch | src/components/CompanyLookup.tsx:91 | the search view shows iff the selection is missing or its id is falsy; otherwise a company with a non-empty id is selected |
| CompanyLookup.Lookup.HandleSelect | src/components/CompanyLookup.tsx:75-80 | hands the company over, then empties the query and the results and drops focus |
| CompanyLookup.Lookup.ClearSelection | src/components/CompanyLookup.tsx:82-87 | hands over a company with empty id and name, which the widget treats as no selection (line 91) |
| BriefingService.Rendered | src/utils/briefingService.ts:104 | a template renders an absent string as "undefined" |
| BriefingService.NumberOrNA | src/utils/briefingService.ts:104 | `${n \|\| 'N/A'}` is "N/A" iff the number is absent or 0; otherwise it is the number's decimal rendering |
| BriefingService.TextOrNA | src/utils/briefingService.ts:104 | `${s \|\| 'N/A'}` is the string when it is non-empty, else "N/A" |
| BriefingService.BriefingTitle | src/utils/briefingService.ts:92 | the title is the meeting type's label, " with ", then the company name |
| BriefingService.BriefingTitleInjective | src/utils/briefingService.ts:92 | a title determines both the meeting type and the company name |
| BriefingService.GeneratedDescription | src/utils/briefingService.ts:104 | the description opens with the company name and " is a leading provider of ", and closes with the size (or "N/A") and " employees worldwide." |
| BriefingService.GeneratedSummary | src/utils/briefingService.ts:97-102 | four summary points; the first names the company |
| BriefingService.GeneratedOverview | src/utils/briefingService.ts:103-135 | the templated description, three dated news items about the company without links, and "Strong" health with metrics |
| BriefingService.GeneratedContacts | src/utils/briefingService.ts:136-173 | three contacts with ids 1-3, all at the company, each with a LinkedIn and three activities |
| BriefingService.GeneratedInsights | src/utils/briefingService.ts:174-205 | three titled insight sections of four items each |
| BriefingService.GeneratedHypotheses | src/utils/briefingService.ts:206-211 | four hypotheses; the first names the company |
| BriefingService.GeneratedCompetitors | src/utils/briefingService.ts:212-231 | three competitors, A, B and C |
| BriefingService.GeneratedTalkingPoints | src/utils/briefingService.ts:232-238 | five talking points, all questions |
| BriefingService.GenerateMockBriefing | src/utils/briefingService.ts:81-245 | title is `<meeting type> with <company name>`; company, meeting type, contact and focus are echoed; status completed; three key contacts at the company |
| BriefingService.DescriptionOfBareCompany | src/utils/briefingService.ts:104 | a company without industry, year or size is described with "undefined" and "N/A" |
| BriefingService.RecentEntry | src/utils/briefingService.ts:262-339 | a recent-list entry keeps its id, title, company, meeting type, creation time and status, and carries only placeholder content: one sample summary point, no news, contacts, insights, hypotheses or talking points |
| BriefingService.GetRecentBriefings | src/utils/briefingService.ts:258-342 | ids "1", "2", "3" in that order; only "3" is generating; created 2, 5 and 10 days ago; the first title follows the template, the second does not |
| BriefingService.SnowflakeIntroTitle | src/utils/briefingService.ts:351 | the fixture's literal title is what the title template gives |
| BriefingService.SnowflakeOverview | src/utils/briefingService.ts:370-402 | three news items and "Strong Growth" health |
| BriefingService.SnowflakeContacts | src/utils/briefingService.ts:403-440 | three contacts with ids 1-3, all at Snowflake, each with a LinkedIn |
| BriefingService.SnowflakeInsights | src/utils/briefingService.ts:441-472 | three insight sections of four items each |
| BriefingService.SnowflakeCompetitors | src/utils/briefingService.ts:479-498 | three competitors, Databricks first |
| BriefingService.SnowflakeBullets | src/utils/briefingService.ts:364-505 | four summary points, four hypotheses, five talking points that are all questions |
| BriefingService.GetBriefingById | src/utils/briefingService.ts:345-514 | resolves iff the id is "1", else rejects with "Briefing not found"; the briefing is the completed Snowflake intro call |
| BriefingResult.StripScheme | src/pages/BriefingResult.tsx:232 | drops one leading "https://" or "http://"; the website is unchanged iff it starts with neither |
| BriefingResult.StripSchemeUndoesScheme | src/pages/BriefingResult.tsx:232 | stripping a prefixed scheme gives the address back |
| BriefingResult.StripSchemeStripsOnce | src/pages/BriefingResult.tsx:232 | only the first of two schemes is dropped |
| BriefingResult.Split | src/pages/BriefingResult.tsx:302 | `split(' ')` gives at least one piece, none holding a space |
| BriefingResult.Join | src/pages/BriefingResult.tsx:302 | the inverse of `split(' ')`: no words give "", otherwise it opens with the first word, followed by a space when more words follow |
| BriefingResult.JoinSplit | src/pages/BriefingResult.tsx:302 | joining the pieces with spaces gives the name back |
| BriefingResult.SplitWord | src/pages/BriefingResult.tsx:302 | a name without spaces is one piece |
| BriefingResult.SplitAtSpace | src/pages/BriefingResult.tsx:302 | splitting at a space splits both sides separately |
| BriefingResult.SplitJoin | src/pages/BriefingResult.tsx:302 | splitting joined space-free words gives the words back |
| BriefingResult.FirstChars | src/pages/BriefingResult.tsx:302 | one character per non-empty word at most, and no space when the words have none |
| BriefingResult.FirstCharsAppend | src/pages/BriefingResult.tsx:302 | the first characters of two word lists concatenate |
| BriefingResult.Initials | src/pages/BriefingResult.tsx:302 | the initials hold no space |
| BriefingResult.InitialsAtSpace | src/pages/BriefingResult.tsx:302 | the initials of `a b` are the initials of `a` followed by those of `b` |
| BriefingResult.InitialsOfWord | src/pages/BriefingResult.tsx:302 | one word gives its first character; an empty word gives nothing |
| BriefingResult.InitialsExample | src/pages/BriefingResult.tsx:302 | "Jane Smith" gives "JS" |
| BriefingResult.NotesOf | src/pages/BriefingResult.tsx:31 | the notes are the briefing's notes when non-empty, else "" |
| BriefingResult.AvatarOf | src/pages/BriefingResult.tsx:294-304 | the photo iff there is one, else the name's initials |
| BriefingResult.CompanyMarkOf | src/pages/BriefingResult.tsx:208-218 | the logo iff there is one, else the first character of the name |
| BriefingResult.WebsiteText | src/pages/BriefingResult.tsx:228-235 | the website shows iff present and non-empty, without its scheme |
| BriefingResult.CompetitorSection | src/pages/BriefingResult.tsx:388 | the competitor section renders iff there is a competitor analysis |
| BriefingResult.RecentActivityList | src/pages/BriefingResult.tsx:325 | the activity list renders iff present and non-empty |
| BriefingResult.ReadMoreLink | src/pages/BriefingResult.tsx:250 | the "Read more" link renders iff the news item has a non-empty url |
| BriefingResult.ViewOf | src/pages/BriefingResult.tsx:80-100 | the loading view iff loading; the not-found view iff done without a briefing; otherwise the loaded briefing |
| BriefingResult.ResultPage.LoadBriefing | src/pages/BriefingResult.tsx:24-45 | without an id nothing changes and loading continues; id "1" loads the Snowflake intro-call briefing (its company and templated title) with notes ""; any other id raises a notice, keeps the briefing null (not found) and ends loading |
| BriefingResult.ResultPage.SetNotes | src/pages/BriefingResult.tsx:508 | typing replaces the notes and nothing else |
| BriefingResult.ResultPage.HandleSaveNotes | src/pages/BriefingResult.tsx:65-70 | saving only raises a notice: notes and briefing are unchanged |
| BriefingResult.ResultPage.HandleFeedback | src/pages/BriefingResult.tsx:72-78 | the feedback becomes the clicked kind, with a thank-you notice |
| BriefingResult.ResultPage.HandleDownload | src/pages/BriefingResult.tsx:47-52 | only a "downloaded as a PDF" notice |
| BriefingResult.ResultPage.HandleShare | src/pages/BriefingResult.tsx:54-59 | only a link-copied notice |

## Left out

- Timers: the 300 ms debounce, the 800 ms interval, the generator's 3 s delay, the lookup's 1 s delay and the 500 ms wait before navigating. Navigation is recorded at once. The debounce is modelled as separate events: `SetQuery` schedules a search and `FireSearch` starts it.
- `Math.random`: the progress increments are the `ticks` input, each in [0, 15). The briefing id is `Ambient.randomId`.
- `Date`: creation times and news dates are inputs in `Ambient` (milliseconds and date strings). Locale and `Intl` formatting, `handlePrint` and `console` output are not modelled.
- The auth context and the store client are not modelled. The user and every insert's answer are inputs. Inserted rows are recorded in `Page.writes`.
- Text.Lower, ClearbitService.Matches, ClearbitService.SearchCompanies: `toLowerCase` is modelled for ASCII letters only. Non-ASCII letters such as 'É' are left as they are, where JavaScript lowers them. Some characters lower into ASCII (U+212A KELVIN SIGN becomes "k", U+0130 becomes "i" plus a combining dot), so a query containing them can match different names than the model says. Every name in the fixture table is ASCII.
- BriefingResult.FirstChars, BriefingResult.Initials, BriefingResult.CompanyMarkOf: JavaScript's `n[0]` and `charAt(0)` take the first UTF-16 code unit. For a character outside the Basic Multilingual Plane that unit is a lone surrogate, which a Dafny `char` cannot hold, so the model takes the whole first character. The two agree on text inside the Basic Multilingual Plane.
- ClearbitService.SearchCompanies: the `catch` branch (lines 112-115) is not modelled. Nothing in the `try` block can throw, so the modelled search is total.
- The generator never rejects in the shown code. `generatorRejects` stands for a rejection, so the forms' `catch` paths can be stated.
- BriefingService.GeneratedSummary, GeneratedOverview, GeneratedContacts, GeneratedInsights, GeneratedHypotheses, GeneratedCompetitors, GeneratedTalkingPoints and the Snowflake producers are methods. Their contracts state counts, ids and the templated strings, not every literal sentence. Keeping the literal-heavy fixtures behind contracts keeps every proof small.
- BriefingService.GenerateMockBriefing: its contract does not spell out the literal texts of the news, activities, insights and talking points, for the same reason.
- BriefingService.GetBriefingById: its contract states the fixed fields, not every literal sentence of the Snowflake briefing.
- The "/new-briefing" link (`src/pages/BriefingResult.tsx:489`) matches no route. Routing (`src/App.tsx`) is not part of this model.
- The result page loads through the mock `getBriefingById`, so any id other than "1", including ids the store returns, shows "not found". This is modelled as the code behaves.
- Rendering-only pieces are not modelled: the landing pages, the dashboard, the form steps' markup, the meter's colours and widths, and the metrics table.
- CompanyLookup.Lookup.ClearSelection: the call to focus the input is not modelled. The input is not mounted while a company is shown, so the call does nothing.
