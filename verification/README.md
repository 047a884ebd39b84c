# Verdienende Vrienden Club — a verified model of the platform's domain logic

The Verdienende Vrienden Club front-end is a gamified work platform. Members work through
*missions*: onboarding and task workflows made of steps. Each completed mission raises
their level by one. The pages also project earnings, search the community, and edit the
member's profile. All state lives in the browser; there is no backend.

This project models the deterministic logic behind those pages in Dafny and proves what
the pages promise:

- **Mission catalogue** (`constants.ts`). `createMission` gives every mission one XP and
  derives the step ids `<id>_s1`, `<id>_s2`, ... from the mission id.
  `generateMissionLibrary` pushes 110 missions in nine groups. It is modelled as a method
  with loops, one per group, proved to produce the library described by the predicate
  `IsLibrary`. Lemmas then prove three things about the library:
  - all 110 ids are distinct;
  - only the first four onboarding missions and day 1 of the check-ins are available;
  - the levels that the monthly and quality tasks require.
- **Mission list and mission execution** (`pages/Missions.tsx`).
  - The list filter (tab, status override, case-insensitive search, category, priority,
    level range), the category pills, the active-filter count and "clear filters".
  - `MissionRun`, a class for one mission being carried out step by step. A step is
    validated before the user may move on, completed step ids are recorded without
    duplicates, and the index never passes the last step. Finishing hands the mission id
    to the shell.
- **Application shell** (`App.tsx`). `AppState` holds the signed-in flag, the user, the
  missions, the notifications and the pending level-up. Completing a mission does four
  things:
  - it marks exactly the missions with that id as completed;
  - it raises the level by one and resets XP;
  - it hands the new level to the level-up modal;
  - it puts one unread notification in front of the others.
- **Dashboard** (`pages/Dashboard.tsx`): the first prio mission that is available, the top
  three active missions, step progress, and the unread badge.
- **Earnings calculator** (`components/EarningsCalculator.tsx`). The wage, the bonus and the
  twelve-month `chartData` loop are modelled. The loop is proved equal to a closed-form
  projection. The year figures and the bounds that follow from the sliders' ranges are
  proved too.
- **Community search** (`pages/Community.tsx`), **profile editing** (`pages/Profile.tsx`),
  the **sidebar** (`components/Layout.tsx`) and the **translation lookup**
  (`context/LanguageContext.tsx`).

Some behaviours fall out of the proofs:

- No mission of the generated library has the id `m_001`. The dashboard's exception for a
  completed `m_001` therefore never applies, and a completed library mission always
  leaves the dashboard (`App.LibraryDashboardHasNoCompleted`).
- Navigation groups are collapsed under their *translated* title. A group whose Dutch and
  English titles differ ("Netwerk & Groei" / "Network & Growth") opens again when the
  language changes (`Layout.GroupStateFollowsLanguage`).
- Cancelling the profile editor keeps what was typed into the form
  (`Profile.ProfileEditor.Cancel`).
- The level-up modal is not shown when the new level is 0, because the JavaScript
  condition `showLevelUp && ...` treats 0 as false (`App.LevelUpModal`).

Files:

| file | contents |
|---|---|
| `types.dfy` | the records: mission, step, user, team, notification; `Option`, `Result` |
| `seqs.dfy` | `Array.filter`, `slice(0, n)`, sub-lists, duplicates |
| `text.dfy` | `toLowerCase`, `includes`, `trim`, `split`, `join`, decimal numbers |
| `missions.dfy` | the mission list and `MissionRun` |
| `constants.dfy` | `createMission` and the library generator |
| `app.dfy` | the shell's state and completion |
| `dashboard.dfy` | the dashboard's projections |
| `earnings.dfy` | the earnings calculator |
| `community.dfy` | the community page |
| `profile.dfy` | the profile editor |
| `layout.dfy` | the sidebar and the theme and language buttons |
| `language.dfy` | the translation table and the language context |

## Model

| member | source | states |
|---|---|---|
| Types.StepIds | pages/Missions.tsx:462 | the ids of a mission's steps, one per step, in step order |
| Seqs.Filter | pages/Missions.tsx:32-62 | `filter` returns an order-preserving sub-list of its input that holds every passing element exactly as often as the input does, and no other element |
| Seqs.FilterMembers | pages/Community.tsx:15-19 | an element is in the filtered list exactly when it is in the input and passes the test |
| Seqs.FilterKeepsAll | pages/Community.tsx:15-19 | when every element passes, filtering returns the input unchanged |
| Seqs.FilterAppend | App.tsx:78 | filtering distributes over concatenation |
| Seqs.FilterCongruent | pages/Missions.tsx:32-62 | two tests that agree on every element filter alike |
| Seqs.Take | pages/Dashboard.tsx:83 | `slice(0, n)` returns the first `n` elements, or the whole list when it is shorter |
| Seqs.ElementsCardinality | pages/Missions.tsx:28 | a list has at least as many entries as distinct elements, and exactly as many when it has no duplicates |
| Seqs.NoDuplicatesBounded | pages/Missions.tsx:422 | a duplicate-free list drawn from another list is no longer than that list |
| Text.LowerChar | pages/Missions.tsx:42-44 | `toLowerCase` maps upper-case ASCII letters to lower case and keeps every other character |
| Text.Lower | pages/Community.tsx:16-18 | lower-casing keeps the length and lower-cases each character |
| Text.LowerIdempotent | pages/Community.tsx:16-18 | lower-casing twice is the same as lower-casing once |
| Text.ContainsIff | pages/Missions.tsx:42-44 | `includes` holds exactly when the substring occurs at some offset |
| Text.ContainsEmpty | pages/Missions.tsx:42-44 | every string includes the empty string |
| Text.Contains | pages/Missions.tsx:42-44 | definition of `includes` by positional search |
| Text.Join | pages/Profile.tsx:43 | definition of `join` with a one-string separator |
| Text.TrimStart | pages/Profile.tsx:64 | removes exactly the leading white space |
| Text.TrimEnd | pages/Profile.tsx:64 | removes exactly the trailing white space |
| Text.Trim | pages/Profile.tsx:64 | `trim` returns an infix with no white space at its ends, and everything cut off is white space |
| Text.TrimTrimmed | pages/Profile.tsx:64 | trimming a trimmed string changes nothing |
| Text.TrimLeadingSpace | pages/Profile.tsx:43 | trimming removes the blank that a `", "` join puts before an entry |
| Text.Split | pages/Profile.tsx:64 | `split(',')` gives at least one piece, and no piece contains the separator |
| Text.FirstPiece | pages/Profile.tsx:64 | the text before the first separator contains no separator |
| Text.LaterPieces | pages/Profile.tsx:64 | no piece after the first separator contains the separator |
| Text.SplitAtSeparator | pages/Profile.tsx:64 | a leading separator gives an empty first piece |
| Text.JoinSplit | pages/Profile.tsx:43 | joining the pieces of a split with its separator gives back the string |
| Text.SplitNoSeparator | pages/Profile.tsx:64 | splitting a string without the separator gives one piece |
| Text.SplitCons | pages/Profile.tsx:64 | a separator-free piece followed by the separator starts a new piece |
| Text.SplitPrepend | pages/Profile.tsx:64 | a character in front of a string joins the first piece |
| Text.DigitChar | constants.ts:24 | a digit's character lies between '0' and '9' |
| Text.NatToString | constants.ts:24 | `${n}` gives decimal digits only, at least one, and at least two from 10 on |
| Text.ParseNatToString | constants.ts:24 | reading back the decimal form of a number gives the number |
| Text.NatToStringInjective | constants.ts:24 | different numbers are written differently |
| Text.PrefixedNumberInjective | constants.ts:24 | a fixed prefix followed by a number determines the number |
| Missions.RequiredLevel | pages/Missions.tsx:56 | a mission with no requirement counts as level 0; otherwise it is the required level |
| Missions.TabAdmits | pages/Missions.tsx:36-39 | definition of the tab rule: with status 'ALL', OPEN hides completed missions and COMPLETED shows only them |
| Missions.MatchesSearch | pages/Missions.tsx:42-44 | definition of the search test on the lower-cased title or description |
| Missions.MatchesCategory | pages/Missions.tsx:47 | definition of the category test |
| Missions.MatchesStatus | pages/Missions.tsx:50 | definition of the status test |
| Missions.MatchesPrio | pages/Missions.tsx:53 | definition of the prio test |
| Missions.MatchesLevel | pages/Missions.tsx:56-59 | definition of the level test, where a NaN bound compares false |
| Missions.Shown | pages/Missions.tsx:32-62 | definition of the filter callback as the conjunction of the tests above |
| Missions.ShownListFacts | pages/Missions.tsx:36-59 | every shown mission obeys the tab rule and the status filter, and a NaN level bound shows nothing |
| Missions.FilteredMissions | pages/Missions.tsx:31-63 | the filtered list is an order-preserving sub-list. A mission is shown exactly when the filter callback accepts it. With status 'ALL', the OPEN tab shows no completed mission and the COMPLETED tab shows only completed ones. Any other status overrides the tab. A NaN level bound empties the list |
| Missions.SearchIgnoresCase | pages/Missions.tsx:42-44 | an empty query rejects no mission, and the query's case does not matter |
| Missions.BlankLevelRange | pages/Missions.tsx:56-59 | blank level fields stand for the range 0..999, and a mission without a requirement passes |
| Missions.ActiveFilterCount | pages/Missions.tsx:75 | the count lies in 0..3 and is 0 exactly when status, prio and both level fields are at their defaults |
| Missions.ClearFilters | pages/Missions.tsx:66-73 | after clearing, the count is 0, the search and category are reset and the panel is closed |
| Missions.ClearedFiltersShowTab | pages/Missions.tsx:31-73 | with cleared filters, the list shows exactly the missions the tab admits whose level lies in 0..999 |
| Missions.StrictlySortedNoDuplicates | pages/Missions.tsx:28 | a strictly sorted list has no duplicates |
| Missions.InsertSorted | pages/Missions.tsx:28 | inserting into a sorted set keeps it sorted and adds exactly the new element |
| Missions.Categories | pages/Missions.tsx:28 | the category list is sorted and holds exactly the missions' categories |
| Missions.CategoriesDistinct | pages/Missions.tsx:28 | the category list has no duplicates |
| Missions.StrictlySortedUnique | pages/Missions.tsx:28 | a sorted duplicate-free list is determined by its elements |
| Missions.Validate | pages/Missions.tsx:449-460 | a step passes exactly when it asks for no input or its value is truthy. A boolean step passes only with exactly `true` |
| Missions.Truthy | pages/Missions.tsx:451 | definition of JavaScript truthiness for a form value |
| Missions.Lookup | pages/Missions.tsx:451 | definition of `formData[id]`, where a missing entry is `undefined` |
| Missions.Record | pages/Missions.tsx:462-464 | recording adds the current step id once: it is present afterwards, nothing else is added, and no duplicate appears |
| Missions.NoDuplicatesOccursOnce | pages/Missions.tsx:462-464 | in a duplicate-free list every present id occurs exactly once |
| Missions.Advance | pages/Missions.tsx:466-468 | the index grows by one unless it is on the last step, and it never passes the last step |
| Missions.RecordKeepsInvariant | pages/Missions.tsx:462-468 | recording the current step and advancing keep the run's invariant |
| Missions.RecordedAreSteps | pages/Missions.tsx:462-464 | every recorded id is a step id of the mission |
| Missions.RecordedPrefix | pages/Missions.tsx:462-468 | every step up to the current one is recorded |
| Missions.MissionRun.constructor | pages/Missions.tsx:397-400 | a run starts on the first step with nothing completed and an empty form |
| Missions.MissionRun.CurrentStep | pages/Missions.tsx:421 | the current step is a step of the mission |
| Missions.MissionRun.InputChange | pages/Missions.tsx:424-426 | one form entry is set and nothing else changes |
| Missions.MissionRun.NextStep | pages/Missions.tsx:449-469 | a refused step changes nothing. A passing step is recorded exactly once and the index advances, stopping at the last step |
| Missions.MissionRun.Finish | pages/Missions.tsx:471-490 | reachable only on the last step, where the finish button is shown (pages/Missions.tsx:753). It validates and records like a step, and hands the mission id over exactly when the step passes, by which point every step of the mission is recorded |
| Missions.MissionRun.Back | pages/Missions.tsx:746-747 | Back moves one step back and is possible only after the first step |
| Missions.MissionRun.PhaseOf | pages/Missions.tsx:632-635 | each step is exactly one of done (and recorded), current or pending |
| Missions.MissionRun.ProgressCount | pages/Missions.tsx:422 | the progress numerator is the number of recorded step ids (`completedSteps.length`). With distinct step ids it lies between the index and the number of steps |
| Missions.PrefixCompleted | pages/Missions.tsx:422 | with distinct step ids, at least as many steps are completed as the index says |
| Constants.StepIdsDistinct | constants.ts:24 | two different steps of a mission get different ids |
| Constants.BuildSteps | constants.ts:24 | step `i` gets id `<id>_s<i+1>`, keeps its spec's fields and is not completed |
| Constants.CreateMission | constants.ts:6-25 | a created mission keeps its id, title, category and description, gives 1 XP, and has the given status, prio flag and level requirement |
| Constants.CreatedSteps | constants.ts:24 | the created steps are the specs in order, with distinct ids that extend the mission id, none completed |
| Constants.CreateMissionDefaults | constants.ts:12-14 | omitted arguments give a locked, non-prio, level-0 mission |
| Constants.SectorLetter | constants.ts:218-219 | `String.fromCharCode(65 + i)` is the letter 'A' + i. The library calls it for i = 1..10, so the sectors are B to K |
| Constants.OnboardingMission | constants.ts:32-76 | definition of the five onboarding missions |
| Constants.DailyCheckIn | constants.ts:78-93 | definition of the check-in for day `i` |
| Constants.MonthlyTask | constants.ts:96-119 | definition of a monthly task for a month |
| Constants.QualityCheck | constants.ts:123-143 | definition of quality check `i` |
| Constants.PeerReview | constants.ts:147-158 | definition of peer review `i` |
| Constants.ContentTask | constants.ts:161-177 | definition of content task `i` |
| Constants.SalesLead | constants.ts:180-189 | definition of sales lead `i` |
| Constants.PartnerOutreach | constants.ts:190-201 | definition of partner outreach `i` |
| Constants.DataTask | constants.ts:204-214 | definition of data task `i` |
| Constants.InvestmentAnalysis | constants.ts:218-229 | definition of investment analysis `i` |
| Constants.PushOnboarding | constants.ts:32-76 | pushes the five onboarding missions after the existing ones |
| Constants.PushCheckIns | constants.ts:78-93 | pushes the 30 daily check-ins in day order |
| Constants.PushMonthlyTasks | constants.ts:96-119 | pushes each monthly task for months 1 to 3, task by task |
| Constants.PushQualityChecks | constants.ts:123-143 | pushes the 15 quality checks |
| Constants.PushPeerReviews | constants.ts:147-158 | pushes the 10 peer reviews |
| Constants.PushContentTasks | constants.ts:161-177 | pushes the 10 content tasks |
| Constants.PushSalesAndNetwork | constants.ts:180-201 | pushes five rounds, each a sales lead and then a partner outreach |
| Constants.PushDataTasks | constants.ts:204-214 | pushes the 8 data tasks |
| Constants.PushInvestmentAnalyses | constants.ts:218-229 | pushes the 10 investment analyses |
| Constants.GenerateMissionLibrary | constants.ts:27-232 | the generated list is the library: 110 missions, 5 + 30 + 12 + 15 + 10 + 10 + 10 + 8 + 10 in that order |
| Constants.OnboardingMissionCatalogued | constants.ts:32-76 | each onboarding mission gives 1 XP, has distinct step ids and has the status and prio flag of its place. It needs level 0, except the guidelines at level 1 |
| Constants.OnboardingLevel | constants.ts:33-72 | the first four onboarding missions need level 0 and the guidelines need level 1 |
| Constants.DailyCheckInCatalogued | constants.ts:78-93 | the check-in for day `i` is prio, available only on day 1, needs level 0, and its id encodes its place |
| Constants.MonthlyTaskCatalogued | constants.ts:96-119 | a monthly task is prio, requires its month as level, and its id encodes task and month |
| Constants.QualityCheckCatalogued | constants.ts:123-143 | a quality check is locked, not prio, and requires level `i/3 + 2` |
| Constants.PeerReviewCatalogued | constants.ts:147-158 | a peer review is locked, not prio, and requires level 5 |
| Constants.ContentTaskCatalogued | constants.ts:161-177 | a content task is locked, not prio, and requires level 3 |
| Constants.SalesLeadCatalogued | constants.ts:180-189 | a sales lead is locked, not prio, and requires level 4 |
| Constants.PartnerOutreachCatalogued | constants.ts:190-201 | a partner outreach is locked, not prio, and requires level 6 |
| Constants.DataTaskCatalogued | constants.ts:204-214 | a data task is locked, not prio, and requires level 2 |
| Constants.InvestmentAnalysisCatalogued | constants.ts:218-229 | an investment analysis is locked, not prio, and requires level 8 |
| Constants.LibraryCatalogued | constants.ts:32-229 | every library mission gives 1 XP and has at least two steps with distinct ids. Only positions 0-3 and 5 are available; the rest are locked. Exactly positions 0, 1 and 5-46 are prio. Required levels lie in 0..8 |
| Constants.CataloguedIdsDistinct | constants.ts:33-228 | ids that encode different positions are different |
| Constants.LibraryIdsDistinct | constants.ts:33-228 | all 110 mission ids of the library are distinct |
| Constants.LibraryCheckIns | constants.ts:78-93 | all 30 check-ins are prio, and only day 1 is available |
| Constants.LibraryMonthlyLevels | constants.ts:103-118 | monthly task `m` requires level `m` (1..3) and is prio |
| Constants.LibraryQualityLevels | constants.ts:141 | quality check `i` requires level `i/3 + 2`, which lies in 2..6 |
| Dashboard.UpcomingMission | pages/Dashboard.tsx:17 | the card shows the first prio, available mission in list order, or none exactly when there is no such mission |
| Dashboard.UpcomingMissionIsFirst | pages/Dashboard.tsx:54-58 | the mission found is the one at the first qualifying position |
| Dashboard.ListedMissions | pages/Dashboard.tsx:83 | at most the first three active missions are listed, in order |
| Dashboard.EmptyStateIffNothingListed | pages/Dashboard.tsx:103 | the empty-state message appears exactly when no mission is listed |
| Dashboard.CompletedStepCount | pages/Dashboard.tsx:94 | the completed-step count never exceeds the step count. It equals it exactly when all steps are done, and is 0 exactly when none is |
| Dashboard.CompletedStepCountAppend | pages/Dashboard.tsx:94 | the completed-step count adds up over concatenation, which fixes its value one step at a time |
| Dashboard.UnreadCount | pages/Dashboard.tsx:134 | the badge counts unread notifications: 0 exactly when all are read, the full length exactly when none is |
| Dashboard.UnreadCountAppend | App.tsx:76 | the unread count adds up over concatenation |
| Dashboard.ListedNotifications | pages/Dashboard.tsx:137 | at most the first four notifications are listed, in order |
| App.MarkCompleted | App.tsx:51 | every mission with the id becomes completed, all others are kept, and the order and length are preserved |
| App.MarkCompletedIdempotent | App.tsx:51 | completing the same mission again changes nothing more |
| App.MarkCompletedUnknownId | App.tsx:51 | an id that no mission has leaves the list unchanged |
| App.CompletionCount | App.tsx:51 | with distinct ids, completion adds one completed mission when that mission was pending, and none otherwise |
| App.LibraryCompletionCount | App.tsx:51 | on the generated library, completion changes exactly one mission |
| App.LevelUpNotification | App.tsx:59-66 | the new notification is an unread 'success' notification stamped with the completion time |
| App.LevelUpNotificationIds | App.tsx:60 | notifications made at different times get different ids |
| App.LevelUpRaisesUnread | App.tsx:67 | putting the new notification in front raises the unread count by exactly one |
| App.LevelUpModal | App.tsx:106 | definition of `showLevelUp && …`; its value after a completion is stated by App.AppState.CompleteMission |
| App.DashboardMissions | App.tsx:78 | the dashboard gets exactly the in-progress and available missions plus a completed `m_001`, as an order-preserving sub-list |
| App.OnDashboard | App.tsx:78 | definition of the dashboard filter |
| App.CompletedLeavesDashboard | App.tsx:51-78 | after completion, a mission whose id is not `m_001` is no longer on the dashboard |
| App.LibraryHasNoM001 | App.tsx:78 | no mission of the generated library has the id `m_001` |
| App.LibraryDashboardHasNoCompleted | App.tsx:78 | on the generated library, the dashboard shows no completed mission after any completion |
| App.DashboardHasNoCompleted | App.tsx:78 | when no mission is `m_001`, the dashboard shows no completed mission after any completion |
| App.Render | App.tsx:70-78 | signed out, only the sign-in page is produced. Signed in, the layout gets the unread count and the dashboard its filtered missions |
| App.AppState.constructor | App.tsx:36-40 | the shell starts signed out, with no level-up pending |
| App.AppState.Login | App.tsx:42-44 | signing in sets the flag |
| App.AppState.Logout | App.tsx:46-48 | signing out clears the flag |
| App.AppState.NotificationsCount | App.tsx:76 | definition of the unread count passed to the layout |
| App.AppState.CompleteMission | App.tsx:50-68 | only missions with that id become completed. The level rises by exactly 1 and XP resets to 0, even on a repeat. The modal gets the new level. One unread notification is put in front and the unread count rises by one |
| App.AppState.CloseLevelUp | App.tsx:106 | closing the modal clears the stored level |
| App.AppState.FinishRun | App.tsx:50-68 | finishing is reachable only on the run's last step. It validates that step, exactly as `handleFinish` does. A refused step leaves both the run and the shell unchanged. A passing step is recorded once, so every step of the run is then recorded, and the shell completes the run's mission, raises the level and XP as `handleCompleteMission` does, shows the new level and puts one notification in front |
| Earnings.Projection | components/EarningsCalculator.tsx:22-42 | month `m` of the projection has `m` times the placements accumulated |
| Earnings.MonthlyBaseSalary | components/EarningsCalculator.tsx:13-18 | the monthly wage is 120 euros per weekly hour, at most 4800 within the slider's range |
| Earnings.MonthlyBonus | components/EarningsCalculator.tsx:14-19 | the monthly bonus is 300 euros per placement, at most 15000 within the slider's range |
| Earnings.Summary | components/EarningsCalculator.tsx:45-47 | definition of the three year figures read off the chart |
| Earnings.ChartData | components/EarningsCalculator.tsx:22-42 | the loop produces exactly 12 months. Month `m` has Accumulated = m × placements and Passief = 25 × that; Totaal is base + bonus + Passief |
| Earnings.SumTotalsLinear | components/EarningsCalculator.tsx:46 | totals that grow by a fixed amount each month sum to the arithmetic-series closed form |
| Earnings.YearTotal | components/EarningsCalculator.tsx:46 | the year total is 12·(base + bonus) + 1950·placements |
| Earnings.TotalsNonDecreasing | components/EarningsCalculator.tsx:30 | with non-negative placements, no month's total is below an earlier month's |
| Earnings.SummaryOfProjection | components/EarningsCalculator.tsx:45-47 | the year-end income is month 12's total and equals base + bonus + 300·placements. `totalVrienden` equals month 12's Accumulated |
| Earnings.ProjectionBounds | components/EarningsCalculator.tsx:88-115 | within the sliders' ranges every amount is non-negative, a monthly total is at most 34800 and the year total at most 335100 |
| Earnings.CashflowTotal | components/EarningsCalculator.tsx:132 | the month-1 cash-flow total is base + bonus, which is month 1's total minus its passive income |
| Earnings.Calculator.constructor | components/EarningsCalculator.tsx:7-10 | the calculator starts collapsed with 20 hours and 10 placements |
| Earnings.Calculator.ToggleExpanded | components/EarningsCalculator.tsx:59 | the header click flips the expanded flag |
| Earnings.Calculator.SetHours | components/EarningsCalculator.tsx:88-94 | the hours slider sets a value in 0..40 |
| Earnings.Calculator.SetPlacements | components/EarningsCalculator.tsx:107-113 | the placements slider sets a value in 0..50 |
| Earnings.Calculator.Chart | components/EarningsCalculator.tsx:22-42 | the chart for the current sliders is the projection, with monthly totals in 0..34800 |
| Community.AnySpecMatchesIff | pages/Community.tsx:18 | `some` holds exactly when one specialisation matches |
| Community.MatchesTerm | pages/Community.tsx:15-19 | definition of the member search test |
| Community.FilteredUsers | pages/Community.tsx:15-19 | the result is an order-preserving sub-list. A user is kept exactly when the lower-cased term occurs in their first name, last name or a specialisation |
| Community.EmptyTermKeepsAll | pages/Community.tsx:15-19 | an empty search term keeps every user |
| Community.SearchIgnoresCase | pages/Community.tsx:15-19 | the term's case does not change the result |
| Community.CardSubtitle | pages/Community.tsx:73 | the subtitle is the first specialisation, or 'Member' when there is none or it is empty; it is never empty |
| Community.CardSpecializations | pages/Community.tsx:77 | a card shows at most the first three specialisations, in order |
| Community.TeamCards | pages/Community.tsx:93-99 | every team gets a card, in order, whose member count is `members.length` |
| Community.TeamsIgnoreSearch | pages/Community.tsx:91-99 | the Teams tab lists every team whatever the search term |
| Profile.CleanPieces | pages/Profile.tsx:64 | trimming and dropping empty pieces leaves only non-empty trimmed entries |
| Profile.CleanPiecesCommaFree | pages/Profile.tsx:64 | cleaning comma-free pieces gives comma-free entries |
| Profile.TrimKeepsOut | pages/Profile.tsx:64 | trimming adds no character |
| Profile.ParseSpecializations | pages/Profile.tsx:64 | every saved specialisation is non-empty, trimmed and free of commas |
| Profile.SplitSpacedJoin | pages/Profile.tsx:43 | splitting a blank plus the joined list gives the entries, each with a leading blank |
| Profile.SplitJoin | pages/Profile.tsx:43 | splitting the joined list gives the first entry and the rest with leading blanks |
| Profile.CleanSpaced | pages/Profile.tsx:64 | trimming the blank-led entries gives the entries back |
| Profile.ParseJoinRoundTrip | pages/Profile.tsx:43-64 | saving an unchanged form gives back the same list when every entry is trimmed, non-empty and comma-free |
| Profile.CleanJoinedPieces | pages/Profile.tsx:64 | cleaning the pieces of a joined list of well-formed entries gives the list back |
| Profile.ParseIdempotent | pages/Profile.tsx:43-64 | saving, reopening the form and saving again gives the same list |
| Profile.InitialForm | pages/Profile.tsx:38-44 | the form starts from the user's names and email. A missing bio shows as "", and the specialisations are joined with ", " |
| Profile.WithField | pages/Profile.tsx:262-295 | definition of `{...formData, <field>: value}` |
| Profile.ChosenAvatar | pages/Profile.tsx:65 | definition of the choice between a non-empty preview and the current picture; what a save does with it is stated by Profile.SavedUser and Profile.SaveUnchangedForm |
| Profile.SavedUser | pages/Profile.tsx:57-66 | save copies names, email and bio from the form, stores the parsed specialisations and the chosen avatar, and leaves id, level, XP, status and team unchanged |
| Profile.SaveUnchangedForm | pages/Profile.tsx:38-66 | saving the untouched form without a new picture changes only a missing bio, which becomes "" |
| Profile.ProfileEditor.constructor | pages/Profile.tsx:33-44 | the editor starts from the user, not editing, with no preview and the initial form |
| Profile.ProfileEditor.StartEditing | pages/Profile.tsx:215 | the edit button turns editing on |
| Profile.ProfileEditor.Edit | pages/Profile.tsx:262-295 | typing changes only the form |
| Profile.ProfileEditor.ChangeAvatar | pages/Profile.tsx:46-55 | a chosen file's data URL becomes the preview; no file changes nothing |
| Profile.ProfileEditor.RemovePreview | pages/Profile.tsx:248 | the remove button drops the preview |
| Profile.ProfileEditor.Cancel | pages/Profile.tsx:220 | cancel ends editing and drops the preview, leaving the user untouched |
| Profile.ProfileEditor.Save | pages/Profile.tsx:57-70 | save writes the form into the user, keeps the form, ends editing and drops the preview |
| Profile.ProfileEditor.Commit | pages/Profile.tsx:58-68 | the state updates of a save: the user replaced by the given one, editing off, the preview dropped, the form untouched |
| Layout.NextTheme | components/Layout.tsx:259 | the theme button goes default → matrix → rose → default and never stays put |
| Layout.ThemeCycle | components/Layout.tsx:259 | three presses give back the starting theme, and two do not |
| Layout.SwapLanguage | components/Layout.tsx:224 | the language button always changes the language |
| Layout.SwapLanguageTwice | components/Layout.tsx:224 | two presses give back the starting language |
| Layout.DecodeFlag | components/Layout.tsx:48-49 | definition of `saved === 'true'`; its partner is Layout.FlagRoundTrip |
| Layout.EncodeFlag | components/Layout.tsx:55 | definition of `toString()` on the flag |
| Layout.FlagRoundTrip | components/Layout.tsx:46-56 | the stored flag reads back as itself |
| Layout.InitialCollapsed | components/Layout.tsx:46-52 | the sidebar starts collapsed only when a window exists and "true" is stored |
| Layout.ToggledGroups | components/Layout.tsx:102-104 | toggling flips exactly that group's flag (a missing flag counts as false) and leaves every other group unchanged |
| Layout.ToggleTwice | components/Layout.tsx:102-104 | toggling the same group twice restores every group's state |
| Layout.ItemsHidden | components/Layout.tsx:158 | definition of when a group's items are hidden; its consequences are stated by Layout.HiddenGroupsCanReopen |
| Layout.HeaderShown | components/Layout.tsx:146 | definition of when a group's header button is shown |
| Layout.HiddenGroupsCanReopen | components/Layout.tsx:146-158 | a collapsed sidebar hides no items. A hidden group with a title shows its header, and toggling it shows its items again |
| Layout.GroupStateFollowsLanguage | components/Layout.tsx:72-104 | a group collapsed under its Dutch title opens again under a different English title; one titled alike stays collapsed |
| Layout.Sidebar.constructor | components/Layout.tsx:46-58 | the sidebar starts from the stored flag, with the stored copy in step and no collapsed groups |
| Layout.Sidebar.SetCollapsed | components/Layout.tsx:54-56 | collapsing or expanding writes the new flag to storage |
| Layout.Sidebar.ToggleGroup | components/Layout.tsx:102-104 | the groups map becomes the toggled map |
| Layout.Sidebar.Reloaded | components/Layout.tsx:46-56 | a reload reads back the current flag |
| Language.Translate | context/LanguageContext.tsx:68-72 | definition of `t`: the key itself for an unknown key, the entry's string for the current language otherwise. Its partners are Language.GroupTitlesNonEmpty and Layout.GroupStateFollowsLanguage |
| Language.GroupTitlesNonEmpty | context/LanguageContext.tsx:24-26 | the three group titles translate to non-empty strings in both languages |
| Language.LanguageProvider.constructor | context/LanguageContext.tsx:66 | the initial language is Dutch |
| Language.LanguageProvider.SetLanguage | context/LanguageContext.tsx:66-75 | setting the language changes the language that `t` uses |
| Language.LanguageProvider.T | context/LanguageContext.tsx:68-72 | definition of `t` as the lookup in the current language |
| Language.UseLanguage | context/LanguageContext.tsx:81-87 | the hook fails outside a provider and returns the provider's context inside one |

## Left out

- `types.ts` is not part of this model. `Mission`, `MissionStep`, `User`, `Team` and
  `Notification` are rebuilt from their uses. Mission categories are strings named after
  the enum members.
- `context/ThemeContext.tsx` is not part of this model. The theme is one of the three
  values the layout's buttons set.
- Text.Lower: lower-cases ASCII letters only, because `toLowerCase`'s full Unicode case
  mapping has no counterpart here. Search on non-ASCII letters is therefore
  case-sensitive in the model.
- Text.IsWhitespace lists the ECMAScript white-space and line-terminator characters that
  `trim` removes.
- Timers are left out:
  - the 1.5-second delay before a finished mission is handed over;
  - the `isSubmitting` flag;
  - the simulated upload progress;
  - the AI coach chat in the mission view.

  `MissionRun.Finish` returns the id directly instead.
- Browser side effects are left out: `alert` (represented by the refusal's message),
  `scrollIntoView`, `scrollTo` and `FileReader`. A picture is passed in as its finished
  data URL.
- `Date.now()` is the parameter `now`. The source reads the clock twice, once for the
  notification's id and once for its timestamp (App.tsx:60 and 65). The model uses one
  reading for both, so a tick between the two reads is not captured.
- `localStorage` is a field holding the stored string.
- Whether a window exists is a parameter.
- Floating point and formatting are left out:
  - the progress percentage and `Math.round` (modelled as the completed count);
  - `Intl.NumberFormat`;
  - the chart rendering.
- `parseInt` is modelled by its three outcomes on a level field (blank, a number, NaN).
  The sliders deliver whole numbers in their ranges.
- Missions.MissionRun.constructor: requires a mission with at least one step. The source
  reads `steps[0]` without a check and does not handle an empty mission.
- The mock data (`CURRENT_USER`, `MOCK_USERS`, `MOCK_TEAMS`, `MOCK_NOTIFICATIONS`) are
  constructor parameters. Only the mission library is modelled.
- Presentation state is not modelled:
  - the mobile menu flag;
  - the profile page's tabs and preference buttons;
  - the dashboard's static stats and news;
  - the PAYOUTS and FAQ tab contents;
  - routing.
- Auth, Chat, Apps and Network pages and the `ui` components are left out. They are
  animation, a network AI client or static markup.
- Language.Translate and Layout.GroupCollapsed read the table and the collapsed groups as
  maps. In the source they are plain objects, where an inherited name such as
  "constructor" also finds a value. No key used by the pages is such a name.
- Missions.Below orders categories by Unicode code point, while JavaScript's `sort()`
  compares UTF-16 code units. The two differ only between characters above U+FFFF and
  those in U+E000-U+FFFF. The categories are ASCII names, so this never matters here.
- Language.Translate: that every table entry has both a Dutch and an English string is
  guaranteed by the `Entry` type. Non-emptiness is proved only for the navigation group
  titles, not for the whole table.
