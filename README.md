# Home-visit assessment wizard: store, rule engine and wizard pages

This project models the core of a long-term-care home-visit assessment app,
written in TypeScript. A case manager walks a client through a four-step
wizard:

1. basic information;
2. a comprehensive assessment in four tabs;
3. the care plan;
4. completion and signature.

Every step works against one shared assessment store. The store holds six
partially filled sub-records, the wizard's current step and an optionally
loaded assessment. Each `update<Domain>(data)` action shallowly merges a
partial record into one sub-record. `resetAssessment` restores the default
snapshot.

Two derived actions read a snapshot without changing it:

- `autoSuggestCareProblems` applies five rules and returns suggested problem
  numbers from the 34-entry care-problem catalog, without duplicates.
- `generateRiskAlerts` applies three rules and returns fall, pressure-injury
  and nutrition alerts.

The model also covers the pages' own state:

- the basic-information form: defaults overridden by the store;
- the care-problem checklist and how suggestions are merged into it;
- the active tab of the comprehensive step;
- the step numbers each page writes back;
- the case list's search and summary counts.

Modules, one per file:

- `Wrappers`: `Option`.
- `Values`: the dynamic values the app stores, right-biased object spread
  (`Merge`) and optional chaining (`Path`).
- `Lists`: `String.prototype.includes` on sequences, `filter(x => x !== v)`
  (`Without`), `[...new Set(xs)]` (`Dedup`, proved equal to the classic `Nub`),
  and subsequences.
- `Catalog`: the care-problem catalog and the enumerations.
- `Store`: the snapshot datatype `State`, its pure `Update`, the default
  snapshot `Initial`, and the class `AssessmentStore`, whose methods change
  its fields. The update methods are proved against `Update`, the
  constructor and `ResetAssessment` against `Initial`, and `SetCurrentStep`
  and `SetCurrentAssessment` against the old snapshot with one field
  replaced.
- `RuleEngine`: the rule conditions, `AutoSuggest` and `RiskAlerts` as
  specifications, the two store actions as methods proved equal to them, and
  worked scenarios.
- `BasicInfoPage`, `ComprehensivePage`, `CarePlanPage`: each page is a class
  holding a reference to the store and the page's own state: the basic
  information form, the active tab, or the care-plan selection, goals and
  arrangement answers.
- `Cases`: the case list, all pure.

The care-plan page keeps care goals and the service arrangement in its own
state and never writes them to the store; the model keeps them the same way.
The comprehensive step has no inputs: its tabs show placeholder text, so in
this app nothing but a direct `update*` call fills the health, physical and
social sub-records.

`autoSuggestCareProblems` tests `fallFrequency !== '無跌倒'`, and the default
`fallFrequency` is the empty string, which is not '無跌倒'. So the default
snapshot already suggests fall risk (26): with every field at its default the
result is `[26]`, and with only the medication status set to `reminder` it is
`[26, 14]`. This is proved in `RuleEngine.DefaultSnapshotSuggestsFallRisk` and
`RuleEngine.ReminderUpdateOfDefaults`.

The worked scenarios are stated on the ten answers the rules read
(`RuleEngine.AnswersOf`). Most take the default answers, either unchanged or
with one answer changed, so each holds for every snapshot with those answers,
not only for one update of the default snapshot.
`RuleEngine.SevereInjuryUnstableAlone` fixes three answers and leaves the rest
free.

## Model

| member | source | states |
|---|---|---|
| Values.Merge | assessmentStore.ts:121-123 | `{ ...prev, ...data }` has the keys of both; a key of `data` takes `data`'s value; every other key keeps `prev`'s value |
| Values.MergeIdempotent | assessmentStore.ts:121-143 | merging the same partial twice is merging it once |
| Values.MergeTwice | assessmentStore.ts:121-143 | two successive merges equal one merge of the combined partial, with the later partial winning |
| Values.MergeEmpty | assessmentStore.ts:121-123 | merging an empty partial changes nothing |
| Values.MergeIsShallow | assessmentStore.ts:129-131 | a nested object in the partial replaces the old nested object whole, so the old object's other fields are lost |
| Values.Field | assessmentStore.ts:171 | reading a top-level field yields a value exactly when the key is present, and that value is the one stored under the key |
| Values.Path | assessmentStore.ts:153 | `rec.outer?.inner` yields a value exactly when `outer` holds an object with key `inner`, and then yields that value |
| Lists.Includes | assessmentStore.ts:153-155 | `s.includes(sub)`: a text that contains the marker is at least as long as it, and one of the same length contains it only by being equal to it |
| Lists.IncludesIffOccurs | assessmentStore.ts:153-155 | `s.includes(sub)` holds exactly when `sub` occurs at some position of `s` |
| Lists.ShorterExcludes | assessmentStore.ts:153-155 | a text shorter than the marker never includes it |
| Lists.Without | src/pages/assessment/CarePlan.tsx:25 | `filter(id => id !== x)` keeps exactly the elements different from `x` and never grows the list |
| Lists.WithoutIsSubsequence | src/pages/assessment/CarePlan.tsx:25 | filtering keeps the surviving elements in their original order |
| Lists.WithoutCounts | src/pages/assessment/CarePlan.tsx:25 | filtering removes every copy of `x` and keeps every other element with its count |
| Lists.WithoutAppend | src/pages/assessment/CarePlan.tsx:25 | filtering `x` out of a list that ends with `x` gives what filtering it out of the list without that last element gives |
| Lists.Dedup | assessmentStore.ts:184 | `[...new Set(xs)]` has no duplicates and the same members as `xs` |
| Lists.DedupIsNub | assessmentStore.ts:184 | `[...new Set(xs)]` equals the reference definition: keep the first occurrence of each value, in order |
| Lists.DedupDistinct | assessmentStore.ts:184 | a duplicate-free list passes through `[...new Set(xs)]` unchanged |
| Lists.UnionDedup | src/pages/assessment/CarePlan.tsx:31 | `[...new Set([...prev, ...more])]` is duplicate-free, holds the union, starts with a duplicate-free `prev`, and applying `more` again changes nothing |
| Catalog.CatalogIdsAreContiguous | src/types/index.ts:267-302 | the catalog has 34 entries, the entry at index i has id i + 1, and the ids are distinct |
| Catalog.NameOf | src/types/index.ts:267-302 | a problem number has a label exactly when it is a catalog id (1..34) |
| Catalog.Find | src/pages/assessment/CarePlan.tsx:101 | `find(p => p.id === id)?.name` yields a label exactly when some entry has that id, and then yields the label of the first such entry |
| Catalog.FindIsNameOf | src/pages/assessment/CarePlan.tsx:101 | looking up a label with `find` on the catalog gives the label at position id - 1, and nothing outside 1..34 |
| Catalog.SuggestedProblemNames | src/types/index.ts:272-293 | the labels of problems 5, 6, 14, 17, 20, 21 and 26, which the rules can suggest |
| Catalog.EnumerationsAreDistinct | src/types/index.ts:30 | the medication statuses, alert kinds and severities are distinct; the four statuses needing help are those other than 'stable' and 'none' |
| Store.Update | assessmentStore.ts:121-143 | an update of domain d shallow-merges the partial into d's sub-record and leaves the other sub-records, the current step, the step count and the loaded assessment unchanged |
| Store.UpdateIdempotent | assessmentStore.ts:121-143 | repeating the same update gives the same store |
| Store.UpdatesOfDistinctDomainsCommute | assessmentStore.ts:121-143 | updates of two different domains can be applied in either order |
| Store.InitialStateFacts | assessmentStore.ts:36-112 | the default snapshot: step 1 of 4, nothing loaded, empty basic information, no dialysis, no medication status, no selected or suggested problems, no alerts |
| Store.InitialBodyFacts | assessmentStore.ts:36-112 | the default physical answers: memory 'normal' and strength 5 in all four limbs |
| Store.DefaultStrengthOnScale | src/types/index.ts:95-98 | every limb's default strength is on the 1-5 scale, at its top |
| Store.AssessmentStore.constructor | assessmentStore.ts:114-115 | the store is created holding the default snapshot |
| Store.AssessmentStore.SetCurrentAssessment | assessmentStore.ts:117 | stores the loaded assessment and changes nothing else |
| Store.AssessmentStore.SetCurrentStep | assessmentStore.ts:119 | stores the current step as given, with no range check, and changes nothing else |
| Store.AssessmentStore.UpdateBasicInfo | assessmentStore.ts:121-123 | the new snapshot is `Update` of the old one on basic information |
| Store.AssessmentStore.UpdateHealthMedical | assessmentStore.ts:125-127 | the new snapshot is `Update` of the old one on health and medical data |
| Store.AssessmentStore.UpdatePhysicalBody | assessmentStore.ts:129-131 | the new snapshot is `Update` of the old one on physical data |
| Store.AssessmentStore.UpdateSocialFamily | assessmentStore.ts:133-135 | the new snapshot is `Update` of the old one on social and family data |
| Store.AssessmentStore.UpdateCarePlan | assessmentStore.ts:137-139 | the new snapshot is `Update` of the old one on the care plan |
| Store.AssessmentStore.UpdateCompletionSignature | assessmentStore.ts:141-143 | the new snapshot is `Update` of the old one on completion and signature |
| Store.AssessmentStore.ResetAssessment | assessmentStore.ts:145 | whatever the store held, it holds the default snapshot again |
| RuleEngine.TextIncludes | assessmentStore.ts:153 | `v?.includes(marker)`: false when the value is missing or `null` |
| RuleEngine.PressureGradeTwoToFour | assessmentStore.ts:153-155 | the pressure-injury answer contains '2級', '3級' or '4級' |
| RuleEngine.PressureGradeThreeOrFour | assessmentStore.ts:203-204 | the pressure-injury answer contains '3級' or '4級' |
| RuleEngine.WalkingUnstable | assessmentStore.ts:160 | the walking answer contains '不穩' |
| RuleEngine.FallFrequencyNotNone | assessmentStore.ts:161 | the fall answer is anything but exactly '無跌倒', a missing answer included |
| RuleEngine.ShortTermMemoryPoor | assessmentStore.ts:166 | the memory answer is exactly 'short_term_poor' |
| RuleEngine.NeedsMedicationHelp | assessmentStore.ts:171-174 | the medication status is exactly 'reminder', 'partial_help', 'full_help' or 'poor_compliance' |
| RuleEngine.MedicationRuleUsesHelpStatuses | assessmentStore.ts:171-174 | the medication rule fires exactly when the status is a string among the four help statuses of the enumeration |
| RuleEngine.Incontinent | assessmentStore.ts:179-180 | the bowel or the urination answer contains '失禁' |
| RuleEngine.LivesAlone | assessmentStore.ts:194 | the living-situation answer contains '獨居' |
| RuleEngine.NutritionAtRisk | assessmentStore.ts:212-213 | the eating answer contains '完全依賴' or the diet answer contains '管灌' |
| RuleEngine.PushedFor | assessmentStore.ts:152-182 | the pushes of the five rule blocks: every pushed id is one of the seven in the rule order, and there are at most seven pushes |
| RuleEngine.PushedForMembers | assessmentStore.ts:152-182 | each of the ids 20, 21, 26, 17, 14, 5, 6 is pushed exactly when its rule fired |
| RuleEngine.PushedFollowsRuleOrder | assessmentStore.ts:150-182 | the ids the rules push appear in rule order (20, 21, 26, 17, 14, 5, 6) and so are distinct |
| RuleEngine.DedupPushedFor | assessmentStore.ts:150-184 | removing duplicates from the pushed ids removes nothing; the result is ordered by rule, has only catalog ids, and holds each id exactly when its rule fired |
| RuleEngine.AutoSuggest | assessmentStore.ts:148-185 | suggestions are duplicate-free, in rule order and catalog ids; 20 and 21 are present iff the pressure injury is grade 2, 3 or 4; 26 iff walking is unstable or the fall answer is not '無跌倒'; 17 iff memory is 'short_term_poor'; 14 iff the medication status needs help; 5 and 6 iff bowel or bladder is incontinent |
| RuleEngine.AutoSuggestIsPushed | assessmentStore.ts:184 | the final duplicate removal never changes the pushed list |
| RuleEngine.AlertsDiffer | assessmentStore.ts:193-219 | the three alerts are distinct, and each has a declared kind and severity |
| RuleEngine.AlertsFor | assessmentStore.ts:192-220 | the pushes of the three alert blocks: the fall, pressure-injury and nutrition alerts are each present exactly when their rule fired |
| RuleEngine.AlertsForOrder | assessmentStore.ts:188-223 | the pushed alerts follow rule order (fall, pressure injury, nutrition) and so are distinct |
| RuleEngine.AlertsForMembers | assessmentStore.ts:188-223 | at most three alerts; each is present exactly when its rule fired; every one is well formed |
| RuleEngine.RiskAlerts | assessmentStore.ts:188-223 | at most three alerts, in rule order, distinct and well-formed; the fall alert iff walking is unstable and the client lives alone; the pressure-injury alert iff grade 3 or 4; the nutrition alert iff eating is fully dependent or the diet is tube feeding |
| RuleEngine.AutoSuggestCareProblems | assessmentStore.ts:148-185 | the store action, pushing block by block, returns exactly `AutoSuggest` of the current snapshot |
| RuleEngine.GenerateRiskAlerts | assessmentStore.ts:188-223 | the store action, pushing alert by alert, returns exactly `RiskAlerts` of the current snapshot |
| RuleEngine.FallAlertNeedsBoth | assessmentStore.ts:193-194 | the fall alert needs both unstable walking and living alone |
| RuleEngine.ResultsReadOnlyAnswers | assessmentStore.ts:148-223 | two snapshots that agree on the ten answers the rules read get the same suggestions and the same alerts |
| RuleEngine.InitialAnswers | assessmentStore.ts:36-112 | the ten answers of the default snapshot: empty texts, memory 'normal', no medication status and no living situation |
| RuleEngine.PhysicalUpdateFrame | assessmentStore.ts:129-131 | a physical update changes only the answers of the groups the partial names; the medication and living answers stay |
| RuleEngine.DefaultConditions | assessmentStore.ts:152-220 | on the default answers only the fall-frequency test holds, because the empty answer is not '無跌倒' |
| RuleEngine.ResultsFor | assessmentStore.ts:148-223 | the suggestions and the alerts are the lists the rules push for whichever conditions hold |
| RuleEngine.DefaultAnswersSuggestFallRisk | assessmentStore.ts:159-163 | the default answers give exactly [26] and no alert |
| RuleEngine.DefaultSnapshotSuggestsFallRisk | assessmentStore.ts:159-163 | the default snapshot suggests exactly [26] and raises no alert |
| RuleEngine.ReminderOnlySuggestsFallRiskAndMedication | assessmentStore.ts:171-176 | the default answers with the medication status 'reminder' give exactly [26, 14] and no alert |
| RuleEngine.ReminderUpdateOfDefaults | assessmentStore.ts:125-127 | the default snapshot after `updateHealthMedical({ medicationStatus: 'reminder' })` gives exactly [26, 14] and no alert |
| RuleEngine.NoFallsAnswerSuggestsNothing | assessmentStore.ts:159-163 | the default answers with the exact '無跌倒' answer give no suggestion and no alert |
| RuleEngine.GradeTwoSuggestsButDoesNotAlert | assessmentStore.ts:152-210 | the default answers with a grade-2 pressure injury give exactly [20, 21, 26] and no alert, since the pressure-injury alert needs grade 3 or 4 |
| RuleEngine.RecordedInjury | assessmentStore.ts:129-131 | recording a pressure-injury answer changes that answer and no other answer the rules read |
| RuleEngine.GradeTwoUpdateOfDefaults | assessmentStore.ts:129-131 | the default snapshot after recording a grade-2 injury gives exactly [20, 21, 26] and no alert |
| RuleEngine.SevereInjuryUnstableAlone | assessmentStore.ts:193-210 | grade 3, unstable walking and living alone suggest 20, 21 and 26 and raise both high-severity alerts |
| RuleEngine.FullyDependentEatingRaisesNutritionAlert | assessmentStore.ts:212-220 | the default answers with fully dependent eating give exactly the medium-severity nutrition alert |
| BasicInfoPage.FormDefaults | src/pages/assessment/BasicInfo.tsx:20-37 | the seventeen default answers, with the clock's date and instant as parameters |
| BasicInfoPage.FormDefaultsCoverFields | src/pages/assessment/BasicInfo.tsx:20-37 | the default form fills exactly the seventeen basic-information fields |
| BasicInfoPage.FormDefaultsFacts | src/pages/assessment/BasicInfo.tsx:20-37 | the default answers: AA01, CMS level 2, male, married, type1, no disability, empty history, visit date today and timestamp now |
| BasicInfoPage.OpeningForm | src/pages/assessment/BasicInfo.tsx:20-39 | the opening form holds the defaults' and the store's keys; a stored field wins over its default |
| BasicInfoPage.FreshStoreOpensOnDefaults | src/pages/assessment/BasicInfo.tsx:20-39 | with the default store the page opens on the defaults |
| BasicInfoPage.History | src/pages/assessment/BasicInfo.tsx:115 | `prev.medicalHistory || []`: the stored list, or empty when it is missing |
| BasicInfoPage.SetField | src/pages/assessment/BasicInfo.tsx:109-111 | editing a field sets it and keeps every other field |
| BasicInfoPage.ToggleHistory | src/pages/assessment/BasicInfo.tsx:113-122 | ticking puts the disease in the history and clearing removes every copy of it; other diseases and other fields are kept; a missing history counts as empty |
| BasicInfoPage.HistoryOfToggle | src/pages/assessment/BasicInfo.tsx:115-120 | after a toggle the history is the old one with the disease appended at the end when ticked, or with every copy of it removed when cleared |
| BasicInfoPage.TickThenClearHistory | src/pages/assessment/BasicInfo.tsx:113-122 | ticking a disease not in the history and clearing it restores the history, and restores the whole form when it already had a list |
| BasicInfoPage.EditsKeepFields | src/pages/assessment/BasicInfo.tsx:109-122 | no edit drops a field |
| BasicInfoPage.ReopenAfterSave | src/pages/assessment/BasicInfo.tsx:124-127 | after saving, the page opens on the form as it was saved, even on another day |
| BasicInfoPage.Page.constructor | src/pages/assessment/BasicInfo.tsx:20-39 | the page opens on `OpeningForm` of the store's basic information |
| BasicInfoPage.Page.HandleInputChange | src/pages/assessment/BasicInfo.tsx:109-111 | the form becomes `SetField` of the old form |
| BasicInfoPage.Page.HandleMedicalHistoryChange | src/pages/assessment/BasicInfo.tsx:113-122 | the form becomes `ToggleHistory` of the old form |
| BasicInfoPage.Page.HandleSave | src/pages/assessment/BasicInfo.tsx:124-127 | the store becomes `Update` of its old snapshot on basic information with the form |
| BasicInfoPage.Page.HandleNext | src/pages/assessment/BasicInfo.tsx:129-133 | the store saves the form and then moves to step 2 |
| ComprehensivePage.TabIdsArePositions | src/pages/assessment/ComprehensiveAssessment.tsx:12-17 | four tabs; each tab's id is its position, with distinct keys |
| ComprehensivePage.Page.constructor | src/pages/assessment/ComprehensiveAssessment.tsx:10 | the page opens on tab 0 |
| ComprehensivePage.Page.ClickTab | src/pages/assessment/ComprehensiveAssessment.tsx:49-52 | clicking a tab shows exactly that tab |
| ComprehensivePage.Page.HandleNext | src/pages/assessment/ComprehensiveAssessment.tsx:19-22 | the store moves to step 3 and nothing else changes |
| ComprehensivePage.Page.HandleBack | src/pages/assessment/ComprehensiveAssessment.tsx:24-27 | the store moves to step 1 and nothing else changes |
| CarePlanPage.Toggle | src/pages/assessment/CarePlan.tsx:21-27 | ticking appends the id, clearing drops every copy of it |
| CarePlanPage.ToggleSetsBox | src/pages/assessment/CarePlan.tsx:21-27 | after the change, the box of that id shows ticked iff it was ticked; every other box keeps its state |
| CarePlanPage.ToggleKeepsDistinct | src/pages/assessment/CarePlan.tsx:21-27 | ticking a box that was clear, or clearing any box, keeps the selection duplicate-free |
| CarePlanPage.TickThenClear | src/pages/assessment/CarePlan.tsx:21-27 | ticking a clear box and clearing it again restores the selection |
| CarePlanPage.MergeSuggestions | src/pages/assessment/CarePlan.tsx:29-32 | the merged selection is duplicate-free and holds exactly the selected and the suggested ids |
| CarePlanPage.MergeSuggestionsKeepsSelection | src/pages/assessment/CarePlan.tsx:31 | a duplicate-free selection is a prefix of the merged one; asking for the same suggestions again changes nothing |
| CarePlanPage.MergeSuggestionsIsNub | src/pages/assessment/CarePlan.tsx:31 | the merge keeps the first occurrence of each id, in order |
| CarePlanPage.SuggestionsStayInCatalog | src/pages/assessment/CarePlan.tsx:29-32 | merging suggestions into a selection of catalog ids leaves only catalog ids |
| CarePlanPage.SelectedLabels | src/pages/assessment/CarePlan.tsx:100-107 | one label per selected id, in selection order, each the catalog label of that id |
| CarePlanPage.SetAnswer | src/pages/assessment/CarePlan.tsx:140 | editing one arrangement field sets it and keeps the other four |
| CarePlanPage.Page.constructor | src/pages/assessment/CarePlan.tsx:11-19 | the page opens with nothing ticked and all texts empty |
| CarePlanPage.Page.HandleProblemChange | src/pages/assessment/CarePlan.tsx:21-27 | ticking appends the id, clearing filters it out; the other fields are unchanged |
| CarePlanPage.Page.HandleAutoSuggest | src/pages/assessment/CarePlan.tsx:29-32 | the selection becomes the selection merged with the store's suggestions; the store is only read |
| CarePlanPage.Page.SetCareGoals | src/pages/assessment/CarePlan.tsx:120 | the care-goals text is replaced; nothing else changes |
| CarePlanPage.Page.SetArrangementField | src/pages/assessment/CarePlan.tsx:140-192 | one arrangement field is replaced; nothing else changes |
| CarePlanPage.Page.HandleNext | src/pages/assessment/CarePlan.tsx:34-37 | the store moves to step 4 and nothing else changes |
| CarePlanPage.Page.HandleBack | src/pages/assessment/CarePlan.tsx:39-42 | the store moves to step 2 and nothing else changes |
| Cases.Matches | src/pages/Cases.tsx:53-54 | a case matches when its name or its case code contains the term |
| Cases.FilteredCases | src/pages/Cases.tsx:52-55 | the search result is a subsequence of the list and holds a case exactly when the list has it and it matches |
| Cases.FilteredCounts | src/pages/Cases.tsx:52-55 | the search keeps each matching case as often as the list holds it and drops every other case, which with the subsequence property fixes the result |
| Cases.AllMatchingKept | src/pages/Cases.tsx:52-55 | when every case matches, the search keeps the whole list |
| Cases.EmptyTermKeepsAll | src/pages/Cases.tsx:52-55 | the empty search term keeps every case |
| Cases.FilterIdempotent | src/pages/Cases.tsx:52-55 | searching the result again with the same term changes nothing |
| Cases.ActiveCount | src/pages/Cases.tsx:108 | the active count is the number of records whose status is 'active'; it is at most the number of cases, and zero exactly when no case is active |
| Cases.TotalAssessments | src/pages/Cases.tsx:112 | the assessment counts summed by a left fold from 0 |
| Cases.SumFrom | src/pages/Cases.tsx:112 | the `reduce` step by step from a starting value: with non-negative counts the sum is never below the starting value |
| Cases.TotalOfConcat | src/pages/Cases.tsx:112 | the summed assessment count of a list is the sum over its parts |
| Cases.TotalBoundsEachCount | src/pages/Cases.tsx:112 | with non-negative counts, the sum is at least each case's count |
| Cases.StatusText | src/pages/Cases.tsx:69-71 | the label is '活躍' exactly for 'active' and '非活躍' for anything else |
| Cases.SampleSummary | src/pages/Cases.tsx:19-50 | the sample list has three cases, two of them active, with ten assessments in all |
| Cases.SampleSearchByCodePrefix | src/pages/Cases.tsx:52-55 | searching the sample list for "JF00" keeps all three cases |
| Cases.SampleSearchByName | src/pages/Cases.tsx:52-55 | searching the sample list for "李小華" keeps only that case |

## Left out

- Rendering, routing and navigation are left out. BasicInfo's and the case list's back buttons and `handleNewAssessment` only navigate, so they have no model.
- The geolocation effect (`src/pages/assessment/BasicInfo.tsx:45-61`), loading the assessor from `localStorage` (64-70) and speech recognition (73-107) are browser I/O. They are left out. Each would set one form field, as `HandleInputChange` does. The page's `isRecording` and `gpsStatus` flags (41-42) only serve that I/O, so they are not fields of `BasicInfoPage.Page`.
- The clock is not read. The date and instant that the form defaults use are the parameters `today` and `now`.
- The subscription and re-rendering machinery of the state library is left out. `set` is modelled as assignment of the named fields.
- Field types are not modelled. Every field is an untyped `Value`, and numbers are unbounded integers, not floating point.
- Key order of records is not modelled.
- RuleEngine.TextIncludes: a non-string value under a path a rule reads counts as not matching. JavaScript would call `Array.prototype.includes` on an array or throw on a number. The declared types make every such field a string.
- BasicInfoPage.History: a history that is neither an array nor missing or `null` counts as empty. JavaScript would spread a truthy non-array. The declared type is a string array.
- The completion step, the dashboard, profile, login and reports pages and the application shell are not part of this model.
- The nested structure of a loaded `Assessment` is kept as untyped records, because the model only stores and returns it.
