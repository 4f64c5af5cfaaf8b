# Placement readiness platform: verified model of the analysis core

This project models in Dafny the deterministic core of the placement
readiness web app (`placement-app`):

- **Skill extraction** (`Skills.dfy`): the six-category keyword catalog and
  `extractSkills`. It lower-cases a job description, keeps every catalog
  keyword that occurs in it, drops empty categories, and falls back to the
  `Other` placeholder skills when nothing matched. Object keys are kept in
  insertion order, so a skill map is an ordered sequence of entries.
- **Artifacts** (`Artifacts.dfy`): the four-round checklist, the 7-day plan,
  the ten interview questions (with padding and truncation) and the
  readiness score.
- **Company intel** (`CompanyIntel.dfy`):
  - company size and industry, by first-match substring rules;
  - the hiring-focus table and the round mapping;
  - their composition into one intel record.
- **History store** (`Storage.dfy`): a most-recent-first list of analysis
  records under one storage key, with save, find-by-id, delete and clear.
- **Ship gate**:
  - `TestChecklist.dfy`: the ten-item test checklist with toggle and reset.
  - `Ship.jsx`'s lock (`Ship.dfy`).
  - The proof page (`Proof.dfy`): URL validation, project steps, the shipped
    status and the export condition.

`Text.dfy` holds ASCII stand-ins for `toLowerCase`, `trim`, `includes`,
`startsWith`, `join` and `slice`. `Wrappers.dfy` holds `Option` and
`Stored`, the outcome of reading and parsing a storage key.

The pages' own `localStorage` slots are class fields; a slot a page only reads from another page (the checklist, on the ship and proof pages) is a method parameter. A write that may throw is
a `writeOk` parameter. A read-and-parse is a `Stored` value: missing,
parsed, or malformed. Clock readings, the answer to `window.confirm` and the
browser URL parser are parameters.

## Model

| member | source | states |
|---|---|---|
| Text.ToLower | placement-app/src/utils/skillExtractor.js:13 | lower-casing keeps the length and maps each character through ASCII lower-casing |
| Text.ContainsIff | placement-app/src/utils/skillExtractor.js:26 | `includes` holds iff some window of the text equals the pattern |
| Text.IsBlankIff | placement-app/src/utils/skillExtractor.js:265-272 | a company or role counts as missing iff it consists only of white space |
| Skills.Lookup | placement-app/src/utils/skillExtractor.js:50 | `skills[category]`: a non-empty result is an entry of the map; an absent key reads as the empty list |
| Skills.HasSkill | placement-app/src/utils/skillExtractor.js:50 | `hasSkill` holds only for a key present with a non-empty list, and never for an absent key |
| Skills.FilterMatched | placement-app/src/utils/skillExtractor.js:25-27 | the filter loop keeps exactly the catalog keywords occurring in the lower-cased text, in catalog order |
| Skills.RemoveEmpty | placement-app/src/utils/skillExtractor.js:40-44 | the delete loop keeps exactly the non-empty entries in their order |
| Skills.MatchCatalog | placement-app/src/utils/skillExtractor.js:14-31 | the seven-key object after the `forEach`: every catalog slot holds its matched keywords and `Other` is still empty |
| Skills.Extracted | placement-app/src/utils/skillExtractor.js:12-47 | the extractor's result has between one and six keys |
| Skills.ExtractSkills | placement-app/src/utils/skillExtractor.js:12-47 | the extractor returns the matched categories in catalog order, or the `Other` fallback |
| Skills.ExtractedNonEmpty | placement-app/src/utils/skillExtractor.js:34-44 | the result has at least one key and no key holds an empty list |
| Skills.ExtractedCategory | placement-app/src/utils/skillExtractor.js:24-31 | a catalog category is present iff one of its keywords matched; its value is then exactly the matched keywords in catalog order |
| Skills.ExtractedFallback | placement-app/src/utils/skillExtractor.js:33-37 | `Other` is present iff no catalog keyword matched, and it is then the only key, holding the four placeholder skills |
| Skills.ExtractedOrder | placement-app/src/utils/skillExtractor.js:14-31 | keys appear in catalog order, each at most once |
| Skills.ExtractedEmptyText | placement-app/src/utils/skillExtractor.js:33-37 | an empty job text yields the fallback |
| Artifacts.GenerateChecklist | placement-app/src/utils/skillExtractor.js:49-88 | four rounds with the fixed titles in order and 5, 7, 7 and 6 items; rounds 1 and 4 do not depend on the skills |
| Artifacts.DsaRoundItems | placement-app/src/utils/skillExtractor.js:61-69 | the DSA round has seven items, two of them fixed |
| Artifacts.TechRoundItems | placement-app/src/utils/skillExtractor.js:70-78 | the technical round has seven items, two of them fixed |
| Artifacts.Generate7DayPlan | placement-app/src/utils/skillExtractor.js:90-151 | five entries with labels "Day 1-2" to "Day 7", fixed titles and 4, 5, 5, 5 and 6 tasks |
| Artifacts.Day12Tasks | placement-app/src/utils/skillExtractor.js:98-103 | four tasks for days 1-2 |
| Artifacts.Day34Tasks | placement-app/src/utils/skillExtractor.js:108-114 | five tasks for days 3-4 |
| Artifacts.Day5Tasks | placement-app/src/utils/skillExtractor.js:119-125 | five tasks for day 5 |
| Artifacts.Day6Tasks | placement-app/src/utils/skillExtractor.js:130-136 | five tasks for day 6 |
| Artifacts.Day7Tasks | placement-app/src/utils/skillExtractor.js:141-148 | six tasks for day 7 |
| Artifacts.CoreCsQuestions | placement-app/src/utils/skillExtractor.js:174-188 | at most five Core CS questions, and none for an empty list |
| Artifacts.LanguageQuestions | placement-app/src/utils/skillExtractor.js:191-200 | at most one language question: the Java, Python or JavaScript one |
| Artifacts.WebQuestions | placement-app/src/utils/skillExtractor.js:203-214 | at most four web questions, and none for an empty list |
| Artifacts.DataQuestions | placement-app/src/utils/skillExtractor.js:217-224 | at most two data questions, and none for an empty list |
| Artifacts.CloudQuestions | placement-app/src/utils/skillExtractor.js:227-234 | at most two cloud questions, and none for an empty list |
| Artifacts.SpecificQuestions | placement-app/src/utils/skillExtractor.js:173-239 | the specific questions in check order; an empty skill map gives none |
| Artifacts.CollectSpecific | placement-app/src/utils/skillExtractor.js:173-239 | the `push` steps yield exactly the specific questions in check order |
| Artifacts.PadToTen | placement-app/src/utils/skillExtractor.js:250-254 | exactly ten questions: position i is specific question i if there is one, else generic question i mod 5; extra specific questions are cut off |
| Artifacts.GenerateInterviewQuestions | placement-app/src/utils/skillExtractor.js:153-255 | exactly ten questions: the fixed ten for a fallback profile; otherwise the specific questions in check order (Core CS, Languages, Web, Data, Cloud/DevOps, Testing), padded and truncated |
| Artifacts.JavaScriptQuestionNeverAsked | placement-app/src/utils/skillExtractor.js:190-200 | the JavaScript question is never asked; a language containing "javascript" gets the Java question |
| Artifacts.ReadinessScore | placement-app/src/utils/skillExtractor.js:257-280 | the score lies between 35 and 95 |
| Artifacts.CalculateReadinessScore | placement-app/src/utils/skillExtractor.js:257-280 | the accumulated score equals 35 + min(5·categories, 30) + 10 per non-blank company and role + 10 for a text over 800 characters, and the cap at 100 never applies |
| Artifacts.ReadinessScoreMonotone | placement-app/src/utils/skillExtractor.js:260-277 | the score never falls when any single term improves |
| CompanyIntel.InferCompanySize | placement-app/src/utils/companyIntel.js:17-31 | the size is one of Enterprise, Mid-size and Startup; an empty name gives Startup |
| CompanyIntel.FirstMatch | placement-app/src/utils/companyIntel.js:20-30 | first-match rule table: the label of the first rule with a matching token, else the default |
| CompanyIntel.InferCompanySizeByPriority | placement-app/src/utils/companyIntel.js:17-31 | the size is the first match of Enterprise before Mid-size on the trimmed lower-cased name, else Startup |
| CompanyIntel.InferIndustry | placement-app/src/utils/companyIntel.js:33-77 | the industry is one of the six labels or Technology Services; an empty name gives Technology Services |
| CompanyIntel.InferIndustryByPriority | placement-app/src/utils/companyIntel.js:34-76 | the industry is the first match of Financial, E-commerce, Food, Fintech, Cloud, Consulting, else Technology Services |
| CompanyIntel.InferIndustryIgnoresSkills | placement-app/src/utils/companyIntel.js:33-77 | the skills argument never changes the industry |
| CompanyIntel.GetHiringFocus | placement-app/src/utils/companyIntel.js:79-99 | four traits; any size other than Enterprise or Mid-size gets the Startup entry |
| CompanyIntel.HasDsa | placement-app/src/utils/companyIntel.js:103-105 | `hasDSA` implies the map has a Core CS entry holding a skill that mentions DSA or algorithms |
| CompanyIntel.MidSizeRounds | placement-app/src/utils/companyIntel.js:141-166 | three rounds equal to the fixed Mid-size rounds except for descriptions picked by the DSA and Web skills |
| CompanyIntel.StartupRounds | placement-app/src/utils/companyIntel.js:168-193 | three rounds equal to the fixed Startup rounds except the first description, which the Web skills pick |
| CompanyIntel.GenerateRoundMapping | placement-app/src/utils/companyIntel.js:101-194 | four fixed rounds, independent of the skills, for Enterprise and three for any other size, labelled Round 1 to Round n |
| CompanyIntel.RoundMappingSkillsOnlyInDescriptions | placement-app/src/utils/companyIntel.js:107-193 | for a fixed size, two skill maps give rounds that differ at most in their descriptions |
| CompanyIntel.SizeCategory | placement-app/src/utils/companyIntel.js:207-211 | the headcount label is defined exactly for the three sizes |
| CompanyIntel.GenerateCompanyIntel | placement-app/src/utils/companyIntel.js:196-213 | the record composes size, industry, focus and rounds, and the headcount label is always defined |
| CompanyIntel.CompanyIntelIgnoresRole | placement-app/src/utils/companyIntel.js:196-213 | the role never changes the record |
| Storage.NewEntry | placement-app/src/utils/storage.js:7-11 | the entry keeps every data field; the generated id and time only fill fields the data lacks |
| Storage.FindById | placement-app/src/utils/storage.js:23-26 | the first entry with the id, or absent exactly when no entry has it |
| Storage.CountWithId | placement-app/src/utils/storage.js:30 | the number of entries the filter removes, never more than the list length |
| Storage.CountWithIdZero | placement-app/src/utils/storage.js:30 | the count is zero exactly when no entry has the id |
| Storage.Without | placement-app/src/utils/storage.js:28-32 | the filter shrinks the list by exactly the number of entries with the id |
| Storage.HistoryStore.GetHistory | placement-app/src/utils/storage.js:18-21 | the empty list when nothing is stored |
| Storage.HistoryStore.SaveAnalysis | placement-app/src/utils/storage.js:5-16 | the new entry goes to the head; the length grows by one and older entries keep their order |
| Storage.HistoryStore.GetAnalysisById | placement-app/src/utils/storage.js:23-26 | the first history entry with the id, and none exactly when no entry has it |
| Storage.HistoryStore.DeleteAnalysis | placement-app/src/utils/storage.js:28-32 | the filtered list is written back, the length drops by the match count, and the id is no longer found |
| Storage.HistoryStore.ClearHistory | placement-app/src/utils/storage.js:34-36 | the history is empty afterwards |
| Storage.SaveThenFind | placement-app/src/utils/storage.js:5-26 | a just-saved entry is found by its id (the generated one unless the data brings its own) even when an older entry shares it |
| Storage.WithoutAppend | placement-app/src/utils/storage.js:30 | the filter distributes over concatenation, so kept entries stay in order |
| Storage.WithoutMembers | placement-app/src/utils/storage.js:30 | the kept entries are exactly those without the id |
| Storage.WithoutUnknownId | placement-app/src/utils/storage.js:28-32 | deleting an unknown id leaves the history unchanged |
| Storage.DeleteThenFind | placement-app/src/utils/storage.js:23-32 | after a delete the id is not found |
| TestChecklist.Toggled | placement-app/src/pages/TestChecklist.jsx:87-91 | the toggled id holds the negation of its truthiness and every other key is unchanged |
| TestChecklist.PassedCount | placement-app/src/pages/TestChecklist.jsx:108 | the passed count never exceeds the number of keys, and is zero exactly when no flag is set |
| TestChecklist.AllPassed | placement-app/src/pages/TestChecklist.jsx:108-110 | `allPassed` needs at least ten keys |
| TestChecklist.ChecklistPage.constructor | placement-app/src/pages/TestChecklist.jsx:60-76 | a parsed stored map is adopted, otherwise the checklist is empty |
| TestChecklist.ChecklistPage.SaveChecklist | placement-app/src/pages/TestChecklist.jsx:78-85 | a failed write leaves storage and state unchanged |
| TestChecklist.ChecklistPage.ToggleItem | placement-app/src/pages/TestChecklist.jsx:87-93 | the toggled map is stored and shown, unless the write fails |
| TestChecklist.ChecklistPage.ResetChecklist | placement-app/src/pages/TestChecklist.jsx:95-99 | a confirmed reset that writes empties the checklist; otherwise nothing changes |
| TestChecklist.ToggleCount | placement-app/src/pages/TestChecklist.jsx:87-108 | a toggle moves the passed count by exactly one, up or down |
| TestChecklist.ToggleTwice | placement-app/src/pages/TestChecklist.jsx:87-108 | toggling twice restores the passed count, and the map itself when the id was present |
| TestChecklist.ResetNothingPassed | placement-app/src/pages/TestChecklist.jsx:95-110 | after a reset the count is 0 and not all tests have passed |
| TestChecklist.TestIdCount | placement-app/src/pages/TestChecklist.jsx:4-55 | the ten test ids are distinct |
| TestChecklist.AllPassedIff | placement-app/src/pages/TestChecklist.jsx:108-110 | for keys among the test ids, at most ten pass, and all pass iff every test id is marked passed |
| Ship.ShipPage.constructor | placement-app/src/pages/Ship.jsx:9-10 | the page starts locked with a count of 0 |
| Ship.ShipPage.CheckShipStatus | placement-app/src/pages/Ship.jsx:16-32 | a parsed checklist sets the count and locks iff it is below ten; no checklist locks with count 0; a parse failure locks and keeps the count |
| Ship.ShipGateAgreesWithChecklist | placement-app/src/pages/Ship.jsx:21-23 | for keys among the test ids, the gate opens iff the checklist page says all passed, iff every item is passed |
| Ship.ShipGateWiderThanChecklist | placement-app/src/pages/Ship.jsx:21-23 | with a foreign key the gate can open while the checklist page does not report all passed |
| Proof.Submission.With | placement-app/src/pages/Proof.jsx:88 | the spread update sets exactly the one field |
| Proof.ValidateUrl | placement-app/src/pages/Proof.jsx:77-85 | an empty URL is invalid; a valid URL parses and starts with http:// or https:// |
| Proof.ValidateUrlIff | placement-app/src/pages/Proof.jsx:77-85 | a URL is valid iff it parses and has an http or https prefix |
| Proof.ExportDisabled | placement-app/src/pages/Proof.jsx:304-306 | an empty link disables export; an enabled export means all three links have an http or https prefix |
| Proof.ChecklistComplete | placement-app/src/pages/Proof.jsx:62-63 | a complete checklist was parsed and has at least ten keys |
| Proof.ErrorFor | placement-app/src/pages/Proof.jsx:92-96 | the field error is non-empty iff the value is non-empty and invalid |
| Proof.StepStatus | placement-app/src/pages/Proof.jsx:67-70 | all eight steps are keys; every step but the checklist one is complete |
| Proof.ProofPage.constructor | placement-app/src/pages/Proof.jsx:19-47 | initial state, then a parsed stored submission is adopted |
| Proof.ProofPage.CheckStepStatus | placement-app/src/pages/Proof.jsx:58-75 | the loop builds the step map; a parse failure leaves it unchanged |
| Proof.ProofPage.CheckShippedStatus | placement-app/src/pages/Proof.jsx:99-120 | shipped iff all steps complete, exactly ten tests passed and all three links valid |
| Proof.ProofPage.RefreshStatus | placement-app/src/pages/Proof.jsx:29-36 | after both checks the step map follows the checklist (unchanged on a parse failure), the submission is untouched, and shipped iff the checklist is complete and all links are valid |
| Proof.ProofPage.HandleInputChange | placement-app/src/pages/Proof.jsx:87-97 | the submission changes in exactly that field (not on a failed write), and the field's error follows the value |
| Proof.ProofPage.EditAndRecheck | placement-app/src/pages/Proof.jsx:34-97 | an edit sets the field's error message; a saved edit stores the new submission and then reruns the shipped check on it; a failed write leaves the submission, the stored copy and the shipped flag as they were; the step map is untouched |
| Proof.ExportEnabledIff | placement-app/src/pages/Proof.jsx:302-306 | export is enabled iff all three links are valid |
| Proof.StepsCompleteIff | placement-app/src/pages/Proof.jsx:67-70 | the step map is complete iff the checklist is |
| Proof.ShippedIff | placement-app/src/pages/Proof.jsx:99-120 | with the steps computed from the same checklist, shipped iff the checklist is complete and export is enabled |

## Left out

- Rendering, routing and the dashboard's demo data are not modelled. They only map data to markup.
- The analyze page's glue is not part of this model. It is a timer, a save and a navigation around the modelled functions.
- Unicode case mapping and white space are not modelled: `toLowerCase` and `trim` are restricted to ASCII, and lengths count characters.
- `new URL(...)` is an uninterpreted parameter `urlParses`, conjoined with the prefix check.
- `JSON.stringify`/`JSON.parse` round-trip is taken as the identity.
  - History reads have no parse-failure case, since the history code does not catch one.
  - Checklist and submission reads do have one, as `Stored.Malformed`.
- The storage slots of the three pages are separate fields and parameters. The model does not show them sharing the one browser key.
- Stored checklist flags are booleans. Other truthy or falsy JSON values are not modelled, and neither are non-object JSON (such as a number) under the checklist key.
- Record key order inside a history entry is not modelled, because a record is a map.
- Storage.HistoryStore.SaveAnalysis, Storage.HistoryStore.DeleteAnalysis: the storage write always succeeds. In the source an uncaught `setItem` error (such as a full quota) reaches the caller and leaves the stored list as it was. Only writes the source catches are modelled as failing.
- `Date.now()`, `new Date().toISOString()` and `window.confirm` are parameters. Id uniqueness is not claimed because the source does not guarantee it.
- Clipboard copy, the "Copied!" timer, `console.error`, hint toggling and the progress-bar percentages (floating-point divisions) are not modelled.
- `getHiringFocus` on a size spelled like an inherited object property (such as "constructor") is not modelled. Every unknown size is read as Startup.
- Artifacts.CalculateReadinessScore: the category count is the number of entries of the skill map. The source's `Object.keys` cannot hold duplicate keys, and a map from the extractor has none.
- Artifacts.DsaRoundItems, Artifacts.TechRoundItems, Artifacts.Day12Tasks, Artifacts.Day34Tasks, Artifacts.Day5Tasks, Artifacts.Day6Tasks, Artifacts.Day7Tasks: the skill-dependent item texts are defined, not characterised by a separate contract. Their contracts state only the item counts and the fixed items.
