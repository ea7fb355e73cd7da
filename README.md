# PCB design assistant: design rules, assistant heuristics, storage and client checks

This project models the core of a beginner-oriented PCB design tool in Dafny and proves properties of the model.

A design holds a board. The board has components, nets (named lists of pin connection ids such as `"R1.1"`) and an outline. The backend covers four things:

- **Design-rule check (DRC).** It produces an ordered issue list in four stages:
  - nets with fewer than two connections;
  - pins claimed by more than one net, or listed twice;
  - a missing board outline;
  - when an outline exists, components without a position.
- **Design service.** It stores designs in an in-memory repository whose dictionary keeps insertion order.
- **Validate flow.** It looks a design up, runs the DRC and stores the design back with its issues replaced.
- **Assistant heuristics.** These propose suggestions:
  - floating IC inputs;
  - missing decoupling capacitors;
  - trace widths of power and ground nets;
  - missing power or ground nets;
  - LEDs without a resistor;
  - a placement note.

  The assistant also explains an error message and recommends the next tutorial step.

The frontend has two parts in the model:

- It checks issue lists received from the backend with a structural type guard and filters them.
- It locks editor tools in tutorial mode according to a table indexed by step.

Modules:

- `Schema` (schema.dfy) holds the shared data model: severity, issue type, component, net, board, issue and design. Each has the defaults of its constructor. Severity and issue type convert to and from their wire names.
- `Drc` (drc.dfy) is the design-rule check. Each stage is a loop method proved equal to a specification function. `CheckDesign` is proved equal to `DrcReport`. Lemmas about `DrcReport` cover:
  - the stage order;
  - when each kind of issue appears;
  - how many shorts there are;
  - the outline issue and its id.
- `Repository` (repository.dfy) is the in-memory store as a class. It has a map field and the dictionary's key order as a `seq`, and an invariant ties the two together.
- `Services` (services.dfy) is the design service as a class over a repository, plus the validate flow.
- `Assistant` (assistant.dfy) holds the heuristics. Each loop of the source is a method proved against a specification function. `Suggestions` is the full output, and lemmas say exactly when each hint occurs.
- `IssueValidation` (issuevalidation.dfy) holds JSON as a datatype, the type guard `IsIssue` and the filter `ValidateIssues`. It also gives the backend's and the client's wire forms of an issue.
- `TutorialLock` (tutoriallock.dfy) holds the step table, `IsToolLocked` and `GetLockedMessage`.
- `Text` (text.dfy) and `Seqs` (seqs.dfy) hold shared helpers:
  - ASCII case mapping;
  - substring search, as Python's `in` on strings;
  - decimal formatting of the issue counter;
  - an order-preserving filter with its lemmas.

Decisions inherited from the source:

- The outline issue's id is `"issue_"` followed by the number of issues before it, because the source formats `issue_{len(issues)}`.
- A short circuit pairs the net that claims a pin later with the net that claimed it first. A pin listed twice by the same net is a short of that net against itself.
- Components without a position are reported only when the board has an outline. They are reported as warnings of the default issue type (`unconnected_net`).
- IC membership in a net is tested by substring, so component `U1` is counted as connected through `U10.1`.

## Model

| member | source | states |
|---|---|---|
| Schema.SeverityRoundTrip | shared-schema/python/pcb_schema/models.py:11-15 | parsing a severity's wire name gives that severity back, and only the three names parse |
| Schema.IssueTypeRoundTrip | shared-schema/python/pcb_schema/models.py:58-68 | parsing an issue type's wire name gives that type back, and only the six names parse |
| Schema.Defaults | shared-schema/python/pcb_schema/models.py:25-88 | a component defaults to no properties, position or rotation; a net to no connections and no name; a board to empty lists and one layer; an issue to type `unconnected_net`, no related ids and no location; a design to no issues and no timestamps |
| Text.LowerIdempotent | backend/app/domain/ml_services.py:226 | lower-casing an already lower-cased type changes nothing, so the tests on `c.type.lower()` see a fixed normal form |
| Text.DecimalRoundTrip | backend/app/domain/services.py:76 | the decimal rendering of the issue counter reads back as the same number, so `issue_<n>` ids for different counts differ |
| Text.ContainsMeansOccurs | backend/app/domain/ml_services.py:230 | the substring search used for `in` on strings is true exactly when the pattern occurs at some offset |
| Drc.CheckUnconnectedNets | backend/app/domain/services.py:91-111 | the loop returns exactly `UnconnectedIssues`: one issue per net with fewer than two connections, in net order |
| Drc.UnconnectedIssuesShape | backend/app/domain/services.py:96-109 | each stage-1 issue is an `unconnected_net` error with id `unconnected_<net>` and related ids `[net]` for a listed net with fewer than 2 connections |
| Drc.UnconnectedIff | backend/app/domain/services.py:96 | with distinct net ids, a net's issue is reported if and only if it has fewer than two connections |
| Drc.ScanNet | backend/app/domain/services.py:121-140 | the inner loop over one net's pins carries the scan's pin-to-net dictionary and issues from the entries before the net to the entries including it |
| Drc.CheckShortCircuits | backend/app/domain/services.py:113-142 | the nested loop over nets and pins returns exactly `ShortCircuitIssues`, the scan of all pin listings with a first-owner map |
| Drc.OwnerIsFirstListing | backend/app/domain/services.py:118-140 | the owner recorded for a pin is the net that listed it first |
| Drc.OwnerNeverOverwritten | backend/app/domain/services.py:122-140 | once a pin has an owner, later entries never change it |
| Drc.RepeatGivesShort | backend/app/domain/services.py:122-138 | every repeated listing of a pin yields a short between that net and the pin's first owner |
| Drc.ShortComesFromRepeat | backend/app/domain/services.py:122-138 | every short issue comes from a listing of a pin already seen before it |
| Drc.ShortCount | backend/app/domain/services.py:120-140 | shorts plus distinct pins equal the number of pin listings |
| Drc.ShortCircuitCount | backend/app/domain/services.py:113-142 | the number of shorts is the total connection count minus the number of distinct connection ids |
| Drc.ShortIssuesAreErrors | backend/app/domain/services.py:124-137 | every stage-2 issue is a `short_circuit` error |
| Drc.CheckComponentsInBounds | backend/app/domain/services.py:144-161 | the loop returns one warning per component without a position, in component order |
| Drc.CheckDesign | backend/app/domain/services.py:60-89 | the whole check equals `DrcReport`: stages 1 and 2, then the outline error or, with an outline, the position warnings |
| Drc.ReportStages | backend/app/domain/services.py:60-89 | the report is the stage-1 block, then the stage-2 block, then the outline or position block |
| Drc.ReportOrder | backend/app/domain/services.py:60-89 | stages never go backwards along the report |
| Drc.OutlineIssue | backend/app/domain/services.py:71-83 | a `board_edge` issue exists iff the outline is empty; it is then the last issue, an error without related ids, with id counting the issues before it |
| Drc.OutlineIssueIdUnique | backend/app/domain/services.py:74-83 | the outline issue's id differs from every earlier issue's id |
| Drc.PositionWarnings | backend/app/domain/services.py:86-87 | with an outline, the tail of the report is one default-type warning per unplaced component, without location |
| Drc.PositionIssueSource | backend/app/domain/services.py:151-159 | every position warning names a listed component without a position |
| Drc.PositionWarningIff | backend/app/domain/services.py:86-87 | with an outline and distinct component ids, a component gets a warning if and only if it has no position |
| Drc.NoPositionNotEarly | backend/app/domain/services.py:65-68 | a position warning can never be confused with a stage-1 or stage-2 issue |
| Drc.SharedPinScenario | backend/app/domain/services.py:60-142 | two one-pin nets sharing `R1.1` give two unconnected errors, one short of net2 against net1 and the outline error `issue_3` |
| Drc.RepeatWithinNetScenario | backend/app/domain/services.py:120-138 | a pin listed twice by one net is a short of the net against itself |
| Repository.DesignRepository.constructor | backend/app/infra/memory_repo.py:14-15 | a new repository is empty: nothing found, nothing listed |
| Repository.DesignRepository.Save | backend/app/infra/memory_repo.py:17-19 | stores the design under its own id, at the end of the key order if new, in place otherwise; other ids keep their designs |
| Repository.DesignRepository.Get | backend/app/infra/memory_repo.py:21-23 | the stored design, or None exactly when the id is absent |
| Repository.DesignRepository.Delete | backend/app/infra/memory_repo.py:25-27 | removes the id from map and key order, others in order; an absent id changes nothing |
| Repository.DesignRepository.ListAll | backend/app/infra/memory_repo.py:29-31 | every stored design exactly once, in insertion order |
| Repository.WithoutDistinct | backend/app/infra/memory_repo.py:25-27 | removing a key keeps the key order free of duplicates |
| Repository.DistinctLength | backend/app/infra/memory_repo.py:29-31 | a duplicate-free key order is as long as the map is large |
| Services.DesignService.constructor | backend/app/domain/services.py:19-21 | the service keeps the injected repository |
| Services.DesignService.CreateDesign | backend/app/domain/services.py:23-26 | saves the design and returns it |
| Services.DesignService.GetDesign | backend/app/domain/services.py:28-33 | the stored design, or the "Design not found" error exactly when the id is unknown |
| Services.DesignService.UpdateDesign | backend/app/domain/services.py:35-38 | saves the design and returns it; an unknown id creates it |
| Services.DesignService.DeleteDesign | backend/app/domain/services.py:40-42 | deletes through the repository; no error for an unknown id |
| Services.DesignService.ListDesigns | backend/app/domain/services.py:44-46 | lists what the repository lists |
| Services.DesignService.ValidateDesign | backend/app/api/designs.py:101-112 | an unknown id is an error and changes nothing; otherwise returns the DRC report and stores the design with exactly that issue list |
| Services.Validated | backend/app/api/designs.py:108-110 | validation replaces only the issue list |
| Services.ValidatedIdempotent | backend/app/api/designs.py:106-110 | validating twice stores the same as validating once |
| Assistant.TouchesNetBySubstring | backend/app/domain/ml_services.py:230 | component `U1` counts as touching a net through `U10.1` |
| Assistant.NetsOf | backend/app/domain/ml_services.py:230 | the nets kept are exactly those with a connection containing the component id |
| Assistant.DetectFloatingInputs | backend/app/domain/ml_services.py:221-243 | the loop over the ICs returns exactly `FloatingInputs` |
| Assistant.FloatingHintsSource | backend/app/domain/ml_services.py:228-241 | every floating-input hint is the hint of a floating IC |
| Assistant.FloatingHintsComplete | backend/app/domain/ml_services.py:228-241 | every floating IC gets its hint |
| Assistant.FloatingInputIff | backend/app/domain/ml_services.py:226-241 | with distinct component ids, a component gets the hint iff it is an IC touching fewer than two nets |
| Assistant.CapacitorTest | backend/app/domain/ml_services.py:250 | the capacitor test is the same as testing for "cap" |
| Assistant.DetectMissingDecoupling | backend/app/domain/ml_services.py:245-266 | the loop returns exactly `DecouplingHints`: one hint per MCU/IC when there is no capacitor |
| Assistant.DecouplingIff | backend/app/domain/ml_services.py:249-264 | decoupling hints appear iff some component needs decoupling and none is a capacitor |
| Assistant.SupplyIsPowerOrGround | backend/app/domain/ml_services.py:272 | the trace-width check's five names are the power names plus the ground names |
| Assistant.PowerWidthHints | backend/app/domain/ml_services.py:268-283 | at most one routing hint, present iff some supply net exists, with the fixed advice text and related ids that are the supply nets' ids in net order, repeats kept |
| Assistant.GetSuggestions | backend/app/domain/ml_services.py:40-113 | returns exactly `Suggestions`: the three detectors, then the power, ground, LED and placement hints |
| Assistant.HasIdConcat | backend/app/domain/ml_services.py:46-111 | an id occurs in concatenated suggestion lists iff it occurs in one of them |
| Assistant.PerComponentIds | backend/app/domain/ml_services.py:233-254 | per-component hint ids start with `floating_input_` or `decoupling_` |
| Assistant.PowerNetHintIff | backend/app/domain/ml_services.py:58-71 | the power-net hint is given iff no net is named VCC, VDD or POWER |
| Assistant.GroundNetHintIff | backend/app/domain/ml_services.py:59-83 | the ground-net hint is given iff no net is named GND or GROUND |
| Assistant.LedHintIff | backend/app/domain/ml_services.py:86-99 | the resistor hint is given iff there is an LED and no resistor |
| Assistant.LedHintNamesLeds | backend/app/domain/ml_services.py:86-99 | a suggestion with the resistor hint's id is the hint listing the board's LEDs, in component order |
| Assistant.LedHintIdIsLed | backend/app/domain/ml_services.py:87-98 | every id the resistor hint lists is the id of an LED on the board |
| Assistant.PlacementHintIff | backend/app/domain/ml_services.py:102-111 | the placement note is given iff more than one component has a position |
| Assistant.DefaultExplanation | backend/app/domain/ml_services.py:162-172 | the fallback explanation quotes the error and gives four steps |
| Assistant.ExplainError | backend/app/domain/ml_services.py:115-172 | every explanation has four steps |
| Assistant.ShortTest | backend/app/domain/ml_services.py:138 | the test for "short circuit" adds nothing to the test for "short" |
| Assistant.ExplainErrorCases | backend/app/domain/ml_services.py:123-172 | unconnected is tested first, then short, then outline, then the fallback, on the lower-cased error |
| Assistant.ExplainCaseInsensitive | backend/app/domain/ml_services.py:123 | errors equal up to case get the same steps, and differ at most in the quoted fallback text |
| Assistant.SomeUnplaced | backend/app/domain/ml_services.py:206 | fewer placed than total components iff some component is unplaced |
| Assistant.SuggestNextAction | backend/app/domain/ml_services.py:174-219 | steps 1 to 5 in ladder order: no components, no nets, no outline, an unplaced component, otherwise routing |
| Assistant.NextActionNames | backend/app/domain/ml_services.py:182-219 | each step comes with its own action name |
| IssueValidation.TablesMatchSchema | frontend/src/shared/schema/issueValidation.ts:8-16 | the client's tables name exactly the schema's severities and issue types |
| IssueValidation.Property | frontend/src/shared/schema/issueValidation.ts:28-38 | a property read finds a value iff the value is an object having that key |
| IssueValidation.ValidateIssues | frontend/src/shared/schema/issueValidation.ts:45-51 | a non-array gives nothing; the output holds only issues and keeps every issue of the input |
| IssueValidation.ValidateIssuesSubsequence | frontend/src/shared/schema/issueValidation.ts:45-51 | the output is a subsequence of the input and keeps each issue as often as it occurs |
| IssueValidation.ValidateIssuesIdempotent | frontend/src/shared/schema/issueValidation.ts:45-51 | filtering the output again changes nothing |
| IssueValidation.ValidateIssuesKeepsAll | frontend/src/shared/schema/issueValidation.ts:45-51 | nothing is dropped iff every element is an issue |
| IssueValidation.IsIssue | frontend/src/shared/schema/issueValidation.ts:21-39 | an accepted value is an object (not null, not an array) having the id, type, severity, message and relatedIds properties |
| IssueValidation.IsIssueRejects | frontend/src/shared/schema/issueValidation.ts:21-39 | a non-object, a missing string field, an unknown type or severity, or a bad relatedIds array is refused |
| IssueValidation.LocationRoundTrip | frontend/src/shared/schema/issueValidation.ts:37 | decoding an encoded location gives it back |
| IssueValidation.DecodeIssue | frontend/src/shared/schema/issueValidation.ts:21-39 | only values accepted by the guard decode to an issue |
| IssueValidation.BackendIssueRejected | shared-schema/python/pcb_schema/models.py:71-74 | an issue serialised with the field name `related_ids` is refused by the client |
| IssueValidation.BackendReportDropped | frontend/src/shared/schema/issueValidation.ts:35-36 | any list of backend issues validates to the empty list |
| IssueValidation.ClientIssueRoundTrip | frontend/src/shared/schema/issueValidation.ts:21-39 | an issue in the client's form is accepted and decodes back to itself |
| IssueValidation.ClientIssueWithoutLocation | frontend/src/shared/schema/issueValidation.ts:37 | with the location property absent altogether (`undefined`) the issue is still accepted, and decodes to the issue without a location |
| IssueValidation.ClientReportKept | frontend/src/shared/schema/issueValidation.ts:45-51 | a whole report in the client's form passes unchanged |
| TutorialLock.StepToolConfig | frontend/src/shared/hooks/useTutorialLock.ts:15-36 | entries exist exactly for steps 1 to 5; each allows select, never measure, and has a message |
| TutorialLock.IsToolLocked | frontend/src/shared/hooks/useTutorialLock.ts:46-57 | locked iff in tutorial mode at a non-zero step with an entry that does not allow the tool |
| TutorialLock.GetLockedMessage | frontend/src/shared/hooks/useTutorialLock.ts:59-66 | in tutorial mode at a configured step with a non-empty hint, the result is that step's hint; any result is such a hint, never empty |
| TutorialLock.LockedMessageTexts | frontend/src/shared/hooks/useTutorialLock.ts:15-36 | steps 1 to 5 show their configured hint texts, word for word |
| TutorialLock.NothingLockedWithoutEntry | frontend/src/shared/hooks/useTutorialLock.ts:43-57 | outside tutorial mode, at NaN or at a step without an entry, nothing is locked and there is no message |
| TutorialLock.SelectNeverLocked | frontend/src/shared/hooks/useTutorialLock.ts:15-36 | select is never locked |
| TutorialLock.FirstAndLastSteps | frontend/src/shared/hooks/useTutorialLock.ts:16-35 | step 1 locks all tools but select; step 5 locks only measure |
| TutorialLock.MessageIffConfigured | frontend/src/shared/hooks/useTutorialLock.ts:59-66 | a message is shown iff in tutorial mode at steps 1 to 5, and whenever a tool is locked there is one |
| TutorialLock.WireLockedSteps | frontend/src/shared/hooks/useTutorialLock.ts:15-36 | wire is locked at steps 1, 2 and 4 |

## Left out

- The HTTP layer (FastAPI routers, dependency injection, status codes) is not modelled. Only the validate flow is, with its 404 path as an `Err`. The update endpoint's id-mismatch check is not modelled.
- `DesignService.export_gerber` is a stub that raises, so it is not modelled.
- The process-wide default repository singleton is not modelled. The service takes its repository as a parameter.
- Python's `str.lower`/`str.upper` are modelled on ASCII letters only, and other characters are kept unchanged.
- Floating-point values (position coordinates, rotation, property values, location numbers) are modelled as `real`. Rounding is not modelled.
- The position test differs between modules. The check compares `position is None` (`HasNoPosition`), while the assistant uses truthiness (`IsPlaced`: present and non-empty). Both are modelled as the source writes them.
- `explain_error`'s `context` argument is unused in the source and is not modelled.
- The `MLSuggestion` class is not modelled, since the assistant returns plain dictionaries. Suggestions are a datatype with the dictionary's fields.
- The React hook's reading of the URL is not modelled. The step enters as `Option<int>`, with None where `parseInt` yields NaN. Digits followed by other text are assumed to be parsed before the model sees the step.
- IssueValidation.DecodeIssue: the schema declares a location as a dictionary from strings to any value, but the model narrows location values to strings and numbers (`LocationValue`). So decoding refuses a location that the type guard admits when it is an array, or an object with a value that is a boolean, null, an array or a nested object.
- The network client between backend and frontend is not modelled. The backend's response body is modelled as the JSON of the issue fields under the model's own names, since the client does no renaming.

## Findings

| source | as written | input that shows it | evidently intended | confidence | as-written member | corrected member |
|---|---|---|---|---|---|---|
| frontend/src/shared/schema/issueValidation.ts:35-36 | the backend serialises an issue's related ids under `related_ids` (shared-schema/python/pcb_schema/models.py:71-74, no alias), and the client's guard requires `relatedIds` | the report of any design, e.g. a board with no outline, whose single `board_edge` issue arrives with `related_ids: []` | both sides use the same field name, so that validated reports keep their issues | not executed | IssueValidation.BackendReportDropped | IssueValidation.ClientReportKept |
