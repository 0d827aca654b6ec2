# Inferno US Core search sequences: a Dafny model

Inferno checks FHIR servers for conformance. It does this by running *sequences*, which are ordered lists of test steps. Each step ends in one of three ways:

- it passes;
- it fails, through an assertion;
- it skips, when it has nothing to test.

This project models five sequences and proves properties of them:

- the US Core 3.0.1 Pulse Oximetry sequence;
- the US Core R4 DocumentReference sequence;
- the US Core 3.1.0 Condition sequence, as its tests pin it down;
- the US Core 3.1.0 Goal sequence, also as its tests pin it down;
- the patient-level Bulk Data export kick-off.

A sequence is run against a server for one patient, in these stages:

1. **First search.** A search by patient finds the patient's resources. When the reply is a Bundle with entries, the run sets its `resources_found` flag. It then captures the first entry as the *example* and every entry as the *found* list.
2. **Dependent searches.** Each later search takes its parameter values from the captured resources. A search skips while nothing was found. It also skips when one of its values cannot be resolved, and the skip message names that parameter.
3. **Classifying each reply.** A reply fails on a bad status, fails when it is not a Bundle, and skips when the Bundle is empty. It fails when an entry breaks the profile or does not match the query. Otherwise it passes.
4. **Servers that insist on a status parameter.** For these, a 3.1.0 sequence retries the search once. The retry adds the first value of the resource's status vocabulary. If the search is not documented, a warning is recorded.
5. **Later steps.** The read, vread, history, create and reference steps check support first, then the flag. The profile step is gated on the flag alone. The must-support step is gated on the captured list. It checks each listed element in order and skips at the first one that no captured resource has.

The modules follow this structure:

| module | contents |
|---|---|
| `Resource` | FHIR resources as JSON values |
| `Text` | decimal rendering, path splitting, substring removal |
| `Resolver` | `resolve_element_from_path` and `can_resolve_path` |
| `Outcomes` | step outcomes and the sequence verdict |
| `SearchProtocol` | the search exchange and the classification of a reply |
| `SearchParams` | how a step builds its query |
| `Matching` | each sequence's `validate_resource_item` |
| `MustSupport` | the must-support loop |
| `SequenceRun` | the `Run` class: the mutable state of a sequence run, and its step methods |
| `Sequences` | the concrete pulse-ox, DocumentReference, Condition and Goal sequences |
| `BulkExport` | the export kick-off |

The server, the profile validator, the date-search comparison and the read/vread/history/create/reference/profile checks are parameters, passed in as functions.

## Model

| member | source | states |
|---|---|---|
| Text.NatToString | lib/modules/uscore_v3.1.0/test/us_core_condition_test.rb:35-43 | a status code is shown in decimal: non-empty, digits only, no leading zero |
| Text.ParseNatToString | lib/modules/uscore_v3.1.0/test/us_core_condition_test.rb:35-43 | reading the shown code back gives the status code itself |
| Text.NatToStringInjective | lib/modules/uscore_v3.1.0/test/us_core_condition_test.rb:35-43 | two different status codes never give the same text |
| Text.JoinSplit | lib/app/modules/uscore_v3.0.1/us_core_pulse_oximetry_sequence.rb:26-28 | splitting a dotted path and joining it again gives the path back |
| Text.SplitPiecesFree | lib/app/modules/uscore_v3.0.1/us_core_pulse_oximetry_sequence.rb:26-28 | no piece of a split path contains the separator |
| Text.PathSegmentsRoundTrip | lib/app/modules/uscore_v3.0.1/us_core_pulse_oximetry_sequence.rb:26-28 | a path's segments are dot-free, and joining them with dots gives the path back |
| Text.RemoveAll | lib/app/modules/uscore_v3.0.1/us_core_pulse_oximetry_sequence.rb:419 | `gsub` with the empty replacement never lengthens the string |
| Text.RemoveAllAbsent | lib/app/modules/uscore_v3.0.1/us_core_pulse_oximetry_sequence.rb:419 | removing a pattern that does not occur leaves the string unchanged |
| Text.StripPrefix | lib/app/modules/uscore_v3.0.1/us_core_pulse_oximetry_sequence.rb:419 | removing `Observation.` from `Observation.` + rest gives rest, when rest does not contain it again |
| Text.ContainsInfix | lib/modules/uscore_v3.1.0/test/us_core_condition_test.rb:94-105 | a text containing a phrase matches that phrase |
| Resource.Get | lib/app/modules/uscore_v3.0.1/us_core_pulse_oximetry_sequence.rb:19 | a present field value is the value of a field of that name, and the first such field wins |
| Resource.LookupSkipsOthers | lib/app/modules/us_core_r4/us_core_documentreference_sequence.rb:45-47 | fields of other names placed before the one read do not change what the read returns |
| Resource.Lookup | lib/app/modules/uscore_v3.0.1/us_core_pulse_oximetry_sequence.rb:19 | a field is found exactly among the fields with that name, and is nil when no field has it |
| Resource.Wrap | lib/app/modules/uscore_v3.0.1/us_core_pulse_oximetry_sequence.rb:83 | nil resolves over nothing, an array over its items, and anything else over itself |
| Resolver.FindFirst | lib/app/modules/uscore_v3.0.1/us_core_pulse_oximetry_sequence.rb:19 | a value is found exactly when some non-nil candidate satisfies the block; it is the first such candidate |
| Resolver.FindFirstAppend | lib/modules/uscore_v3.1.0/test/us_core_goal_test.rb:158-161 | searching a concatenation searches the first part, then the second |
| Resolver.ResolveIsFirstValue | lib/app/modules/uscore_v3.0.1/us_core_pulse_oximetry_sequence.rb:83 | resolving a path returns the first satisfying value among the values the path reaches |
| Resolver.ResolveSpec | lib/app/modules/uscore_v3.0.1/us_core_pulse_oximetry_sequence.rb:19 | `can_resolve_path` holds exactly when some reached value is present and satisfies the block, and it returns such a value |
| Resolver.ResolveAmongSpec | lib/modules/uscore_v3.1.0/test/us_core_goal_test.rb:158-161 | resolving over a list of resources finds a value exactly when some resource holds one |
| Resolver.AbsentResolvesToNothing | lib/app/modules/uscore_v3.0.1/us_core_pulse_oximetry_sequence.rb:83-85 | a path resolved over a nil resource reaches nothing |
| Resolver.MissingFieldResolvesToNothing | lib/modules/uscore_v3.1.0/test/us_core_condition_test.rb:172-178 | a path whose first field is missing resolves to nothing |
| Outcomes.AssertionOutcome | lib/modules/uscore_v3.1.0/test/us_core_condition_test.rb:35-43 | a step passes exactly when its assertion holds, and fails with the assertion's message |
| Outcomes.Expect | lib/app/modules/uscore_v3.0.1/us_core_pulse_oximetry_sequence.rb:19-20 | `assert cond, msg` holds exactly when cond does, and carries msg when it does not |
| Outcomes.Failures | test/sequence/bulk_data/patient_export_sequence_test.rb:42-50 | the failures of a sequence are failures, and there are none exactly when no step failed |
| Outcomes.Aggregate | test/sequence/bulk_data/patient_export_sequence_test.rb:42-80 | the sequence fails if and only if a step failed; it passes if and only if nothing failed and a step passed; it is skipped if and only if every step skipped |
| Outcomes.SkipIsNeutral | lib/app/modules/uscore_v3.0.1/us_core_pulse_oximetry_sequence.rb:205-206 | appending a skipped step never changes the verdict |
| Outcomes.FailIsAbsorbing | test/sequence/bulk_data/patient_export_sequence_test.rb:52-65 | one failed step makes the sequence fail, wherever it sits |
| SearchProtocol.UndocumentedWarningPhrase | lib/modules/uscore_v3.1.0/test/us_core_condition_test.rb:94-105 | the undocumented-search warning contains the phrase the tests look for |
| SearchProtocol.CheckParams | lib/app/modules/uscore_v3.0.1/us_core_pulse_oximetry_sequence.rb:100 | a resource matches a query if and only if every parameter's check holds; a failure is one parameter's failure |
| SearchProtocol.CheckEntries | lib/modules/uscore_v3.1.0/test/us_core_condition_test.rb:65-81 | the entries pass if and only if every entry is valid and matches the query; a failure is the problem of the first entry that does not pass, every entry before it being valid and matching |
| SearchProtocol.ClassifyReply | lib/modules/uscore_v3.1.0/test/us_core_condition_test.rb:35-81 | any status other than 200 or 201 fails with the bad-response-code message naming it; a non-Bundle fails naming its type; the step skips if and only if the Bundle is empty, with the sequence's message; it passes if and only if every entry is valid and matches |
| SearchProtocol.RetryQuery | lib/modules/uscore_v3.1.0/test/us_core_condition_test.rb:107-115 | the retry is the original query plus the first value of the status vocabulary |
| SearchProtocol.SendSearch | lib/modules/uscore_v3.1.0/test/us_core_condition_test.rb:83-145 | only a 400 with an OperationOutcome, on a type with a status vocabulary, triggers one retry; a 400 without one stops the search; the warning is recorded if and only if there was a retry and the search is undocumented; the reply classified is the last query's reply |
| SearchProtocol.RetryThenBundlePasses | lib/modules/uscore_v3.1.0/test/us_core_condition_test.rb:134-143 | after a 400 with an OperationOutcome, a valid matching Bundle for the retry makes the step pass |
| SearchProtocol.RetryBadCodeFails | lib/modules/uscore_v3.1.0/test/us_core_condition_test.rb:107-119 | after a 400 with an OperationOutcome, a bad status on the retry fails with that code |
| SearchProtocol.NonBundleAlwaysFails | lib/modules/uscore_v3.1.0/test/us_core_condition_test.rb:45-53 | a 200 reply that is not a Bundle fails naming the type it found, with or without a retry |
| SearchProtocol.EmptyBundleSkips | lib/modules/uscore_v3.1.0/test/us_core_condition_test.rb:55-63 | an empty Bundle skips with the sequence's message |
| SearchProtocol.InvalidEntryFails | lib/modules/uscore_v3.1.0/test/us_core_condition_test.rb:65-73 | an entry that breaks the profile makes the step fail; when every entry before it passes, the failure is exactly "Invalid <Type>: " followed by that entry's violations |
| SearchProtocol.SingleInvalidEntry | lib/modules/uscore_v3.1.0/test/us_core_condition_test.rb:65-73 | a Bundle holding one entry that breaks the profile fails with "Invalid <Type>: " followed by its violations joined by newline-bullets |
| SearchProtocol.NoFallbackFourHundredFails | lib/app/modules/uscore_v3.0.1/us_core_pulse_oximetry_sequence.rb:87-88 | a 400 on a type without a status vocabulary is a bad response code, never a retry |
| SearchProtocol.BadResponseCodeNamesStatus | lib/modules/uscore_v3.1.0/test/us_core_condition_test.rb:35-43 | the bad-response message determines the status that caused it |
| SearchParams.BuildQuery | lib/app/modules/uscore_v3.0.1/us_core_pulse_oximetry_sequence.rb:82-84 | the query has one parameter per spec, in the step's order, each with its resolved value |
| SearchParams.FirstUnresolved | lib/app/modules/uscore_v3.0.1/us_core_pulse_oximetry_sequence.rb:85 | there is none if and only if every value is present; otherwise it names the first nil parameter |
| SearchParams.ElementValueSpec | lib/modules/uscore_v3.1.0/test/us_core_goal_test.rb:158-161 | a path-sourced value is present if and only if the path reaches a value, and it is one of the reached values |
| SearchParams.NoPathNeedsNoExample | lib/app/modules/us_core_r4/us_core_documentreference_sequence.rb:100-101 | a query from the patient id and fixed codes alone never has a nil value |
| SearchParams.EmptySourceUnresolved | lib/app/modules/uscore_v3.0.1/us_core_pulse_oximetry_sequence.rb:83-85 | resolving against nothing leaves a path-sourced parameter nil, so the step names one |
| Matching.RuleSpec | lib/app/modules/us_core_r4/us_core_documentreference_sequence.rb:17-44 | a checked property holds if and only if some value at its path passes the property's test |
| Matching.EqualitySpec | lib/app/modules/us_core_r4/us_core_documentreference_sequence.rb:21-23 | an equality property holds if and only if some value at its path equals the requested value |
| Matching.PulseOxItem | lib/app/modules/uscore_v3.0.1/us_core_pulse_oximetry_sequence.rb:15-41 | a mismatch reports "<property> on resource does not match <property> requested"; unknown properties are never checked |
| Matching.PulseOxEqualitySpec | lib/app/modules/uscore_v3.0.1/us_core_pulse_oximetry_sequence.rb:18-28 | status, category and code hold if and only if the value is found at `status`, `category.coding.code` or `code.coding.code` |
| Matching.PatientTestSpec | lib/app/modules/uscore_v3.0.1/us_core_pulse_oximetry_sequence.rb:37 | a reference matches a patient if and only if it is the id itself or `Patient/` + the id |
| Matching.PulseOxPatientSpec | lib/app/modules/uscore_v3.0.1/us_core_pulse_oximetry_sequence.rb:36-38 | the patient holds if and only if some `subject.reference` is the id or `Patient/` + the id |
| Matching.PulseOxDateSpec | lib/app/modules/uscore_v3.0.1/us_core_pulse_oximetry_sequence.rb:30-34 | the date holds if and only if some `effectiveDateTime` passes the date comparison |
| Matching.DocRefItem | lib/app/modules/us_core_r4/us_core_documentreference_sequence.rb:17-63 | a mismatch reports the property's message; unknown properties are never checked |
| Matching.DocRefEqualitySpec | lib/app/modules/us_core_r4/us_core_documentreference_sequence.rb:19-42 | _id, status, patient, category, type and date hold if and only if the value is found at their paths (the patient compared as given) |
| Matching.DocRefPeriodSpec | lib/app/modules/us_core_r4/us_core_documentreference_sequence.rb:44-62 | the period holds if and only if some `context.period` contains the date, under the comparator |
| Matching.PeriodNeedsDate | lib/app/modules/us_core_r4/us_core_documentreference_sequence.rb:48 | a period search whose value is not a date never matches |
| Matching.PeriodComparators | lib/app/modules/us_core_r4/us_core_documentreference_sequence.rb:49-59 | ge/gt compare against the end, le/lt against the start, and no comparator means start <= date <= end |
| Matching.OpenEndedPeriod | lib/app/modules/us_core_r4/us_core_documentreference_sequence.rb:50-55 | a period with no end satisfies ge and gt for any date |
| Matching.NestedValue | lib/app/modules/us_core_r4/us_core_documentreference_sequence.rb:45 | a two-segment path reaches the nested value |
| Matching.PatientPrefixOnlyForPulseOx | lib/app/modules/us_core_r4/us_core_documentreference_sequence.rb:28-30 | `Patient/123` satisfies the pulse-ox patient check for id 123 but not the DocumentReference one |
| Matching.PeriodBlockAsWritten | lib/app/modules/us_core_r4/us_core_documentreference_sequence.rb:44-62 | as written, le and lt raise a NameError, and any other result is the period comparison |
| Matching.ScanNeverFails | lib/app/modules/us_core_r4/us_core_documentreference_sequence.rb:44-62 | as written, the period branch never produces a failed assertion |
| Matching.PeriodNeverAssertedAsWritten | lib/app/modules/us_core_r4/us_core_documentreference_sequence.rb:44-62 | as written, whenever the period branch returns, the step holds |
| Matching.PeriodMismatchPassesAsWritten | lib/app/modules/us_core_r4/us_core_documentreference_sequence.rb:44-62 | as written, a document whose period excludes the date still passes, while the intended check fails it |
| Matching.PeriodBeforeRaisesAsWritten | lib/app/modules/us_core_r4/us_core_documentreference_sequence.rb:52-57 | as written, le and lt raise as soon as one period is examined |
| MustSupport.FirstResolvingFromSpec | lib/app/modules/uscore_v3.0.1/us_core_pulse_oximetry_sequence.rb:418-422 | the inner loop stops at the first resource in which the truncated path resolves |
| MustSupport.FirstResolvingSpec | lib/app/modules/uscore_v3.0.1/us_core_pulse_oximetry_sequence.rb:418-422 | an element is confirmed if and only if some captured resource has it, and the scan stops at the first such resource |
| MustSupport.FirstUnsupported | lib/app/modules/uscore_v3.0.1/us_core_pulse_oximetry_sequence.rb:417-426 | there is none if and only if every listed element is confirmed; otherwise it is the first unconfirmed element |
| MustSupport.ScanResources | lib/app/modules/uscore_v3.0.1/us_core_pulse_oximetry_sequence.rb:418-422 | the inner loop marks the element exactly when a resource has it, and visits resources up to the first one that does |
| MustSupport.CanResolveTruncated | lib/app/modules/uscore_v3.0.1/us_core_pulse_oximetry_sequence.rb:419-420 | `can_resolve_path` on the truncated path agrees with the model's element test |
| MustSupport.ConfirmedAfterSpec | lib/app/modules/uscore_v3.0.1/us_core_pulse_oximetry_sequence.rb:417-426 | after k elements the hash holds exactly the confirmed ones among them, all true |
| MustSupport.ConfirmedAfterSound | lib/app/modules/uscore_v3.0.1/us_core_pulse_oximetry_sequence.rb:417-426 | every element in the hash is supported by some captured resource |
| MustSupport.ScanStep | lib/app/modules/uscore_v3.0.1/us_core_pulse_oximetry_sequence.rb:417-426 | one pass of the outer loop either skips on the element or adds it to the hash |
| MustSupport.ScanMeaning | lib/app/modules/uscore_v3.0.1/us_core_pulse_oximetry_sequence.rb:417-426 | the outer loop's result is the must-support outcome, and its hash covers the elements examined |
| MustSupport.Check | lib/app/modules/uscore_v3.0.1/us_core_pulse_oximetry_sequence.rb:263-427 | the step's outcome is the gate, then the skip at the first element no resource has, else a pass; the hash is the confirmed elements examined |
| MustSupport.StopsAt | lib/app/modules/uscore_v3.0.1/us_core_pulse_oximetry_sequence.rb:423-425 | the step skips "Could not find <path> in any of the <n> provided <type> resource(s)" at the first missing element, after examining it |
| MustSupport.AllSupported | lib/app/modules/uscore_v3.0.1/us_core_pulse_oximetry_sequence.rb:417-427 | when every element is present the step passes, after examining all of them |
| MustSupport.TypePrefixStripped | lib/app/modules/uscore_v3.0.1/us_core_pulse_oximetry_sequence.rb:419 | `Observation.a.b` is looked up as `a.b` |
| MustSupport.SupportedOrderFree | lib/app/modules/uscore_v3.0.1/us_core_pulse_oximetry_sequence.rb:418-422 | whether an element is confirmed does not depend on the order of the resources |
| MustSupport.FirstUnsupportedOrderFree | lib/app/modules/uscore_v3.0.1/us_core_pulse_oximetry_sequence.rb:417-426 | the first missing element does not depend on the order of the resources |
| MustSupport.OutcomeOrderFree | lib/app/modules/uscore_v3.0.1/us_core_pulse_oximetry_sequence.rb:417-426 | the step's outcome does not depend on the order of the resources |
| SequenceRun.ParamNames | lib/modules/uscore_v3.1.0/test/us_core_condition_test.rb:94-105 | the parameter names of a step, in order, are what the documented-search lookup uses |
| SequenceRun.First | lib/app/modules/uscore_v3.0.1/us_core_pulse_oximetry_sequence.rb:96 | the example is the first entry, or nil for an empty Bundle |
| SequenceRun.Run.constructor | lib/app/modules/uscore_v3.0.1/us_core_pulse_oximetry_sequence.rb:49 | a run starts with the flag false, nothing captured, and no queries or warnings |
| SequenceRun.Run.FirstSearch | lib/app/modules/uscore_v3.0.1/us_core_pulse_oximetry_sequence.rb:73-101 | skips before sending on a missing value; otherwise sends, logs the queries and warnings, classifies the reply, sets the flag when the final reply has entries, and captures the entries and the first one exactly when a Bundle was reached with the flag set |
| SequenceRun.Run.RecordSearch | lib/app/modules/uscore_v3.0.1/us_core_pulse_oximetry_sequence.rb:88-100 | after sending: the queries and warnings are logged, the outcome is the classification of the exchange, the flag is set when the reply is a Bundle with entries, and a Bundle that gets past the gate is captured with its first entry as the example |
| SequenceRun.Run.DependentSearch | lib/app/modules/us_core_r4/us_core_documentreference_sequence.rb:118-136 | leaves the captured state alone; while nothing was found it skips with the gate message and sends nothing; it fails on a missing example; it skips naming a missing value; otherwise it sends the search and classifies the reply |
| SequenceRun.Run.InteractionStep | lib/app/modules/uscore_v3.0.1/us_core_pulse_oximetry_sequence.rb:196-209 | skips when an interaction is unsupported, then when nothing was found; otherwise it gives the step's own check of the example; the outcome is `InteractionOutcome` of the run's configuration and captured state |
| SequenceRun.Run.ProfileStep | lib/app/modules/uscore_v3.0.1/us_core_pulse_oximetry_sequence.rb:241-252 | skips when nothing was found; otherwise it gives the profile check of the captured resources |
| SequenceRun.Run.MustSupportStep | lib/app/modules/uscore_v3.0.1/us_core_pulse_oximetry_sequence.rb:254-428 | the outcome is the must-support outcome over the captured resources; with none captured, it skips with the gate message |
| SequenceRun.DependentSearches | lib/app/modules/uscore_v3.0.1/us_core_pulse_oximetry_sequence.rb:103-194 | runs the searches in order: the i-th result is the `StepOutcome` of the i-th step against what was captured, and the query log grows by exactly what each step sends, in order (`StepsSent`); the captured state is unchanged; while nothing was found every search skips and nothing is sent |
| SequenceRun.RunStep | lib/app/modules/us_core_r4/us_core_documentreference_sequence.rb:118-136 | one dependent search gives `StepOutcome` of its step against the captured state and appends exactly `StepSent` to the query log; the gate, the example check and the unresolved skip send nothing |
| SequenceRun.StepOutcomes | lib/app/modules/uscore_v3.0.1/us_core_pulse_oximetry_sequence.rb:103-194 | one outcome per dependent search |
| SequenceRun.StepOutcomesIndex | lib/app/modules/uscore_v3.0.1/us_core_pulse_oximetry_sequence.rb:103-194 | the i-th of the outcomes of a list of searches is the outcome of its i-th search |
| SequenceRun.GatedStepsSendNothing | lib/app/modules/us_core_r4/us_core_documentreference_sequence.rb:127 | while nothing was found, no dependent search sends a query |
| SequenceRun.StepsSentSnoc | lib/app/modules/uscore_v3.0.1/us_core_pulse_oximetry_sequence.rb:103-194 | running one more search appends its outcome to the outcomes and its queries to the log, after those of the searches before it |
| Sequences.PulseOxCodeUnresolved | lib/app/modules/uscore_v3.0.1/us_core_pulse_oximetry_sequence.rb:82-85 | on a fresh run, step 02's `code` value is nil, so the step names `code` |
| Sequences.PulseOxOpening | lib/app/modules/uscore_v3.0.1/us_core_pulse_oximetry_sequence.rb:73-101 | step 02 on a fresh run skips with "Could not resolve code in given resource", sends nothing and finds nothing |
| Sequences.PulseOxLaterSteps | lib/app/modules/uscore_v3.0.1/us_core_pulse_oximetry_sequence.rb:196-443 | steps 07 to 12 all skip while nothing was found |
| Sequences.RunPulseOximetry | lib/app/modules/uscore_v3.0.1/us_core_pulse_oximetry_sequence.rb:49-443 | as written, steps 02 to 12 all skip, the first naming `code`; the sequence is skipped and no query is ever sent |
| Sequences.DocRefOpening | lib/app/modules/us_core_r4/us_core_documentreference_sequence.rb:91-116 | step 02 sends `patient=<id>` and classifies the reply; the flag is whether the Bundle had entries |
| Sequences.DocRefSteps | lib/app/modules/us_core_r4/us_core_documentreference_sequence.rb:118-374 | steps 03 to 15 give exactly `DocRefLater` of the run's configuration and captured resources, keep what was captured, and add to the log exactly what the six dependent searches send |
| Sequences.DocRefSearchSteps | lib/app/modules/us_core_r4/us_core_documentreference_sequence.rb:118-243 | steps 03 to 08 are the six dependent searches, each the `StepOutcome` of its step (so their items are checked by the DocumentReference parameter check); step 08 checks `period` with the corrected rule of the Findings rows, not as written |
| Sequences.DocRefGatedAllSkip | lib/app/modules/us_core_r4/us_core_documentreference_sequence.rb:118-374 | while nothing was captured, every one of steps 03 to 15 skips |
| Sequences.DocRefReferencesNeedSearchAndRead | lib/app/modules/us_core_r4/us_core_documentreference_sequence.rb:370 | the references step skips with the not-supported message naming search and read unless both are declared |
| Sequences.DocRefResults | lib/app/modules/us_core_r4/us_core_documentreference_sequence.rb:72-374 | a run has fourteen outcomes; while nothing was captured all after step 02 skip and the dependent searches send nothing; without search and read the last one is the not-supported skip |
| Sequences.DocRefInteractionSteps | lib/app/modules/us_core_r4/us_core_documentreference_sequence.rb:245-303 | steps 09 to 12 all skip while nothing was found; once something was found and read is supported, step 10 is the read of the first captured resource; each of create, read, vread and history is the `InteractionOutcome` of its interaction on the example |
| Sequences.DocRefConformanceSteps | lib/app/modules/us_core_r4/us_core_documentreference_sequence.rb:305-374 | steps 13 to 15 all skip while nothing was found; once something was found, step 13 is the profile check of every captured resource; step 14 is always the must-support check of the captured resources; step 15 is the references check, which needs both search and read |
| Sequences.RunDocumentReference | lib/app/modules/us_core_r4/us_core_documentreference_sequence.rb:72-374 | the outcomes are step 02's classification of `patient=<id>` followed by `DocRefLater` of what that reply captured, and the log is that search's queries followed by exactly what the dependent searches send; when step 02 finds nothing, no further query is sent and every later step skips; without search and read the references step skips naming both; step 08 checks `period` with the corrected rule of the Findings rows, not as written |
| Sequences.SearchThenDependent | lib/modules/uscore_v3.1.0/test/us_core_condition_test.rb:147-180 | on a fresh run, the search by patient is classified as usual; the dependent search then skips with the type's gate message and sends nothing while nothing was found, skips naming the unresolved parameter, or sends its query built from every captured entry and is classified like any search |
| Sequences.ConditionCategoryRun | lib/modules/uscore_v3.1.0/test/us_core_condition_test.rb:147-280 | the Condition search by patient+category skips with "No Condition resources appear to be available" and sends nothing more when the search by patient found nothing, skips naming `category` when no entry has one, and on a 400 with an OperationOutcome sends the query and then the query with `clinical-status=active` |
| Sequences.GoalTargetDateRun | lib/modules/uscore_v3.1.0/test/us_core_goal_test.rb:147-261 | the Goal search by patient+target-date skips with "No Goal resources appear to be available" and sends nothing more when the search by patient found nothing, skips naming `target-date` when no entry has one, and on a 400 with an OperationOutcome sends the query and then the query with `lifecycle-status=proposed` |
| Sequences.SearchRequiringStatus | lib/modules/uscore_v3.1.0/test/us_core_condition_test.rb:83-145 | on a 400 with an OperationOutcome, the step sends the patient query and then the query with the first status value; it warns only if the search is undocumented; the outcome classifies the second reply, skipping with "No <type> resources appear to be available…" |
| Sequences.ConditionRetriesWithActive | lib/modules/uscore_v3.1.0/test/us_core_condition_test.rb:107-115 | Condition retries with `clinical-status=active` |
| Sequences.GoalRetriesWithProposed | lib/modules/uscore_v3.1.0/test/us_core_goal_test.rb:108-143 | Goal retries with `lifecycle-status=proposed` |
| Sequences.ConditionWithoutCategoryUnresolved | lib/modules/uscore_v3.1.0/test/us_core_condition_test.rb:172-178 | a Condition without a category makes the search by patient+category name `category` |
| Sequences.GoalWithoutTargetUnresolved | lib/modules/uscore_v3.1.0/test/us_core_goal_test.rb:172-178 | a Goal without a target makes the search by patient+target-date name `target-date` |
| Sequences.GoalTargetDateFansOut | lib/modules/uscore_v3.1.0/test/us_core_goal_test.rb:158-161 | `target.dueDate` is tried on each target in turn, so the first due date among the targets is used |
| BulkExport.KickoffRequest | test/sequence/bulk_data/patient_export_sequence_test.rb:22-35 | the kick-off is `GET [base]/Patient/$export` with `Accept: application/fhir+json` and `Prefer: respond-async` |
| BulkExport.HeaderValue | test/sequence/bulk_data/patient_export_sequence_test.rb:67-80 | a header is absent if and only if no header has that name; a found value is a value of that header |
| BulkExport.KickoffOutcome | test/sequence/bulk_data/patient_export_sequence_test.rb:42-80 | the kick-off passes if and only if the status is 202 and a Content-Location is given; anything else fails |
| BulkExport.ExportResults | test/sequence/bulk_data/patient_export_sequence_test.rb:42-50 | the sequence is its one kick-off step, which passes if and only if the kick-off reply is a 202 with a Content-Location header, and fails otherwise |
| BulkExport.AcceptedKickoffPasses | test/sequence/bulk_data/patient_export_sequence_test.rb:42-50 | a 202 with a Content-Location gives no failures, and the sequence passes |
| BulkExport.WrongStatusNotPass | test/sequence/bulk_data/patient_export_sequence_test.rb:52-65 | any other status fails the sequence |
| BulkExport.MissingLocationNotPass | test/sequence/bulk_data/patient_export_sequence_test.rb:67-80 | a 202 without Content-Location fails the sequence |

The pulse-oximetry sequence shows a behaviour that follows from its code as written. Step 02 resolves `code` from `@observation` before any search has captured one. `@observation` is `nil` at that point, so the step always skips before sending. `resources_found` therefore never becomes true, and every other step skips as well. `Sequences.RunPulseOximetry` proves this for every server. The model keeps this behaviour and does not correct it. No correct code value can be derived from the sequence itself.

## Left out

- Transport: HTTP, the FHIR client, bearer tokens and test metadata are not modelled. Steps 01 ("rejects search without authorization") are left out, because they test the client's authentication switch and not the search logic.
- `validate_search_reply`, `assert_response_ok` and `assert_bundle_response` are engine methods and are not part of this model. Their behaviour is rebuilt from the 3.1.0 tests: the messages, the empty-Bundle skip and the status retry. A dependent search that gets an empty Bundle skips with the sequence's gate message.
- SearchProtocol.SendSearch: retries once, with the first value of the status vocabulary, as the tests exercise. A second 400 is classified as an ordinary bad response code.
- The profile validator, `validate_date_search`, `validate_read_reply`, `validate_vread_reply`, `validate_history_reply`, `validate_create_reply`, `test_resources_against_profile` and `validate_reference_resolutions` are parameters (oracles). Their own logic is not part of this model.
- `get_value_for_search_param`, the 3.1.0 value transform, is not part of this model. A resolved element is used as the search value directly.
- The 3.1.0 tests send the literal patient value `patient`. The model uses the run's patient id throughout.
- The 3.1.0 sequence classes themselves are not part of this model. The Condition and Goal searches are modelled from their tests, with the parameter paths those tests name.
- Dates are integers. `DateTime.xmlschema` parsing and time zones are not modelled.
- The wording of two messages is chosen by this model, because the engine code that produces them is not part of it:
  - `skip_if_not_supported`'s message; the model names the resource type and the interactions.
  - the export kick-off failure messages.
- The undocumented-search warning is pinned only by the phrase the tests match.
- Persistence is not modelled: `@instance.save!`, `save_resource_ids_in_bundle` and `save_delayed_sequence_references`.
- `@observation_ary` is `nil` before the first search. The model holds it as the empty list; both are gated the same way by `&.any?`.
- BulkExport.ExportResults: models the kick-off step only. Status polling and file download are not part of this model.
- The must-support lists are kept as the sequences state them, duplicates included.
- The DocumentReference `period` block has unbalanced `do`/`case`/`end` as written. The model reads it as the block the indentation shows.
- Sequences.RunDocumentReference: step 08 (patient+type+period) checks each entry with the corrected period rule (`Matching.DocRefItem`, which asserts the period result). The run therefore does not reproduce two behaviours of the code as written: a period that does not match the requested date passes, and a period with no `start` or `end` raises. Both are stated on their own by `Matching.PeriodMismatchPassesAsWritten`, `Matching.PeriodNeverAssertedAsWritten` and `Matching.PeriodBlockAsWritten`. The same holds for `Sequences.DocRefSteps`, `Sequences.DocRefSearchSteps` and `Sequences.DocRefResults`, which share `DocRefLater`.

## Findings

| source | as written | input that shows it | evidently intended | confidence | as-written member | corrected member |
|---|---|---|---|---|---|---|
| lib/app/modules/us_core_r4/us_core_documentreference_sequence.rb:44-62 | the `period` branch computes `value_found` but never asserts it; as text the file has 39 block openers and 38 `end`s, so one of the blocks opened at lines 45 and 49 is never closed and the file does not parse; this row takes the reading the indentation shows: the inner `case` ends after its `else` arm and the `end` at line 60 closes the `do` block | a DocumentReference whose `context.period` is 2019-01-01 to 2019-12-31, searched with period 2020-06-01 and no comparator | assert that some period matches, as every other branch does | not executed | Matching.PeriodMismatchPassesAsWritten | Matching.DocRefPeriodSpec |
| lib/app/modules/us_core_r4/us_core_documentreference_sequence.rb:52-57 | the `le` and `lt` cases compare with `valuedate`, an undefined name, so they raise a NameError; as text the file has 39 block openers and 38 `end`s, so one of the blocks opened at lines 45 and 49 is never closed and the file does not parse; this row takes the reading the indentation shows: the inner `case` ends after its `else` arm and the `end` at line 60 closes the `do` block | a search with comparator `le` against a resource with a `context.period` | compare with `valueDate`, the parsed search value | not executed | Matching.PeriodBeforeRaisesAsWritten | Matching.PeriodComparators |
