/**
 * The concrete sequences: US Core 3.0.1 pulse oximetry (an Observation
 * profile), US Core R4 DocumentReference, and the opening searches of the
 * US Core 3.1.0 Condition and Goal sequences. Each is a list of step
 * descriptors run over `SequenceRun.Run`; the methods here run the steps
 * in their source order on a fresh run.
 */
module Sequences {
  import opened Resource
  import opened Outcomes
  import opened SearchProtocol
  import opened SearchParams
  import opened SequenceRun
  import Matching
  import MustSupport
  import Resolver

  /** The `resourcesFound` gate message of the 3.0.1 and R4 sequences. */
  const PatientNoResources := "No resources appear to be available for this patient. Please use patients with more information."

  /** The `resourcesFound` gate message of the 3.1.0 sequences. */
  function TypeNoResources(resourceType: string): string
  {
    "No " + resourceType + " resources appear to be available. Please use patients with more information."
  }

  /** What the steps that do not search check; none of them is part of this model, so each is an oracle. */
  datatype Oracles = Oracles(create: Json -> Outcome, read: Json -> Outcome, vread: Json -> Outcome,
                             history: Json -> Outcome, profile: seq<Json> -> Outcome,
                             references: Json -> Outcome)

  // ---------------------------------------------------------------------------
  // US Core 3.0.1 pulse oximetry
  // ---------------------------------------------------------------------------

  const PatientParam := ParamSpec("patient", PatientId)

  /** Step 02: `patient` and `code`, the code taken from the example. */
  const PulseOxByCode: seq<ParamSpec> := [PatientParam, ParamSpec("code", ElementPath(["code", "coding", "code"]))]
  const PulseOxByCategoryDate: seq<ParamSpec> :=
    [PatientParam, ParamSpec("category", ElementPath(["category", "coding", "code"])),
     ParamSpec("date", ElementPath(["effectiveDateTime"]))]
  const PulseOxByCategory: seq<ParamSpec> :=
    [PatientParam, ParamSpec("category", ElementPath(["category", "coding", "code"]))]
  const PulseOxByCategoryStatus: seq<ParamSpec> :=
    [PatientParam, ParamSpec("category", ElementPath(["category", "coding", "code"])),
     ParamSpec("status", ElementPath(["status"]))]
  const PulseOxByCodeDate: seq<ParamSpec> :=
    [PatientParam, ParamSpec("code", ElementPath(["code", "coding", "code"])),
     ParamSpec("date", ElementPath(["effectiveDateTime"]))]

  /** Steps 03 to 06: each skips on a missing value and requires the example. */
  const PulseOxSearches: seq<SearchStep> := [
    SearchStep(PulseOxByCategoryDate, true, true, false, None),
    SearchStep(PulseOxByCategory, true, true, false, None),
    SearchStep(PulseOxByCategoryStatus, true, true, false, None),
    SearchStep(PulseOxByCodeDate, true, true, false, None)
  ]

  /** The must-support paths of step 11, duplicates included, in source order. */
  const PulseOxMustSupport: seq<string> := [
      "Observation.status",
      "Observation.category",
      "Observation.category",
      "Observation.category.coding",
      "Observation.category.coding.system",
      "Observation.category.coding.code",
      "Observation.code",
      "Observation.code.coding",
      "Observation.code.coding",
      "Observation.code.coding.system",
      "Observation.code.coding.code",
      "Observation.subject",
      "Observation.effectiveDateTime",
      "Observation.effectivePeriod",
      "Observation.valueQuantity",
      "Observation.valueQuantity.value",
      "Observation.valueQuantity.unit",
      "Observation.valueQuantity.system",
      "Observation.valueQuantity.code",
      "Observation.dataAbsentReason",
      "Observation.component",
      "Observation.component.code",
      "Observation.component.valueQuantity",
      "Observation.component.valueCodeableConcept",
      "Observation.component.valueString",
      "Observation.component.valueBoolean",
      "Observation.component.valueInteger",
      "Observation.component.valueRange",
      "Observation.component.valueRatio",
      "Observation.component.valueSampledData",
      "Observation.component.valueTime",
      "Observation.component.valueDateTime",
      "Observation.component.valuePeriod",
      "Observation.component.dataAbsentReason",
      "Observation.component",
      "Observation.component.code",
      "Observation.component.valueQuantity",
      "Observation.component.valueCodeableConcept",
      "Observation.component.valueString",
      "Observation.component.valueBoolean",
      "Observation.component.valueInteger",
      "Observation.component.valueRange",
      "Observation.component.valueRatio",
      "Observation.component.valueSampledData",
      "Observation.component.valueTime",
      "Observation.component.valueDateTime",
      "Observation.component.valuePeriod",
      "Observation.component.valueQuantity.value",
      "Observation.component.valueCodeableConcept.value",
      "Observation.component.valueString.value",
      "Observation.component.valueBoolean.value",
      "Observation.component.valueInteger.value",
      "Observation.component.valueRange.value",
      "Observation.component.valueRatio.value",
      "Observation.component.valueSampledData.value",
      "Observation.component.valueTime.value",
      "Observation.component.valueDateTime.value",
      "Observation.component.valuePeriod.value",
      "Observation.component.valueQuantity.unit",
      "Observation.component.valueCodeableConcept.unit",
      "Observation.component.valueString.unit",
      "Observation.component.valueBoolean.unit",
      "Observation.component.valueInteger.unit",
      "Observation.component.valueRange.unit",
      "Observation.component.valueRatio.unit",
      "Observation.component.valueSampledData.unit",
      "Observation.component.valueTime.unit",
      "Observation.component.valueDateTime.unit",
      "Observation.component.valuePeriod.unit",
      "Observation.component.valueQuantity.system",
      "Observation.component.valueCodeableConcept.system",
      "Observation.component.valueString.system",
      "Observation.component.valueBoolean.system",
      "Observation.component.valueInteger.system",
      "Observation.component.valueRange.system",
      "Observation.component.valueRatio.system",
      "Observation.component.valueSampledData.system",
      "Observation.component.valueTime.system",
      "Observation.component.valueDateTime.system",
      "Observation.component.valuePeriod.system",
      "Observation.component.valueQuantity.code",
      "Observation.component.valueCodeableConcept.code",
      "Observation.component.valueString.code",
      "Observation.component.valueBoolean.code",
      "Observation.component.valueInteger.code",
      "Observation.component.valueRange.code",
      "Observation.component.valueRatio.code",
      "Observation.component.valueSampledData.code",
      "Observation.component.valueTime.code",
      "Observation.component.valueDateTime.code",
      "Observation.component.valuePeriod.code",
      "Observation.component.dataAbsentReason",
      "Observation.component",
      "Observation.component.code",
      "Observation.component.valueQuantity",
      "Observation.component.valueCodeableConcept",
      "Observation.component.valueString",
      "Observation.component.valueBoolean",
      "Observation.component.valueInteger",
      "Observation.component.valueRange",
      "Observation.component.valueRatio",
      "Observation.component.valueSampledData",
      "Observation.component.valueTime",
      "Observation.component.valueDateTime",
      "Observation.component.valuePeriod",
      "Observation.component.valueQuantity.value",
      "Observation.component.valueCodeableConcept.value",
      "Observation.component.valueString.value",
      "Observation.component.valueBoolean.value",
      "Observation.component.valueInteger.value",
      "Observation.component.valueRange.value",
      "Observation.component.valueRatio.value",
      "Observation.component.valueSampledData.value",
      "Observation.component.valueTime.value",
      "Observation.component.valueDateTime.value",
      "Observation.component.valuePeriod.value",
      "Observation.component.valueQuantity.unit",
      "Observation.component.valueCodeableConcept.unit",
      "Observation.component.valueString.unit",
      "Observation.component.valueBoolean.unit",
      "Observation.component.valueInteger.unit",
      "Observation.component.valueRange.unit",
      "Observation.component.valueRatio.unit",
      "Observation.component.valueSampledData.unit",
      "Observation.component.valueTime.unit",
      "Observation.component.valueDateTime.unit",
      "Observation.component.valuePeriod.unit",
      "Observation.component.valueQuantity.system",
      "Observation.component.valueCodeableConcept.system",
      "Observation.component.valueString.system",
      "Observation.component.valueBoolean.system",
      "Observation.component.valueInteger.system",
      "Observation.component.valueRange.system",
      "Observation.component.valueRatio.system",
      "Observation.component.valueSampledData.system",
      "Observation.component.valueTime.system",
      "Observation.component.valueDateTime.system",
      "Observation.component.valuePeriod.system",
      "Observation.component.valueQuantity.code",
      "Observation.component.valueCodeableConcept.code",
      "Observation.component.valueString.code",
      "Observation.component.valueBoolean.code",
      "Observation.component.valueInteger.code",
      "Observation.component.valueRange.code",
      "Observation.component.valueRatio.code",
      "Observation.component.valueSampledData.code",
      "Observation.component.valueTime.code",
      "Observation.component.valueDateTime.code",
      "Observation.component.valuePeriod.code",
      "Observation.component.dataAbsentReason"
 ]

  /**
   * On a fresh run the example is `nil`, so the `code` value of step 02 is
   * never found: the step names `code` as unresolved (the patient id always
   * resolves).
   */
  lemma PulseOxCodeUnresolved(patientId: string)
    ensures FirstUnresolved(BuildQuery(PulseOxByCode, Some(patientId), Wrap(JNull))) == Some("code")
  {
    var q := BuildQuery(PulseOxByCode, Some(patientId), Wrap(JNull));
    Resolver.AbsentResolvesToNothing(["code", "coding", "code"], Resolver.AnyValue);
    assert q[0].value == JStr(patientId) && q[1].value == JNull;
    assert q[1..][0].value == JNull;
  }

  /** Step 02 on a fresh run: it names `code` as unresolved and sends nothing, so nothing is found. */
  method PulseOxOpening(patientId: string, supported: set<Interaction>, documentedSearches: set<seq<string>>,
                        validator: Json -> seq<string>, dateMatches: (Json, Json) -> bool, server: Query -> Reply)
    returns (run: Run, o: Outcome)
    ensures fresh(run) && run.Valid()
    ensures run.resourceType == "Observation" && run.supported == supported
    ensures !run.resourcesFound && run.found == [] && run.sent == []
    ensures o == Skip(CouldNotResolve("code"))
  {
    run := new Run("Observation", PatientNoResources, patientId, supported, documentedSearches, validator,
                   (r, p, v) => Matching.PulseOxItem(r, p, v, dateMatches));
    PulseOxCodeUnresolved(patientId);
    o := run.FirstSearch(PulseOxByCode, true, None, server);
  }

  /** Steps 07 to 12; while nothing was found each skips, through the support check or the gate. */
  method PulseOxLaterSteps(run: Run, oracles: Oracles) returns (later: seq<Outcome>)
    ensures |later| == 6
    ensures !run.resourcesFound && run.found == [] ==> forall i :: 0 <= i < |later| ==> later[i].Skip?
  {
    var read := run.InteractionStep([Read], oracles.read);
    var vread := run.InteractionStep([VRead], oracles.vread);
    var history := run.InteractionStep([History], oracles.history);
    var profile := run.ProfileStep(oracles.profile);
    var mustSupport := run.MustSupportStep(PulseOxMustSupport);
    var references := run.InteractionStep([Search, Read], oracles.references);
    later := [read, vread, history, profile, mustSupport, references];
  }

  /**
   * Steps 02 to 12 on a fresh run. As written, step 02 resolves `code` from
   * the example before any search has captured one, so it always skips
   * before sending; `resourcesFound` then stays false and every later step
   * skips as well: the sequence is skipped and no query is ever sent.
   */
  method RunPulseOximetry(patientId: string, supported: set<Interaction>, documentedSearches: set<seq<string>>,
                          validator: Json -> seq<string>, dateMatches: (Json, Json) -> bool,
                          oracles: Oracles, server: Query -> Reply)
    returns (results: seq<Outcome>, sent: seq<Query>)
    ensures |results| == 11
    ensures results[0] == Skip(CouldNotResolve("code"))
    ensures forall i :: 0 <= i < |results| ==> results[i].Skip?
    ensures Aggregate(results) == SequenceSkip
    ensures sent == []
  {
    var run, byCode := PulseOxOpening(patientId, supported, documentedSearches, validator, dateMatches, server);
    var searches := DependentSearches(run, PulseOxSearches, server);
    var later := PulseOxLaterSteps(run, oracles);
    results := [byCode] + searches + later;
    forall i | 0 <= i < |results| ensures results[i].Skip? {
      if 1 <= i < 5 {
        assert results[i] == searches[i - 1];
      } else if 5 <= i {
        assert results[i] == later[i - 5];
      }
    }
    sent := run.sent;
  }

  // ---------------------------------------------------------------------------
  // US Core R4 DocumentReference
  // ---------------------------------------------------------------------------

  const DocRefByPatient: seq<ParamSpec> := [PatientParam]
  const DocRefById: seq<ParamSpec> := [ParamSpec("_id", ElementPath(["id"]))]
  const DocRefByCategory: seq<ParamSpec> :=
    [PatientParam, ParamSpec("category", ElementPath(["category", "coding", "code"]))]
  const DocRefByCategoryDate: seq<ParamSpec> :=
    [PatientParam, ParamSpec("category", ElementPath(["category", "coding", "code"])),
     ParamSpec("date", ElementPath(["date"]))]
  const DocRefByType: seq<ParamSpec> :=
    [PatientParam, ParamSpec("type", ElementPath(["type", "coding", "code"]))]
  const DocRefByStatus: seq<ParamSpec> := [PatientParam, ParamSpec("status", ElementPath(["status"]))]
  const DocRefByTypePeriod: seq<ParamSpec> :=
    [PatientParam, ParamSpec("type", ElementPath(["type", "coding", "code"])),
     ParamSpec("period", ElementPath(["context", "period", "start"]))]

  /** The parameter check of the DocumentReference searches, which request no comparator.
      `period` is checked by the corrected rule, which asserts its result; the code as
      written never asserts it (see `Matching.PeriodMismatchPassesAsWritten`). */
  function DocRefCheck(resource: Json, property: string, value: Json): Assertion
  {
    Matching.DocRefItem(resource, property, value, None)
  }

  /** Steps 03 to 08: they require the example but send a `nil` value rather than skip. */
  const DocRefSearches: seq<SearchStep> := [
    SearchStep(DocRefById, false, true, false, None),
    SearchStep(DocRefByCategory, false, true, false, None),
    SearchStep(DocRefByCategoryDate, false, true, false, None),
    SearchStep(DocRefByType, false, true, false, None),
    SearchStep(DocRefByStatus, false, true, false, None),
    SearchStep(DocRefByTypePeriod, false, true, false, None)
  ]

  /** The must-support paths of step 14, in source order. */
  const DocRefMustSupport: seq<string> := [
    "DocumentReference.identifier",
    "DocumentReference.status",
    "DocumentReference.type",
    "DocumentReference.category",
    "DocumentReference.subject",
    "DocumentReference.date",
    "DocumentReference.author",
    "DocumentReference.custodian",
    "DocumentReference.content",
    "DocumentReference.content.attachment",
    "DocumentReference.content.attachment.contentType",
    "DocumentReference.content.attachment.data",
    "DocumentReference.content.attachment.url",
    "DocumentReference.content.format",
    "DocumentReference.context",
    "DocumentReference.context.encounter",
    "DocumentReference.context.period"
  ]

  /** The configuration of a DocumentReference run. */
  function DocRefSetting(patientId: string, supported: set<Interaction>, documentedSearches: set<seq<string>>,
                         validator: Json -> seq<string>): Setting
  {
    Setting("DocumentReference", PatientNoResources, patientId, supported, documentedSearches, validator, DocRefCheck)
  }

  /**
   * Step 02 on a fresh run: it sends `patient=<id>`, its outcome is the
   * classification of that exchange, and resources are found exactly when
   * the reply is a Bundle with entries.
   */
  method DocRefOpening(patientId: string, supported: set<Interaction>, documentedSearches: set<seq<string>>,
                       validator: Json -> seq<string>, server: Query -> Reply)
    returns (run: Run, o: Outcome)
    ensures fresh(run) && run.Valid()
    ensures run.resourceType == "DocumentReference" && run.supported == supported
    ensures run.Config() == DocRefSetting(patientId, supported, documentedSearches, validator)
    ensures var x := SendSearch([Param("patient", JStr(patientId))], server, None, ["patient"] in documentedSearches);
            o == SearchOutcome(x, "DocumentReference", PatientNoResources, validator, DocRefCheck) &&
            run.sent == x.sent &&
            run.resourcesFound == FoundResources(x) &&
            (run.resourcesFound ==> run.found == BundleEntries(x))
  {
    run := new Run("DocumentReference", PatientNoResources, patientId, supported, documentedSearches, validator,
                   DocRefCheck);
    NoPathNeedsNoExample(DocRefByPatient, patientId, Wrap(JNull));
    assert BuildQuery(DocRefByPatient, Some(patientId), Wrap(JNull)) == [Param("patient", JStr(patientId))];
    assert ParamNames(DocRefByPatient) == ["patient"];
    o := run.FirstSearch(DocRefByPatient, false, None, server);
  }

  /** Steps 09 to 12, the interactions; while nothing was found each skips, through the support check or the gate. */
  method DocRefInteractionSteps(run: Run, oracles: Oracles) returns (steps: seq<Outcome>)
    requires run.Valid()
    ensures |steps| == 4
    ensures !run.resourcesFound && run.found == [] ==> forall i :: 0 <= i < |steps| ==> steps[i].Skip?
    ensures run.resourcesFound && Read in run.supported ==> steps[1] == oracles.read(First(run.found))
    ensures steps == DocRefInteractions(run.Config(), run.resourcesFound, run.found, oracles)
  {
    var create := run.InteractionStep([Create], oracles.create);
    var read := run.InteractionStep([Read], oracles.read);
    var vread := run.InteractionStep([VRead], oracles.vread);
    var history := run.InteractionStep([History], oracles.history);
    steps := [create, read, vread, history];
  }

  /** Steps 13 to 15: profile, must-support and references; while nothing was found each skips. */
  method DocRefConformanceSteps(run: Run, oracles: Oracles) returns (steps: seq<Outcome>)
    requires run.Valid()
    ensures |steps| == 3
    ensures !run.resourcesFound && run.found == [] ==> forall i :: 0 <= i < |steps| ==> steps[i].Skip?
    ensures run.resourcesFound ==> steps[0] == oracles.profile(run.found)
    ensures !run.resourcesFound ==> steps[0] == Skip(run.noResources)
    ensures steps[1] == MustSupport.MustSupportOutcome(run.found, DocRefMustSupport, run.resourceType)
    ensures steps == DocRefConformance(run.Config(), run.resourcesFound, run.found, oracles)
  {
    var profile := run.ProfileStep(oracles.profile);
    var mustSupport := run.MustSupportStep(DocRefMustSupport);
    var references := run.InteractionStep([Search, Read], oracles.references);
    steps := [profile, mustSupport, references];
  }

  /**
   * What steps 03 to 15 give, from the configuration and what step 02
   * captured: the six dependent searches, create, read, vread, history,
   * the profile check, must-support and the references check.
   */
  function DocRefLater(s: Setting, found: bool, captured: seq<Json>, oracles: Oracles,
                       server: Query -> Reply): seq<Outcome>
  {
    StepOutcomes(s, found, captured, DocRefSearches, server) +
    (DocRefInteractions(s, found, captured, oracles) + DocRefConformance(s, found, captured, oracles))
  }

  /** Steps 09 to 12: create, read, vread and history, each on the example. */
  function DocRefInteractions(s: Setting, found: bool, captured: seq<Json>, oracles: Oracles): seq<Outcome>
  {
    [InteractionOutcome(s, found, First(captured), [Create], oracles.create),
     InteractionOutcome(s, found, First(captured), [Read], oracles.read),
     InteractionOutcome(s, found, First(captured), [VRead], oracles.vread),
     InteractionOutcome(s, found, First(captured), [History], oracles.history)]
  }

  /** Steps 13 to 15: the profile check, must-support and the references check. */
  function DocRefConformance(s: Setting, found: bool, captured: seq<Json>, oracles: Oracles): seq<Outcome>
  {
    [if found then oracles.profile(captured) else Skip(s.noResources),
     MustSupport.MustSupportOutcome(captured, DocRefMustSupport, s.resourceType),
     InteractionOutcome(s, found, First(captured), [Search, Read], oracles.references)]
  }

  /** Steps 03 to 08 are the dependent searches, their values resolved against what was captured. */
  lemma DocRefSearchSteps(s: Setting, found: bool, captured: seq<Json>, oracles: Oracles, server: Query -> Reply,
                          i: nat)
    requires i < 6
    ensures |DocRefLater(s, found, captured, oracles, server)| == 13
    ensures DocRefLater(s, found, captured, oracles, server)[i] == StepOutcome(s, found, captured, DocRefSearches[i], server)
  {
    StepOutcomesIndex(s, found, captured, DocRefSearches, server, i);
  }

  /** While nothing was captured, every one of steps 03 to 15 skips. */
  lemma DocRefGatedAllSkip(s: Setting, oracles: Oracles, server: Query -> Reply)
    ensures |DocRefLater(s, false, [], oracles, server)| == 13
    ensures forall i :: 0 <= i < 13 ==> DocRefLater(s, false, [], oracles, server)[i].Skip?
  {
    var later := DocRefLater(s, false, [], oracles, server);
    forall i | 0 <= i < 13 ensures later[i].Skip? {
      if i < 6 {
        DocRefSearchSteps(s, false, [], oracles, server, i);
      }
    }
  }

  /** The references step needs both the search and the read interaction, and skips naming both otherwise. */
  lemma DocRefReferencesNeedSearchAndRead(s: Setting, found: bool, captured: seq<Json>, oracles: Oracles,
                                          server: Query -> Reply)
    requires !(Search in s.supported && Read in s.supported)
    ensures DocRefLater(s, found, captured, oracles, server)[12] == Skip(NotSupported(s.resourceType, [Search, Read]))
  {
    assert !AllSupported([Search, Read], s.supported) by {
      if Search !in s.supported {
        assert [Search, Read][0] !in s.supported;
      } else {
        assert [Search, Read][1] !in s.supported;
      }
    }
  }

  /** Steps 03 to 15 on a run whose step 02 is done. */
  method DocRefSteps(run: Run, oracles: Oracles, server: Query -> Reply) returns (steps: seq<Outcome>)
    requires run.Valid()
    modifies run
    ensures run.Valid()
    ensures run.resourcesFound == old(run.resourcesFound) && run.found == old(run.found)
    ensures steps == DocRefLater(run.Config(), run.resourcesFound, run.found, oracles, server)
    ensures run.sent == old(run.sent) + StepsSent(run.Config(), run.resourcesFound, run.found, DocRefSearches, server)
  {
    var searches := DependentSearches(run, DocRefSearches, server);
    var interactions := DocRefInteractionSteps(run, oracles);
    var conformance := DocRefConformanceSteps(run, oracles);
    steps := searches + (interactions + conformance);
  }

  /**
   * Steps 02 to 15 on a fresh run. Step 02 sends `patient=<id>` first and
   * its outcome is the classification of that exchange. What it captured
   * decides the rest; unless its reply is a Bundle with entries,
   * `resourcesFound` stays false: every later step skips, and that one
   * query is all the run sends.
   */
  method RunDocumentReference(patientId: string, supported: set<Interaction>, documentedSearches: set<seq<string>>,
                              validator: Json -> seq<string>, oracles: Oracles, server: Query -> Reply)
    returns (results: seq<Outcome>, sent: seq<Query>)
    ensures var x := SendSearch([Param("patient", JStr(patientId))], server, None, ["patient"] in documentedSearches);
            var s := DocRefSetting(patientId, supported, documentedSearches, validator);
            var captured := if FoundResources(x) then BundleEntries(x) else [];
            results == [SearchOutcome(x, "DocumentReference", PatientNoResources, validator, DocRefCheck)] +
                       DocRefLater(s, FoundResources(x), captured, oracles, server) &&
            sent == x.sent + StepsSent(s, FoundResources(x), captured, DocRefSearches, server)
    ensures var x := SendSearch([Param("patient", JStr(patientId))], server, None, ["patient"] in documentedSearches);
            |results| == 14 &&
            (!FoundResources(x) ==> sent == x.sent && forall i :: 1 <= i < |results| ==> results[i].Skip?)
    ensures !(Search in supported && Read in supported) ==>
              |results| == 14 && results[13] == Skip(NotSupported("DocumentReference", [Search, Read]))
  {
    var run, byPatient := DocRefOpening(patientId, supported, documentedSearches, validator, server);
    ghost var x := SendSearch([Param("patient", JStr(patientId))], server, None, ["patient"] in documentedSearches);
    assert run.found == if FoundResources(x) then BundleEntries(x) else [];
    var steps := DocRefSteps(run, oracles, server);
    results := [byPatient] + steps;
    sent := run.sent;
    DocRefResults(byPatient, run.Config(), run.resourcesFound, run.found, oracles, server);
  }

  /**
   * The fourteen outcomes of a run whose step 02 gave `first`: while nothing
   * was captured all but the first skip and the searches send nothing, and
   * the references step skips naming both interactions unless search and
   * read are supported.
   */
  lemma DocRefResults(first: Outcome, s: Setting, found: bool, captured: seq<Json>, oracles: Oracles,
                      server: Query -> Reply)
    ensures |[first] + DocRefLater(s, found, captured, oracles, server)| == 14
    ensures !found && captured == [] ==>
              StepsSent(s, found, captured, DocRefSearches, server) == [] &&
              forall i :: 1 <= i < 14 ==> ([first] + DocRefLater(s, found, captured, oracles, server))[i].Skip?
    ensures !(Search in s.supported && Read in s.supported) ==>
              ([first] + DocRefLater(s, found, captured, oracles, server))[13] ==
              Skip(NotSupported(s.resourceType, [Search, Read]))
  {
    var later := DocRefLater(s, found, captured, oracles, server);
    var results := [first] + later;
    if !(Search in s.supported && Read in s.supported) {
      DocRefReferencesNeedSearchAndRead(s, found, captured, oracles, server);
      assert results[13] == later[12];
    }
    if !found && captured == [] {
      DocRefGatedAllSkip(s, oracles, server);
      GatedStepsSendNothing(s, [], DocRefSearches, server);
      forall i | 1 <= i < 14 ensures results[i].Skip? {
        assert results[i] == later[i - 1];
      }
    }
  }

  // ---------------------------------------------------------------------------
  // US Core 3.1.0 Condition and Goal
  // ---------------------------------------------------------------------------

  const ConditionStatus: Vocabulary :=
    StatusVocabulary("clinical-status", ["active", "recurrence", "relapse", "inactive", "remission", "resolved"])
  const GoalStatus: Vocabulary :=
    StatusVocabulary("lifecycle-status", ["proposed", "planned", "accepted", "active", "on-hold", "completed",
                                          "cancelled", "entered-in-error", "rejected"])

  const ConditionByCategory: seq<ParamSpec> := [PatientParam, ParamSpec("category", ElementPath(["category"]))]
  const ConditionByOnsetDate: seq<ParamSpec> := [PatientParam, ParamSpec("onset-date", ElementPath(["onsetDateTime"]))]
  const ConditionByClinicalStatus: seq<ParamSpec> :=
    [PatientParam, ParamSpec("clinical-status", ElementPath(["clinicalStatus"]))]
  const ConditionByCode: seq<ParamSpec> := [PatientParam, ParamSpec("code", ElementPath(["code"]))]
  const GoalByTargetDate: seq<ParamSpec> := [PatientParam, ParamSpec("target-date", ElementPath(["target", "dueDate"]))]
  const GoalByLifecycleStatus: seq<ParamSpec> :=
    [PatientParam, ParamSpec("lifecycle-status", ElementPath(["lifecycleStatus"]))]

  /**
   * The dependent searches of the 3.1.0 Condition and Goal sequences. Their
   * values are resolved against every captured entry, a missing value skips,
   * and all but the status searches carry the status fallback.
   */
  const ConditionSearches: seq<SearchStep> := [
    SearchStep(ConditionByCategory, true, false, true, Some(ConditionStatus)),
    SearchStep(ConditionByOnsetDate, true, false, true, Some(ConditionStatus)),
    SearchStep(ConditionByClinicalStatus, true, false, true, None),
    SearchStep(ConditionByCode, true, false, true, Some(ConditionStatus))
  ]
  const GoalSearches: seq<SearchStep> := [
    SearchStep(GoalByTargetDate, true, false, true, Some(GoalStatus)),
    SearchStep(GoalByLifecycleStatus, true, false, true, None)
  ]

  /**
   * A 3.1.0 sequence's search by patient, then one of its dependent
   * searches, on a fresh run. The dependent search skips with the type's
   * gate message while the first search found nothing; otherwise its values
   * come from the captured entries, a missing one is named in the skip, and
   * the search is sent (with its status fallback) and classified.
   */
  method SearchThenDependent(resourceType: string, vocabulary: Vocabulary, step: SearchStep, patientId: string,
                             documentedSearches: set<seq<string>>, validator: Json -> seq<string>,
                             itemCheck: (Json, string, Json) -> Assertion, server: Query -> Reply)
    returns (first: Outcome, second: Outcome, sent: seq<Query>)
    requires !step.checkExample && step.fromAll && step.skipUnresolved
    ensures var x0 := SendSearch([Param("patient", JStr(patientId))], server, Some(vocabulary),
                                 ["patient"] in documentedSearches);
            first == SearchOutcome(x0, resourceType, TypeNoResources(resourceType), validator, itemCheck) &&
            (!FoundResources(x0) ==> second == Skip(TypeNoResources(resourceType)) && sent == x0.sent)
    ensures var x0 := SendSearch([Param("patient", JStr(patientId))], server, Some(vocabulary),
                                 ["patient"] in documentedSearches);
            var q := BuildQuery(step.params, Some(patientId), BundleEntries(x0));
            FoundResources(x0) && FirstUnresolved(q).Some? ==>
              second == Skip(CouldNotResolve(FirstUnresolved(q).value)) && sent == x0.sent
    ensures var x0 := SendSearch([Param("patient", JStr(patientId))], server, Some(vocabulary),
                                 ["patient"] in documentedSearches);
            var q := BuildQuery(step.params, Some(patientId), BundleEntries(x0));
            var x := SendSearch(q, server, step.fallback, ParamNames(step.params) in documentedSearches);
            FoundResources(x0) && FirstUnresolved(q).None? ==>
              second == SearchOutcome(x, resourceType, TypeNoResources(resourceType), validator, itemCheck) &&
              sent == x0.sent + x.sent
  {
    var run := new Run(resourceType, TypeNoResources(resourceType), patientId, {Search}, documentedSearches,
                       validator, itemCheck);
    NoPathNeedsNoExample([PatientParam], patientId, Wrap(JNull));
    assert BuildQuery([PatientParam], Some(patientId), Wrap(JNull)) == [Param("patient", JStr(patientId))];
    assert ParamNames([PatientParam]) == ["patient"];
    ghost var x0 := SendSearch([Param("patient", JStr(patientId))], server, Some(vocabulary),
                               ["patient"] in documentedSearches);
    first := run.FirstSearch([PatientParam], true, Some(vocabulary), server);
    assert run.sent == x0.sent && run.warnings == x0.warnings;
    assert run.resourcesFound == FoundResources(x0);
    assert run.resourcesFound ==> run.Source(step.fromAll) == BundleEntries(x0);
    second := run.DependentSearch(step.params, step.skipUnresolved, step.checkExample, step.fromAll,
                                  step.fallback, server);
    sent := run.sent;
  }

  /**
   * Condition's search by patient+category after its search by patient.
   * While nothing was found it skips with "No Condition resources appear to
   * be available…" and sends nothing more; an entry without a category
   * skips naming `category`; and a server that answers the category search
   * with a 400 and an OperationOutcome is asked again with
   * `clinical-status=active` appended.
   */
  method ConditionCategoryRun(patientId: string, documentedSearches: set<seq<string>>, validator: Json -> seq<string>,
                              itemCheck: (Json, string, Json) -> Assertion, server: Query -> Reply)
    returns (first: Outcome, category: Outcome, sent: seq<Query>)
    ensures var x0 := SendSearch([Param("patient", JStr(patientId))], server, Some(ConditionStatus),
                                 ["patient"] in documentedSearches);
            !FoundResources(x0) ==>
              category == Skip(TypeNoResources("Condition")) &&
              sent == x0.sent
    ensures var x0 := SendSearch([Param("patient", JStr(patientId))], server, Some(ConditionStatus),
                                 ["patient"] in documentedSearches);
            var q := BuildQuery(ConditionByCategory, Some(patientId), BundleEntries(x0));
            FoundResources(x0) && FirstUnresolved(q).Some? ==>
              category == Skip(CouldNotResolve("category")) && sent == x0.sent
    ensures var x0 := SendSearch([Param("patient", JStr(patientId))], server, Some(ConditionStatus),
                                 ["patient"] in documentedSearches);
            var q := BuildQuery(ConditionByCategory, Some(patientId), BundleEntries(x0));
            FoundResources(x0) && FirstUnresolved(q).None? && server(q) == Reply(400, ResourceBody("OperationOutcome")) ==>
              sent == x0.sent + [q, q + [Param("clinical-status", JStr("active"))]]
  {
    var step := ConditionSearches[0];
    assert step == SearchStep(ConditionByCategory, true, false, true, Some(ConditionStatus));
    first, category, sent := SearchThenDependent("Condition", ConditionStatus, step, patientId, documentedSearches,
                                                 validator, itemCheck, server);
    ghost var x0 := SendSearch([Param("patient", JStr(patientId))], server, Some(ConditionStatus),
                               ["patient"] in documentedSearches);
    ghost var q := BuildQuery(ConditionByCategory, Some(patientId), BundleEntries(x0));
    if FoundResources(x0) && FirstUnresolved(q).Some? {
      assert q[0].value == JStr(patientId);
      assert FirstUnresolved(q).value == "category";
    }
    if FoundResources(x0) && FirstUnresolved(q).None? && server(q) == Reply(400, ResourceBody("OperationOutcome")) {
      assert RetryQuery(q, ConditionStatus) == q + [Param("clinical-status", JStr("active"))];
    }
  }

  /**
   * Goal's search by patient+target-date after its search by patient: the
   * gate skip "No Goal resources appear to be available…", the skip naming
   * `target-date`, and the retry with `lifecycle-status=proposed`.
   */
  method GoalTargetDateRun(patientId: string, documentedSearches: set<seq<string>>, validator: Json -> seq<string>,
                           itemCheck: (Json, string, Json) -> Assertion, server: Query -> Reply)
    returns (first: Outcome, targetDate: Outcome, sent: seq<Query>)
    ensures var x0 := SendSearch([Param("patient", JStr(patientId))], server, Some(GoalStatus),
                                 ["patient"] in documentedSearches);
            !FoundResources(x0) ==>
              targetDate == Skip(TypeNoResources("Goal")) &&
              sent == x0.sent
    ensures var x0 := SendSearch([Param("patient", JStr(patientId))], server, Some(GoalStatus),
                                 ["patient"] in documentedSearches);
            var q := BuildQuery(GoalByTargetDate, Some(patientId), BundleEntries(x0));
            FoundResources(x0) && FirstUnresolved(q).Some? ==>
              targetDate == Skip(CouldNotResolve("target-date")) && sent == x0.sent
    ensures var x0 := SendSearch([Param("patient", JStr(patientId))], server, Some(GoalStatus),
                                 ["patient"] in documentedSearches);
            var q := BuildQuery(GoalByTargetDate, Some(patientId), BundleEntries(x0));
            FoundResources(x0) && FirstUnresolved(q).None? && server(q) == Reply(400, ResourceBody("OperationOutcome")) ==>
              sent == x0.sent + [q, q + [Param("lifecycle-status", JStr("proposed"))]]
  {
    var step := GoalSearches[0];
    assert step == SearchStep(GoalByTargetDate, true, false, true, Some(GoalStatus));
    first, targetDate, sent := SearchThenDependent("Goal", GoalStatus, step, patientId, documentedSearches,
                                                   validator, itemCheck, server);
    ghost var x0 := SendSearch([Param("patient", JStr(patientId))], server, Some(GoalStatus),
                               ["patient"] in documentedSearches);
    ghost var q := BuildQuery(GoalByTargetDate, Some(patientId), BundleEntries(x0));
    if FoundResources(x0) && FirstUnresolved(q).Some? {
      assert q[0].value == JStr(patientId);
      assert FirstUnresolved(q).value == "target-date";
    }
    if FoundResources(x0) && FirstUnresolved(q).None? && server(q) == Reply(400, ResourceBody("OperationOutcome")) {
      assert RetryQuery(q, GoalStatus) == q + [Param("lifecycle-status", JStr("proposed"))];
    }
  }

  /**
   * The search by patient of a 3.1.0 sequence against a server that demands
   * a status: the first query is `patient=<id>`, the second adds the first
   * value of the type's status vocabulary, a warning is recorded unless the
   * capability data documents the search, and the outcome is the
   * classification of the second reply.
   */
  method SearchRequiringStatus(resourceType: string, vocabulary: Vocabulary, patientId: string,
                               documentedSearches: set<seq<string>>, validator: Json -> seq<string>,
                               itemCheck: (Json, string, Json) -> Assertion, server: Query -> Reply)
    returns (o: Outcome, warnings: seq<string>, sent: seq<Query>)
    requires server([Param("patient", JStr(patientId))]) == Reply(400, ResourceBody("OperationOutcome"))
    ensures var base := [Param("patient", JStr(patientId))];
            var retry := base + [Param(vocabulary.param, JStr(vocabulary.values[0]))];
            sent == [base, retry] &&
            warnings == (if ["patient"] in documentedSearches then [] else [UndocumentedSearch]) &&
            o == ClassifyReply(server(retry), resourceType, TypeNoResources(resourceType), retry, validator, itemCheck)
  {
    var run := new Run(resourceType, TypeNoResources(resourceType), patientId, {Search}, documentedSearches,
                       validator, itemCheck);
    NoPathNeedsNoExample([PatientParam], patientId, Wrap(JNull));
    assert BuildQuery([PatientParam], Some(patientId), Wrap(JNull)) == [Param("patient", JStr(patientId))];
    assert ParamNames([PatientParam]) == ["patient"];
    o := run.FirstSearch([PatientParam], true, Some(vocabulary), server);
    warnings := run.warnings;
    sent := run.sent;
  }

  /** Condition retries with `clinical-status=active`, the first value of its status vocabulary. */
  lemma ConditionRetriesWithActive(patientId: string, server: Query -> Reply, documented: bool)
    requires server([Param("patient", JStr(patientId))]) == Reply(400, ResourceBody("OperationOutcome"))
    ensures var x := SendSearch([Param("patient", JStr(patientId))], server, Some(ConditionStatus), documented);
            x.sent[1] == [Param("patient", JStr(patientId)), Param("clinical-status", JStr("active"))]
  {
  }

  /** Goal retries with `lifecycle-status=proposed`. */
  lemma GoalRetriesWithProposed(patientId: string, server: Query -> Reply, documented: bool)
    requires server([Param("patient", JStr(patientId))]) == Reply(400, ResourceBody("OperationOutcome"))
    ensures var x := SendSearch([Param("patient", JStr(patientId))], server, Some(GoalStatus), documented);
            x.sent[1] == [Param("patient", JStr(patientId)), Param("lifecycle-status", JStr("proposed"))]
  {
  }

  /** An empty Condition gives no `category`, so the search by patient+category names it as unresolved. */
  lemma ConditionWithoutCategoryUnresolved(patientId: string)
    ensures FirstUnresolved(BuildQuery(ConditionSearches[0].params, Some(patientId), [JObj([])])) == Some("category")
  {
    var q := BuildQuery(ConditionByCategory, Some(patientId), [JObj([])]);
    Resolver.MissingFieldResolvesToNothing(JObj([]), "category", [], Resolver.AnyValue);
    assert ["category"] == ["category"] + [];
    assert q[0].value == JStr(patientId) && q[1].value == JNull;
    assert q[1..][0].value == JNull;
  }

  /** An empty Goal (no `target`) gives no `target-date`, so the step names it as unresolved. */
  lemma GoalWithoutTargetUnresolved(patientId: string)
    ensures FirstUnresolved(BuildQuery(GoalSearches[0].params, Some(patientId), [JObj([])])) == Some("target-date")
  {
    var q := BuildQuery(GoalByTargetDate, Some(patientId), [JObj([])]);
    Resolver.MissingFieldResolvesToNothing(JObj([]), "target", ["dueDate"], Resolver.AnyValue);
    assert ["target", "dueDate"] == ["target"] + ["dueDate"];
    assert q[0].value == JStr(patientId) && q[1].value == JNull;
    assert q[1..][0].value == JNull;
  }

  /**
   * `target` is repeated: the rest of the path is tried on each target in
   * order, so a first target without a due date is passed over and the
   * second one's date is used.
   */
  lemma GoalTargetDateFansOut(patientId: string, due: string)
    ensures var goal := JObj([Field("target", JArr([JObj([]), JObj([Field("dueDate", JStr(due))])]))]);
            BuildQuery(GoalByTargetDate, Some(patientId), [goal])[1] == Param("target-date", JStr(due))
  {
    var second := JObj([Field("dueDate", JStr(due))]);
    var goal := JObj([Field("target", JArr([JObj([]), second]))]);
    var p := Resolver.AnyValue;
    assert Get(goal, "target") == JArr([JObj([]), second]);
    assert Get(JObj([]), "dueDate") == JNull;
    assert Get(second, "dueDate") == JStr(due);
    assert Resolver.ResolveIn([JObj([]), second], ["dueDate"], p) == Resolver.ResolveIn([second], ["dueDate"], p);
    assert Resolver.ResolveIn([second], ["dueDate"], p) == Some(JStr(due));
    assert Resolver.ResolveIn([goal], ["target", "dueDate"], p) == Some(JStr(due));
  }
}
