/**
 * One run of a resource type's test sequence. The run object carries the
 * state the steps share: whether the first search found resources, the
 * example resource (the first Bundle entry), all entries of that Bundle,
 * the warnings recorded so far, and the log of queries sent to the server.
 *
 * Steps are methods. The search that finds resources sets the flag and
 * captures the example; dependent searches, interaction steps and the
 * profile step skip while the flag is false; interaction steps skip first
 * when the capability data lacks the interaction; the must-support step is
 * gated on the captured entries instead.
 */
module SequenceRun {
  import opened Resource
  import opened Outcomes
  import opened SearchProtocol
  import opened SearchParams
  import MustSupport
  import Text

  datatype Interaction = Read | VRead | History | Search | Create

  function InteractionName(i: Interaction): string
  {
    match i
    case Read => "read"
    case VRead => "vread"
    case History => "history"
    case Search => "search"
    case Create => "create"
  }

  /** Every interaction a step requires is declared in the capability data. */
  predicate AllSupported(required: seq<Interaction>, supported: set<Interaction>)
  {
    forall i :: 0 <= i < |required| ==> required[i] in supported
  }

  /** The skip message of a step whose interactions are not all supported. */
  function NotSupported(resourceType: string, required: seq<Interaction>): string
  {
    "This server does not support " + resourceType + " " +
    Text.JoinOn(seq(|required|, i requires 0 <= i < |required| => InteractionName(required[i])), ",") +
    " operation(s) according to conformance statement."
  }

  function ExpectedExample(resourceType: string): string
  {
    "Expected valid " + resourceType + " resource to be present"
  }

  /** The parameter names of a step, in order; the capability data documents searches by these. */
  function ParamNames(specs: seq<ParamSpec>): (names: seq<string>)
    ensures |names| == |specs|
    ensures forall i :: 0 <= i < |specs| ==> names[i] == specs[i].name
  {
    seq(|specs|, i requires 0 <= i < |specs| => specs[i].name)
  }

  /** The first entry of a Bundle, `nil` for an empty one. */
  function First(entries: seq<Json>): (e: Json)
    ensures entries != [] ==> e == entries[0]
    ensures entries == [] ==> e == JNull
  {
    if entries == [] then JNull else entries[0]
  }

  /** The search ended with a reply that passed the response-code and Bundle assertions. */
  predicate ReachedBundle(x: Exchange)
  {
    x.result.Replied? && ResponseOk(x.result.reply.status) && x.result.reply.body.BundleBody?
  }

  class Run {
    const resourceType: string
    /** The skip message of the `resourcesFound` gate. */
    const noResources: string
    const patientId: string
    /** The interactions the capability data declares for the resource type. */
    const supported: set<Interaction>
    /** The search parameter combinations the capability data documents. */
    const documentedSearches: set<seq<string>>
    /** The profile validator: the violations it reports for a resource. */
    const validator: Json -> seq<string>
    /** The sequence's `validate_resource_item`. */
    const itemCheck: (Json, string, Json) -> Assertion

    var resourcesFound: bool
    var example: Json
    var found: seq<Json>
    var warnings: seq<string>
    var sent: seq<Query>

    /**
     * Nothing is captured before resources are found, and the example is
     * always the first of the captured entries.
     */
    ghost predicate Valid()
      reads this
    {
      (!resourcesFound ==> found == [] && example == JNull) &&
      example == First(found)
    }

    constructor (resourceType: string, noResources: string, patientId: string, supported: set<Interaction>,
                 documentedSearches: set<seq<string>>, validator: Json -> seq<string>,
                 itemCheck: (Json, string, Json) -> Assertion)
      ensures Valid()
      ensures this.resourceType == resourceType && this.noResources == noResources && this.patientId == patientId
      ensures this.supported == supported && this.documentedSearches == documentedSearches
      ensures this.validator == validator && this.itemCheck == itemCheck
      ensures !resourcesFound && example == JNull && found == [] && warnings == [] && sent == []
    {
      this.resourceType := resourceType;
      this.noResources := noResources;
      this.patientId := patientId;
      this.supported := supported;
      this.documentedSearches := documentedSearches;
      this.validator := validator;
      this.itemCheck := itemCheck;
      resourcesFound := false;
      example := JNull;
      found := [];
      warnings := [];
      sent := [];
    }

    /** What path-sourced parameter values are resolved against: the example, or every captured entry. */
    function Source(fromAll: bool): seq<Json>
      reads this
    {
      if fromAll then found else Wrap(example)
    }

    /** What the run was configured with. */
    function Config(): Setting
    {
      Setting(resourceType, noResources, patientId, supported, documentedSearches, validator, itemCheck)
    }

    /**
     * The search that finds the run's resources. Parameters are resolved
     * against the example; when `skipUnresolved` is set, a missing value skips
     * the step before anything is sent. Otherwise the search is sent and its
     * outcome is the classification of the exchange; the flag becomes true
     * when the final reply is a Bundle with entries, and once it is true the
     * Bundle's entries and its first entry are captured.
     */
    method FirstSearch(params: seq<ParamSpec>, skipUnresolved: bool, fallback: Option<Vocabulary>,
                       server: Query -> Reply)
      returns (o: Outcome)
      requires Valid()
      modifies this
      ensures Valid()
      ensures var q := BuildQuery(params, Some(patientId), Wrap(old(example)));
              skipUnresolved && FirstUnresolved(q).Some? ==>
                o == Skip(CouldNotResolve(FirstUnresolved(q).value)) && unchanged(this)
      ensures var q := BuildQuery(params, Some(patientId), Wrap(old(example)));
              var x := SendSearch(q, server, fallback, ParamNames(params) in documentedSearches);
              !(skipUnresolved && FirstUnresolved(q).Some?) ==>
                o == SearchOutcome(x, resourceType, noResources, validator, itemCheck) &&
                sent == old(sent) + x.sent &&
                warnings == old(warnings) + x.warnings &&
                resourcesFound == (old(resourcesFound) || FoundResources(x)) &&
                (if ReachedBundle(x) && resourcesFound
                 then found == x.result.reply.body.entries && example == First(found)
                 else found == old(found) && example == old(example))
    {
      var q := BuildQuery(params, Some(patientId), Wrap(example));
      var missing := FirstUnresolved(q);
      if skipUnresolved && missing.Some? {
        return Skip(CouldNotResolve(missing.value));
      }
      var x := SendSearch(q, server, fallback, ParamNames(params) in documentedSearches);
      o := RecordSearch(x);
    }

    /**
     * The part of the first search after sending: the exchange is logged,
     * the reply checked, and a Bundle with entries sets the flag and is
     * captured with its first entry as the example.
     */
    method RecordSearch(x: Exchange) returns (o: Outcome)
      requires Valid()
      modifies this
      ensures Valid()
      ensures o == SearchOutcome(x, resourceType, noResources, validator, itemCheck)
      ensures sent == old(sent) + x.sent && warnings == old(warnings) + x.warnings
      ensures resourcesFound == (old(resourcesFound) || FoundResources(x))
      ensures if ReachedBundle(x) && resourcesFound
              then found == x.result.reply.body.entries && example == First(found)
              else found == old(found) && example == old(example)
    {
      sent := sent + x.sent;
      warnings := warnings + x.warnings;
      if x.result.Stopped? {
        return Fail(x.result.message);
      }
      var reply := x.result.reply;
      ghost var outcome := ClassifyReply(reply, resourceType, noResources, x.result.query, validator, itemCheck);
      assert SearchOutcome(x, resourceType, noResources, validator, itemCheck) == outcome;
      if !ResponseOk(reply.status) {
        return Fail(BadResponseCode(reply.status));
      }
      if !reply.body.BundleBody? {
        return Fail(ExpectedBundlePrefix + FoundTypeName(reply.body));
      }
      var entries := reply.body.entries;
      if |entries| > 0 {
        resourcesFound := true;
      }
      if !resourcesFound {
        return Skip(noResources);
      }
      example := First(entries);
      found := entries;
      o := ClassifyReply(reply, resourceType, noResources, x.result.query, validator, itemCheck);
    }

    /**
     * A search whose parameters come from the captured resources. It skips
     * while no resources were found, may require a captured example, skips
     * on a missing value when `skipUnresolved` is set, and otherwise sends
     * the search and classifies the exchange. The captured state is left
     * as it is; only the query log and the warnings grow.
     */
    method DependentSearch(params: seq<ParamSpec>, skipUnresolved: bool, checkExample: bool, fromAll: bool,
                           fallback: Option<Vocabulary>, server: Query -> Reply)
      returns (o: Outcome)
      requires Valid()
      modifies this
      ensures Valid()
      ensures resourcesFound == old(resourcesFound) && example == old(example) && found == old(found)
      ensures old(sent) <= sent && old(warnings) <= warnings
      ensures !resourcesFound ==> o == Skip(noResources) && sent == old(sent) && warnings == old(warnings)
      ensures resourcesFound && checkExample && example == JNull ==>
                o == Fail(ExpectedExample(resourceType)) && sent == old(sent) && warnings == old(warnings)
      ensures var q := BuildQuery(params, Some(patientId), Source(fromAll));
              resourcesFound && !(checkExample && example == JNull) && skipUnresolved && FirstUnresolved(q).Some? ==>
                o == Skip(CouldNotResolve(FirstUnresolved(q).value)) && sent == old(sent) && warnings == old(warnings)
      ensures var q := BuildQuery(params, Some(patientId), Source(fromAll));
              var x := SendSearch(q, server, fallback, ParamNames(params) in documentedSearches);
              resourcesFound && !(checkExample && example == JNull) && !(skipUnresolved && FirstUnresolved(q).Some?) ==>
                o == SearchOutcome(x, resourceType, noResources, validator, itemCheck) &&
                sent == old(sent) + x.sent && warnings == old(warnings) + x.warnings
    {
      if !resourcesFound {
        return Skip(noResources);
      }
      if checkExample && example == JNull {
        return Fail(ExpectedExample(resourceType));
      }
      var q := BuildQuery(params, Some(patientId), Source(fromAll));
      var missing := FirstUnresolved(q);
      if skipUnresolved && missing.Some? {
        return Skip(CouldNotResolve(missing.value));
      }
      var x := SendSearch(q, server, fallback, ParamNames(params) in documentedSearches);
      sent := sent + x.sent;
      warnings := warnings + x.warnings;
      o := SearchOutcome(x, resourceType, noResources, validator, itemCheck);
    }

    /**
     * A create, read, vread, history or reference step: the support check
     * comes first, then the `resourcesFound` gate, then the step's own check
     * of the example (an oracle here).
     */
    method InteractionStep(required: seq<Interaction>, check: Json -> Outcome) returns (o: Outcome)
      ensures !AllSupported(required, supported) ==> o == Skip(NotSupported(resourceType, required))
      ensures AllSupported(required, supported) && !resourcesFound ==> o == Skip(noResources)
      ensures AllSupported(required, supported) && resourcesFound ==> o == check(example)
      ensures !resourcesFound ==> o.Skip?
      ensures o == InteractionOutcome(Config(), resourcesFound, example, required, check)
    {
      if !AllSupported(required, supported) {
        return Skip(NotSupported(resourceType, required));
      }
      if !resourcesFound {
        return Skip(noResources);
      }
      o := check(example);
    }

    /** The profile step: gated on `resourcesFound`, then the validator's verdict on the captured resources. */
    method ProfileStep(check: seq<Json> -> Outcome) returns (o: Outcome)
      ensures !resourcesFound ==> o == Skip(noResources)
      ensures resourcesFound ==> o == check(found)
    {
      if !resourcesFound {
        return Skip(noResources);
      }
      o := check(found);
    }

    /**
     * The must-support step, over the captured entries. It is gated on those
     * entries containing a resource, not on the flag.
     */
    method MustSupportStep(elements: seq<string>) returns (o: Outcome)
      ensures o == MustSupport.MustSupportOutcome(found, elements, resourceType)
      ensures found == [] ==> o == Skip(MustSupport.NoResourcesGate)
    {
      var confirmed;
      o, confirmed := MustSupport.Check(found, elements, resourceType);
    }
  }

  /** A search step whose parameters come from the captured resources (see `Run.DependentSearch`). */
  datatype SearchStep = SearchStep(params: seq<ParamSpec>, skipUnresolved: bool, checkExample: bool, fromAll: bool,
                                   fallback: Option<Vocabulary>)

  /** What a run is configured with: all its steps read besides the captured resources and the logs. */
  datatype Setting = Setting(resourceType: string, noResources: string, patientId: string,
                             supported: set<Interaction>, documentedSearches: set<seq<string>>,
                             validator: Json -> seq<string>, itemCheck: (Json, string, Json) -> Assertion)

  /** The query of a dependent search, its values resolved against the captured resources. */
  function StepQuery(s: Setting, found: seq<Json>, step: SearchStep): Query
  {
    BuildQuery(step.params, Some(s.patientId), if step.fromAll then found else Wrap(First(found)))
  }

  /** A dependent search gets past the gate, the example check and the unresolved check, and is sent. */
  predicate StepSends(s: Setting, resourcesFound: bool, found: seq<Json>, step: SearchStep)
  {
    resourcesFound && !(step.checkExample && First(found) == JNull) &&
    !(step.skipUnresolved && FirstUnresolved(StepQuery(s, found, step)).Some?)
  }

  function StepExchange(s: Setting, found: seq<Json>, step: SearchStep, server: Query -> Reply): Exchange
  {
    SendSearch(StepQuery(s, found, step), server, step.fallback, ParamNames(step.params) in s.documentedSearches)
  }

  /** The outcome of a dependent search, given what was captured (see `Run.DependentSearch`). */
  function StepOutcome(s: Setting, resourcesFound: bool, found: seq<Json>, step: SearchStep,
                       server: Query -> Reply): Outcome
  {
    if !resourcesFound then Skip(s.noResources)
    else if step.checkExample && First(found) == JNull then Fail(ExpectedExample(s.resourceType))
    else if step.skipUnresolved && FirstUnresolved(StepQuery(s, found, step)).Some? then
      Skip(CouldNotResolve(FirstUnresolved(StepQuery(s, found, step)).value))
    else SearchOutcome(StepExchange(s, found, step, server), s.resourceType, s.noResources, s.validator, s.itemCheck)
  }

  /** The outcomes of a list of dependent searches, in order. */
  function StepOutcomes(s: Setting, resourcesFound: bool, found: seq<Json>, steps: seq<SearchStep>,
                        server: Query -> Reply): (r: seq<Outcome>)
    ensures |r| == |steps|
    decreases |steps|
  {
    if steps == [] then []
    else StepOutcomes(s, resourcesFound, found, steps[..|steps| - 1], server) +
         [StepOutcome(s, resourcesFound, found, steps[|steps| - 1], server)]
  }

  /** The i-th of the outcomes is the outcome of the i-th step. */
  lemma {:induction false} StepOutcomesIndex(s: Setting, resourcesFound: bool, found: seq<Json>, steps: seq<SearchStep>,
                                             server: Query -> Reply, i: nat)
    requires i < |steps|
    ensures StepOutcomes(s, resourcesFound, found, steps, server)[i] == StepOutcome(s, resourcesFound, found, steps[i], server)
    decreases |steps|
  {
    var n := |steps| - 1;
    var prefix := StepOutcomes(s, resourcesFound, found, steps[..n], server);
    var last := StepOutcome(s, resourcesFound, found, steps[n], server);
    assert StepOutcomes(s, resourcesFound, found, steps, server) == prefix + [last];
    if i < n {
      StepOutcomesIndex(s, resourcesFound, found, steps[..n], server, i);
      assert steps[..n][i] == steps[i];
    }
  }

  /** The queries a dependent search sends: none unless it gets to the server. */
  function StepSent(s: Setting, resourcesFound: bool, found: seq<Json>, step: SearchStep,
                    server: Query -> Reply): seq<Query>
  {
    if StepSends(s, resourcesFound, found, step) then StepExchange(s, found, step, server).sent else []
  }

  /** The queries a list of dependent searches sends, in order. */
  function StepsSent(s: Setting, resourcesFound: bool, found: seq<Json>, steps: seq<SearchStep>,
                     server: Query -> Reply): seq<Query>
    decreases |steps|
  {
    if steps == [] then []
    else StepsSent(s, resourcesFound, found, steps[..|steps| - 1], server) +
         StepSent(s, resourcesFound, found, steps[|steps| - 1], server)
  }

  /** The outcome of an interaction step (see `Run.InteractionStep`). */
  function InteractionOutcome(s: Setting, resourcesFound: bool, example: Json, required: seq<Interaction>,
                              check: Json -> Outcome): Outcome
  {
    if !AllSupported(required, s.supported) then Skip(NotSupported(s.resourceType, required))
    else if !resourcesFound then Skip(s.noResources)
    else check(example)
  }

  /** Regrouping an appended log; called by name because the same fact
      stated inline inside `DependentSearches` is far costlier to prove. */
  lemma AppendAssoc<T>(a: seq<T>, b: seq<T>, c: seq<T>)
    ensures (a + b) + c == a + (b + c)
  {
  }

  /** One more step appends what that step sends. */
  lemma StepsSentSnoc(s: Setting, resourcesFound: bool, found: seq<Json>, steps: seq<SearchStep>, k: nat,
                      server: Query -> Reply)
    requires k < |steps|
    ensures StepsSent(s, resourcesFound, found, steps[..k + 1], server) ==
            StepsSent(s, resourcesFound, found, steps[..k], server) + StepSent(s, resourcesFound, found, steps[k], server)
    ensures StepOutcomes(s, resourcesFound, found, steps[..k + 1], server) ==
            StepOutcomes(s, resourcesFound, found, steps[..k], server) + [StepOutcome(s, resourcesFound, found, steps[k], server)]
  {
    assert steps[..k + 1][..k] == steps[..k];
  }

  /** While nothing was found, no dependent search sends anything. */
  lemma {:induction false} GatedStepsSendNothing(s: Setting, found: seq<Json>, steps: seq<SearchStep>,
                                                 server: Query -> Reply)
    ensures StepsSent(s, false, found, steps, server) == []
    decreases |steps|
  {
    if steps != [] {
      GatedStepsSendNothing(s, found, steps[..|steps| - 1], server);
    }
  }

  /** One dependent search, described by its step. */
  method RunStep(run: Run, step: SearchStep, server: Query -> Reply) returns (o: Outcome)
    requires run.Valid()
    modifies run
    ensures run.Valid()
    ensures run.resourcesFound == old(run.resourcesFound) && run.example == old(run.example) && run.found == old(run.found)
    ensures old(run.warnings) <= run.warnings && (!run.resourcesFound ==> run.warnings == old(run.warnings))
    ensures o == StepOutcome(run.Config(), run.resourcesFound, run.found, step, server)
    ensures run.sent == old(run.sent) + StepSent(run.Config(), run.resourcesFound, run.found, step, server)
  {
    o := run.DependentSearch(step.params, step.skipUnresolved, step.checkExample, step.fromAll, step.fallback, server);
  }

  /**
   * The dependent searches of a sequence, run in order. They never change
   * what was captured; while no resources were found, each one skips with
   * the gate message and nothing is sent.
   */
  method DependentSearches(run: Run, steps: seq<SearchStep>, server: Query -> Reply) returns (results: seq<Outcome>)
    requires run.Valid()
    modifies run
    ensures run.Valid()
    ensures |results| == |steps|
    ensures run.resourcesFound == old(run.resourcesFound) && run.example == old(run.example) && run.found == old(run.found)
    ensures old(run.sent) <= run.sent && old(run.warnings) <= run.warnings
    ensures !run.resourcesFound ==>
              run.sent == old(run.sent) && run.warnings == old(run.warnings) &&
              forall i :: 0 <= i < |results| ==> results[i] == Skip(run.noResources)
    ensures results == StepOutcomes(run.Config(), run.resourcesFound, run.found, steps, server)
    ensures run.sent == old(run.sent) + StepsSent(run.Config(), run.resourcesFound, run.found, steps, server)
  {
    results := [];
    for k := 0 to |steps|
      invariant run.Valid()
      invariant |results| == k
      invariant run.resourcesFound == old(run.resourcesFound) && run.example == old(run.example) && run.found == old(run.found)
      invariant old(run.warnings) <= run.warnings
      invariant !run.resourcesFound ==>
                  run.warnings == old(run.warnings) && forall i :: 0 <= i < k ==> results[i] == Skip(run.noResources)
      invariant results == StepOutcomes(run.Config(), run.resourcesFound, run.found, steps[..k], server)
      invariant run.sent == old(run.sent) + StepsSent(run.Config(), run.resourcesFound, run.found, steps[..k], server)
    {
      ghost var before := run.sent;
      ghost var sentBefore := StepsSent(run.Config(), run.resourcesFound, run.found, steps[..k], server);
      var o := RunStep(run, steps[k], server);
      ghost var sentNow := StepSent(run.Config(), run.resourcesFound, run.found, steps[k], server);
      StepsSentSnoc(run.Config(), run.resourcesFound, run.found, steps, k, server);
      AppendAssoc(old(run.sent), sentBefore, sentNow);
      results := results + [o];
    }
    assert steps[..|steps|] == steps;
    if !run.resourcesFound {
      GatedStepsSendNothing(run.Config(), run.found, steps, server);
    }
  }
}
