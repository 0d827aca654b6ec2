/**
 * One search interaction: sending the query (with the status-required
 * fallback) and classifying the reply.
 *
 * The server is a function from query to reply, so the model records which
 * queries were sent instead of performing them. Classification follows the
 * assertions a search step makes in order: the response code must be 200 or
 * 201, the body must be a Bundle, an empty Bundle means there is nothing to
 * test, and then each entry must pass the profile validator (an oracle that
 * lists violations) and match every requested parameter.
 */
module SearchProtocol {
  import opened Resource
  import opened Outcomes
  import Text

  datatype Param = Param(name: string, value: Json)
  type Query = seq<Param>

  datatype Body = NoBody | BundleBody(entries: seq<Json>) | ResourceBody(resourceType: string)
  datatype Reply = Reply(status: nat, body: Body)

  /** A resource type's status search parameter and its fixed value list, e.g. Condition's `clinical-status`. */
  datatype StatusVocabulary = StatusVocabulary(param: string, values: seq<string>)
  type Vocabulary = v: StatusVocabulary | |v.values| > 0 witness StatusVocabulary("status", ["active"])

  /** The queries a search sent, the warnings it recorded, and the reply it ended with (or the assertion that stopped it). */
  datatype Exchange = Exchange(sent: seq<Query>, warnings: seq<string>, result: ExchangeResult)
  datatype ExchangeResult = Replied(reply: Reply, query: Query) | Stopped(message: string)

  // ---------------------------------------------------------------------------
  // Messages
  // ---------------------------------------------------------------------------

  function BadResponseCode(status: nat): string
  {
    "Bad response code: expected 200, 201, but found " + Text.NatToString(status) + ". "
  }

  const ExpectedBundlePrefix := "Expected FHIR Bundle but found: "
  const MissingOperationOutcome := "Server returned a status of 400 without an OperationOutcome."
  const UndocumentedSearchPhrase := "search interaction for this resource is not documented"
  const UndocumentedSearch := "Server returned a status of 400 with an OperationOutcome, but the " +
                              UndocumentedSearchPhrase + " in the CapabilityStatement."

  /** The class name the Bundle assertion reports for a body that is not a Bundle. */
  function FoundTypeName(body: Body): string
  {
    match body
    case ResourceBody(t) => t
    case BundleBody(_) => "Bundle"
    case NoBody => "NilClass"
  }

  function InvalidResource(resourceType: string, violations: seq<string>): string
  {
    "Invalid " + resourceType + ": " + Text.JoinOn(violations, "\n* ")
  }

  /** The recorded warning carries the phrase the search tests look for. */
  lemma UndocumentedWarningPhrase()
    ensures Text.Contains(UndocumentedSearch, UndocumentedSearchPhrase)
  {
    Text.ContainsInfix("Server returned a status of 400 with an OperationOutcome, but the ",
                       UndocumentedSearchPhrase, " in the CapabilityStatement.");
  }

  // ---------------------------------------------------------------------------
  // Classification
  // ---------------------------------------------------------------------------

  /** `assert_response_ok`: only 200 and 201 are accepted. */
  predicate ResponseOk(status: nat)
  {
    status == 200 || status == 201
  }

  /** The first requested parameter the resource does not match (`validate_resource_item`). */
  function CheckParams(resource: Json, query: Query, itemCheck: (Json, string, Json) -> Assertion): (a: Assertion)
    ensures a == Holds <==> forall i :: 0 <= i < |query| ==> itemCheck(resource, query[i].name, query[i].value) == Holds
    ensures a.Fails? ==> exists i :: 0 <= i < |query| && itemCheck(resource, query[i].name, query[i].value) == a
    decreases |query|
  {
    if query == [] then Holds
    else
      var a := itemCheck(resource, query[0].name, query[0].value);
      if a.Fails? then a
      else
        var rest := CheckParams(resource, query[1..], itemCheck);
        assert forall i :: 1 <= i < |query| ==> query[i] == query[1..][i - 1];
        rest
  }

  /** Entry by entry: the validator's violations first, then each requested parameter. */
  function CheckEntries(entries: seq<Json>, resourceType: string, query: Query,
                        validator: Json -> seq<string>,
                        itemCheck: (Json, string, Json) -> Assertion): (a: Assertion)
    ensures a == Holds <==> forall i :: 0 <= i < |entries| ==>
                              validator(entries[i]) == [] && CheckParams(entries[i], query, itemCheck) == Holds
    ensures a.Fails? ==> exists i :: 0 <= i < |entries| && EntriesPass(entries, i, query, validator, itemCheck) &&
                           a == EntryCheck(entries[i], resourceType, query, validator, itemCheck)
    decreases |entries|
  {
    if entries == [] then Holds
    else if validator(entries[0]) != [] then Fails(InvalidResource(resourceType, validator(entries[0])))
    else
      var p := CheckParams(entries[0], query, itemCheck);
      if p.Fails? then p
      else
        var rest := CheckEntries(entries[1..], resourceType, query, validator, itemCheck);
        assert forall i :: 1 <= i < |entries| ==> entries[i] == entries[1..][i - 1];
        assert rest.Fails? ==> exists i :: 0 <= i < |entries| && EntriesPass(entries, i, query, validator, itemCheck) &&
                                          rest == EntryCheck(entries[i], resourceType, query, validator, itemCheck) by {
          if rest.Fails? {
            var i :| 0 <= i < |entries[1..]| && EntriesPass(entries[1..], i, query, validator, itemCheck) &&
                     rest == EntryCheck(entries[1..][i], resourceType, query, validator, itemCheck);
            assert EntriesPass(entries, i + 1, query, validator, itemCheck);
          }
        }
        rest
  }

  /** The checks of one entry: the validator's violations first, then the requested parameters. */
  function EntryCheck(entry: Json, resourceType: string, query: Query, validator: Json -> seq<string>,
                      itemCheck: (Json, string, Json) -> Assertion): Assertion
  {
    if validator(entry) != [] then Fails(InvalidResource(resourceType, validator(entry)))
    else CheckParams(entry, query, itemCheck)
  }

  /** The entries before `k` are all valid and match every requested parameter. */
  predicate EntriesPass(entries: seq<Json>, k: nat, query: Query, validator: Json -> seq<string>,
                        itemCheck: (Json, string, Json) -> Assertion)
    requires k <= |entries|
  {
    forall j :: 0 <= j < k ==> validator(entries[j]) == [] && CheckParams(entries[j], query, itemCheck) == Holds
  }

  /** The outcome of a search step given the reply it ended with. */
  function ClassifyReply(reply: Reply, resourceType: string, noResources: string, query: Query,
                         validator: Json -> seq<string>,
                         itemCheck: (Json, string, Json) -> Assertion): (o: Outcome)
    ensures !ResponseOk(reply.status) ==> o == Fail(BadResponseCode(reply.status))
    ensures ResponseOk(reply.status) && !reply.body.BundleBody? ==>
              o == Fail(ExpectedBundlePrefix + FoundTypeName(reply.body))
    ensures o.Skip? <==> ResponseOk(reply.status) && reply.body.BundleBody? && reply.body.entries == []
    ensures o.Skip? ==> o.message == noResources
    ensures o == Pass <==> ResponseOk(reply.status) && reply.body.BundleBody? && reply.body.entries != [] &&
                           CheckEntries(reply.body.entries, resourceType, query, validator, itemCheck) == Holds
  {
    if !ResponseOk(reply.status) then Fail(BadResponseCode(reply.status))
    else if !reply.body.BundleBody? then Fail(ExpectedBundlePrefix + FoundTypeName(reply.body))
    else if reply.body.entries == [] then Skip(noResources)
    else AssertionOutcome(CheckEntries(reply.body.entries, resourceType, query, validator, itemCheck))
  }

  // ---------------------------------------------------------------------------
  // Sending, with the status-required fallback
  // ---------------------------------------------------------------------------

  predicate IsOperationOutcome(body: Body)
  {
    body == ResourceBody("OperationOutcome")
  }

  /** The base query with the first value of the status vocabulary appended. */
  function RetryQuery(base: Query, vocabulary: Vocabulary): (q: Query)
    ensures |q| == |base| + 1 && q[..|base|] == base
    ensures q[|base|] == Param(vocabulary.param, JStr(vocabulary.values[0]))
  {
    base + [Param(vocabulary.param, JStr(vocabulary.values[0]))]
  }

  /**
   * Sends `base`. When the resource type has a status vocabulary and the
   * server answers 400, the reply must carry an OperationOutcome; a warning is
   * recorded unless the capability data documents the search, and the search
   * is sent once more with the first status value appended.
   */
  function SendSearch(base: Query, server: Query -> Reply, fallback: Option<Vocabulary>, documented: bool): (x: Exchange)
    ensures 1 <= |x.sent| <= 2 && x.sent[0] == base
    ensures |x.sent| == 2 <==> fallback.Some? && server(base).status == 400 && IsOperationOutcome(server(base).body)
    ensures x.result.Stopped? <==> fallback.Some? && server(base).status == 400 && !IsOperationOutcome(server(base).body)
    ensures x.result.Stopped? ==> x.result.message == MissingOperationOutcome
    ensures x.warnings == if |x.sent| == 2 && !documented then [UndocumentedSearch] else []
    ensures x.result.Replied? ==> x.result.query == x.sent[|x.sent| - 1] && x.result.reply == server(x.result.query)
  {
    var first := server(base);
    if fallback.None? || first.status != 400 then Exchange([base], [], Replied(first, base))
    else if !IsOperationOutcome(first.body) then Exchange([base], [], Stopped(MissingOperationOutcome))
    else
      var retry := RetryQuery(base, fallback.value);
      Exchange([base, retry], if documented then [] else [UndocumentedSearch], Replied(server(retry), retry))
  }

  /** The outcome of a whole search: the stopping assertion, or the classification of the final reply. */
  function SearchOutcome(x: Exchange, resourceType: string, noResources: string,
                         validator: Json -> seq<string>,
                         itemCheck: (Json, string, Json) -> Assertion): Outcome
  {
    match x.result
    case Stopped(m) => Fail(m)
    case Replied(reply, query) => ClassifyReply(reply, resourceType, noResources, query, validator, itemCheck)
  }

  /** The entries of the Bundle a search ended with; none when it did not end with a Bundle. */
  function BundleEntries(x: Exchange): seq<Json>
  {
    if x.result.Replied? && x.result.reply.body.BundleBody? then x.result.reply.body.entries else []
  }

  /** The reply a search ended with was a Bundle with entries: resources were found. */
  predicate FoundResources(x: Exchange)
  {
    x.result.Replied? && ResponseOk(x.result.reply.status) &&
    x.result.reply.body.BundleBody? && x.result.reply.body.entries != []
  }

  // ---------------------------------------------------------------------------
  // Properties of the protocol
  // ---------------------------------------------------------------------------

  /**
   * A 400 with an OperationOutcome followed by a valid, matching Bundle for
   * the retried query passes; exactly two queries are sent, the second being
   * the base query plus the first status value, and a warning is recorded
   * exactly when the search is undocumented.
   */
  lemma RetryThenBundlePasses(base: Query, server: Query -> Reply, vocabulary: Vocabulary, documented: bool,
                              resourceType: string, noResources: string,
                              validator: Json -> seq<string>, itemCheck: (Json, string, Json) -> Assertion)
    requires server(base) == Reply(400, ResourceBody("OperationOutcome"))
    requires var r := server(RetryQuery(base, vocabulary));
             ResponseOk(r.status) && r.body.BundleBody? && r.body.entries != [] &&
             CheckEntries(r.body.entries, resourceType, RetryQuery(base, vocabulary), validator, itemCheck) == Holds
    ensures var x := SendSearch(base, server, Some(vocabulary), documented);
            x.sent == [base, RetryQuery(base, vocabulary)] &&
            SearchOutcome(x, resourceType, noResources, validator, itemCheck) == Pass &&
            (x.warnings != [] <==> !documented) &&
            FoundResources(x)
  {
  }

  /** After the fallback the retried reply is judged by the same rules: a bad code fails with that code. */
  lemma RetryBadCodeFails(base: Query, server: Query -> Reply, vocabulary: Vocabulary, documented: bool,
                          resourceType: string, noResources: string,
                          validator: Json -> seq<string>, itemCheck: (Json, string, Json) -> Assertion)
    requires server(base) == Reply(400, ResourceBody("OperationOutcome"))
    requires !ResponseOk(server(RetryQuery(base, vocabulary)).status)
    ensures SearchOutcome(SendSearch(base, server, Some(vocabulary), documented), resourceType, noResources, validator, itemCheck)
            == Fail(BadResponseCode(server(RetryQuery(base, vocabulary)).status))
  {
  }

  /** A 200 that is not a Bundle fails with the Bundle message, whether or not the fallback ran. */
  lemma NonBundleAlwaysFails(base: Query, server: Query -> Reply, fallback: Option<Vocabulary>, documented: bool,
                             resourceType: string, noResources: string,
                             validator: Json -> seq<string>, itemCheck: (Json, string, Json) -> Assertion)
    requires var x := SendSearch(base, server, fallback, documented);
             x.result.Replied? && x.result.reply.status == 200 && !x.result.reply.body.BundleBody?
    ensures var x := SendSearch(base, server, fallback, documented);
            SearchOutcome(x, resourceType, noResources, validator, itemCheck)
            == Fail(ExpectedBundlePrefix + FoundTypeName(x.result.reply.body))
  {
  }

  /** An empty Bundle is a skip, never a pass or a failure. */
  lemma EmptyBundleSkips(x: Exchange, resourceType: string, noResources: string,
                         validator: Json -> seq<string>, itemCheck: (Json, string, Json) -> Assertion)
    requires x.result.Replied? && ResponseOk(x.result.reply.status) && x.result.reply.body == BundleBody([])
    ensures SearchOutcome(x, resourceType, noResources, validator, itemCheck) == Skip(noResources)
  {
  }

  /**
   * A Bundle entry the validator rejects makes the search fail; when the
   * entries before it are valid and matching, the message is
   * "Invalid <Type>: " followed by that entry's violations.
   */
  lemma InvalidEntryFails(x: Exchange, resourceType: string, noResources: string,
                          validator: Json -> seq<string>, itemCheck: (Json, string, Json) -> Assertion, k: nat)
    requires x.result.Replied? && ResponseOk(x.result.reply.status) && x.result.reply.body.BundleBody?
    requires k < |x.result.reply.body.entries| && validator(x.result.reply.body.entries[k]) != []
    ensures SearchOutcome(x, resourceType, noResources, validator, itemCheck).Fail?
    ensures var es := x.result.reply.body.entries;
            EntriesPass(es, k, x.result.query, validator, itemCheck) ==>
              SearchOutcome(x, resourceType, noResources, validator, itemCheck) ==
              Fail(InvalidResource(resourceType, validator(es[k])))
  {
    var es := x.result.reply.body.entries;
    var a := CheckEntries(es, resourceType, x.result.query, validator, itemCheck);
    assert a != Holds;
    if EntriesPass(es, k, x.result.query, validator, itemCheck) {
      var i :| 0 <= i < |es| && EntriesPass(es, i, x.result.query, validator, itemCheck) &&
               a == EntryCheck(es[i], resourceType, x.result.query, validator, itemCheck);
    }
  }

  /** The tests' case: a Bundle whose one entry breaks the profile fails with "Invalid <Type>: ...". */
  lemma SingleInvalidEntry(x: Exchange, resourceType: string, noResources: string,
                           validator: Json -> seq<string>, itemCheck: (Json, string, Json) -> Assertion, entry: Json)
    requires x.result.Replied? && ResponseOk(x.result.reply.status) && x.result.reply.body == BundleBody([entry])
    requires validator(entry) != []
    ensures SearchOutcome(x, resourceType, noResources, validator, itemCheck) ==
            Fail("Invalid " + resourceType + ": " + Text.JoinOn(validator(entry), "\n* "))
  {
    InvalidEntryFails(x, resourceType, noResources, validator, itemCheck, 0);
  }

  /** Without a status vocabulary a 400 is an ordinary bad response code and only one query is sent. */
  lemma NoFallbackFourHundredFails(base: Query, server: Query -> Reply, documented: bool,
                                   resourceType: string, noResources: string,
                                   validator: Json -> seq<string>, itemCheck: (Json, string, Json) -> Assertion)
    requires server(base).status == 400
    ensures var x := SendSearch(base, server, None, documented);
            x.sent == [base] && x.warnings == [] &&
            SearchOutcome(x, resourceType, noResources, validator, itemCheck) == Fail(BadResponseCode(400))
  {
  }

  /** The bad-response-code message names the code that was received, and only that one. */
  lemma BadResponseCodeNamesStatus(m: nat, n: nat)
    requires BadResponseCode(m) == BadResponseCode(n)
    ensures m == n
  {
    var pre := "Bad response code: expected 200, 201, but found ";
    var sm, sn := Text.NatToString(m), Text.NatToString(n);
    assert BadResponseCode(m) == pre + (sm + ". ");
    assert BadResponseCode(n) == pre + (sn + ". ");
    assert sm + ". " == BadResponseCode(m)[|pre|..];
    assert sn + ". " == BadResponseCode(n)[|pre|..];
    assert |sm| == |sn|;
    assert sm == (sm + ". ")[..|sm|];
    assert sn == (sn + ". ")[..|sn|];
    Text.NatToStringInjective(m, n);
  }
}
