/**
 * The patient-level bulk export sequence: its kick-off request and the
 * acceptance rule for the reply (Bulk Data Kick-off Request section of the
 * HL7 FHIR Bulk Data Access Implementation Guide). The server answers
 * asynchronously: it must reply 202 Accepted with a Content-Location header
 * naming where the export's status can be polled.
 */
module BulkExport {
  import opened Resource
  import opened Outcomes

  /** Header names are compared in lower case, as the HTTP client reports them. */
  datatype Header = Header(name: string, value: string)
  datatype Request = Request(url: string, headers: seq<Header>)
  datatype KickoffReply = KickoffReply(status: nat, headers: seq<Header>)

  const AcceptHeader := Header("accept", "application/fhir+json")
  const PreferHeader := Header("prefer", "respond-async")

  /** `GET [base]/Patient/$export`, asking for FHIR JSON and an asynchronous reply. */
  function KickoffRequest(baseUrl: string): (r: Request)
    ensures r.url == baseUrl + "/Patient/$export"
    ensures AcceptHeader in r.headers && PreferHeader in r.headers
  {
    Request(baseUrl + "/Patient/$export", [AcceptHeader, PreferHeader])
  }

  /** The value of the first header called `name`. */
  function HeaderValue(headers: seq<Header>, name: string): (v: Option<string>)
    ensures v.None? <==> forall i :: 0 <= i < |headers| ==> headers[i].name != name
    ensures v.Some? ==> exists i :: 0 <= i < |headers| && headers[i] == Header(name, v.value)
    decreases |headers|
  {
    if headers == [] then None
    else if headers[0].name == name then Some(headers[0].value)
    else
      var v := HeaderValue(headers[1..], name);
      assert forall i :: 1 <= i < |headers| ==> headers[i] == headers[1..][i - 1];
      assert v.Some? ==> exists i :: 0 <= i < |headers| && headers[i] == Header(name, v.value) by {
        if v.Some? {
          var i :| 0 <= i < |headers[1..]| && headers[1..][i] == Header(name, v.value);
          assert headers[i + 1] == Header(name, v.value);
        }
      }
      v
  }

  predicate HasContentLocation(reply: KickoffReply)
  {
    var v := HeaderValue(reply.headers, "content-location");
    v.Some? && v.value != ""
  }

  const NotAccepted := "Bad response code: expected 202, but found another status."
  const NoContentLocation := "Export response header did not include \"Content-Location\""

  /** The kick-off step passes exactly on 202 with a Content-Location; anything else is a failure, never a skip. */
  function KickoffOutcome(reply: KickoffReply): (o: Outcome)
    ensures o == Pass <==> reply.status == 202 && HasContentLocation(reply)
    ensures o != Pass ==> o.Fail?
  {
    if reply.status != 202 then Fail(NotAccepted)
    else if !HasContentLocation(reply) then Fail(NoContentLocation)
    else Pass
  }

  /** The results of the export sequence: its kick-off step, sent to the server. */
  function ExportResults(baseUrl: string, server: Request -> KickoffReply): (results: seq<Outcome>)
    ensures |results| == 1
    ensures var reply := server(KickoffRequest(baseUrl));
            results[0] == Pass <==> reply.status == 202 && HasContentLocation(reply)
    ensures results[0] != Pass ==> results[0].Fail?
  {
    [KickoffOutcome(server(KickoffRequest(baseUrl)))]
  }

  /**
   * A 202 with a Content-Location: the sequence has no failures, is not
   * skipped, and passes.
   */
  lemma AcceptedKickoffPasses(baseUrl: string, server: Request -> KickoffReply, location: string, others: seq<Header>)
    requires location != ""
    requires server(KickoffRequest(baseUrl)) == KickoffReply(202, [Header("content-location", location)] + others)
    ensures Failures(ExportResults(baseUrl, server)) == []
    ensures Aggregate(ExportResults(baseUrl, server)) == SequencePass
  {
    var results := ExportResults(baseUrl, server);
    assert HeaderValue([Header("content-location", location)] + others, "content-location") == Some(location);
    assert results[0] == Pass;
  }

  /** Any status other than 202, even with a Content-Location, fails the sequence. */
  lemma WrongStatusNotPass(baseUrl: string, server: Request -> KickoffReply)
    requires server(KickoffRequest(baseUrl)).status != 202
    ensures Aggregate(ExportResults(baseUrl, server)) == SequenceFail
  {
    assert ExportResults(baseUrl, server)[0].Fail?;
  }

  /** A 202 without a Content-Location header fails the sequence. */
  lemma MissingLocationNotPass(baseUrl: string, server: Request -> KickoffReply)
    requires server(KickoffRequest(baseUrl)).status == 202
    requires forall i :: 0 <= i < |server(KickoffRequest(baseUrl)).headers| ==>
               server(KickoffRequest(baseUrl)).headers[i].name != "content-location"
    ensures Aggregate(ExportResults(baseUrl, server)) == SequenceFail
  {
    assert ExportResults(baseUrl, server)[0].Fail?;
  }
}
