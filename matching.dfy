/**
 * `validate_resource_item`: does a returned resource match one requested
 * search parameter? Each parameter name maps to a rule: an element path of
 * the resource and a test on the values found there (equality, the patient
 * reference, a date comparison). The check holds when some value at that
 * path passes the test, and otherwise fails with
 * "<param> on resource does not match <param> requested". A parameter name
 * the table does not list is not checked.
 *
 * Two tables exist: the Pulse Oximetry sequence (US Core 3.0.1) and the
 * DocumentReference sequence (US Core R4). They differ in how `patient` is
 * compared and in the DocumentReference-only `period` rule.
 */
module Matching {
  import opened Resource
  import opened Outcomes
  import Resolver
  import Text

  function Mismatch(property: string): string
  {
    property + " on resource does not match " + property + " requested"
  }

  /** What a parameter is compared with, and where in the resource. */
  datatype Rule =
    | Equality(path: seq<string>)
    | PatientReference(path: seq<string>)
    | DateOracle(path: seq<string>)
    | PeriodRule(path: seq<string>)
    | NotChecked

  /** `subject.reference` holds the value itself or `Patient/<value>`. */
  predicate IsPatientReference(reference: Json, value: Json)
  {
    reference == value || (value.JStr? && reference == JStr("Patient/" + value.s))
  }

  /** A date is an integer here; anything else is not a date. */
  function DateOf(v: Json): Option<int>
  {
    if v.JNum? then Some(v.n) else None
  }

  /**
   * Whether a `context.period` matches a `period` search date under the
   * comparator: `ge`/`gt` look at the end (an open end matches), `le`/`lt`
   * at the start (an open start matches), no comparator asks for the date
   * to lie within start..end.
   */
  predicate PeriodMatches(period: Json, date: int, comparator: Option<string>)
  {
    var start := DateOf(Get(period, "start"));
    var end := DateOf(Get(period, "end"));
    match comparator
    case Some("ge") => end.None? || end.value >= date
    case Some("gt") => end.None? || end.value > date
    case Some("le") => start.None? || start.value <= date
    case Some("lt") => start.None? || start.value < date
    case _ => start.Some? && end.Some? && start.value <= date <= end.value
  }

  function EqualTo(value: Json): Json -> bool
  {
    v => v == value
  }

  function PatientTest(value: Json): Json -> bool
  {
    r => IsPatientReference(r, value)
  }

  function DateTest(value: Json, dateMatches: (Json, Json) -> bool): Json -> bool
  {
    d => dateMatches(value, d)
  }

  function PeriodTest(value: Json, comparator: Option<string>): Json -> bool
  {
    p => DateOf(value).Some? && PeriodMatches(p, DateOf(value).value, comparator)
  }

  /** The block a rule hands to `can_resolve_path`; dates go to the `validate_date_search` oracle. */
  function RuleTest(rule: Rule, value: Json, comparator: Option<string>, dateMatches: (Json, Json) -> bool): Json -> bool
  {
    match rule
    case Equality(_) => EqualTo(value)
    case PatientReference(_) => PatientTest(value)
    case DateOracle(_) => DateTest(value, dateMatches)
    case PeriodRule(_) => PeriodTest(value, comparator)
    case NotChecked => Resolver.AnyValue
  }

  /** One `when` branch: resolve the rule's path with its test and assert that a value was found. */
  function CheckRule(resource: Json, property: string, rule: Rule, value: Json, comparator: Option<string>,
                     dateMatches: (Json, Json) -> bool): Assertion
  {
    if rule.NotChecked? then Holds
    else Expect(Resolver.CanResolve(resource, rule.path, RuleTest(rule, value, comparator, dateMatches)), Mismatch(property))
  }

  /**
   * A checked rule holds exactly when some present value at its path passes
   * its test, and otherwise fails with the parameter's mismatch message.
   */
  lemma RuleSpec(resource: Json, property: string, rule: Rule, value: Json, comparator: Option<string>,
                 dateMatches: (Json, Json) -> bool)
    requires !rule.NotChecked?
    ensures var vs := Resolver.ResolvedValues(resource, rule.path);
            var test := RuleTest(rule, value, comparator, dateMatches);
            CheckRule(resource, property, rule, value, comparator, dateMatches) ==
              if exists i :: 0 <= i < |vs| && vs[i] != JNull && test(vs[i]) then Holds else Fails(Mismatch(property))
  {
    Resolver.ResolveSpec(resource, rule.path, RuleTest(rule, value, comparator, dateMatches));
  }

  /** An equality rule holds exactly when the (present) value is among those at its path. */
  lemma EqualitySpec(resource: Json, property: string, path: seq<string>, value: Json, comparator: Option<string>,
                     dateMatches: (Json, Json) -> bool)
    ensures CheckRule(resource, property, Equality(path), value, comparator, dateMatches) ==
              if value != JNull && value in Resolver.ResolvedValues(resource, path) then Holds else Fails(Mismatch(property))
  {
    RuleSpec(resource, property, Equality(path), value, comparator, dateMatches);
  }

  // ---------------------------------------------------------------------------
  // Pulse Oximetry (Observation)
  // ---------------------------------------------------------------------------

  function PulseOxRule(property: string): Rule
  {
    match property
    case "status" => Equality(["status"])
    case "category" => Equality(["category", "coding", "code"])
    case "code" => Equality(["code", "coding", "code"])
    case "date" => DateOracle(["effectiveDateTime"])
    case "patient" => PatientReference(["subject", "reference"])
    case _ => NotChecked
  }

  /** `validate_resource_item` of the Pulse Oximetry sequence. */
  function PulseOxItem(resource: Json, property: string, value: Json, dateMatches: (Json, Json) -> bool): (a: Assertion)
    ensures a.Fails? ==> a.message == Mismatch(property)
    ensures property !in {"status", "category", "code", "date", "patient"} ==> a == Holds
  {
    CheckRule(resource, property, PulseOxRule(property), value, None, dateMatches)
  }

  /**
   * `status`, `category` and `code` hold exactly when the requested value is
   * among the values at `status`, `category.coding.code` and
   * `code.coding.code` respectively.
   */
  lemma PulseOxEqualitySpec(resource: Json, property: string, value: Json, dateMatches: (Json, Json) -> bool)
    requires property in {"status", "category", "code"}
    ensures var path := if property == "status" then ["status"]
                        else if property == "category" then ["category", "coding", "code"]
                        else ["code", "coding", "code"];
            PulseOxItem(resource, property, value, dateMatches) ==
              if value != JNull && value in Resolver.ResolvedValues(resource, path) then Holds else Fails(Mismatch(property))
  {
    EqualitySpec(resource, property, PulseOxRule(property).path, value, None, dateMatches);
  }

  lemma PatientTestSpec(id: string, v: Json)
    ensures (v != JNull && PatientTest(JStr(id))(v)) <==> (v == JStr(id) || v == JStr("Patient/" + id))
  {
  }

  /** `patient` holds exactly when a subject reference is the id or `Patient/<id>`. */
  lemma PulseOxPatientSpec(resource: Json, id: string, dateMatches: (Json, Json) -> bool)
    ensures var vs := Resolver.ResolvedValues(resource, ["subject", "reference"]);
            PulseOxItem(resource, "patient", JStr(id), dateMatches) ==
              if exists i :: 0 <= i < |vs| && (vs[i] == JStr(id) || vs[i] == JStr("Patient/" + id))
              then Holds else Fails(Mismatch("patient"))
  {
    var rule := PatientReference(["subject", "reference"]);
    assert PulseOxRule("patient") == rule;
    var vs := Resolver.ResolvedValues(resource, rule.path);
    RuleSpec(resource, "patient", rule, JStr(id), None, dateMatches);
    forall i | 0 <= i < |vs|
      ensures (vs[i] != JNull && PatientTest(JStr(id))(vs[i])) <==> (vs[i] == JStr(id) || vs[i] == JStr("Patient/" + id))
    {
      PatientTestSpec(id, vs[i]);
    }
  }

  /** `date` holds exactly when the date oracle accepts some `effectiveDateTime` value. */
  lemma PulseOxDateSpec(resource: Json, value: Json, dateMatches: (Json, Json) -> bool)
    ensures var vs := Resolver.ResolvedValues(resource, ["effectiveDateTime"]);
            PulseOxItem(resource, "date", value, dateMatches) ==
              if exists i :: 0 <= i < |vs| && vs[i] != JNull && dateMatches(value, vs[i])
              then Holds else Fails(Mismatch("date"))
  {
    var rule := DateOracle(["effectiveDateTime"]);
    assert PulseOxRule("date") == rule;
    RuleSpec(resource, "date", rule, value, None, dateMatches);
  }

  // ---------------------------------------------------------------------------
  // DocumentReference
  // ---------------------------------------------------------------------------

  function DocRefRule(property: string): Rule
  {
    match property
    case "_id" => Equality(["id"])
    case "status" => Equality(["status"])
    case "patient" => Equality(["subject", "reference"])
    case "category" => Equality(["category", "coding", "code"])
    case "type" => Equality(["type", "coding", "code"])
    case "date" => Equality(["date"])
    case "period" => PeriodRule(["context", "period"])
    case _ => NotChecked
  }

  /** The DocumentReference table has no rule that consults the date oracle. */
  function NoDateOracle(value: Json, date: Json): bool
  {
    false
  }

  /** `validate_resource_item` of the DocumentReference sequence, with the `period` result asserted. */
  function DocRefItem(resource: Json, property: string, value: Json, comparator: Option<string>): (a: Assertion)
    ensures a.Fails? ==> a.message == Mismatch(property)
    ensures property !in {"_id", "status", "patient", "category", "type", "date", "period"} ==> a == Holds
  {
    CheckRule(resource, property, DocRefRule(property), value, comparator, NoDateOracle)
  }

  /**
   * `_id`, `status`, `patient`, `category`, `type` and `date` hold exactly
   * when the requested value is among the values at their path; `patient`
   * has no `Patient/` variant here.
   */
  lemma DocRefEqualitySpec(resource: Json, property: string, value: Json, comparator: Option<string>)
    requires property in {"_id", "status", "patient", "category", "type", "date"}
    ensures var path := if property == "_id" then ["id"]
                        else if property == "patient" then ["subject", "reference"]
                        else if property == "category" then ["category", "coding", "code"]
                        else if property == "type" then ["type", "coding", "code"]
                        else [property];
            DocRefItem(resource, property, value, comparator) ==
              if value != JNull && value in Resolver.ResolvedValues(resource, path) then Holds else Fails(Mismatch(property))
  {
    EqualitySpec(resource, property, DocRefRule(property).path, value, comparator, NoDateOracle);
  }

  /** `period` holds exactly when some `context.period` matches the date under the comparator. */
  lemma DocRefPeriodSpec(resource: Json, date: int, comparator: Option<string>)
    ensures var vs := Resolver.ResolvedValues(resource, ["context", "period"]);
            DocRefItem(resource, "period", JNum(date), comparator) ==
              if exists i :: 0 <= i < |vs| && vs[i] != JNull && PeriodMatches(vs[i], date, comparator)
              then Holds else Fails(Mismatch("period"))
  {
    var rule := PeriodRule(["context", "period"]);
    assert DocRefRule("period") == rule;
    RuleSpec(resource, "period", rule, JNum(date), comparator, NoDateOracle);
  }

  /** A `period` value that is not a date matches nothing. */
  lemma PeriodNeedsDate(resource: Json, value: Json, comparator: Option<string>)
    requires DateOf(value).None?
    ensures DocRefItem(resource, "period", value, comparator) == Fails(Mismatch("period"))
  {
    var rule := PeriodRule(["context", "period"]);
    assert DocRefRule("period") == rule;
    RuleSpec(resource, "period", rule, value, comparator, NoDateOracle);
  }

  /** With no comparator the period must enclose the date; each comparator looks at the end or the start. */
  lemma PeriodComparators(start: int, end: int, date: int)
    ensures var p := JObj([Field("start", JNum(start)), Field("end", JNum(end))]);
            (PeriodMatches(p, date, None) <==> start <= date <= end) &&
            (PeriodMatches(p, date, Some("ge")) <==> end >= date) &&
            (PeriodMatches(p, date, Some("gt")) <==> end > date) &&
            (PeriodMatches(p, date, Some("le")) <==> start <= date) &&
            (PeriodMatches(p, date, Some("lt")) <==> start < date)
  {
    var p := JObj([Field("start", JNum(start)), Field("end", JNum(end))]);
    assert Get(p, "start") == JNum(start);
    LookupSkipsOthers([Field("start", JNum(start))], [Field("end", JNum(end))], "end");
    assert [Field("start", JNum(start))] + [Field("end", JNum(end))] == p.fields;
  }

  /** A period without an end matches every `ge` and `gt` search but never an enclosing search. */
  lemma OpenEndedPeriod(start: int, date: int)
    ensures var p := JObj([Field("start", JNum(start))]);
            PeriodMatches(p, date, Some("ge")) && PeriodMatches(p, date, Some("gt")) &&
            !PeriodMatches(p, date, None)
  {
    var p := JObj([Field("start", JNum(start))]);
    assert Get(p, "end") == JNull;
  }

  // ---------------------------------------------------------------------------
  // Concrete resources
  // ---------------------------------------------------------------------------

  /** A value nested two objects deep is the only value its two-segment path reaches. */
  lemma {:induction false} NestedValue(a: string, b: string, v: Json)
    requires v != JNull && !v.JArr?
    ensures Resolver.Values([JObj([Field(a, JObj([Field(b, v)]))])], [a, b]) == [v]
  {
    var inner := JObj([Field(b, v)]);
    var outer := JObj([Field(a, inner)]);
    assert Get(outer, a) == inner;
    assert Get(inner, b) == v;
    assert [a, b][1..] == [b];
    assert [b][1..] == [];
    assert Resolver.Values([v], []) == [v];
    assert Resolver.Values([inner], [b]) == [v] + Resolver.Values([], [b]);
    assert Resolver.Values([outer], [a, b]) == Resolver.Values([inner], [b]) + Resolver.Values([], [a, b]);
  }

  /**
   * The two tables disagree on a bare patient id: an Observation whose
   * subject is `Patient/123` matches `patient=123`, a DocumentReference does not.
   */
  lemma PatientPrefixOnlyForPulseOx(dateMatches: (Json, Json) -> bool)
    ensures var r := JObj([Field("subject", JObj([Field("reference", JStr("Patient/123"))]))]);
            PulseOxItem(r, "patient", JStr("123"), dateMatches) == Holds &&
            DocRefItem(r, "patient", JStr("123"), None) == Fails(Mismatch("patient"))
  {
    var r := JObj([Field("subject", JObj([Field("reference", JStr("Patient/123"))]))]);
    NestedValue("subject", "reference", JStr("Patient/123"));
    var vs := Resolver.ResolvedValues(r, ["subject", "reference"]);
    assert vs == [JStr("Patient/123")];
    PulseOxPatientSpec(r, "123", dateMatches);
    assert vs[0] == JStr("Patient/" + "123");
    DocRefEqualitySpec(r, "patient", JStr("123"), None);
    assert JStr("123") !in vs;
  }

  // ---------------------------------------------------------------------------
  // The `period` branch as written
  // ---------------------------------------------------------------------------

  const UndefinedValuedate := "NameError: undefined local variable or method `valuedate'"
  const InvalidDate := "TypeError: not a date"

  /**
   * The block the source passes for `period`: each of the period's start,
   * its end and the search value is parsed first (a missing or malformed
   * one raises); the `le` and `lt` branches then read `valuedate`, which is
   * never defined, and raise.
   */
  function PeriodBlockAsWritten(period: Json, value: Json, comparator: Option<string>): (r: Result<bool>)
    ensures (comparator == Some("le") || comparator == Some("lt")) ==> r.Raised?
    ensures r.Ok? ==> DateOf(value).Some? && r.value == PeriodMatches(period, DateOf(value).value, comparator)
  {
    if DateOf(Get(period, "start")).None? || DateOf(Get(period, "end")).None? || DateOf(value).None? then
      Raised(InvalidDate)
    else
      match comparator
      case Some("le") => Raised(UndefinedValuedate)
      case Some("lt") => Raised(UndefinedValuedate)
      case _ => Ok(PeriodMatches(period, DateOf(value).value, comparator))
  }

  /**
   * `can_resolve_path` running the block over the periods in order: it stops
   * at the first period the block accepts, and a raising block ends the
   * step with the error. The block's answer is never asserted.
   */
  function ScanPeriodsAsWritten(periods: seq<Json>, value: Json, comparator: Option<string>): Result<Assertion>
    decreases |periods|
  {
    if periods == [] then Ok(Holds)
    else if periods[0] == JNull then ScanPeriodsAsWritten(periods[1..], value, comparator)
    else
      match PeriodBlockAsWritten(periods[0], value, comparator)
      case Raised(e) => Raised(e)
      case Ok(true) => Ok(Holds)
      case Ok(false) => ScanPeriodsAsWritten(periods[1..], value, comparator)
  }

  /** The `period` branch as written. */
  function DocRefPeriodAsWritten(resource: Json, value: Json, comparator: Option<string>): Result<Assertion>
  {
    ScanPeriodsAsWritten(Resolver.ResolvedValues(resource, ["context", "period"]), value, comparator)
  }

  /** As written, the `period` branch never fails an assertion: it passes or raises. */
  lemma {:induction false} ScanNeverFails(periods: seq<Json>, value: Json, comparator: Option<string>)
    ensures ScanPeriodsAsWritten(periods, value, comparator).Ok? ==>
            ScanPeriodsAsWritten(periods, value, comparator).value == Holds
    decreases |periods|
  {
    if periods != [] {
      ScanNeverFails(periods[1..], value, comparator);
    }
  }

  lemma PeriodNeverAssertedAsWritten(resource: Json, value: Json, comparator: Option<string>)
    ensures DocRefPeriodAsWritten(resource, value, comparator).Ok? ==>
            DocRefPeriodAsWritten(resource, value, comparator).value == Holds
  {
    ScanNeverFails(Resolver.ResolvedValues(resource, ["context", "period"]), value, comparator);
  }

  /** As written, a DocumentReference whose period ends before the searched date still passes; asserted, it fails. */
  lemma PeriodMismatchPassesAsWritten()
    ensures var r := JObj([Field("context", JObj([Field("period",
                       JObj([Field("start", JNum(10)), Field("end", JNum(20))]))]))]);
            DocRefPeriodAsWritten(r, JNum(30), None) == Ok(Holds) &&
            DocRefItem(r, "period", JNum(30), None) == Fails(Mismatch("period"))
  {
    var p := JObj([Field("start", JNum(10)), Field("end", JNum(20))]);
    var r := JObj([Field("context", JObj([Field("period", p)]))]);
    NestedValue("context", "period", p);
    var vs := Resolver.ResolvedValues(r, ["context", "period"]);
    assert vs == [p];
    PeriodComparators(10, 20, 30);
    assert PeriodBlockAsWritten(p, JNum(30), None) == Ok(false);
    assert vs[1..] == [];
    DocRefPeriodSpec(r, 30, None);
  }

  /**
   * As written, an `le` or `lt` search raises on the first period that has
   * both dates, whatever they are; asserted, the start is compared.
   */
  lemma PeriodBeforeRaisesAsWritten(resource: Json, date: int, comparator: Option<string>)
    requires comparator == Some("le") || comparator == Some("lt")
    requires var vs := Resolver.ResolvedValues(resource, ["context", "period"]);
             |vs| > 0 && vs[0] != JNull &&
             DateOf(Get(vs[0], "start")).Some? && DateOf(Get(vs[0], "end")).Some?
    ensures DocRefPeriodAsWritten(resource, JNum(date), comparator) == Raised(UndefinedValuedate)
  {
  }
}
