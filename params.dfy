/**
 * Building a step's search parameters. Each parameter takes its value from
 * the patient id the run was started with, from a fixed code, or from an
 * element path resolved against the run's example resource(s). A value that
 * cannot be found is `JNull` (Ruby's `nil`); the first such parameter, in
 * the step's order, is the one a skipping step names.
 */
module SearchParams {
  import opened Resource
  import opened SearchProtocol
  import Resolver

  /** Where a parameter's value comes from; an element path is given as its segments. */
  datatype ValueSource = PatientId | Fixed(code: string) | ElementPath(path: seq<string>)
  datatype ParamSpec = ParamSpec(name: string, source: ValueSource)

  function ParamValue(source: ValueSource, patientId: Option<string>, from: seq<Json>): Json
  {
    match source
    case PatientId => if patientId.Some? then JStr(patientId.value) else JNull
    case Fixed(code) => JStr(code)
    case ElementPath(path) =>
      var r := Resolver.ResolveIn(from, path, Resolver.AnyValue);
      if r.Some? then r.value else JNull
  }

  /** The query `{ name: value, ... }` in the step's parameter order. */
  function BuildQuery(specs: seq<ParamSpec>, patientId: Option<string>, from: seq<Json>): (q: Query)
    ensures |q| == |specs|
    ensures forall i :: 0 <= i < |q| ==> q[i] == Param(specs[i].name, ParamValue(specs[i].source, patientId, from))
    decreases |specs|
  {
    if specs == [] then []
    else [Param(specs[0].name, ParamValue(specs[0].source, patientId, from))] + BuildQuery(specs[1..], patientId, from)
  }

  /** The name of the first parameter whose value is `nil`. */
  function FirstUnresolved(q: Query): (r: Option<string>)
    ensures r.None? <==> forall i :: 0 <= i < |q| ==> q[i].value != JNull
    ensures r.Some? ==> exists i :: 0 <= i < |q| && q[i].name == r.value && q[i].value == JNull &&
                                    forall j :: 0 <= j < i ==> q[j].value != JNull
    decreases |q|
  {
    if q == [] then None
    else if q[0].value == JNull then Some(q[0].name)
    else
      var r := FirstUnresolved(q[1..]);
      assert forall i :: 1 <= i < |q| ==> q[i] == q[1..][i - 1];
      assert r.Some? ==> exists i :: (0 <= i < |q| && q[i].name == r.value && q[i].value == JNull &&
                                       forall j :: 0 <= j < i ==> q[j].value != JNull) by {
        if r.Some? {
          var i :| 0 <= i < |q[1..]| && q[1..][i].name == r.value && q[1..][i].value == JNull &&
                   forall j :: 0 <= j < i ==> q[1..][j].value != JNull;
          assert q[i + 1].name == r.value && q[i + 1].value == JNull;
        }
      }
      r
  }

  function CouldNotResolve(name: string): string
  {
    "Could not resolve " + name + " in given resource"
  }

  /**
   * A path-sourced value is present exactly when the path reaches some value
   * in the source resources, and it is then one of the values the path
   * reaches there; searching with it therefore asks for something the
   * example actually holds.
   */
  lemma ElementValueSpec(path: seq<string>, patientId: Option<string>, from: seq<Json>)
    ensures var vs := Resolver.Values(from, path);
            (ParamValue(ElementPath(path), patientId, from) != JNull <==>
               exists i :: 0 <= i < |vs| && vs[i] != JNull) &&
            (ParamValue(ElementPath(path), patientId, from) != JNull ==>
               ParamValue(ElementPath(path), patientId, from) in vs)
  {
    var vs := Resolver.Values(from, path);
    Resolver.ResolveIsFirstValue(from, path, Resolver.AnyValue);
    var r := Resolver.FindFirst(vs, Resolver.AnyValue);
    if r.Some? {
      var i :| 0 <= i < |vs| && vs[i] == r.value &&
               forall j :: 0 <= j < i ==> !(vs[j] != JNull && Resolver.AnyValue(vs[j]));
      assert r.value in vs;
    }
  }

  /** A step whose every parameter comes from the patient id or a fixed code never needs the example. */
  lemma {:induction false} NoPathNeedsNoExample(specs: seq<ParamSpec>, id: string, from: seq<Json>)
    requires forall i :: 0 <= i < |specs| ==> !specs[i].source.ElementPath?
    ensures FirstUnresolved(BuildQuery(specs, Some(id), from)) == None
  {
    var q := BuildQuery(specs, Some(id), from);
    forall i | 0 <= i < |q| ensures q[i].value != JNull {
      assert q[i] == Param(specs[i].name, ParamValue(specs[i].source, Some(id), from));
    }
  }

  /** With nothing to resolve against, the first path-sourced parameter (or a missing patient id) is reported. */
  lemma {:induction false} EmptySourceUnresolved(specs: seq<ParamSpec>, patientId: Option<string>, k: nat)
    requires k < |specs| && specs[k].source.ElementPath?
    ensures FirstUnresolved(BuildQuery(specs, patientId, [])).Some?
  {
    var q := BuildQuery(specs, patientId, []);
    Resolver.AbsentResolvesToNothing(specs[k].source.path, Resolver.AnyValue);
    assert q[k].value == JNull;
  }
}
