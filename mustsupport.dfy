/**
 * The must-support check: every must-support element of a profile must be
 * present in at least one of the resources the first search returned.
 *
 * Element paths are written with the resource type in front
 * (`Observation.category`); the check removes every occurrence of
 * `<Type>.` from the path, then scans the resources in order and stops at
 * the first one in which the remaining path reaches a value, recording the
 * path as confirmed. The first path no resource has ends the step with a
 * skip that names it and the number of resources; later paths are not
 * looked at. With no resources at all the step skips before any path.
 */
module MustSupport {
  import opened Resource
  import opened Outcomes
  import Resolver
  import Text

  const NoResourcesGate := "No resources appear to be available for this patient. Please use patients with more information"

  function CouldNotFind(path: string, count: nat, resourceType: string): string
  {
    "Could not find " + path + " in any of the " + Text.NatToString(count) + " provided " + resourceType + " resource(s)"
  }

  /** `path.gsub('<Type>.', '')`, split into segments. */
  function Truncated(path: string, resourceType: string): seq<string>
  {
    Text.PathSegments(Text.RemoveAll(path, resourceType + "."))
  }

  /**
   * `can_resolve_path(resource, truncated_path)` with no block: some value
   * is present where the truncated path leads (stated on the reference list
   * of reachable values; `Resolver.ResolveSpec` connects it to the resolver).
   */
  predicate Resolves(resource: Json, path: string, resourceType: string)
  {
    exists i :: 0 <= i < |Resolver.ResolvedValues(resource, Truncated(path, resourceType))| &&
                Resolver.ResolvedValues(resource, Truncated(path, resourceType))[i] != JNull
  }

  /** Ruby's `any?` on the resource list: some entry is not `nil`. */
  predicate AnyPresent(resources: seq<Json>)
  {
    exists i :: 0 <= i < |resources| && resources[i] != JNull
  }

  /** The index of the first resource from `i` on that the path resolves in, or |resources| when there is none. */
  function FirstResolvingFrom(resources: seq<Json>, path: string, resourceType: string, i: nat): (k: nat)
    requires i <= |resources|
    ensures i <= k <= |resources|
    decreases |resources| - i
  {
    if i == |resources| then i
    else if Resolves(resources[i], path, resourceType) then i
    else FirstResolvingFrom(resources, path, resourceType, i + 1)
  }

  function FirstResolving(resources: seq<Json>, path: string, resourceType: string): (k: nat)
    ensures k <= |resources|
  {
    FirstResolvingFrom(resources, path, resourceType, 0)
  }

  /** Some resource has the path. */
  predicate Supported(resources: seq<Json>, path: string, resourceType: string)
  {
    FirstResolving(resources, path, resourceType) < |resources|
  }

  lemma {:induction false} FirstResolvingFromSpec(resources: seq<Json>, path: string, resourceType: string, i: nat)
    requires i <= |resources|
    ensures var k := FirstResolvingFrom(resources, path, resourceType, i);
            (forall j :: i <= j < k ==> !Resolves(resources[j], path, resourceType)) &&
            (k < |resources| ==> Resolves(resources[k], path, resourceType)) &&
            (k == |resources| ==> forall j :: i <= j < |resources| ==> !Resolves(resources[j], path, resourceType))
    decreases |resources| - i
  {
    if i < |resources| && !Resolves(resources[i], path, resourceType) {
      FirstResolvingFromSpec(resources, path, resourceType, i + 1);
    }
  }

  /** The first resolving index is the least index the path resolves in, and there is one exactly when the path is supported. */
  lemma FirstResolvingSpec(resources: seq<Json>, path: string, resourceType: string)
    ensures var k := FirstResolving(resources, path, resourceType);
            (forall j :: 0 <= j < k ==> !Resolves(resources[j], path, resourceType)) &&
            (k < |resources| ==> Resolves(resources[k], path, resourceType))
    ensures Supported(resources, path, resourceType) <==>
            exists i :: 0 <= i < |resources| && Resolves(resources[i], path, resourceType)
  {
    FirstResolvingFromSpec(resources, path, resourceType, 0);
  }

  /** The index of the first path from `k` on that no resource has. */
  function FirstUnsupportedFrom(resources: seq<Json>, elements: seq<string>, resourceType: string, k: nat): (r: Option<nat>)
    requires k <= |elements|
    ensures r.None? <==> forall j :: k <= j < |elements| ==> Supported(resources, elements[j], resourceType)
    ensures r.Some? ==> k <= r.value < |elements| && !Supported(resources, elements[r.value], resourceType) &&
                        forall j :: k <= j < r.value ==> Supported(resources, elements[j], resourceType)
    decreases |elements| - k
  {
    if k == |elements| then None
    else if !Supported(resources, elements[k], resourceType) then Some(k)
    else FirstUnsupportedFrom(resources, elements, resourceType, k + 1)
  }

  /** The index of the first path no resource has. */
  function FirstUnsupported(resources: seq<Json>, elements: seq<string>, resourceType: string): (r: Option<nat>)
    ensures r.None? <==> forall j :: 0 <= j < |elements| ==> Supported(resources, elements[j], resourceType)
    ensures r.Some? ==> r.value < |elements| && !Supported(resources, elements[r.value], resourceType) &&
                        forall j :: 0 <= j < r.value ==> Supported(resources, elements[j], resourceType)
  {
    FirstUnsupportedFrom(resources, elements, resourceType, 0)
  }

  /** The step's outcome. */
  function MustSupportOutcome(resources: seq<Json>, elements: seq<string>, resourceType: string): Outcome
  {
    if !AnyPresent(resources) then Skip(NoResourcesGate)
    else
      match FirstUnsupported(resources, elements, resourceType)
      case None => Pass
      case Some(k) => Skip(CouldNotFind(elements[k], |resources|, resourceType))
  }

  /** How many paths the loop looks at before it stops. */
  function Examined(resources: seq<Json>, elements: seq<string>, resourceType: string): nat
  {
    if !AnyPresent(resources) then 0
    else
      match FirstUnsupported(resources, elements, resourceType)
      case None => |elements|
      case Some(k) => k + 1
  }

  /**
   * The inner loop for one path: visit the resources in order, mark the path
   * confirmed in the first one it resolves in, and stop as soon as the path
   * is confirmed (at once when an earlier occurrence confirmed it).
   */
  method ScanResources(resources: seq<Json>, path: string, resourceType: string, confirmed: map<string, bool>)
    returns (updated: map<string, bool>, visited: nat)
    requires |resources| > 0
    requires forall p :: p in confirmed ==> confirmed[p]
    ensures path in confirmed ==> updated == confirmed && visited == 1
    ensures path !in confirmed ==>
              var f := FirstResolving(resources, path, resourceType);
              visited == (if f < |resources| then f + 1 else |resources|) &&
              updated == (if f < |resources| then confirmed[path := true] else confirmed)
  {
    updated := confirmed;
    var strip := Text.RemoveAll(path, resourceType + ".");
    var i := 0;
    while i < |resources|
      invariant 0 <= i <= |resources|
      invariant updated == confirmed
      invariant path in confirmed ==> i == 0
      invariant path !in confirmed ==> forall j :: 0 <= j < i ==> !Resolves(resources[j], path, resourceType)
    {
      var hit := Resolver.CanResolve(resources[i], Text.PathSegments(strip), Resolver.AnyValue);
      CanResolveTruncated(resources[i], path, resourceType);
      if hit {
        updated := updated[path := true];
      }
      i := i + 1;
      if path in updated && updated[path] {
        if path in confirmed {
          assert updated == confirmed;
        } else {
          FirstResolvingIs(resources, path, resourceType, i - 1);
        }
        visited := i;
        return;
      }
    }
    visited := i;
    FirstResolvingIs(resources, path, resourceType, i);
  }

  /** The resolver's answer on the truncated path is the reference definition's. */
  lemma CanResolveTruncated(resource: Json, path: string, resourceType: string)
    ensures Resolver.CanResolve(resource, Truncated(path, resourceType), Resolver.AnyValue) <==>
            Resolves(resource, path, resourceType)
  {
    Resolver.ResolveSpec(resource, Truncated(path, resourceType), Resolver.AnyValue);
  }

  /** The least resolving index, or |resources| when none resolves, is the first resolving index. */
  lemma FirstResolvingIs(resources: seq<Json>, path: string, resourceType: string, f: nat)
    requires f <= |resources|
    requires forall j :: 0 <= j < f ==> !Resolves(resources[j], path, resourceType)
    requires f < |resources| ==> Resolves(resources[f], path, resourceType)
    ensures FirstResolving(resources, path, resourceType) == f
  {
    FirstResolvingFromSpec(resources, path, resourceType, 0);
  }

  /**
   * The hash the loop has filled once it has looked at the first `k` paths:
   * each of them that some resource has, mapped to true.
   */
  function ConfirmedAfter(resources: seq<Json>, elements: seq<string>, k: nat, resourceType: string): map<string, bool>
    requires k <= |elements|
    decreases k
  {
    if k == 0 then map[]
    else
      var m := ConfirmedAfter(resources, elements, k - 1, resourceType);
      if Supported(resources, elements[k - 1], resourceType) then m[elements[k - 1] := true] else m
  }

  /** The confirmed paths are exactly the supported ones among those looked at, and all map to true. */
  lemma {:induction false} ConfirmedAfterSpec(resources: seq<Json>, elements: seq<string>, k: nat, resourceType: string)
    requires k <= |elements|
    ensures forall p :: p in ConfirmedAfter(resources, elements, k, resourceType) ==>
                        ConfirmedAfter(resources, elements, k, resourceType)[p]
    ensures forall p :: p in ConfirmedAfter(resources, elements, k, resourceType) <==>
                        (p in elements[..k] && Supported(resources, p, resourceType))
    decreases k
  {
    if k > 0 {
      ConfirmedAfterSpec(resources, elements, k - 1, resourceType);
      assert elements[..k] == elements[..k - 1] + [elements[k - 1]];
    }
  }

  /**
   * The outer loop as a function: from path `k` on, with the hash filled so
   * far, the step's outcome and final hash. A path already in the hash is
   * passed over, a supported one is added, and an unsupported one ends the
   * step.
   */
  function Scan(resources: seq<Json>, elements: seq<string>, k: nat, confirmed: map<string, bool>, resourceType: string):
    (Outcome, map<string, bool>)
    requires k <= |elements|
    decreases |elements| - k
  {
    if k == |elements| then (Pass, confirmed)
    else if elements[k] in confirmed then Scan(resources, elements, k + 1, confirmed, resourceType)
    else if Supported(resources, elements[k], resourceType) then
      Scan(resources, elements, k + 1, confirmed[elements[k] := true], resourceType)
    else (Skip(CouldNotFind(elements[k], |resources|, resourceType)), confirmed)
  }

  /** Only supported paths enter the hash, and always mapped to true. */
  lemma {:induction false} ConfirmedAfterSound(resources: seq<Json>, elements: seq<string>, k: nat,
                                               resourceType: string, p: string)
    requires k <= |elements|
    requires p in ConfirmedAfter(resources, elements, k, resourceType)
    ensures ConfirmedAfter(resources, elements, k, resourceType)[p]
    ensures Supported(resources, p, resourceType)
    decreases k
  {
    var m := ConfirmedAfter(resources, elements, k - 1, resourceType);
    if p in m {
      ConfirmedAfterSound(resources, elements, k - 1, resourceType, p);
    }
  }

  /** One turn of the loop: path `k` is either confirmed (and the scan goes on) or ends the step. */
  lemma ScanStep(resources: seq<Json>, elements: seq<string>, k: nat, resourceType: string)
    requires k < |elements|
    ensures var confirmed := ConfirmedAfter(resources, elements, k, resourceType);
            Scan(resources, elements, k, confirmed, resourceType) ==
            if Supported(resources, elements[k], resourceType)
            then Scan(resources, elements, k + 1, ConfirmedAfter(resources, elements, k + 1, resourceType), resourceType)
            else (Skip(CouldNotFind(elements[k], |resources|, resourceType)), ConfirmedAfter(resources, elements, k + 1, resourceType))
  {
    var confirmed := ConfirmedAfter(resources, elements, k, resourceType);
    var path := elements[k];
    if path in confirmed {
      ConfirmedAfterSound(resources, elements, k, resourceType, path);
      assert confirmed[path := true] == confirmed;
    }
  }

  /**
   * Run from any point the loop can reach, the scan ends with the step's
   * outcome and with exactly the supported paths it examined confirmed.
   */
  lemma {:induction false} ScanMeaning(resources: seq<Json>, elements: seq<string>, k: nat, resourceType: string)
    requires AnyPresent(resources)
    requires k <= |elements|
    requires forall j :: 0 <= j < k ==> Supported(resources, elements[j], resourceType)
    ensures Scan(resources, elements, k, ConfirmedAfter(resources, elements, k, resourceType), resourceType) ==
            (MustSupportOutcome(resources, elements, resourceType),
             ConfirmedAfter(resources, elements, Examined(resources, elements, resourceType), resourceType))
    decreases |elements| - k
  {
    if k == |elements| {
      AllSupported(resources, elements, resourceType);
    } else {
      ScanStep(resources, elements, k, resourceType);
      if Supported(resources, elements[k], resourceType) {
        forall j | 0 <= j < k + 1
          ensures Supported(resources, elements[j], resourceType)
        {
        }
        ScanMeaning(resources, elements, k + 1, resourceType);
      } else {
        StopsAt(resources, elements, k, resourceType);
      }
    }
  }

  /** The loop of the must-support step; `confirmed` is the hash it fills. */
  method Check(resources: seq<Json>, elements: seq<string>, resourceType: string)
    returns (outcome: Outcome, confirmed: map<string, bool>)
    ensures outcome == MustSupportOutcome(resources, elements, resourceType)
    ensures confirmed == ConfirmedAfter(resources, elements, Examined(resources, elements, resourceType), resourceType)
  {
    confirmed := map[];
    if !(exists i :: 0 <= i < |resources| && resources[i] != JNull) {
      outcome := Skip(NoResourcesGate);
      return;
    }
    ScanMeaning(resources, elements, 0, resourceType);
    var k := 0;
    while k < |elements|
      invariant 0 <= k <= |elements|
      invariant forall p :: p in confirmed ==> confirmed[p]
      invariant Scan(resources, elements, k, confirmed, resourceType) == Scan(resources, elements, 0, map[], resourceType)
    {
      var path := elements[k];
      var visited;
      confirmed, visited := ScanResources(resources, path, resourceType, confirmed);
      if !(path in confirmed && confirmed[path]) {
        outcome := Skip(CouldNotFind(path, |resources|, resourceType));
        return;
      }
      k := k + 1;
    }
    outcome := Pass;
  }

  lemma StopsAt(resources: seq<Json>, elements: seq<string>, k: nat, resourceType: string)
    requires AnyPresent(resources)
    requires k < |elements| && !Supported(resources, elements[k], resourceType)
    requires forall j :: 0 <= j < k ==> Supported(resources, elements[j], resourceType)
    ensures FirstUnsupported(resources, elements, resourceType) == Some(k)
    ensures MustSupportOutcome(resources, elements, resourceType) ==
            Skip(CouldNotFind(elements[k], |resources|, resourceType))
    ensures Examined(resources, elements, resourceType) == k + 1
  {
  }

  lemma AllSupported(resources: seq<Json>, elements: seq<string>, resourceType: string)
    requires AnyPresent(resources)
    requires forall j :: 0 <= j < |elements| ==> Supported(resources, elements[j], resourceType)
    ensures MustSupportOutcome(resources, elements, resourceType) == Pass
    ensures Examined(resources, elements, resourceType) == |elements|
  {
  }

  /**
   * A path written as `<Type>.<rest>`, where `rest` does not mention the
   * prefix again, is looked up as `rest` split at its dots.
   */
  lemma TypePrefixStripped(resource: Json, resourceType: string, rest: string)
    requires !Text.Contains(rest, resourceType + ".")
    ensures Truncated(resourceType + "." + rest, resourceType) == Text.PathSegments(rest)
    ensures Resolves(resource, resourceType + "." + rest, resourceType) <==>
            exists i :: 0 <= i < |Resolver.ResolvedValues(resource, Text.PathSegments(rest))| &&
                        Resolver.ResolvedValues(resource, Text.PathSegments(rest))[i] != JNull
  {
    assert resourceType + "." + rest == (resourceType + ".") + rest;
    Text.StripPrefix(resourceType + ".", rest);
  }

  /** Whether a path is supported does not depend on the order of the resources. */
  lemma SupportedOrderFree(resources: seq<Json>, others: seq<Json>, path: string, resourceType: string)
    requires multiset(resources) == multiset(others)
    ensures Supported(resources, path, resourceType) <==> Supported(others, path, resourceType)
  {
    FirstResolvingSpec(resources, path, resourceType);
    FirstResolvingSpec(others, path, resourceType);
    if Supported(resources, path, resourceType) {
      var i :| 0 <= i < |resources| && Resolves(resources[i], path, resourceType);
      assert resources[i] in multiset(others);
      var j :| 0 <= j < |others| && others[j] == resources[i];
    }
    if Supported(others, path, resourceType) {
      var j :| 0 <= j < |others| && Resolves(others[j], path, resourceType);
      assert others[j] in multiset(resources);
      var i :| 0 <= i < |resources| && resources[i] == others[j];
    }
  }

  lemma {:induction false} FirstUnsupportedOrderFree(resources: seq<Json>, others: seq<Json>, elements: seq<string>,
                                                     resourceType: string, k: nat)
    requires multiset(resources) == multiset(others)
    requires k <= |elements|
    ensures FirstUnsupportedFrom(resources, elements, resourceType, k) ==
            FirstUnsupportedFrom(others, elements, resourceType, k)
    decreases |elements| - k
  {
    if k < |elements| {
      SupportedOrderFree(resources, others, elements[k], resourceType);
      FirstUnsupportedOrderFree(resources, others, elements, resourceType, k + 1);
    }
  }

  /**
   * The step's outcome does not depend on the order in which the search
   * returned the resources: only on which resources there are.
   */
  lemma OutcomeOrderFree(resources: seq<Json>, others: seq<Json>, elements: seq<string>, resourceType: string)
    requires multiset(resources) == multiset(others)
    ensures MustSupportOutcome(resources, elements, resourceType) == MustSupportOutcome(others, elements, resourceType)
  {
    FirstUnsupportedOrderFree(resources, others, elements, resourceType, 0);
    assert |resources| == |multiset(resources)| == |others|;
    if AnyPresent(resources) {
      var i :| 0 <= i < |resources| && resources[i] != JNull;
      assert resources[i] in multiset(others);
      var j :| 0 <= j < |others| && others[j] == resources[i];
    }
    if AnyPresent(others) {
      var j :| 0 <= j < |others| && others[j] != JNull;
      assert others[j] in multiset(resources);
      var i :| 0 <= i < |resources| && resources[i] == others[j];
    }
  }
}
