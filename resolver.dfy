/**
 * Path resolution over resources: `resolve_element_from_path` and
 * `can_resolve_path`. A dotted path descends field by field; a repeated
 * element fans out and the rest of the path is tried on each item in order,
 * the first item that yields a value winning. Absent elements are a silent
 * "none", never an error. The predicate form only accepts values the
 * predicate holds of.
 *
 * `Values` is the reference definition: every value the path reaches, in
 * document order. `ResolveIsFirstValue` proves that the short-circuiting
 * resolver returns exactly the first of them that satisfies the predicate.
 */
module Resolver {
  import opened Resource
  
  /** The first present element of `xs` that satisfies `p`. */
  function FindFirst(xs: seq<Json>, p: Json -> bool): (r: Option<Json>)
    ensures r.Some? <==> exists i :: 0 <= i < |xs| && xs[i] != JNull && p(xs[i])
    ensures r.Some? ==> r.value != JNull && p(r.value)
    ensures r.Some? ==> exists i :: 0 <= i < |xs| && xs[i] == r.value &&
                         forall j :: 0 <= j < i ==> !(xs[j] != JNull && p(xs[j]))
    decreases |xs|
  {
    if xs == [] then None
    else if xs[0] != JNull && p(xs[0]) then Some(xs[0])
    else
      var r := FindFirst(xs[1..], p);
      assert r.Some? ==> exists i :: (1 <= i < |xs| && xs[i] == r.value &&
                         forall j :: 0 <= j < i ==> !(xs[j] != JNull && p(xs[j]))) by {
        if r.Some? {
          var i :| 0 <= i < |xs[1..]| && xs[1..][i] == r.value &&
                   forall j :: 0 <= j < i ==> !(xs[1..][j] != JNull && p(xs[1..][j]));
          assert xs[i + 1] == r.value;
          forall j | 0 <= j < i + 1 ensures !(xs[j] != JNull && p(xs[j])) {
            if j > 0 { assert xs[j] == xs[1..][j - 1]; }
          }
        }
      }
      r
  }

  /**
   * Resolution of the path segments `path` against the candidate elements
   * `els`, tried in order (Ruby's loop over `Array.wrap(element)`).
   */
  function ResolveIn(els: seq<Json>, path: seq<string>, p: Json -> bool): Option<Json>
    decreases |path|, |els|
  {
    if path == [] then FindFirst(els, p)
    else if els == [] then None
    else
      var head := ResolveIn(Wrap(Get(els[0], path[0])), path[1..], p);
      if head.Some? then head else ResolveIn(els[1..], path, p)
  }

  /** Every value the path reaches from `els`, in document order (no short-circuit). */
  function Values(els: seq<Json>, path: seq<string>): seq<Json>
    decreases |path|, |els|
  {
    if path == [] then els
    else if els == [] then []
    else Values(Wrap(Get(els[0], path[0])), path[1..]) + Values(els[1..], path)
  }

  lemma {:induction false} FindFirstAppend(a: seq<Json>, b: seq<Json>, p: Json -> bool)
    ensures FindFirst(a + b, p) == if FindFirst(a, p).Some? then FindFirst(a, p) else FindFirst(b, p)
    decreases |a|
  {
    if a != [] {
      assert (a + b)[1..] == a[1..] + b;
      assert (a + b)[0] == a[0];
      FindFirstAppend(a[1..], b, p);
    } else {
      assert a + b == b;
    }
  }

  /** The resolver is the first-match search over the reference list of reachable values. */
  lemma {:induction false} ResolveIsFirstValue(els: seq<Json>, path: seq<string>, p: Json -> bool)
    ensures ResolveIn(els, path, p) == FindFirst(Values(els, path), p)
    decreases |path|, |els|
  {
    if path != [] && els != [] {
      var sub := Wrap(Get(els[0], path[0]));
      ResolveIsFirstValue(sub, path[1..], p);
      ResolveIsFirstValue(els[1..], path, p);
      FindFirstAppend(Values(sub, path[1..]), Values(els[1..], path), p);
    }
  }

  // ---------------------------------------------------------------------------
  // The forms the sequences call. An element path such as
  // `category.coding.code` is given as its segments (see Text.PathSegments).
  // ---------------------------------------------------------------------------

  function AnyValue(v: Json): bool { true }

  /** `resolve_element_from_path(element, path) { |v| p(v) }` on one element (or an array of them). */
  function Resolve(element: Json, path: seq<string>, p: Json -> bool): Option<Json>
  {
    ResolveIn(Wrap(element), path, p)
  }

  /** `can_resolve_path(element, path) { |v| p(v) }`. */
  predicate CanResolve(element: Json, path: seq<string>, p: Json -> bool)
  {
    Resolve(element, path, p).Some?
  }

  /** Every value `path` reaches in `element`. */
  function ResolvedValues(element: Json, path: seq<string>): seq<Json>
  {
    Values(Wrap(element), path)
  }

  /**
   * The predicate form succeeds exactly when some value the path reaches is
   * present and satisfies the predicate, and what it returns is such a value.
   */
  lemma ResolveSpec(element: Json, path: seq<string>, p: Json -> bool)
    ensures CanResolve(element, path, p) <==>
            exists i :: 0 <= i < |ResolvedValues(element, path)| &&
                        ResolvedValues(element, path)[i] != JNull && p(ResolvedValues(element, path)[i])
    ensures Resolve(element, path, p).Some? ==>
            Resolve(element, path, p).value in ResolvedValues(element, path) &&
            p(Resolve(element, path, p).value)
  {
    var vs := ResolvedValues(element, path);
    ResolveIsFirstValue(Wrap(element), path, p);
    assert Resolve(element, path, p) == FindFirst(vs, p);
  }

  /** Resolution against a list of resources: a value is found exactly when one of theirs is reachable. */
  lemma ResolveAmongSpec(elements: seq<Json>, path: seq<string>, p: Json -> bool)
    ensures ResolveIn(elements, path, p).Some? <==>
            exists i :: 0 <= i < |Values(elements, path)| && Values(elements, path)[i] != JNull &&
                        p(Values(elements, path)[i])
    ensures ResolveIn(elements, path, p).Some? ==>
            p(ResolveIn(elements, path, p).value) && ResolveIn(elements, path, p).value != JNull &&
            ResolveIn(elements, path, p).value in Values(elements, path)
  {
    ResolveIsFirstValue(elements, path, p);
  }

  /** An absent element resolves to nothing, whatever the path. */
  lemma {:induction false} AbsentResolvesToNothing(path: seq<string>, p: Json -> bool)
    ensures ResolveIn([], path, p) == None
    ensures Values([], path) == []
  {
  }

  /** Descending into a field the object lacks yields nothing, not an error. */
  lemma {:induction false} MissingFieldResolvesToNothing(v: Json, name: string, rest: seq<string>, p: Json -> bool)
    requires v.JObj?
    requires forall i :: 0 <= i < |v.fields| ==> v.fields[i].name != name
    ensures ResolveIn([v], [name] + rest, p) == None
  {
    assert Get(v, name) == JNull;
    assert ([name] + rest)[1..] == rest;
    assert [v][1..] == [];
  }
}
