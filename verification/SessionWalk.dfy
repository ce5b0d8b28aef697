/** How the session-scoped client decides what its fallback may forward: a worklist over the
    type annotations of a method's parameters, which may share parts and refer to themselves. */
module SessionWalk {
  import opened Wrappers

  const SESSION_NAMES := {"session_id", "session_ids"}

  /** A type expression: the fields of a request model with the types they are declared with, if
      it is one, and the arguments it was built from; types are positions in the graph. */
  datatype TypeNode = TypeNode(modelFields: Option<map<string, nat>>, args: seq<nat>)

  type Graph = seq<TypeNode>

  predicate Closed(g: Graph) {
    && (forall n :: 0 <= n < |g| ==> forall m :: m in g[n].args ==> m < |g|)
    && (forall n :: 0 <= n < |g| && g[n].modelFields.Some? ==>
          forall name :: name in g[n].modelFields.value ==> g[n].modelFields.value[name] < |g|)
  }

  function SessionFields(node: TypeNode): set<string> {
    if node.modelFields.Some? then node.modelFields.value.Keys * SESSION_NAMES else {}
  }

  predicate HasField(node: TypeNode, field: string) {
    node.modelFields.Some? && field in node.modelFields.value
  }

  // ----- the specification: what is reachable --------------------------------------------------------

  predicate Path(g: Graph, path: seq<nat>) {
    && path != []
    && (forall i :: 0 <= i < |path| ==> path[i] < |g|)
    && (forall i :: 0 <= i && i + 1 < |path| ==> path[i + 1] in g[path[i]].args)
  }

  ghost predicate Reachable(g: Graph, from: nat, to: nat) {
    exists path :: Path(g, path) && path[0] == from && path[|path| - 1] == to
  }

  /** Some model reachable from the annotation has this field. */
  ghost predicate Carries(g: Graph, annotation: nat, field: string) {
    (field == "session_id" || field == "session_ids") && exists n :: 0 <= n < |g| && Reachable(g, annotation, n) && HasField(g[n], field)
  }

  lemma ReachesItself(g: Graph, n: nat)
    requires n < |g|
    ensures Reachable(g, n, n)
  {
    assert Path(g, [n]) && [n][0] == n;
  }

  lemma ReachesFurther(g: Graph, from: nat, n: nat, m: nat)
    requires Reachable(g, from, n) && n < |g| && m in g[n].args && m < |g|
    ensures Reachable(g, from, m)
  {
    var path :| Path(g, path) && path[0] == from && path[|path| - 1] == n;
    var longer := path + [m];
    assert Path(g, longer) && longer[0] == from && longer[|longer| - 1] == m;
  }

  /** A set that holds the start and the arguments of its members holds everything reachable. */
  lemma {:induction false} ClosedSetHoldsPath(g: Graph, seen: set<nat>, path: seq<nat>)
    requires Path(g, path) && path[0] in seen
    requires forall n, m :: n in seen && n < |g| && m in g[n].args ==> m in seen
    ensures path[|path| - 1] in seen
    decreases |path|
  {
    if |path| > 1 {
      assert path[0 + 1] in g[path[0]].args;
      var rest := path[1..];
      forall i | 0 <= i && i + 1 < |rest|
        ensures rest[i + 1] in g[rest[i]].args
      {
        assert path[i + 1 + 1] in g[path[i + 1]].args;
      }
      ClosedSetHoldsPath(g, seen, rest);
    }
  }

  lemma {:induction false} BoundedSet(s: set<nat>, n: nat)
    requires forall x :: x in s ==> x < n
    ensures |s| <= n
    decreases n
  {
    if n == 0 {
      assert s == {};
    } else {
      var smaller := s - {n - 1};
      BoundedSet(smaller, n - 1);
      assert |s| <= |smaller| + 1 by {
        if n - 1 in s { assert s == smaller + {n - 1}; } else { assert s == smaller; }
      }
    }
  }

  /** When the worklist is empty, what was seen is what is reachable. */
  lemma SeenIsExact(g: Graph, annotation: nat, seen: set<nat>, found: set<string>)
    requires annotation in seen && forall n :: n in seen ==> n < |g| && Reachable(g, annotation, n)
    requires forall n, m :: n in seen && m in g[n].args ==> m in seen
    requires forall field :: field in found <==> exists n :: n in seen && field in SessionFields(g[n])
    ensures forall field :: field in found <==> Carries(g, annotation, field)
  {
    forall n | 0 <= n < |g| && Reachable(g, annotation, n)
      ensures n in seen
    {
      var path :| Path(g, path) && path[0] == annotation && path[|path| - 1] == n;
      ClosedSetHoldsPath(g, seen, path);
    }
    forall field
      ensures field in found <==> Carries(g, annotation, field)
    {
      if field in found {
        var n :| n in seen && field in SessionFields(g[n]);
        assert Reachable(g, annotation, n);
      }
    }
  }

  // ----- the worklist ------------------------------------------------------------------------------------

  /** Exactly the session fields of the models reachable from the annotation, on any finite
      graph, shared or cyclic. */
  method SessionModelFields(g: Graph, annotation: nat) returns (found: set<string>)
    requires Closed(g) && annotation < |g|
    ensures forall field :: field in found <==> Carries(g, annotation, field)
  {
    hide Path, Reachable, Carries, SessionFields;
    found := {};
    var stack: seq<nat> := [annotation];
    var seen: set<nat> := {};
    ReachesItself(g, annotation);
    while stack != []
      invariant annotation in seen || annotation in stack
      invariant forall n :: n in stack || n in seen ==> n < |g| && Reachable(g, annotation, n)
      invariant forall n, m :: n in seen && m in g[n].args ==> m in seen || m in stack
      invariant forall field :: field in found <==> exists n :: n in seen && field in SessionFields(g[n])
      decreases |g| - |seen|, |stack|
    {
      var current := stack[|stack| - 1];
      ghost var before, earlier := stack, seen;
      stack := stack[..|stack| - 1];
      assert before == stack + [current];
      assert current in before && forall n :: n in stack ==> n in before;
      if current in seen { continue; }
      seen := seen + {current};
      BoundedSet(seen, |g|);
      found := found + SessionFields(g[current]);
      stack := stack + g[current].args;
      forall m | m in g[current].args
        ensures m < |g| && Reachable(g, annotation, m)
      {
        ReachesFurther(g, annotation, current, m);
      }
      forall n | n in stack || n in seen
        ensures n < |g| && Reachable(g, annotation, n)
      {
        assert n in before || n in g[current].args || n in earlier;
      }
    }
    SeenIsExact(g, annotation, seen, found);
  }

  // ----- what may be forwarded ----------------------------------------------------------------------------

  datatype Parameter = Parameter(name: string, annotation: Option<nat>)

  /** A callable whose signature may not be inspectable, or something else. */
  datatype Attribute = Value | Callable(parameters: Option<seq<Parameter>>)

  /** The parameter is a session argument, or its annotation reaches a model that has one. */
  ghost predicate CarriesSession(g: Graph, p: Parameter) {
    p.name == "session_id" || p.name == "session_ids" || (p.annotation.Some? && exists field :: Carries(g, p.annotation.value, field))
  }

  predicate WellTyped(g: Graph, parameters: Option<seq<Parameter>>) {
    parameters.Some? ==>
      forall i :: 0 <= i < |parameters.value| && parameters.value[i].annotation.Some? ==> parameters.value[i].annotation.value < |g|
  }

  method AcceptsSessionArgument(g: Graph, parameters: Option<seq<Parameter>>) returns (accepts: bool)
    requires Closed(g) && WellTyped(g, parameters)
    ensures accepts <==> parameters.Some? && exists i :: 0 <= i < |parameters.value| && CarriesSession(g, parameters.value[i])
  {
    if parameters.None? { return false; }
    for i := 0 to |parameters.value|
      invariant forall j :: 0 <= j < i ==> !CarriesSession(g, parameters.value[j])
    {
      var p := parameters.value[i];
      if p.name in SESSION_NAMES {
        assert CarriesSession(g, parameters.value[i]);
        return true;
      }
      if p.annotation.None? { continue; }
      var fields := SessionModelFields(g, p.annotation.value);
      if fields != {} {
        var field :| field in fields;
        assert Carries(g, p.annotation.value, field);
        assert CarriesSession(g, parameters.value[i]);
        return true;
      }
      assert forall field :: field in fields <==> Carries(g, p.annotation.value, field);
    }
    return false;
  }

  /** The scoped client's fallback for a name it has no wrapper for. */
  method GetAttr(g: Graph, client: map<string, Attribute>, name: string) returns (forwarded: Option<Attribute>)
    requires Closed(g) && forall n :: n in client && client[n].Callable? ==> WellTyped(g, client[n].parameters)
    ensures forwarded.Some? <==>
            && !("_" <= name) && name in client
            && !(client[name].Callable? && client[name].parameters.Some?
                 && exists i :: 0 <= i < |client[name].parameters.value| && CarriesSession(g, client[name].parameters.value[i]))
    ensures forwarded.Some? ==> forwarded.value == client[name]
  {
    if "_" <= name || name !in client { return None; }
    var attribute := client[name];
    if attribute.Callable? {
      var accepts := AcceptsSessionArgument(g, attribute.parameters);
      if accepts { return None; }
    }
    return Some(attribute);
  }

  // ----- consequences -----------------------------------------------------------------------------------------

  /** Wrapping an annotation in a union, an alias or any other type expression cannot hide the
      fields of what is inside. */
  lemma WrappingHidesNothing(g: Graph, outer: nat, inner: nat, field: string)
    requires Closed(g) && outer < |g| && Reachable(g, outer, inner) && inner < |g| && Carries(g, inner, field)
    ensures Carries(g, outer, field)
  {
    var n :| 0 <= n < |g| && Reachable(g, inner, n) && HasField(g[n], field);
    var first :| Path(g, first) && first[0] == outer && first[|first| - 1] == inner;
    var second :| Path(g, second) && second[0] == inner && second[|second| - 1] == n;
    var whole := first + second[1..];
    forall i | 0 <= i && i + 1 < |whole|
      ensures whole[i + 1] in g[whole[i]].args
    {
      if i + 1 < |first| {
        assert first[i + 1] in g[first[i]].args;
      } else {
        var j := i + 1 - |first|;
        assert second[j + 1] in g[second[j]].args;
        assert whole[i] == second[j];
      }
    }
    assert Path(g, whole);
    assert whole[|whole| - 1] == n;
  }

  // ----- what the walk does not see -----------------------------------------------------------------------------

  /** One step into a type: to an argument of it, or to the type of a field of the model it is. */
  predicate Inside(node: TypeNode, m: nat) {
    m in node.args || (node.modelFields.Some? && exists name :: name in node.modelFields.value && node.modelFields.value[name] == m)
  }

  predicate DeepPath(g: Graph, path: seq<nat>) {
    && path != []
    && (forall i :: 0 <= i < |path| ==> path[i] < |g|)
    && (forall i :: 0 <= i && i + 1 < |path| ==> Inside(g[path[i]], path[i + 1]))
  }

  ghost predicate DeeplyReachable(g: Graph, from: nat, to: nat) {
    exists path :: DeepPath(g, path) && path[0] == from && path[|path| - 1] == to
  }

  /** A value of the type can hold a session field, in a model of its own or in a nested one. */
  ghost predicate DeeplyCarries(g: Graph, annotation: nat, field: string) {
    (field == "session_id" || field == "session_ids") && exists n :: 0 <= n < |g| && DeeplyReachable(g, annotation, n) && HasField(g[n], field)
  }

  /** A model the walk visits has a field, of this name, whose type can hold the session field. */
  ghost predicate Nests(g: Graph, annotation: nat, m: nat, name: string, field: string) {
    && m < |g| && Reachable(g, annotation, m)
    && g[m].modelFields.Some? && name in g[m].modelFields.value
    && DeeplyCarries(g, g[m].modelFields.value[name], field)
  }

  lemma PathIsDeep(g: Graph, path: seq<nat>)
    requires Path(g, path)
    ensures DeepPath(g, path)
  {
  }

  lemma DeepJoin(g: Graph, first: seq<nat>, second: seq<nat>)
    requires DeepPath(g, first) && DeepPath(g, second) && Inside(g[first[|first| - 1]], second[0])
    ensures DeepPath(g, first + second)
  {
    var whole := first + second;
    forall i | 0 <= i && i + 1 < |whole|
      ensures Inside(g[whole[i]], whole[i + 1])
    {
      if i + 1 < |first| {
        assert Inside(g[first[i]], first[i + 1]);
      } else if i + 1 > |first| {
        assert Inside(g[second[i - |first|]], second[i - |first| + 1]);
      }
    }
  }

  /** A deep path either never leaves the arguments, or leaves them first at a model it reached
      through arguments alone, into the type of one of its fields. */
  lemma {:induction false} DeepPathLeaves(g: Graph, path: seq<nat>) returns (i: nat)
    requires DeepPath(g, path)
    ensures i < |path| && Path(g, path[..i + 1])
    ensures i + 1 < |path| ==> path[i + 1] !in g[path[i]].args
    decreases |path|
  {
    if |path| == 1 || path[0 + 1] !in g[path[0]].args {
      i := 0;
    } else {
      var rest := path[1..];
      forall j | 0 <= j && j + 1 < |rest|
        ensures Inside(g[rest[j]], rest[j + 1])
      {
        assert Inside(g[path[j + 1]], path[j + 1 + 1]);
      }
      var k := DeepPathLeaves(g, rest);
      i := k + 1;
      var shallow := path[..i + 1];
      forall j | 0 <= j && j + 1 < |shallow|
        ensures shallow[j + 1] in g[shallow[j]].args
      {
        if j > 0 { assert rest[..k + 1][j - 1 + 1] in g[rest[..k + 1][j - 1]].args; }
      }
    }
  }

  lemma DeepSuffix(g: Graph, path: seq<nat>, i: nat)
    requires DeepPath(g, path) && i < |path|
    ensures DeepPath(g, path[i..]) && path[i..][0] == path[i] && path[i..][|path| - i - 1] == path[|path| - 1]
  {
    forall j | 0 <= j && j + 1 < |path[i..]|
      ensures Inside(g[path[i..][j]], path[i..][j + 1])
    {
      assert Inside(g[path[i + j]], path[i + j + 1]);
    }
  }

  lemma PrefixReaches(g: Graph, path: seq<nat>, i: nat)
    requires i < |path| && Path(g, path[..i + 1])
    ensures Reachable(g, path[0], path[i])
  {
    var shallow := path[..i + 1];
    assert shallow[0] == path[0] && shallow[|shallow| - 1] == path[i];
  }

  lemma SuffixReaches(g: Graph, path: seq<nat>, i: nat)
    requires DeepPath(g, path) && i < |path|
    ensures DeeplyReachable(g, path[i], path[|path| - 1])
  {
    DeepSuffix(g, path, i);
  }

  lemma DeepEnds(g: Graph, path: seq<nat>)
    requires DeepPath(g, path)
    ensures path != [] && forall i :: 0 <= i < |path| ==> path[i] < |g|
  {
  }

  lemma DeepSplits(g: Graph, annotation: nat, field: string)
    requires DeeplyCarries(g, annotation, field) && !Carries(g, annotation, field)
    ensures exists m, name :: Nests(g, annotation, m, name, field)
  {
    var n :| 0 <= n < |g| && DeeplyReachable(g, annotation, n) && HasField(g[n], field);
    var path :| DeepPath(g, path) && path[0] == annotation && path[|path| - 1] == n;
    hide DeepPath, Path, HasField, Inside, DeeplyReachable, Reachable;
    DeepEnds(g, path);
    var i := DeepPathLeaves(g, path);
    PrefixReaches(g, path, i);
    if i + 1 < |path| {
      var name := LeavesByField(g, path, i);
      SuffixReaches(g, path, i + 1);
      assert DeeplyCarries(g, path[i + 1], field);
      assert Nests(g, annotation, path[i], name, field);
    }
  }

  lemma LeavesByField(g: Graph, path: seq<nat>, i: nat) returns (name: string)
    requires DeepPath(g, path) && i + 1 < |path| && path[i + 1] !in g[path[i]].args
    ensures path[i] < |g| && g[path[i]].modelFields.Some?
    ensures name in g[path[i]].modelFields.value && g[path[i]].modelFields.value[name] == path[i + 1]
  {
    assert Inside(g[path[i]], path[i + 1]);
    name :| name in g[path[i]].modelFields.value && g[path[i]].modelFields.value[name] == path[i + 1];
  }

  lemma NestingCarries(g: Graph, annotation: nat, m: nat, name: string, field: string)
    requires Nests(g, annotation, m, name, field)
    ensures DeeplyCarries(g, annotation, field)
  {
    var t := g[m].modelFields.value[name];
    var first :| Path(g, first) && first[0] == annotation && first[|first| - 1] == m;
    var n :| 0 <= n < |g| && DeeplyReachable(g, t, n) && HasField(g[n], field);
    var second :| DeepPath(g, second) && second[0] == t && second[|second| - 1] == n;
    PathIsDeep(g, first);
    DeepJoin(g, first, second);
    var whole := first + second;
    assert whole[0] == annotation && whole[|whole| - 1] == n;
    assert DeeplyReachable(g, annotation, n);
  }

  lemma CarriesDeeply(g: Graph, annotation: nat, field: string)
    requires Carries(g, annotation, field)
    ensures DeeplyCarries(g, annotation, field)
  {
    var n :| 0 <= n < |g| && Reachable(g, annotation, n) && HasField(g[n], field);
    var path :| Path(g, path) && path[0] == annotation && path[|path| - 1] == n;
    PathIsDeep(g, path);
    assert DeeplyReachable(g, annotation, n);
  }

  /** A session field a value of the annotation can hold is found by the walk, or sits behind a
      field of a model the walk visits. */
  lemma DeepIff(g: Graph, annotation: nat, field: string)
    ensures DeeplyCarries(g, annotation, field) <==>
            Carries(g, annotation, field) || exists m, name :: Nests(g, annotation, m, name, field)
  {
    hide DeeplyCarries, Carries, Nests;
    if DeeplyCarries(g, annotation, field) && !Carries(g, annotation, field) {
      DeepSplits(g, annotation, field);
    }
    if Carries(g, annotation, field) {
      CarriesDeeply(g, annotation, field);
    }
    forall m, name | Nests(g, annotation, m, name, field)
      ensures DeeplyCarries(g, annotation, field)
    {
      NestingCarries(g, annotation, m, name, field);
    }
  }

  /** The walk finds every session field a value of the annotation can hold exactly when each
      one behind a field of a visited model is also carried by a visited model itself. */
  lemma WalkCompleteIff(g: Graph, annotation: nat)
    ensures (forall field :: DeeplyCarries(g, annotation, field) ==> Carries(g, annotation, field)) <==>
            (forall m, name, field :: Nests(g, annotation, m, name, field) ==> Carries(g, annotation, field))
  {
    hide DeeplyCarries, Carries, Nests;
    forall field { DeepIff(g, annotation, field); }
  }

  /** An argument for this parameter can hold a session, at any depth. */
  ghost predicate CanHoldSession(g: Graph, p: Parameter) {
    p.name == "session_id" || p.name == "session_ids" || (p.annotation.Some? && exists field :: DeeplyCarries(g, p.annotation.value, field))
  }

  /** A model the walk visits for this parameter has a field whose type can hold a session. */
  ghost predicate NestsSession(g: Graph, p: Parameter) {
    p.annotation.Some? && exists m, name, field :: Nests(g, p.annotation.value, m, name, field)
  }

  /** Which methods are forwarded although an argument of theirs can hold a session: exactly those
      of which no visited model carries one, and some visited model has a field that nests one. */
  lemma ForwardedUnboundIff(g: Graph, parameters: seq<Parameter>)
    ensures (forall i :: 0 <= i < |parameters| ==> !CarriesSession(g, parameters[i]))
            && (exists i :: 0 <= i < |parameters| && CanHoldSession(g, parameters[i]))
            <==>
            (forall i :: 0 <= i < |parameters| ==> !CarriesSession(g, parameters[i]))
            && (exists i :: 0 <= i < |parameters| && NestsSession(g, parameters[i]))
  {
    forall i | 0 <= i < |parameters|
      ensures CanHoldSession(g, parameters[i]) <==> CarriesSession(g, parameters[i]) || NestsSession(g, parameters[i])
    {
      HoldsIff(g, parameters[i]);
    }
    hide CanHoldSession, CarriesSession, NestsSession;
  }

  lemma HoldsIff(g: Graph, p: Parameter)
    ensures CanHoldSession(g, p) <==> CarriesSession(g, p) || NestsSession(g, p)
  {
    hide DeeplyCarries, Carries, Nests;
    if p.annotation.Some? {
      var t := p.annotation.value;
      forall field
        ensures DeeplyCarries(g, t, field) <==> Carries(g, t, field) || exists m, name :: Nests(g, t, m, name, field)
      {
        DeepIff(g, t, field);
      }
      if field :| DeeplyCarries(g, t, field) {
        assert Carries(g, t, field) || exists m, name :: Nests(g, t, m, name, field);
      }
      if m, name, field :| Nests(g, t, m, name, field) {
        assert DeeplyCarries(g, t, field);
      }
      if field :| Carries(g, t, field) {
        assert DeeplyCarries(g, t, field);
      }
    }
  }

  /** A request model with a nested model that has the session field. */
  const NESTED: Graph :=
    [TypeNode(Some(map["filters" := 1]), []), TypeNode(Some(map["session_id" := 2]), []), TypeNode(None, [])]

  lemma NestedHoldsSession()
    ensures Closed(NESTED) && DeeplyCarries(NESTED, 0, "session_id") && forall field :: !Carries(NESTED, 0, field)
  {
    assert Inside(NESTED[0], 1) by { assert NESTED[0].modelFields.value["filters"] == 1; }
    assert DeepPath(NESTED, [0, 1]) && [0, 1][0] == 0 && [0, 1][|[0, 1]| - 1] == 1;
    assert DeeplyReachable(NESTED, 0, 1) && HasField(NESTED[1], "session_id");
    forall n | 0 <= n < |NESTED| && Reachable(NESTED, 0, n)
      ensures n == 0
    {
      var path :| Path(NESTED, path) && path[0] == 0 && path[|path| - 1] == n;
      ClosedSetHoldsPath(NESTED, {0}, path);
    }
  }

  /** The fallback forwards a method whose request can hold a session one model down. */
  method ForwardsNested() returns (forwarded: Option<Attribute>)
    ensures forwarded == Some(Callable(Some([Parameter("request", Some(0))])))
    ensures CanHoldSession(NESTED, Parameter("request", Some(0)))
  {
    NestedHoldsSession();
    forwarded := GetAttr(NESTED, map["search_new" := Callable(Some([Parameter("request", Some(0))]))], "search_new");
  }
}
