/** parse.go: the tree walker. The decoded JSON document is walked from the `routes`
    object down: each object is decoded into a `RouteDef`, linked to its parent, merged,
    its route-named children are walked in member order, and the node itself is built last.
    The `middlewares` section is loaded first into the parser's context as a group
    index. Go's iteration order over a map is fixed here as the order of `members`. */
module Parsing {
  import opened Wrappers
  import opened Sets
  import opened Routes
  import opened RouteDefs

  // ---------------------------------------------------------------- the decoded document

  /** A JSON value as the walker sees it. An object carries what decoding its keys into
      the structs yields (`decoded` for a `RouteDef`, which shares `package` and `exclude`
      with a `MiddlewareDef`, plus the `functions` list a `MiddlewareDef` reads) and all
      of its keys with their values, in iteration order. Any other value is a `Scalar`.
      The keys of `members` are distinct in every document Go can produce, since they come
      from a Go map; the walk looks each route key up by its first occurrence. */
  datatype Json =
    | Object(decoded: RouteFields, functions: seq<string>, members: seq<(string, Json)>)
    | Scalar

  /** The top-level keys the parser consults. */
  datatype Document = Document(middlewares: Option<Json>, routes: Option<Json>)

  /** What `Parser.Parse` gives back: routes and an error, or a panic. */
  datatype Outcome = Outcome(routes: seq<Route>, err: Option<string>) | Panic(message: string)

  const IndexPanic := "runtime error: index out of range [0] with length 0"
  const MapAssertionPanic := "interface conversion: interface {} is not map[string]interface {}"
  const NotAnObjectPanic := "Route can't be recursed down"
  const NoRoutesPanic := "No routes defined"

  /** The keys and values of an object; a non-object reads as the nil map. */
  function MembersOf(v: Json): seq<(string, Json)>
  {
    if v.Object? then v.members else []
  }

  /** Decoding into a fresh `RouteDef`: a non-object leaves it zero. */
  function DecodeRoute(v: Json): RouteFields
  {
    if v.Object? then v.decoded else EmptyRoute
  }

  /** Decoding into a fresh `MiddlewareDef`: a non-object leaves it zero. */
  function DecodeGroup(v: Json): MiddlewareFields
  {
    if v.Object? then MiddlewareFields(v.decoded.package, v.functions, v.decoded.exclude)
    else MiddlewareFields("", [], [])
  }

  function Keys(ms: seq<(string, Json)>): (ks: seq<string>)
    ensures |ks| == |ms|
    ensures forall i :: 0 <= i < |ms| ==> ks[i] == ms[i].0
  {
    seq(|ms|, i requires 0 <= i < |ms| => ms[i].0)
  }

  /** The position of `key` among the members, `|ms|` when it is absent. */
  function FindKey(ms: seq<(string, Json)>, key: string): (i: nat)
    ensures i <= |ms|
    ensures i < |ms| ==> ms[i].0 == key
    ensures forall j :: 0 <= j < i ==> ms[j].0 != key
  {
    if ms == [] then 0
    else if ms[0].0 == key then 0
    else 1 + FindKey(ms[1..], key)
  }

  // ---------------------------------------------------------------- FilterRoutes

  /** The default `FilterRoutes`: the keys starting with '/', in order. Reading the first
      byte of an empty key panics. */
  function RouteKeys(keys: seq<string>): Result<seq<string>>
  {
    if keys == [] then Ok([])
    else if |keys[0]| == 0 then Err(IndexPanic)
    else Prefixed(if keys[0][0] == '/' then [keys[0]] else [], RouteKeys(keys[1..]))
  }

  /** Filtering succeeds exactly when no key is empty. */
  lemma {:induction false} RouteKeysFails(keys: seq<string>)
    ensures RouteKeys(keys).Ok? <==> forall i :: 0 <= i < |keys| ==> |keys[i]| > 0
  {
    if keys != [] {
      RouteKeysFails(keys[1..]);
      assert forall i :: 0 < i < |keys| ==> keys[i] == keys[1..][i - 1];
    }
  }

  /** A successful filter keeps exactly the keys that start with '/', and never more
      keys than it was given. */
  lemma {:induction false} RouteKeysKept(keys: seq<string>)
    ensures RouteKeys(keys).Ok? ==>
      && |RouteKeys(keys).value| <= |keys|
      && forall x :: x in RouteKeys(keys).value <==> x in keys && |x| > 0 && x[0] == '/'
  {
    if keys != [] && |keys[0]| > 0 {
      RouteKeysKept(keys[1..]);
      assert forall x :: x in keys <==> x == keys[0] || x in keys[1..];
    }
  }

  /** Filtering keeps the input order: it distributes over concatenation. */
  lemma {:induction false} RouteKeysConcat(a: seq<string>, b: seq<string>)
    requires RouteKeys(a).Ok? && RouteKeys(b).Ok?
    ensures RouteKeys(a + b) == Ok(RouteKeys(a).value + RouteKeys(b).value)
  {
    if a == [] {
      assert a + b == b && RouteKeys(a).value == [];
      assert [] + RouteKeys(b).value == RouteKeys(b).value;
    } else {
      assert |a[0]| > 0;
      assert (a + b)[0] == a[0] && (a + b)[1..] == a[1..] + b;
      RouteKeysConcat(a[1..], b);
      var head := if a[0][0] == '/' then [a[0]] else [];
      assert RouteKeys(a).value == head + RouteKeys(a[1..]).value;
      assert head + (RouteKeys(a[1..]).value + RouteKeys(b).value)
          == (head + RouteKeys(a[1..]).value) + RouteKeys(b).value;
    }
  }

  /** Attribute keys are dropped and route keys kept in order; an empty key panics. */
  lemma RouteKeysExample()
    ensures RouteKeys(["methods", "/teams", "function", "/users"]) == Ok(["/teams", "/users"])
    ensures RouteKeys(["function", ""]).Err?
  {
    assert ["methods", "/teams", "function", "/users"][1..] == ["/teams", "function", "/users"];
    assert ["/teams", "function", "/users"][1..] == ["function", "/users"];
    assert ["function", "/users"][1..] == ["/users"];
    assert ["/users"][1..] == [];
    assert RouteKeys([]) == Ok([]);
    assert "/users"[0] == '/' && "function"[0] != '/' && "/teams"[0] == '/' && "methods"[0] != '/';
    assert ["/users"] + [] == ["/users"] && [] + ["/users"] == ["/users"];
    assert ["/teams"] + ["/users"] == ["/teams", "/users"] && [] + ["/teams", "/users"] == ["/teams", "/users"];
    assert RouteKeys(["/users"]) == Ok(["/users"]);
    assert RouteKeys(["function", "/users"]) == Ok(["/users"]);
    assert RouteKeys(["/teams", "function", "/users"]) == Ok(["/teams", "/users"]);
    assert ["function", ""][1..] == [""];
  }

  /** The default `FilterRoutes` as a loop over the keys. */
  method FilterRoutes(keys: seq<string>) returns (r: Result<seq<string>>)
    ensures r == RouteKeys(keys)
  {
    var fkeys: seq<string> := [];
    var i := 0;
    assert keys[0..] == keys;
    assert Prefixed([], RouteKeys(keys)) == RouteKeys(keys) by {
      if RouteKeys(keys).Ok? {
        assert [] + RouteKeys(keys).value == RouteKeys(keys).value;
      }
    }
    while i < |keys|
      invariant 0 <= i <= |keys|
      invariant RouteKeys(keys) == Prefixed(fkeys, RouteKeys(keys[i..]))
    {
      var k := keys[i];
      assert keys[i..][1..] == keys[i + 1..];
      if |k| == 0 {
        return Err(IndexPanic);
      }
      var picked := if k[0] == '/' then [k] else [];
      PrefixedTwice(fkeys, picked, RouteKeys(keys[i + 1..]));
      fkeys := fkeys + picked;
      i := i + 1;
    }
    assert fkeys + [] == fkeys;
    r := Ok(fkeys);
  }

  /** The keys of an object, collected one by one in iteration order. */
  method CollectKeys(members: seq<(string, Json)>) returns (keys: seq<string>)
    ensures keys == Keys(members)
  {
    keys := [];
    var k := 0;
    while k < |members|
      invariant 0 <= k <= |members|
      invariant |keys| == k
      invariant forall j :: 0 <= j < k ==> keys[j] == members[j].0
    {
      keys := keys + [members[k].0];
      k := k + 1;
    }
  }

  // ---------------------------------------------------------------- the route walk

  /** `ParseRoute` on `node` under the merged `parent`, with `segment` the route key the
      context holds. A failure is a panic of the walk: an empty key, a route key whose
      value is not an object, or a failing build. The children's routes come first, in
      member order, and the node's own route last. */
  function NodeRoutes(node: Json, parent: RouteFields, segment: string, index: Index, reg: Table): Result<seq<Route>>
    decreases node, 1
  {
    match RouteKeys(Keys(MembersOf(node)))
    case Err(e) => Err(e)
    case Ok(names) =>
      var m := DecodeRoute(node).MergedWith(parent, segment);
      match ChildRoutes(node, names, m, index, reg)
      case Err(e) => Err(e)
      case Ok(routes) => if m.ShouldBuild() then Prefixed(routes, m.Built(index, reg)) else Ok(routes)
  }

  /** The children of `node` named by `names`, walked in order under the merged node `m`. */
  function ChildRoutes(node: Json, names: seq<string>, m: RouteFields, index: Index, reg: Table): Result<seq<Route>>
    decreases node, 0, |names|
  {
    if names == [] then Ok([])
    else
      var ms := MembersOf(node);
      var i := FindKey(ms, names[0]);
      if i == |ms| || !ms[i].1.Object? then Err(NotAnObjectPanic)
      else
        match NodeRoutes(ms[i].1, m, names[0], index, reg)
        case Err(e) => Err(e)
        case Ok(rs) => Prefixed(rs, ChildRoutes(node, names[1..], m, index, reg))
  }

  /** The route key the context holds after `ParseRoute` walked `node`, entered with
      `key`: every child visited sets its own key before its walk, and nothing resets
      it afterwards, so the last key set anywhere in the subtree is left behind. */
  function KeyAfter(node: Json, key: string): string
    decreases node, 1
  {
    match RouteKeys(Keys(MembersOf(node)))
    case Err(_) => key
    case Ok(names) => ChildKeyAfter(node, names, key)
  }

  /** The route key left after the children of `node` named by `names` were walked. */
  function ChildKeyAfter(node: Json, names: seq<string>, key: string): string
    decreases node, 0, |names|
  {
    if names == [] then key
    else
      var ms := MembersOf(node);
      var i := FindKey(ms, names[0]);
      if i == |ms| || !ms[i].1.Object? then key
      else ChildKeyAfter(node, names[1..], KeyAfter(ms[i].1, names[0]))
  }

  /** The route keys of an object (none when filtering panics). */
  function RouteNames(node: Json): seq<string>
  {
    match RouteKeys(Keys(MembersOf(node))) case Ok(names) => names case Err(_) => []
  }

  /** The number of nodes in the subtree reached through route keys that name a
      handler function. */
  function HandlerCount(node: Json): nat
    decreases node, 1
  {
    (if DecodeRoute(node).ShouldBuild() then 1 else 0) + ChildCount(node, RouteNames(node))
  }

  function ChildCount(node: Json, names: seq<string>): nat
    decreases node, 0, |names|
  {
    if names == [] then 0
    else
      var ms := MembersOf(node);
      var i := FindKey(ms, names[0]);
      (if i < |ms| then HandlerCount(ms[i].1) else 0) + ChildCount(node, names[1..])
  }

  /** A successful walk emits exactly one route per node of the subtree that names a
      handler function. */
  lemma {:induction false} NodeRoutesCount(node: Json, parent: RouteFields, segment: string, index: Index, reg: Table)
    ensures NodeRoutes(node, parent, segment, index, reg).Ok? ==>
      |NodeRoutes(node, parent, segment, index, reg).value| == HandlerCount(node)
    decreases node, 1
  {
    var m := DecodeRoute(node).MergedWith(parent, segment);
    if RouteKeys(Keys(MembersOf(node))).Ok? {
      var names := RouteKeys(Keys(MembersOf(node))).value;
      ChildRoutesCount(node, names, m, index, reg);
      if m.ShouldBuild() && ChildRoutes(node, names, m, index, reg).Ok? && m.Built(index, reg).Ok? {
        BuiltRoute(m, index, reg);
      }
    }
  }

  lemma {:induction false} ChildRoutesCount(node: Json, names: seq<string>, m: RouteFields, index: Index, reg: Table)
    ensures ChildRoutes(node, names, m, index, reg).Ok? ==>
      |ChildRoutes(node, names, m, index, reg).value| == ChildCount(node, names)
    decreases node, 0, |names|
  {
    if names != [] {
      var ms := MembersOf(node);
      var i := FindKey(ms, names[0]);
      if i < |ms| && ms[i].1.Object? {
        NodeRoutesCount(ms[i].1, m, names[0], index, reg);
        ChildRoutesCount(node, names[1..], m, index, reg);
      }
    }
  }

  /** When the node names a handler, a successful walk ends with the node's own route,
      which carries the merged fields: the pattern joins the parent's with the segment,
      and an empty field is taken from the parent. */
  lemma OwnRouteLast(node: Json, parent: RouteFields, segment: string, index: Index, reg: Table)
    requires DecodeRoute(node).ShouldBuild()
    requires NodeRoutes(node, parent, segment, index, reg).Ok?
    ensures var rs := NodeRoutes(node, parent, segment, index, reg).value;
      var own := DecodeRoute(node);
      && |rs| > 0
      && rs[|rs| - 1].pattern == JoinPattern(parent.pattern, segment)
      && rs[|rs| - 1].methods == Inherit(own.methods, parent.methods)
      && rs[|rs| - 1].host == Inherit(own.host, parent.host)
      && rs[|rs| - 1].schemes == Inherit(own.schemes, parent.schemes)
      && rs[|rs| - 1].headers == Inherit(own.headers, parent.headers)
      && rs[|rs| - 1].queries == Inherit(own.queries, parent.queries)
  {
    var m := DecodeRoute(node).MergedWith(parent, segment);
    var names := RouteKeys(Keys(MembersOf(node))).value;
    var routes := ChildRoutes(node, names, m, index, reg).value;
    BuiltRoute(m, index, reg);
    var built := m.Built(index, reg).value;
    assert NodeRoutes(node, parent, segment, index, reg).value == routes + built;
  }

  /** A node naming a handler that is not registered under its package makes the whole
      walk panic, whatever its children hold. */
  lemma UnregisteredHandlerPanics(node: Json, parent: RouteFields, segment: string, index: Index, reg: Table)
    requires DecodeRoute(node).ShouldBuild()
    requires DecodeRoute(node).MergedWith(parent, segment).HandlerName() !in reg
    ensures NodeRoutes(node, parent, segment, index, reg).Err?
  {
  }

  /** A node without route keys emits at most its own route, built from the merged
      fields. */
  lemma LeafRoutes(node: Json, parent: RouteFields, segment: string, index: Index, reg: Table)
    requires RouteKeys(Keys(MembersOf(node))) == Ok([])
    ensures var m := DecodeRoute(node).MergedWith(parent, segment);
      NodeRoutes(node, parent, segment, index, reg) == if m.ShouldBuild() then m.Built(index, reg) else Ok([])
  {
    var m := DecodeRoute(node).MergedWith(parent, segment);
    if m.ShouldBuild() && m.Built(index, reg).Ok? {
      assert [] + m.Built(index, reg).value == m.Built(index, reg).value;
    }
  }

  /** A route key among `names` whose value is missing or not an object makes the
      children's walk panic, whatever the keys before it yield. */
  lemma {:induction false} ChildNonObjectPanics(node: Json, names: seq<string>, m: RouteFields, index: Index, reg: Table, k: nat)
    requires k < |names|
    requires FindKey(MembersOf(node), names[k]) == |MembersOf(node)|
          || !MembersOf(node)[FindKey(MembersOf(node), names[k])].1.Object?
    ensures ChildRoutes(node, names, m, index, reg).Err?
    decreases k
  {
    if k > 0 {
      var ms := MembersOf(node);
      var i := FindKey(ms, names[0]);
      if i < |ms| && ms[i].1.Object? && NodeRoutes(ms[i].1, m, names[0], index, reg).Ok? {
        assert names[1..][k - 1] == names[k];
        ChildNonObjectPanics(node, names[1..], m, index, reg, k - 1);
      }
    }
  }

  /** A route key of `node` whose value is not an object aborts the walk of `node`. */
  lemma NonObjectChildPanics(node: Json, parent: RouteFields, segment: string, index: Index, reg: Table, name: string)
    requires RouteKeys(Keys(MembersOf(node))).Ok? && name in RouteKeys(Keys(MembersOf(node))).value
    requires FindKey(MembersOf(node), name) < |MembersOf(node)|
    requires !MembersOf(node)[FindKey(MembersOf(node), name)].1.Object?
    ensures NodeRoutes(node, parent, segment, index, reg).Err?
  {
    var names := RouteKeys(Keys(MembersOf(node))).value;
    var k :| 0 <= k < |names| && names[k] == name;
    ChildNonObjectPanics(node, names, DecodeRoute(node).MergedWith(parent, segment), index, reg, k);
  }

  /** A node whose only route key names an object child emits that child's routes and
      then its own. */
  lemma OneChildRoutes(node: Json, name: string, parent: RouteFields, segment: string, index: Index, reg: Table)
    requires RouteKeys(Keys(MembersOf(node))) == Ok([name])
    requires FindKey(MembersOf(node), name) < |MembersOf(node)|
    requires MembersOf(node)[FindKey(MembersOf(node), name)].1.Object?
    ensures var m := DecodeRoute(node).MergedWith(parent, segment);
      var child := NodeRoutes(MembersOf(node)[FindKey(MembersOf(node), name)].1, m, name, index, reg);
      NodeRoutes(node, parent, segment, index, reg)
        == match child
           case Err(e) => Err(e)
           case Ok(rs) => if m.ShouldBuild() then Prefixed(rs, m.Built(index, reg)) else Ok(rs)
  {
    var m := DecodeRoute(node).MergedWith(parent, segment);
    assert [name][1..] == [];
    var child := NodeRoutes(MembersOf(node)[FindKey(MembersOf(node), name)].1, m, name, index, reg);
    assert ChildRoutes(node, [], m, index, reg) == Ok([]);
    if child.Ok? {
      assert child.value + [] == child.value;
      assert ChildRoutes(node, [name], m, index, reg) == Ok(child.value);
    } else {
      assert ChildRoutes(node, [name], m, index, reg) == Err(child.error);
    }
  }

  /** A node listing no middlewares whose handler is registered under its package
      builds one route with no middlewares. */
  lemma BuiltWithoutMiddlewares(node: RouteFields, index: Index, reg: Table)
    requires node.middlewares.functions == []
    requires node.HandlerName() in reg && reg[node.HandlerName()].package == node.package
    ensures node.Built(index, reg).Ok? && |node.Built(index, reg).value| == 1
    ensures node.Built(index, reg).value[0].pattern == node.pattern
    ensures node.Built(index, reg).value[0].methods == node.methods
    ensures node.Built(index, reg).value[0].middleware == []
  {
    assert node.middlewares.Loaded(Some(index), reg) == Ok([]);
  }

  /** The example tree: a root naming package `api` holds `/teams` (methods GET,
      handler ListTeams), which holds `/:id` (handler GetTeam). Attribute keys sit
      beside the route keys. */
  const ExampleId := Object(EmptyRoute.(functionName := "GetTeam"), [], [("function", Scalar)])
  const ExampleTeams := Object(EmptyRoute.(methods := ["GET"], functionName := "ListTeams"), [],
                               [("methods", Scalar), ("function", Scalar), ("/:id", ExampleId)])
  const ExampleRoot := Object(EmptyRoute.(package := "api"), [], [("package", Scalar), ("/teams", ExampleTeams)])

  /** `pkg.name` is registered, under package `pkg`. */
  predicate RegisteredIn(reg: Table, pkg: string, name: string)
  {
    pkg + "." + name in reg && reg[pkg + "." + name].package == pkg
  }

  /** A registry in which both handlers of the example are registered under `api`. */
  predicate ExampleRegistry(reg: Table)
  {
    RegisteredIn(reg, "api", "ListTeams") && RegisteredIn(reg, "api", "GetTeam")
  }

  /** `/:id` under `/teams` emits `/teams/:id`, inheriting GET. */
  lemma ExampleIdRoutes(parent: RouteFields, index: Index, reg: Table)
    requires ExampleRegistry(reg)
    requires parent.package == "api" && parent.pattern == "/teams" && parent.methods == ["GET"]
    ensures var r := NodeRoutes(ExampleId, parent, "/:id", index, reg);
      r.Ok? && |r.value| == 1 && r.value[0].pattern == "/teams/:id" && r.value[0].methods == ["GET"]
  {
    var m := DecodeRoute(ExampleId).MergedWith(parent, "/:id");
    assert m.package == "api" && m.pattern == "/teams/:id" && m.methods == ["GET"];
    assert Keys(ExampleId.members) == ["function"];
    assert RouteKeys(["function"]) == Ok([]) by {
      assert ["function"][1..] == [];
      assert "function"[0] != '/' && RouteKeys([]) == Ok([]);
      var none: seq<string> := [];
      assert none + none == none;
    }
    assert m.functionName == "GetTeam";
    BuiltWithoutMiddlewares(m, index, reg);
    LeafRoutes(ExampleId, parent, "/:id", index, reg);
  }

  /** The only route key of `/teams` is `/:id`, its third member. */
  lemma ExampleTeamsKeys()
    ensures RouteKeys(Keys(ExampleTeams.members)) == Ok(["/:id"])
    ensures FindKey(ExampleTeams.members, "/:id") == 2
  {
    assert Keys(ExampleTeams.members) == ["methods", "function", "/:id"];
    assert RouteKeys(["methods", "function", "/:id"]) == Ok(["/:id"]) by {
      assert ["methods", "function", "/:id"][1..] == ["function", "/:id"];
      assert ["function", "/:id"][1..] == ["/:id"];
      assert ["/:id"][1..] == [];
      assert "methods"[0] != '/' && "function"[0] != '/' && "/:id"[0] == '/';
      assert ["/:id"] + [] == ["/:id"] && [] + ["/:id"] == ["/:id"];
    }
    assert FindKey(ExampleTeams.members, "/:id") == 2;
  }

  /** `/teams` under the root emits `/teams/:id` and then `/teams`. */
  lemma ExampleTeamsRoutes(parent: RouteFields, index: Index, reg: Table)
    requires ExampleRegistry(reg)
    requires parent.package == "api" && parent.pattern == ""
    ensures var r := NodeRoutes(ExampleTeams, parent, "/teams", index, reg);
      && r.Ok? && |r.value| == 2
      && r.value[0].pattern == "/teams/:id" && r.value[0].methods == ["GET"]
      && r.value[1].pattern == "/teams" && r.value[1].methods == ["GET"]
  {
    var m := DecodeRoute(ExampleTeams).MergedWith(parent, "/teams");
    assert m.package == "api" && m.pattern == "/teams" && m.methods == ["GET"];
    ExampleTeamsKeys();
    ExampleIdRoutes(m, index, reg);
    assert m.functionName == "ListTeams";
    BuiltWithoutMiddlewares(m, index, reg);
    OneChildRoutes(ExampleTeams, "/:id", parent, "/teams", index, reg);
    var child := NodeRoutes(ExampleId, m, "/:id", index, reg).value;
    var own := m.Built(index, reg).value;
    assert NodeRoutes(ExampleTeams, parent, "/teams", index, reg) == Ok(child + own);
  }

  /** The whole parse of the example: two routes, the child first, no error. */
  lemma WalkExample(reg: Table)
    requires ExampleRegistry(reg)
    ensures var o := ParseOutcome(Document(None, Some(ExampleRoot)), None, "", map[], reg);
      && o.Outcome? && o.err == None && |o.routes| == 2
      && o.routes[0].pattern == "/teams/:id" && o.routes[0].methods == ["GET"]
      && o.routes[1].pattern == "/teams" && o.routes[1].methods == ["GET"]
  {
    var m := DecodeRoute(ExampleRoot).MergedWith(EmptyRoute, "");
    assert m.package == "api" && m.pattern == "" && !m.ShouldBuild();
    assert Keys(ExampleRoot.members) == ["package", "/teams"];
    assert RouteKeys(["package", "/teams"]) == Ok(["/teams"]) by {
      assert ["package", "/teams"][1..] == ["/teams"];
      assert ["/teams"][1..] == [];
      assert "package"[0] != '/' && "/teams"[0] == '/';
      assert ["/teams"] + [] == ["/teams"] && [] + ["/teams"] == ["/teams"];
    }
    assert FindKey(ExampleRoot.members, "/teams") == 1;
    ExampleTeamsRoutes(m, map[], reg);
    OneChildRoutes(ExampleRoot, "/teams", EmptyRoute, "", map[], reg);
  }

  /** A second example tree, `{"routes": {"package": "api", "/teams": {"function":
      "ListTeams"}}}`: a root naming package `api` holds `/teams` (handler ListTeams). */
  const ExampleLeaf := Object(EmptyRoute.(functionName := "ListTeams"), [], [("function", Scalar)])
  const ExampleSmall := Object(EmptyRoute.(package := "api"), [], [("package", Scalar), ("/teams", ExampleLeaf)])

  /** Parsing the small example with route key `key` in the context: one route, whose
      pattern is `/teams` joined under the root's pattern, and the root's pattern is
      `key` joined under the empty one. */
  lemma ExampleSmallRoutes(key: string, reg: Table)
    requires RegisteredIn(reg, "api", "ListTeams")
    ensures var o := ParseOutcome(Document(None, Some(ExampleSmall)), None, key, map[], reg);
      && o.Outcome? && |o.routes| == 1
      && o.routes[0].pattern == JoinPattern(JoinPattern("", key), "/teams")
    ensures KeyAfter(ExampleSmall, key) == "/teams"
  {
    var m := DecodeRoute(ExampleSmall).MergedWith(EmptyRoute, key);
    assert m.package == "api" && m.pattern == JoinPattern("", key) && !m.ShouldBuild();
    assert Keys(ExampleSmall.members) == ["package", "/teams"];
    assert RouteKeys(["package", "/teams"]) == Ok(["/teams"]) by {
      assert ["package", "/teams"][1..] == ["/teams"];
      assert ["/teams"][1..] == [];
      assert "package"[0] != '/' && "/teams"[0] == '/';
      assert ["/teams"] + [] == ["/teams"] && [] + ["/teams"] == ["/teams"];
    }
    assert FindKey(ExampleSmall.members, "/teams") == 1;
    var c := DecodeRoute(ExampleLeaf).MergedWith(m, "/teams");
    assert c.package == "api" && c.functionName == "ListTeams";
    assert Keys(ExampleLeaf.members) == ["function"];
    assert RouteKeys(["function"]) == Ok([]) by {
      assert ["function"][1..] == [];
      assert "function"[0] != '/' && RouteKeys([]) == Ok([]);
      var none: seq<string> := [];
      assert none + none == none;
    }
    BuiltWithoutMiddlewares(c, map[], reg);
    LeafRoutes(ExampleLeaf, m, "/teams", map[], reg);
    OneChildRoutes(ExampleSmall, "/teams", EmptyRoute, key, map[], reg);
    assert KeyAfter(ExampleLeaf, "/teams") == ChildKeyAfter(ExampleLeaf, [], "/teams") == "/teams";
    assert ChildKeyAfter(ExampleSmall, ["/teams"], key) == ChildKeyAfter(ExampleSmall, [], "/teams");
  }

  /** The route key a parse leaves behind is the next parse's root segment: on a fresh
      parser the small example yields `/teams` and leaves `/teams` in the context, so
      parsing it again with the same parser yields `/teams/teams`. */
  lemma ReusedParserExample(reg: Table)
    requires RegisteredIn(reg, "api", "ListTeams")
    ensures var first := ParseOutcome(Document(None, Some(ExampleSmall)), None, "", map[], reg);
      first.Outcome? && |first.routes| == 1 && first.routes[0].pattern == "/teams"
    ensures KeyAfter(ExampleSmall, "") == "/teams"
    ensures var again := ParseOutcome(Document(None, Some(ExampleSmall)), None, "/teams", map[], reg);
      again.Outcome? && |again.routes| == 1 && again.routes[0].pattern == "/teams/teams"
  {
    ExampleSmallRoutes("", reg);
    ExampleSmallRoutes("/teams", reg);
    assert JoinPattern("", "") == "" && JoinPattern("", "/teams") == "/teams";
    assert JoinPattern("/teams", "/teams") == "/teams/teams";
  }

  // ---------------------------------------------------------------- the middleware section

  /** A group's functions, loaded without an index so that `$ref`s are looked up as
      plain names; a loading error leaves the group empty. */
  function GroupFunctions(v: Json, reg: Table): seq<Function>
  {
    match DecodeGroup(v).Loaded(None, reg) case Ok(fs) => fs case Err(_) => []
  }

  /** The groups stored one after the other; a later group of the same name wins. */
  function GroupIndex(gs: seq<(string, Json)>, index: Index, reg: Table): Index
  {
    if gs == [] then index
    else GroupIndex(gs[1..], index[gs[0].0 := GroupFunctions(gs[0].1, reg)], reg)
  }

  /** `ParseMiddlewares`: no section leaves the index alone; a section that is not an
      object panics. */
  function MiddlewareIndex(section: Option<Json>, index: Index, reg: Table): Result<Index>
  {
    match section
    case None => Ok(index)
    case Some(Scalar) => Err(MapAssertionPanic)
    case Some(Object(_, _, gs)) => Ok(GroupIndex(gs, index, reg))
  }

  /** A group holds only registered Middleware functions: none when loading failed,
      and otherwise the registry entry of each listed name, in order. */
  lemma GroupFunctionsMiddleware(v: Json, reg: Table)
    ensures AllMiddleware(GroupFunctions(v, reg))
    ensures DecodeGroup(v).Loaded(None, reg).Err? ==> GroupFunctions(v, reg) == []
    ensures DecodeGroup(v).Loaded(None, reg).Ok? ==>
      var g := DecodeGroup(v);
      && |GroupFunctions(v, reg)| == |g.functions|
      && forall i :: 0 <= i < |g.functions| ==>
           Qualified(g.package, g.functions[i]) in reg && GroupFunctions(v, reg)[i] == reg[Qualified(g.package, g.functions[i])]
  {
    var g := DecodeGroup(v);
    LoadAllWithoutIndex(g.package, g.functions, reg);
  }

  /** A `$ref` inside a group is not expanded: it is looked up in the registry under a
      qualified name, so when that name is unregistered the whole group is empty,
      whatever else it lists. */
  lemma GroupRefNotExpanded(v: Json, ref: string, reg: Table)
    requires v.Object? && "$" + ref in v.functions
    requires Qualified(v.decoded.package, "$" + ref) !in reg
    ensures GroupFunctions(v, reg) == []
  {
    var g := DecodeGroup(v);
    var i :| 0 <= i < |g.functions| && g.functions[i] == "$" + ref;
    assert Unresolved(g.package, g.functions[i], None, reg);
    LoadAllFails(g.package, g.functions, None, reg);
  }

  /** The groups' names are added to the index, every other entry is kept or replaced,
      and an index of Middleware functions stays one. */
  lemma {:induction false} GroupIndexSpec(gs: seq<(string, Json)>, index: Index, reg: Table)
    ensures forall k :: k in GroupIndex(gs, index, reg) <==> k in index || k in Keys(gs)
    ensures forall k :: k in index && k !in Keys(gs) ==> GroupIndex(gs, index, reg)[k] == index[k]
    ensures MiddlewareOnly(index) ==> MiddlewareOnly(GroupIndex(gs, index, reg))
  {
    if gs != [] {
      var next := index[gs[0].0 := GroupFunctions(gs[0].1, reg)];
      GroupFunctionsMiddleware(gs[0].1, reg);
      GroupIndexSpec(gs[1..], next, reg);
      assert forall k :: k in Keys(gs) <==> k == gs[0].0 || k in Keys(gs[1..]) by {
        assert forall i :: 0 < i < |gs| ==> gs[i] == gs[1..][i - 1];
        assert Keys(gs) == [gs[0].0] + Keys(gs[1..]);
      }
    }
  }

  /** The value stored under a group's name is that group's loaded functions, unless a
      later group of the same name replaces it. */
  lemma {:induction false} GroupIndexValue(gs: seq<(string, Json)>, index: Index, reg: Table, i: nat)
    requires i < |gs|
    requires forall j :: i < j < |gs| ==> gs[j].0 != gs[i].0
    ensures gs[i].0 in GroupIndex(gs, index, reg)
    ensures GroupIndex(gs, index, reg)[gs[i].0] == GroupFunctions(gs[i].1, reg)
  {
    var next := index[gs[0].0 := GroupFunctions(gs[0].1, reg)];
    if i == 0 {
      GroupIndexSpec(gs[1..], next, reg);
      assert gs[0].0 !in Keys(gs[1..]) by {
        forall j | 0 <= j < |gs[1..]| ensures Keys(gs[1..])[j] != gs[0].0 {
          assert gs[1..][j] == gs[j + 1];
        }
      }
    } else {
      assert gs[1..][i - 1] == gs[i];
      forall j | i - 1 < j < |gs[1..]| ensures gs[1..][j].0 != gs[1..][i - 1].0 {
        assert gs[1..][j] == gs[j + 1];
      }
      GroupIndexValue(gs[1..], next, reg, i - 1);
    }
  }

  // ---------------------------------------------------------------- the whole parse

  /** `ParseRoutes`: the root object is walked under an empty parent, a non-object reading
      as the nil map; a document without routes panics. */
  function RootRoutes(routes: Option<Json>, segment: string, index: Index, reg: Table): Result<seq<Route>>
  {
    match routes
    case None => Err(NoRoutesPanic)
    case Some(v) => NodeRoutes(v, EmptyRoute, segment, index, reg)
  }

  /** `Parser.Parse` with the validator's verdict and the parser's context (the route
      key it holds and its group index). */
  function ParseOutcome(doc: Document, verdict: Option<string>, route: string, index: Index, reg: Table): Outcome
  {
    if verdict.Some? then Outcome([], verdict)
    else
      match MiddlewareIndex(doc.middlewares, index, reg)
      case Err(e) => Panic(e)
      case Ok(idx) =>
        match RootRoutes(doc.routes, route, idx, reg)
        case Err(e) => Panic(e)
        case Ok(rs) => Outcome(rs, None)
  }

  /** A rejected document yields no routes and the validator's error, whatever it holds. */
  lemma RejectedDocument(doc: Document, e: string, route: string, index: Index, reg: Table)
    ensures ParseOutcome(doc, Some(e), route, index, reg) == Outcome([], Some(e))
  {
  }

  /** A parse that does not panic never reports an error: errors come only from the
      validator, and the routes are one per handler-naming node under the root. */
  lemma ParseOutcomeShape(doc: Document, route: string, index: Index, reg: Table)
    ensures var o := ParseOutcome(doc, None, route, index, reg);
      o.Outcome? ==> o.err == None && doc.routes.Some? && |o.routes| == HandlerCount(doc.routes.value)
    ensures doc.routes.None? ==> ParseOutcome(doc, None, route, index, reg).Panic?
  {
    match MiddlewareIndex(doc.middlewares, index, reg)
    case Err(_) =>
    case Ok(idx) =>
      if doc.routes.Some? {
        NodeRoutesCount(doc.routes.value, EmptyRoute, route, idx, reg);
      }
  }

  /** With a context index of Middleware functions only, a walk panics on a build only
      for a handler that is unregistered or registered under another package. */
  lemma BuildsUnderGroupIndex(doc: Document, index: Index, reg: Table, node: RouteFields)
    requires MiddlewareOnly(index)
    requires MiddlewareIndex(doc.middlewares, index, reg).Ok?
    ensures MiddlewareOnly(MiddlewareIndex(doc.middlewares, index, reg).value)
    ensures node.Built(MiddlewareIndex(doc.middlewares, index, reg).value, reg).Err? <==>
      node.HandlerName() !in reg || reg[node.HandlerName()].package != node.package
  {
    if doc.middlewares.Some? {
      GroupIndexSpec(doc.middlewares.value.members, index, reg);
    }
    BuiltFails(node, MiddlewareIndex(doc.middlewares, index, reg).value, reg);
  }

  // ---------------------------------------------------------------- the parser

  /** parse.go's `Parser` with the default `NewRoute`, `FilterRoutes` and the validator's
      verdict given as a value. Its context is the route key and the group index. */
  class Parser {
    var route: string
    var middlewares: Index

    constructor (route: string, middlewares: Index)
      ensures this.route == route && this.middlewares == middlewares
    {
      this.route := route;
      this.middlewares := middlewares;
    }

    /** `Parser.ParseMiddlewares`: each group is decoded, loaded without an index, and
        stored under its name; a panic leaves the context alone. */
    method ParseMiddlewares(section: Option<Json>, reg: Table) returns (panic: Option<string>)
      modifies this
      ensures route == old(route)
      ensures panic.None? <==> MiddlewareIndex(section, old(middlewares), reg).Ok?
      ensures panic.None? ==> middlewares == MiddlewareIndex(section, old(middlewares), reg).value
      ensures panic.Some? ==>
        panic.value == MiddlewareIndex(section, old(middlewares), reg).error && middlewares == old(middlewares)
    {
      if section.None? {
        return None;
      }
      var tree := section.value;
      if tree.Scalar? {
        return Some(MapAssertionPanic);
      }
      var groups := tree.members;
      var i := 0;
      assert groups[0..] == groups;
      while i < |groups|
        invariant 0 <= i <= |groups|
        invariant route == old(route)
        invariant GroupIndex(groups, old(middlewares), reg) == GroupIndex(groups[i..], middlewares, reg)
      {
        var (key, val) := groups[i];
        assert groups[i..][1..] == groups[i + 1..];
        var fns := new MiddlewareDef(DecodeGroup(val));
        var functions, _ := fns.LoadFunctions(None, reg);
        middlewares := middlewares[key := functions];
        i := i + 1;
      }
      panic := None;
    }

    /** `Parser.ParseRoute` on `node` under the merged `parent`; the node's segment is
        the route key the context holds, set by the caller. A walk that succeeds
        leaves behind the last key it set. */
    method ParseRoute(node: Json, parent: RouteDef, reg: Table) returns (r: Result<seq<Route>>)
      modifies this
      ensures r == NodeRoutes(node, parent.Value(), old(route), old(middlewares), reg)
      ensures middlewares == old(middlewares)
      ensures r.Ok? ==> route == KeyAfter(node, old(route))
      decreases node, 1
    {
      var members := MembersOf(node);
      var keys := CollectKeys(members);
      var filtered := FilterRoutes(keys);
      if filtered.Err? {
        return Err(filtered.error);
      }
      var routeNames := filtered.value;

      var m := new RouteDef(DecodeRoute(node));
      m.parent := parent;
      var _ := m.Merge(route);
      ghost var merged := m.Value();
      assert merged == DecodeRoute(node).MergedWith(parent.Value(), route);

      var routes := ParseChildren(node, routeNames, m, reg);
      if routes.Err? {
        return routes;
      }
      if m.ShouldBuild() {
        var built := m.Build(middlewares, reg);
        if built.Err? {
          return Err(built.error);
        }
        r := Ok(routes.value + built.value);
      } else {
        r := routes;
      }
    }

    /** The loop of `Parser.ParseRoute` over the route keys of `node`: each child's key
        is set in the context, the child is walked under the merged node `m`, and the
        routes are appended in order. */
    method ParseChildren(node: Json, names: seq<string>, m: RouteDef, reg: Table) returns (r: Result<seq<Route>>)
      modifies this
      ensures r == ChildRoutes(node, names, m.Value(), old(middlewares), reg)
      ensures middlewares == old(middlewares)
      ensures r.Ok? ==> route == ChildKeyAfter(node, names, old(route))
      decreases node, 0
    {
      var members := MembersOf(node);
      ghost var merged := m.Value();
      var routes: seq<Route> := [];
      var j := 0;
      assert names[0..] == names;
      assert Prefixed([], ChildRoutes(node, names, merged, middlewares, reg))
          == ChildRoutes(node, names, merged, middlewares, reg) by {
        var c := ChildRoutes(node, names, merged, middlewares, reg);
        if c.Ok? {
          assert [] + c.value == c.value;
        }
      }
      while j < |names|
        invariant 0 <= j <= |names|
        invariant m.Value() == merged
        invariant middlewares == old(middlewares)
        invariant ChildRoutes(node, names, merged, middlewares, reg)
          == Prefixed(routes, ChildRoutes(node, names[j..], merged, middlewares, reg))
        invariant ChildKeyAfter(node, names, old(route)) == ChildKeyAfter(node, names[j..], route)
      {
        var name := names[j];
        assert names[j..][0] == name && names[j..][1..] == names[j + 1..];
        var i := FindKey(members, name);
        if i == |members| || !members[i].1.Object? {
          return Err(NotAnObjectPanic);
        }
        route := name;
        var nroutes := ParseRoute(members[i].1, m, reg);
        if nroutes.Err? {
          return Err(nroutes.error);
        }
        PrefixedTwice(routes, nroutes.value, ChildRoutes(node, names[j + 1..], merged, middlewares, reg));
        routes := routes + nroutes.value;
        j := j + 1;
      }
      assert names[j..] == [];
      assert routes + [] == routes;
      r := Ok(routes);
    }

    /** `Parser.ParseRoutes`: the root is walked under a fresh empty `RouteDef`, with
        whatever route key the context holds as its segment. */
    method ParseRoutes(routes: Option<Json>, reg: Table) returns (r: Result<seq<Route>>)
      modifies this
      ensures r == RootRoutes(routes, old(route), old(middlewares), reg)
      ensures middlewares == old(middlewares)
      ensures routes.None? ==> route == old(route)
      ensures routes.Some? && r.Ok? ==> route == KeyAfter(routes.value, old(route))
    {
      if routes.None? {
        return Err(NoRoutesPanic);
      }
      var root := new RouteDef(EmptyRoute);
      r := ParseRoute(routes.value, root, reg);
    }

    /** `Parser.Parse`: validate, load the middleware section into the context, walk the
        routes. The context keeps the loaded groups unless validation failed or the
        section panicked, and a walk that succeeds leaves its last route key behind for
        the next parse with this parser. */
    method Parse(doc: Document, verdict: Option<string>, reg: Table) returns (o: Outcome)
      modifies this
      ensures o == ParseOutcome(doc, verdict, old(route), old(middlewares), reg)
      ensures verdict.Some? || MiddlewareIndex(doc.middlewares, old(middlewares), reg).Err? || doc.routes.None?
        ==> route == old(route)
      ensures o.Outcome? && verdict.None? && doc.routes.Some? ==> route == KeyAfter(doc.routes.value, old(route))
      ensures middlewares ==
        if verdict.None? && MiddlewareIndex(doc.middlewares, old(middlewares), reg).Ok?
        then MiddlewareIndex(doc.middlewares, old(middlewares), reg).value
        else old(middlewares)
    {
      if verdict.Some? {
        return Outcome([], verdict);
      }
      var panic := ParseMiddlewares(doc.middlewares, reg);
      if panic.Some? {
        return Panic(panic.value);
      }
      var r := ParseRoutes(doc.routes, reg);
      if r.Err? {
        return Panic(r.error);
      }
      o := Outcome(r.value, None);
    }
  }

  /** parse.go's `Parse`: the default parser with a fresh context holding an empty group
      index and no route key. */
  method Parse(doc: Document, verdict: Option<string>, reg: Table) returns (o: Outcome)
    ensures o == ParseOutcome(doc, verdict, "", map[], reg)
  {
    var p := new Parser("", map[]);
    o := p.Parse(doc, verdict, reg);
  }
}
