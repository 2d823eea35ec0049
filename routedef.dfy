/** routedef.go: the built-in route node `RouteDef` and its middleware spec
    `MiddlewareDef`, their merge rules, middleware loading against the registry, and
    the emission of a `Route`. Each class has a value view (`Value()`) given by a
    datatype; the datatypes carry the specification functions the methods are proved
    against. */
module RouteDefs {
  import opened Wrappers
  import opened Strings
  import opened Sets
  import opened Routes

  /** The middleware-group index: group name to its resolved functions. */
  type Index = map<string, seq<Function>>

  /** Every function held by the index has the Middleware role. */
  predicate MiddlewareOnly(index: Index)
  {
    forall k :: k in index ==> AllMiddleware(index[k])
  }

  // ---------------------------------------------------------------- name classification

  /** routedef.go's `isRef`: a name starting with '$' refers to the group named by the rest. */
  function IsRef(s: string): (r: (string, bool))
    ensures r.1 <==> |s| > 0 && s[0] == '$'
    ensures r.1 ==> s == "$" + r.0
    ensures !r.1 ==> r.0 == ""
  {
    if |s| > 0 && s[0] == '$' then (s[1..], true) else ("", false)
  }

  /** routedef.go's `hasPackage`: the dot-separated pieces of the name, and whether there
      is more than one of them, which is exactly when the name contains a '.'. */
  function HasPackage(f: string): (r: (seq<string>, bool))
    ensures r.1 <==> '.' in f
    ensures |r.0| >= 1 && Join(r.0, '.') == f
    ensures forall i :: 0 <= i < |r.0| ==> '.' !in r.0[i]
  {
    SplitMany(f, '.');
    JoinSplit(f, '.');
    SplitPieces(f, '.');
    var s := Split(f, '.');
    (s, |s| > 1)
  }

  /** The examples of parse_test.go's TestIsRef. */
  lemma IsRefExamples()
    ensures IsRef("$ref") == ("ref", true)
    ensures !IsRef("notref").1
    ensures !IsRef("").1
  {
  }

  /** The registry name a middleware entry is looked up under: used as written when it
      already names a package, qualified with the spec's package otherwise. */
  function Qualified(pkg: string, f: string): string
  {
    if HasPackage(f).1 then f else pkg + "." + f
  }

  // ---------------------------------------------------------------- MiddlewareDef's value

  /** The fields of a `MiddlewareDef`. */
  datatype MiddlewareFields = MiddlewareFields(package: string, functions: seq<string>, exclude: seq<string>)
  {
    /** `MiddlewareDef.Merge`: drop the parent's excluded functions, put the child's list in
        front of the parent's survivors (`union`), drop the child's excluded functions,
        and inherit the parent's package only when the child has none. */
    function MergedWith(parent: MiddlewareFields): MiddlewareFields
    {
      MiddlewareFields(
        if |package| == 0 then parent.package else package,
        DifferenceOf(UnionOf(functions, DifferenceOf(parent.functions, parent.exclude)), exclude),
        exclude)
    }

    /** `MiddlewareDef.LoadFunctions`. */
    function Loaded(index: Option<Index>, reg: Table): Result<seq<Function>>
    {
      LoadAll(package, functions, index, reg)
    }
  }

  /** One entry of a middleware list. A `$ref` with an index expands to that group
      (to nothing when the group is unknown); any other entry is qualified and must be a
      registered Middleware. */
  function Resolve(pkg: string, f: string, index: Option<Index>, reg: Table): Result<seq<Function>>
  {
    var (ref, isRef) := IsRef(f);
    if isRef && index.Some? then
      Ok(if ref in index.value then index.value[ref] else [])
    else
      var name := Qualified(pkg, f);
      if name !in reg then Err("Function " + name + " has not been registered")
      else if reg[name].kind != Middleware then Err("Function " + name + " doesn't match middleware signature")
      else Ok([reg[name]])
  }

  /** The entries resolved in order and concatenated; the first failing entry is the result. */
  function LoadAll(pkg: string, fs: seq<string>, index: Option<Index>, reg: Table): Result<seq<Function>>
  {
    if fs == [] then Ok([])
    else
      match Resolve(pkg, fs[0], index, reg)
      case Err(e) => Err(e)
      case Ok(xs) => Prefixed(xs, LoadAll(pkg, fs[1..], index, reg))
  }

  /** Whether entry `f` is looked up in the registry rather than expanded from the index. */
  predicate LooksUp(f: string, index: Option<Index>)
  {
    !(IsRef(f).1 && index.Some?)
  }

  /** A looked-up entry that fails: not registered, or registered with another role. */
  predicate Unresolved(pkg: string, f: string, index: Option<Index>, reg: Table)
  {
    LooksUp(f, index) && (Qualified(pkg, f) !in reg || reg[Qualified(pkg, f)].kind != Middleware)
  }

  // ---------------------------------------------------------------- middleware laws

  /** The merged list holds exactly the functions that the child does not exclude and
      that the child lists or the parent lists without excluding; none of the child's
      exclusions survives. The package of the child wins unless it is empty. */
  lemma MiddlewareMergeMembers(child: MiddlewareFields, parent: MiddlewareFields)
    ensures forall x :: x in child.MergedWith(parent).functions <==>
      x !in child.exclude && (x in child.functions || (x in parent.functions && x !in parent.exclude))
    ensures forall x :: x in child.exclude ==> x !in child.MergedWith(parent).functions
    ensures child.MergedWith(parent).package == (if child.package == "" then parent.package else child.package)
  {
    var p := DifferenceOf(parent.functions, parent.exclude);
    DifferenceMembers(parent.functions, parent.exclude);
    UnionMembers(child.functions, p);
    DifferenceMembers(UnionOf(child.functions, p), child.exclude);
  }

  /** The merged list's order: the child's own surviving functions first, then the
      parent's surviving functions that the child did not already list, in parent order. */
  lemma MiddlewareMergeOrder(child: MiddlewareFields, parent: MiddlewareFields)
    ensures child.MergedWith(parent).functions ==
      Without(child.functions, Elems(child.exclude))
      + Without(parent.functions, Elems(parent.exclude) + Elems(child.functions) + Elems(child.exclude))
  {
    var p := DifferenceOf(parent.functions, parent.exclude);
    WithoutConcat(child.functions, Without(p, Elems(child.functions)), Elems(child.exclude));
    WithoutTwice(p, Elems(child.functions), Elems(child.exclude));
    WithoutTwice(parent.functions, Elems(parent.exclude), Elems(child.functions) + Elems(child.exclude));
    assert Elems(parent.exclude) + (Elems(child.functions) + Elems(child.exclude))
        == Elems(parent.exclude) + Elems(child.functions) + Elems(child.exclude);
  }

  /** A parent listing Auth and Log and excluding Log, under a child listing Trace,
      gives Trace then Auth: the child's list comes first. */
  lemma MiddlewareMergeExample()
    ensures MiddlewareFields("", ["Trace"], []).MergedWith(MiddlewareFields("", ["Auth", "Log"], ["Log"])).functions
      == ["Trace", "Auth"]
  {
    MiddlewareMergeOrder(MiddlewareFields("", ["Trace"], []), MiddlewareFields("", ["Auth", "Log"], ["Log"]));
    assert Elems(["Log"]) == {"Log"};
    assert Elems(["Trace"]) == {"Trace"};
    assert Elems([]) == {};
  }

  /** Loading fails exactly when some looked-up entry is unregistered or not a Middleware. */
  lemma {:induction false} LoadAllFails(pkg: string, fs: seq<string>, index: Option<Index>, reg: Table)
    ensures LoadAll(pkg, fs, index, reg).Err? <==> exists i :: 0 <= i < |fs| && Unresolved(pkg, fs[i], index, reg)
  {
    if fs != [] {
      LoadAllFails(pkg, fs[1..], index, reg);
      assert forall i :: 0 < i < |fs| ==> fs[i] == fs[1..][i - 1];
      if exists i :: 0 <= i < |fs[1..]| && Unresolved(pkg, fs[1..][i], index, reg) {
        var i :| 0 <= i < |fs[1..]| && Unresolved(pkg, fs[1..][i], index, reg);
        assert Unresolved(pkg, fs[i + 1], index, reg);
      }
    }
  }

  /** Without an index nothing is expanded: a successful load holds one registry entry per
      listed name, each the registered Middleware under its qualified name. */
  lemma {:induction false} LoadAllWithoutIndex(pkg: string, fs: seq<string>, reg: Table)
    ensures LoadAll(pkg, fs, None, reg).Ok? ==>
      var r := LoadAll(pkg, fs, None, reg).value;
      |r| == |fs| &&
      forall i :: 0 <= i < |fs| ==>
        Qualified(pkg, fs[i]) in reg && r[i] == reg[Qualified(pkg, fs[i])] && r[i].kind == Middleware
  {
    if fs != [] {
      LoadAllWithoutIndex(pkg, fs[1..], reg);
      if LoadAll(pkg, fs, None, reg).Ok? {
        var r := LoadAll(pkg, fs, None, reg).value;
        var rest := LoadAll(pkg, fs[1..], None, reg).value;
        assert r == [reg[Qualified(pkg, fs[0])]] + rest;
        forall i | 0 < i < |fs|
          ensures Qualified(pkg, fs[i]) in reg && r[i] == reg[Qualified(pkg, fs[i])]
        {
          assert fs[i] == fs[1..][i - 1] && r[i] == rest[i - 1];
        }
      }
    }
  }

  /** With an index that holds only Middleware functions, a successful load holds only
      Middleware functions. */
  lemma {:induction false} LoadAllMiddlewareOnly(pkg: string, fs: seq<string>, index: Option<Index>, reg: Table)
    requires index.Some? ==> MiddlewareOnly(index.value)
    ensures LoadAll(pkg, fs, index, reg).Ok? ==>
      forall i :: 0 <= i < |LoadAll(pkg, fs, index, reg).value| ==> LoadAll(pkg, fs, index, reg).value[i].kind == Middleware
  {
    if fs != [] {
      LoadAllMiddlewareOnly(pkg, fs[1..], index, reg);
      var head := Resolve(pkg, fs[0], index, reg);
      if head.Ok? && LoadAll(pkg, fs[1..], index, reg).Ok? {
        var xs := head.value;
        var rest := LoadAll(pkg, fs[1..], index, reg).value;
        assert forall i :: 0 <= i < |xs| ==> xs[i].kind == Middleware;
        assert LoadAll(pkg, fs, index, reg).value == xs + rest;
      }
    }
  }

  /** Loading two entries that each resolve concatenates their expansions. */
  lemma LoadPair(pkg: string, f: string, g: string, index: Option<Index>, reg: Table)
    requires Resolve(pkg, f, index, reg).Ok? && Resolve(pkg, g, index, reg).Ok?
    ensures LoadAll(pkg, [f, g], index, reg)
      == Ok(Resolve(pkg, f, index, reg).value + Resolve(pkg, g, index, reg).value)
  {
    var a, b := Resolve(pkg, f, index, reg).value, Resolve(pkg, g, index, reg).value;
    assert [f, g][1..] == [g];
    assert [g][1..] == [];
    assert LoadAll(pkg, [g], index, reg) == Prefixed(b, LoadAll(pkg, [], index, reg));
    assert b + [] == b;
    assert LoadAll(pkg, [g], index, reg) == Ok(b);
    assert LoadAll(pkg, [f, g], index, reg) == Prefixed(a, LoadAll(pkg, [g], index, reg));
  }

  /** A name without a package that is not a `$ref` is looked up under the spec's
      package. */
  lemma ResolvesInPackage(pkg: string, f: string, index: Option<Index>, reg: Table)
    requires '.' !in f && !IsRef(f).1
    requires pkg + "." + f in reg && reg[pkg + "." + f].kind == Middleware
    ensures Resolve(pkg, f, index, reg) == Ok([reg[pkg + "." + f]])
  {
  }

  /** The expansion example of routedef.go's comment: a group `api` resolved to
      mw.Validate and a list `$api, OtherMW` under package `other` give mw.Validate, then
      other.OtherMW; the group keeps its own package. */
  lemma LoadExample(validate: Function, other: Function, reg: Table)
    requires "other.OtherMW" in reg && reg["other.OtherMW"] == other && other.kind == Middleware
    ensures MiddlewareFields("other", ["$api", "OtherMW"], []).Loaded(Some(map["api" := [validate]]), reg)
      == Ok([validate, other])
  {
    var index := Some(map["api" := [validate]]);
    assert IsRef("$api") == ("api", true);
    assert Resolve("other", "$api", index, reg) == Ok([validate]);
    assert '.' !in "OtherMW" && "other" + "." + "OtherMW" == "other.OtherMW";
    ResolvesInPackage("other", "OtherMW", index, reg);
    LoadPair("other", "$api", "OtherMW", index, reg);
    assert [validate] + [other] == [validate, other];
    assert MiddlewareFields("other", ["$api", "OtherMW"], []).Loaded(index, reg)
      == LoadAll("other", ["$api", "OtherMW"], index, reg);
  }

  /** An unknown `$ref` expands to nothing rather than failing. */
  lemma UnknownRefExpandsToNothing(pkg: string, ref: string, index: Index, reg: Table)
    requires ref !in index
    ensures Resolve(pkg, "$" + ref, Some(index), reg) == Ok([])
  {
    assert IsRef("$" + ref).0 == ref;
  }

  // ---------------------------------------------------------------- RouteDef's value

  /** The fields of a `RouteDef` (its parent link and context are separate). */
  datatype RouteFields = RouteFields(
    methods: seq<string>,
    host: string,
    schemes: seq<string>,
    headers: seq<string>,
    queries: seq<string>,
    functionName: string,
    middlewares: MiddlewareFields,
    exclude: seq<string>,
    package: string,
    pattern: string)
  {
    /** `RouteDef.Merge` with the given parent and route segment. Only the six inherited
        fields and the pattern change; the middlewares are not merged. */
    function MergedWith(parent: RouteFields, segment: string): RouteFields
    {
      this.(
        methods := Inherit(methods, parent.methods),
        host := Inherit(host, parent.host),
        schemes := Inherit(schemes, parent.schemes),
        headers := Inherit(headers, parent.headers),
        queries := Inherit(queries, parent.queries),
        package := Inherit(package, parent.package),
        pattern := JoinPattern(parent.pattern, segment))
    }

    /** `ShouldBuild`: a node emits a route when it names a handler function. */
    predicate ShouldBuild()
    {
      |functionName| != 0
    }

    /** The registry name of the node's handler. */
    function HandlerName(): string
    {
      package + "." + functionName
    }

    /** `Build`. Failures are the source's panics: an unregistered handler, one
        registered under another package, or a loaded middleware that is not a
        middleware callable. Middleware loading errors are dropped (no middlewares). */
    function Built(index: Index, reg: Table): Result<seq<Route>>
    {
      var name := HandlerName();
      if name !in reg then Err("Function doesn't exist")
      else if reg[name].package != package then Err("Function doesn't exist in package")
      else
        var loaded := match middlewares.Loaded(Some(index), reg) { case Ok(fs) => fs case Err(_) => [] };
        if !AllMiddleware(loaded) then
          Err("interface conversion: not a middleware function")
        else
          Ok([Route(methods, pattern, host, schemes, queries, headers,
                    if reg[name].kind == Handler then Some(reg[name].func) else None,
                    Callables(loaded))])
    }
  }

  /** A field left empty on a node takes its parent's value. */
  function Inherit<T>(own: seq<T>, inherited: seq<T>): (r: seq<T>)
    ensures |own| == 0 ==> r == inherited
    ensures |own| != 0 ==> r == own
  {
    if |own| == 0 then inherited else own
  }

  /** The pattern rule of `RouteDef.Merge`. */
  function JoinPattern(parentPattern: string, segment: string): string
  {
    if |segment| == 0 then parentPattern
    else if parentPattern != "/" then parentPattern + segment
    else segment
  }

  /** Every entry has the Middleware role. */
  predicate AllMiddleware(fs: seq<Function>)
  {
    forall k :: 0 <= k < |fs| ==> fs[k].kind == Middleware
  }

  /** The loop of `RouteDef.Build` that asserts each loaded entry to a middleware
      callable: it succeeds exactly when every entry has the Middleware role. */
  method AsCallables(fs: seq<Function>) returns (ok: bool, mws: seq<FuncRef>)
    ensures ok <==> AllMiddleware(fs)
    ensures ok ==> mws == Callables(fs)
  {
    mws := [];
    var i := 0;
    while i < |fs|
      invariant 0 <= i <= |fs|
      invariant forall k :: 0 <= k < i ==> fs[k].kind == Middleware
      invariant mws == Callables(fs[..i])
    {
      if fs[i].kind != Middleware {
        return false, [];
      }
      assert fs[..i + 1][..i] == fs[..i];
      mws := mws + [fs[i].func];
      i := i + 1;
    }
    assert fs[..i] == fs;
    ok := true;
  }

  /** The callables of a list of registry entries, in order. */
  function Callables(fs: seq<Function>): (r: seq<FuncRef>)
    ensures |r| == |fs|
    ensures forall k :: 0 <= k < |fs| ==> r[k] == fs[k].func
  {
    if fs == [] then [] else Callables(fs[..|fs| - 1]) + [fs[|fs| - 1].func]
  }

  /** The empty node Go allocates as the root's parent (`&RouteDef{}`). */
  const EmptyRoute := RouteFields([], "", [], [], [], "", MiddlewareFields("", [], []), [], "", "")

  // ---------------------------------------------------------------- route laws

  /** Each of Methods, Host, Schemes, Headers, Queries and Package is kept when set and
      taken from the parent otherwise; Function, Middlewares and Exclude never change. */
  lemma RouteMergeFields(child: RouteFields, parent: RouteFields, segment: string)
    ensures var r := child.MergedWith(parent, segment);
      && r.methods == (if child.methods == [] then parent.methods else child.methods)
      && r.host == (if child.host == "" then parent.host else child.host)
      && r.schemes == (if child.schemes == [] then parent.schemes else child.schemes)
      && r.headers == (if child.headers == [] then parent.headers else child.headers)
      && r.queries == (if child.queries == [] then parent.queries else child.queries)
      && r.package == (if child.package == "" then parent.package else child.package)
      && r.functionName == child.functionName
      && r.middlewares == child.middlewares
      && r.exclude == child.exclude
  {
  }

  /** The pattern becomes the parent's with no segment, the segment under the root "/",
      and the parent's followed by the segment otherwise. */
  lemma RouteMergePattern(child: RouteFields, parent: RouteFields, segment: string)
    ensures segment == "" ==> child.MergedWith(parent, segment).pattern == parent.pattern
    ensures segment != "" && parent.pattern == "/" ==> child.MergedWith(parent, segment).pattern == segment
    ensures segment != "" && parent.pattern != "/" ==> child.MergedWith(parent, segment).pattern == parent.pattern + segment
    ensures JoinPattern("/api", "/teams") == "/api/teams" && JoinPattern("/", "/teams") == "/teams"
  {
  }

  /** The function name is never inherited, so merging never changes whether a node is
      built: a node without a function emits no route of its own, whatever its parent names. */
  lemma ShouldBuildNotInherited(child: RouteFields, parent: RouteFields, segment: string)
    ensures child.MergedWith(parent, segment).ShouldBuild() <==> child.ShouldBuild()
  {
  }

  /** Merging twice against the same parent and segment changes nothing more. */
  lemma RouteMergeIdempotent(child: RouteFields, parent: RouteFields, segment: string)
    ensures child.MergedWith(parent, segment).MergedWith(parent, segment) == child.MergedWith(parent, segment)
  {
  }

  /** A successful build emits exactly one route carrying the node's own fields; the
      handler is present exactly when the registered entry has the Handler role, so the
      role itself is never checked. The middlewares are the loaded callables, and a
      failing load is dropped: the route is still built, with no middlewares. */
  lemma BuiltRoute(node: RouteFields, index: Index, reg: Table)
    ensures node.Built(index, reg).Ok? ==>
      var rs := node.Built(index, reg).value;
      var fn := reg[node.HandlerName()];
      && |rs| == 1
      && rs[0].methods == node.methods && rs[0].pattern == node.pattern && rs[0].host == node.host
      && rs[0].schemes == node.schemes && rs[0].queries == node.queries && rs[0].headers == node.headers
      && (rs[0].handler.Some? <==> fn.kind == Handler)
      && (rs[0].handler.Some? ==> rs[0].handler.value == fn.func)
      && (node.middlewares.Loaded(Some(index), reg).Err? ==> rs[0].middleware == [])
      && (node.middlewares.Loaded(Some(index), reg).Ok? ==>
            rs[0].middleware == Callables(node.middlewares.Loaded(Some(index), reg).value))
  {
  }

  /** With an index of Middleware functions only, the build fails exactly when the
      handler name is unregistered or registered under another package. */
  lemma BuiltFails(node: RouteFields, index: Index, reg: Table)
    requires MiddlewareOnly(index)
    ensures node.Built(index, reg).Err? <==>
      node.HandlerName() !in reg || reg[node.HandlerName()].package != node.package
  {
    LoadAllMiddlewareOnly(node.middlewares.package, node.middlewares.functions, Some(index), reg);
  }

  // ---------------------------------------------------------------- the classes

  /** routedef.go's `MiddlewareDef`. */
  class MiddlewareDef {
    var package: string
    var functions: seq<string>
    var exclude: seq<string>

    /** What decoding the JSON object produces. */
    constructor (fields: MiddlewareFields)
      ensures Value() == fields
    {
      package := fields.package;
      functions := fields.functions;
      exclude := fields.exclude;
    }

    function Value(): MiddlewareFields
      reads this
    {
      MiddlewareFields(package, functions, exclude)
    }

    /** `MiddlewareDef.Merge`: always returns nil. */
    method Merge(parent: MiddlewareFields) returns (err: Option<string>)
      modifies this
      ensures err == None
      ensures Value() == old(Value()).MergedWith(parent)
    {
      var parentFunctions := Difference(parent.functions, parent.exclude);
      functions := Union(functions, parentFunctions);
      functions := Difference(functions, exclude);
      if |package| == 0 {
        package := parent.package;
      }
      err := None;
    }

    /** `MiddlewareDef.LoadFunctions`: on failure the list is empty and the error is set. */
    method LoadFunctions(index: Option<Index>, reg: Table) returns (funcs: seq<Function>, err: Option<string>)
      ensures Value().Loaded(index, reg).Ok? ==> funcs == Value().Loaded(index, reg).value && err == None
      ensures Value().Loaded(index, reg).Err? ==> funcs == [] && err == Some(Value().Loaded(index, reg).error)
    {
      funcs, err := [], None;
      var i := 0;
      assert functions[0..] == functions;
      assert Prefixed([], LoadAll(package, functions, index, reg)) == LoadAll(package, functions, index, reg) by {
        var r := LoadAll(package, functions, index, reg);
        if r.Ok? {
          assert [] + r.value == r.value;
        }
      }
      while i < |functions|
        invariant 0 <= i <= |functions|
        invariant Value().Loaded(index, reg) == Prefixed(funcs, LoadAll(package, functions[i..], index, reg))
      {
        var f := functions[i];
        assert functions[i..][1..] == functions[i + 1..];
        var (ref, isRef) := IsRef(f);
        if isRef && index.Some? {
          var mws := if ref in index.value then index.value[ref] else [];
          PrefixedTwice(funcs, mws, LoadAll(package, functions[i + 1..], index, reg));
          funcs := funcs + mws;
        } else {
          var funcName := f;
          if !HasPackage(f).1 {
            funcName := package + "." + f;
          }
          if funcName in reg {
            var fn := reg[funcName];
            if fn.kind != Middleware {
              return [], Some("Function " + funcName + " doesn't match middleware signature");
            }
            PrefixedTwice(funcs, [fn], LoadAll(package, functions[i + 1..], index, reg));
            funcs := funcs + [fn];
          } else {
            return [], Some("Function " + funcName + " has not been registered");
          }
        }
        i := i + 1;
      }
      assert funcs + [] == funcs;
    }
  }

  /** routedef.go's `RouteDef`. The parent link is set by the tree walker before `Merge`. */
  class RouteDef {
    var methods: seq<string>
    var host: string
    var schemes: seq<string>
    var headers: seq<string>
    var queries: seq<string>
    var functionName: string
    var middlewares: MiddlewareDef
    var exclude: seq<string>
    var package: string
    var pattern: string
    var parent: RouteDef?

    /** What decoding the JSON object produces; the parent is not yet linked. */
    constructor (fields: RouteFields)
      ensures Value() == fields && parent == null && fresh(middlewares)
    {
      methods := fields.methods;
      host := fields.host;
      schemes := fields.schemes;
      headers := fields.headers;
      queries := fields.queries;
      functionName := fields.functionName;
      middlewares := new MiddlewareDef(fields.middlewares);
      exclude := fields.exclude;
      package := fields.package;
      pattern := fields.pattern;
      parent := null;
    }

    function Value(): RouteFields
      reads this, middlewares
    {
      RouteFields(methods, host, schemes, headers, queries, functionName, middlewares.Value(), exclude, package, pattern)
    }

    /** `RouteDef.ShouldBuild`: a node is built exactly when it names a handler. */
    predicate ShouldBuild()
      reads this, middlewares
      ensures ShouldBuild() <==> |functionName| != 0
    {
      Value().ShouldBuild()
    }

    /** `RouteDef.Merge` against the linked parent, with the route segment the context
        holds ("" when it holds none). It always returns nil, and it leaves the parent
        link and the middlewares alone. */
    method Merge(segment: string) returns (err: Option<string>)
      requires parent != null
      modifies this
      ensures err == None
      ensures parent == old(parent) && middlewares == old(middlewares)
      ensures Value() == old(Value()).MergedWith(old(parent.Value()), segment)
    {
      var up := parent;
      var pm, ph, ps, phd, pq, ppk, ppt := up.methods, up.host, up.schemes, up.headers, up.queries, up.package, up.pattern;
      methods := Inherit(methods, pm);
      host := Inherit(host, ph);
      schemes := Inherit(schemes, ps);
      headers := Inherit(headers, phd);
      queries := Inherit(queries, pq);
      package := Inherit(package, ppk);
      pattern := JoinPattern(ppt, segment);
      err := None;
    }

    /** `RouteDef.Build` with the middleware-group index of the context. */
    method Build(index: Index, reg: Table) returns (r: Result<seq<Route>>)
      ensures r == Value().Built(index, reg)
    {
      ghost var v := Value();
      var handler: Option<FuncRef>;
      var funcName := package + "." + functionName;
      assert funcName == v.HandlerName();
      if funcName in reg {
        var fn := reg[funcName];
        if fn.package != package {
          return Err("Function doesn't exist in package");
        }
        handler := if fn.kind == Handler then Some(fn.func) else None;
      } else {
        return Err("Function doesn't exist");
      }
      var m, _ := middlewares.LoadFunctions(Some(index), reg);
      ghost var loaded := match middlewares.Value().Loaded(Some(index), reg) { case Ok(fs) => fs case Err(_) => [] };
      assert m == loaded;
      var ok, mws := AsCallables(m);
      if !ok {
        return Err("interface conversion: not a middleware function");
      }
      assert AllMiddleware(loaded);
      assert v.Built(index, reg) == Ok([Route(v.methods, v.pattern, v.host, v.schemes, v.queries, v.headers, handler, mws)]);
      r := Ok([Route(methods, pattern, host, schemes, queries, headers, handler, mws)]);
    }
  }
}
