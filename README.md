# leif route-tree compiler, modelled in Dafny

This project models the route-tree compiler of the Go package `leif`. A JSON definition document holds a `routes` tree whose keys starting with `/` are URL path segments. It optionally holds a `middlewares` section of named middleware groups. The compiler does the following:

- It walks the tree from the root.
- It decodes each object into a `RouteDef` node.
- It merges the node with its parent. Empty fields are inherited, and the pattern is the parent's pattern joined with the segment.
- It walks the route-keyed children in the order of the object's members. That is Go's map iteration order, which the model takes as part of its input.
- It builds the node itself last. Every node that names a handler function becomes one `Route`: the handler and middleware names are resolved against a process-wide registry of callables, and `$group` references are expanded from the group index.

The model has six modules, one per source file plus two helpers:

- `Wrappers` (wrappers.dfy) holds `Option`, `Result` and the `Prefixed` accumulator used by the loop invariants.
- `Strings` (strings.dfy) holds Go's `strings.Split` and its inverse `Join`.
- `Sets` (set.dfy), from set.go, holds `union` and `difference` as loops over a lookup map, each proved equal to a specification function (`UnionOf`, `DifferenceOf`), and then the laws the tests state.
- `Routes` (route.go) holds the `Route` and `function` records, the `FuncType` roles, and the registry. The registry is a class whose `register` writes into its `entries` map.
- `RouteDefs` (routedef.go) holds two classes:
  - `MiddlewareDef` has `Merge`, which runs a difference, a union and a difference, and `LoadFunctions`.
  - `RouteDef` has `Merge` and `Build`.

  Each class has a value view (`Value()`) given by a datatype (`MiddlewareFields`, `RouteFields`). The datatype carries the specification functions (`MergedWith`, `Loaded`, `Built`) that the methods are proved against. `isRef`, `hasPackage` and `ShouldBuild` are pure functions.
- `Parsing` (parse.go) holds the decoded document (`Json`, `Document`) and the default `FilterRoutes`. It also holds the recursive walk, specified by `NodeRoutes`/`ChildRoutes`, and the middleware section, specified by `GroupIndex`/`MiddlewareIndex`. The class `Parser` holds the parser's context (the route key and the group index) and the methods `ParseMiddlewares`, `ParseRoute`, `ParseChildren`, `ParseRoutes` and `Parse`. The module also has the package-level `Parse`.

The model represents the Go program as follows:

- **Panics.** Every Go panic on the walk is an `Err(message)` of the walk. `Parse` returns `Outcome(routes, err)` or `Panic(message)`.
- **Registry.** The walk reads a snapshot of the registry (`reg: Table`).
- **Validation.** `Validate` is replaced by its verdict, an `Option<string>` parameter.
- **Context.** Go's shared `Context` map is replaced by the parser's two fields, `route` (the route key) and `middlewares` (the group index). The walk sets `route` before each child, as parse.go:128 does, and each node reads it as its segment. The specification functions take the key as a `segment` parameter. `applyContext` is not needed, and Go's `linkParent` reflection is replaced by assigning the `parent` field.
- **Callables.** Callables are opaque references (`FuncRef`). The qualified name Go gets from `runtime.FuncForPC` is an explicit argument of `Register`.
- **Loops.** Three loops sit in their own methods: `CollectKeys` and `Parser.ParseChildren` for the key-collecting and children loops of `ParseRoute`, and `AsCallables` for the middleware conversion loop of `Build`. The loops behave as in the Go code; only the proofs are split, to keep each one small.

## Where the code departs from the package's stated intent

The model follows the code in each case.

- **Emission order.** Routes are emitted children first, then the node's own route (post-order): parse.go:123-140 appends the children's routes before the build result. The package's stated intent is parent-first emission. `OwnRouteLast` and `WalkExample` state the code's order.
- **Middleware merge order.** `MiddlewareDef.Merge` puts the child's own functions first. Parent `["Auth","Log"]` excluding `Log`, under a child `["Trace"]`, gives `["Trace","Auth"]` (`MiddlewareMergeExample`). The package's stated intent for this example is `["Auth","Trace"]`.
- **Deduplication in `union`.** `union` only looks up `a`'s elements, so a name repeated in `b` and missing from `a` is appended each time (`UnionKeepsRepeats`). The package's stated intent is a deduplicating union. The merge rules in the comment at routedef.go:90-94 also call it a union. Associativity still holds as sequences (`UnionAssociative`).
- **Middleware inheritance.** `RouteDef.Merge` never calls `MiddlewareDef.Merge`, so routes do not inherit middlewares from their ancestors (`RouteMergeFields`: `middlewares` is unchanged).
- **Group references.** `ParseMiddlewares` loads each group without an index, so a `$ref` inside a group is looked up as a plain qualified name (`GroupRefNotExpanded`).
- **Handler role.** `Build` never checks that the handler entry has the Handler role. A Middleware entry yields a route without a handler (`BuiltRoute`).
- **Dropped load errors in groups.** `ParseMiddlewares` discards the error of a group's `LoadFunctions` (parse.go:73), so a group with an unregistered name is stored empty rather than reported (`GroupFunctionsMiddleware`, `GroupIndexValue`). The package's stated intent is that an unregistered middleware is an error. The comment at routedef.go:119-121 also takes group functions as already checked for registration.
- **Dropped load errors in Build.** `Build` discards the error of its middleware load (routedef.go:202), so the route is still built, with no middlewares (`BuiltRoute`).
- **Unknown group references.** A `$ref` to a group missing from the index expands to nothing (routedef.go:152-153, `UnknownRefExpandsToNothing`). The package's stated intent is that an unknown reference is an error.
- **Reusing a parser.** The route key of the last child visited stays in a parser's context after a walk (parse.go:128), and the next `Parser.Parse` on that parser reads it as the root's segment (routedef.go:74-84). Parsing `{"routes":{"package":"api","/teams":{"function":"ListTeams"}}}` twice on one parser yields `/teams`, then `/teams/teams` (`ReusedParserExample`). The package-level `Parse` starts from a fresh context each time, so it is not affected.

## Model

| member | source | states |
|---|---|---|
| Sets.Union | set.go:4-16 | The loop returns exactly `UnionOf(a, b)`: `a` unchanged, then the elements of `b` that do not occur in `a`, in `b`'s order. |
| Sets.Difference | set.go:19-31 | The loop returns exactly `DifferenceOf(a, b)`: the elements of `a` that do not occur in `b`, in `a`'s order. |
| Sets.UnionPrefix | set.go:4-16 | `a` is an unchanged prefix of `union(a, b)`, and the rest is `b` with `a`'s elements removed. |
| Sets.UnionMembers | parse_test.go:72-92 | `x` is in `union(a, b)` exactly when it is in `a` or in `b`. |
| Sets.UnionAssociative | parse_test.go:64-70 | `union(a, union(b, c)) == union(union(a, b), c)` as sequences. |
| Sets.UnionAbsorbs | parse_test.go:49-52 | When every element of `b` is in `a`, `union(a, b) == a`. |
| Sets.UnionEmptyLeft | parse_test.go:44-47 | `union([], b) == b` for every `b`. |
| Sets.UnionExamples | parse_test.go:34-42 | `union(["a","b","c"], ["b","d"])` and `union(["a","b"], ["c","d"])` are both `["a","b","c","d"]`. |
| Sets.UnionEdgeExamples | parse_test.go:44-52 | `union([], ["b","d"])` and `union(["b","d"], ["b","d"])` are `["b","d"]`. |
| Sets.UnionKeepsRepeats | set.go:4-16 | A name of `a` occurs in `union(a, b)` exactly as often as in `a`. A name absent from `a` occurs exactly as often as in `b`, so each repeat in `b` is appended. |
| Sets.DifferenceMembers | set.go:19-31 | `x` is in `difference(a, b)` exactly when it is in `a` and not in `b`. |
| Sets.DifferenceShape | set.go:26-30 | The difference is no longer than `a`, distributes over concatenation of `a` (order is kept), and `difference(a, []) == a`. |
| Strings.JoinSplit | routedef.go:239 | Joining the pieces of Go's `strings.Split` with the separator gives back the string. |
| Strings.SplitMany | routedef.go:239-244 | `strings.Split` yields more than one piece exactly when the separator occurs. |
| Strings.SplitPieces | route.go:59 | No piece of `strings.Split` contains the separator. |
| Routes.Entry | route.go:57-66 | The stored entry's `Package` is the text before the first '.', its `Name` the next dot-free piece that follows it, and role and callable are the arguments. |
| Routes.StoredLastWins | route.go:45-66 | After registering a sequence, a name's entry is the one built from its last occurrence, with the given role. |
| Routes.StoredOthers | route.go:60 | Registering leaves every name not among the arguments as it was, present or absent. |
| Routes.Registry.constructor | route.go:40-42 | The registry starts empty. |
| Routes.Registry.Register | route.go:57-66 | A name containing '.' is stored exactly once under the full name, overwriting any earlier entry, and nothing else changes; a name without '.' panics before storing and leaves the registry unchanged. |
| Routes.Registry.RegisterAll | route.go:45-55 | The arguments are registered in order under one role until the first name without '.'. The new registry is `Stored` of the old one with the arguments that were stored. |
| Routes.Registry.RegisterHandler | route.go:45-49 | Every argument is stored in order with role Handler (until a name panics). |
| Routes.Registry.RegisterMiddleware | route.go:51-55 | Every argument is stored in order with role Middleware (until a name panics). |
| RouteDefs.IsRef | routedef.go:226-233 | A name is a ref exactly when it starts with '$'. The ref is the rest of the name, and a non-ref yields `""`. |
| RouteDefs.IsRefExamples | parse_test.go:10-28 | `isRef("$ref") == ("ref", true)`, and `"notref"` and `""` are not refs. |
| RouteDefs.HasPackage | routedef.go:238-245 | The flag holds exactly when the name contains '.'. The pieces contain no '.', and joined with '.' they give back the name. |
| RouteDefs.MiddlewareDef.constructor | routedef.go:43-47 | A fresh `MiddlewareDef` holds the decoded package, functions and exclusions. |
| RouteDefs.MiddlewareDef.Merge | routedef.go:99-107 | Returns nil; the new value is `MergedWith(parent)`, computed by the difference, union and difference loops. |
| RouteDefs.MiddlewareMergeMembers | routedef.go:99-105 | A function survives exactly when the child does not exclude it and the child lists it or the parent lists it without excluding it. No child exclusion survives, and the package is inherited only when the child's is empty. |
| RouteDefs.MiddlewareMergeOrder | routedef.go:99-102 | The merged list is the child's surviving functions in order, then the parent's surviving functions that the child did not list, in parent order. |
| RouteDefs.MiddlewareMergeExample | routedef.go:90-102 | Parent `["Auth","Log"]` excluding `Log`, under child `["Trace"]`, merges to `["Trace","Auth"]`. |
| RouteDefs.MiddlewareDef.LoadFunctions | routedef.go:145-176 | The loop returns the list `Loaded(index, reg)` specifies with no error, or, when that fails, an empty list and its error message. |
| RouteDefs.LoadAllFails | routedef.go:157-173 | Loading fails exactly when some entry that is looked up is unregistered or registered with a non-Middleware role. |
| RouteDefs.LoadAllWithoutIndex | routedef.go:151-174 | Without an index, a successful load holds one entry per listed name: the registered Middleware under its qualified name. |
| RouteDefs.LoadAllMiddlewareOnly | routedef.go:148-175 | With an index holding only Middleware functions, a successful load holds only Middleware functions. |
| RouteDefs.LoadPair | routedef.go:148-175 | Two entries that each resolve load as the concatenation of their expansions, in order. |
| RouteDefs.ResolvesInPackage | routedef.go:157-169 | A name that has no '.' and is not a ref is looked up as `package + "." + name`. |
| RouteDefs.LoadExample | routedef.go:123-137 | Group `api` = [mw.Validate] and list `["$api","OtherMW"]` in package `other` load as mw.Validate then other.OtherMW. |
| RouteDefs.UnknownRefExpandsToNothing | routedef.go:151-154 | A `$ref` to an unknown group expands to nothing rather than failing. |
| RouteDefs.RouteMergeFields | routedef.go:50-69 | Methods, Host, Schemes, Headers, Queries and Package are kept when non-empty and taken from the parent otherwise. Function, Middlewares and Exclude never change. |
| RouteDefs.RouteMergePattern | routedef.go:74-85 | The pattern is the parent's with no segment, the segment under a parent pattern `"/"`, and parent pattern + segment otherwise. |
| RouteDefs.RouteMergeIdempotent | routedef.go:50-88 | Merging again against the same parent and segment changes nothing. |
| RouteDefs.RouteDef.constructor | routedef.go:19-36 | A fresh `RouteDef` holds the decoded fields, with no parent linked and its own `MiddlewareDef`. |
| RouteDefs.RouteDef.ShouldBuild | routedef.go:181-183 | A node is built exactly when its function name is non-empty. The walk emits the node's own route under exactly this condition (`LeafRoutes`, `NodeRoutesCount`, `OwnRouteLast`). |
| RouteDefs.ShouldBuildNotInherited | routedef.go:50-69 | The function name is not inherited, so a merged node is built exactly when its own definition names a function. |
| RouteDefs.RouteDef.Merge | routedef.go:50-88 | Returns nil, leaves the parent link and the middlewares alone, and the new value is `MergedWith(parent, segment)`. |
| RouteDefs.AsCallables | routedef.go:203-206 | The conversion loop succeeds exactly when every loaded entry has the Middleware role, and then yields their callables in order. |
| RouteDefs.RouteDef.Build | routedef.go:185-222 | Returns exactly `Built(index, reg)`. That is one of: the "Function doesn't exist" panic; the "Function doesn't exist in package" panic; the panic for a loaded non-middleware; or one route with the node's fields. |
| RouteDefs.BuiltRoute | routedef.go:185-221 | A successful build is one route with the node's Methods, Pattern, Host, Schemes, Queries and Headers. Its handler is present exactly when the registered entry has the Handler role. Its middlewares are the callables of the loaded list, or none when the load failed. |
| RouteDefs.BuiltFails | routedef.go:188-197 | With a Middleware-only index, the build fails exactly when `Package.Function` is unregistered or registered under another package. |
| Parsing.RouteKeysFails | parse.go:31-39 | The default filter succeeds exactly when no key is empty (reading the first byte of an empty key panics). |
| Parsing.RouteKeysKept | parse.go:31-39 | A successful filter keeps exactly the keys starting with '/', never more than it was given. |
| Parsing.RouteKeysConcat | parse.go:31-39 | Filtering keeps input order: filtering `a + b` gives the filtered `a` followed by the filtered `b`. |
| Parsing.RouteKeysExample | parse.go:31-39 | `["methods","/teams","function","/users"]` filters to `["/teams","/users"]`, and a list holding `""` panics. |
| Parsing.FilterRoutes | parse.go:31-39 | The loop returns exactly `RouteKeys(keys)`. |
| Parsing.CollectKeys | parse.go:96-99 | The keys are collected in iteration order. |
| Parsing.Parser.constructor | parse.go:11-16 | The parser starts with the given route key and group index. |
| Parsing.Parser.ParseMiddlewares | parse.go:68-79 | With no section the index is unchanged. A non-object section panics and leaves the context alone. Otherwise the index becomes `GroupIndex` of the groups. |
| Parsing.GroupFunctionsMiddleware | parse.go:71-75 | A group holds only Middleware functions. It holds none when loading failed. Otherwise it holds one entry per listed name, in order: the registry entry under the name's qualified form. |
| Parsing.GroupRefNotExpanded | parse.go:73 | A `$ref` anywhere in a group's list is looked up as a qualified name, so an unregistered one leaves the whole group empty. |
| Parsing.GroupIndexSpec | parse.go:68-79 | The index gains the group names and keeps every other entry, and a Middleware-only index stays Middleware-only. |
| Parsing.GroupIndexValue | parse.go:70-75 | A group's name maps to that group's functions loaded without an index, or to none when loading failed, unless a later group of the same name replaces it. |
| Parsing.Parser.ParseRoute | parse.go:93-145 | Returns exactly `NodeRoutes` with the context's route key as the segment: the filter panic, or the merged node's children's routes in member order (Go's map iteration order, fixed as an input) followed by its own build. The group index is unchanged, and a successful walk leaves the key `KeyAfter` names. |
| Parsing.Parser.ParseChildren | parse.go:123-132 | Returns exactly `ChildRoutes`. Each child's key is set in the context, and the child is walked under the merged node. A key whose value is not an object panics. A successful loop leaves the key `ChildKeyAfter` names. |
| Parsing.NodeRoutesCount | parse.go:134-140 | A successful walk emits exactly one route per node of the subtree (reached through route keys) that names a function. |
| Parsing.ChildRoutesCount | parse.go:123-132 | The children's routes number exactly the handler-naming nodes beneath them. |
| Parsing.OwnRouteLast | parse.go:123-140 | A node naming a function ends its routes with its own route. That route's pattern joins the parent's with the segment, and its empty fields are inherited. |
| Parsing.ChildNonObjectPanics | parse.go:124-126 | A route key among the children whose value is missing or not an object makes the children's walk panic, whatever the keys before it yield. |
| Parsing.NonObjectChildPanics | parse.go:123-132 | A route key of a node whose value is not an object aborts the walk of that node. |
| Parsing.UnregisteredHandlerPanics | parse.go:134-143 | A node naming an unregistered handler makes the walk panic, whatever its children hold. |
| Parsing.LeafRoutes | parse.go:134-144 | A node without route keys emits only its own build, or nothing. |
| Parsing.OneChildRoutes | parse.go:123-144 | A node with one object child emits the child's routes, then its own. |
| Parsing.BuiltWithoutMiddlewares | routedef.go:199-221 | A node listing no middlewares with a properly registered handler builds one route with no middlewares. |
| Parsing.ExampleTeamsKeys | parse.go:96-100 | The only route key of the example's `/teams` node is `/:id`. |
| Parsing.ExampleIdRoutes | parse.go:93-145 | `/:id` under `/teams` emits `/teams/:id`, inheriting GET. |
| Parsing.ExampleTeamsRoutes | parse.go:93-145 | `/teams` emits `/teams/:id` and then `/teams`. |
| Parsing.WalkExample | parse.go:50-64 | The whole example parses to two routes, `/teams/:id` then `/teams`, both with GET and no error. |
| Parsing.ExampleSmallRoutes | parse.go:93-145 | A one-child example parsed with any route key `k` in the context yields one route, `/teams` joined under `k`, and leaves `/teams` as the key. |
| Parsing.ReusedParserExample | parse.go:124-131 | On a fresh parser the example yields `/teams` and leaves `/teams` behind; parsing it again from that context yields `/teams/teams`. |
| Parsing.Parser.ParseRoutes | parse.go:81-90 | Returns exactly `RootRoutes` for the old route key. Missing routes panic and leave the key alone. Otherwise the root is walked under an empty `RouteDef`, a non-object reading as the empty map, and a successful walk leaves the key `KeyAfter` names. |
| Parsing.Parser.Parse | parse.go:50-64 | Returns exactly `ParseOutcome` for the old context. Afterwards the context holds the loaded groups unless validation failed or the section panicked. The route key is unchanged when no walk ran, and after a successful walk it is the last key the walk set. |
| Parsing.RejectedDocument | parse.go:54-57 | A validation error yields no routes and that error. |
| Parsing.ParseOutcomeShape | parse.go:59-63 | A parse that does not panic reports no error and emits one route per handler-naming node. A document without routes panics. |
| Parsing.BuildsUnderGroupIndex | parse.go:59-63 | After a Middleware-only context loads the section, the index is still Middleware-only, so a build fails only for an unregistered or misplaced handler. |
| Parsing.Parse | parse.go:44-48 | The default parse is `ParseOutcome` with a fresh context: no route key and an empty group index. |

## Left out

- JSON decoding (`json.Unmarshal`, `mapstructure.Decode`) is not modelled. A `Json` object carries the values decoding would produce, and a non-object decodes to the zero struct. Decode errors and the panic on them (parse.go:106-109) are out of scope.
- The reflection in `linkParent` and `applyContext` and in `runtime.FuncForPC` is not modelled. The parent link is a field assignment, the context is the parser's `route` and `middlewares` fields (passed to the specification functions as parameters), and the qualified name is an argument. `linkParent` never fails, so its panic (parse.go:112-115) is left out.
- Parsing.Parser.ParseRoute: leaves the route key unstated after a walk that panics. Go's panic unwinds out of `Parser.Parse` in that case, so there is no outcome that could read it.
- Parsing.Parser.ParseChildren: leaves the route key unstated after a loop that panics, for the same reason.
- Parsing.Parser.ParseRoutes: leaves the route key unstated after a walk that panics, for the same reason.
- Parsing.Parser.Parse: leaves the route key unstated when the walk panics, for the same reason.
- A `Parser` whose context lacks a `"middlewares"` entry is not modelled. Its type assertions would panic (parse.go:74, routedef.go:201); the model's context always holds an index.
- Custom `NewRoute`, `FilterRoutes` and `Validate` callbacks are not modelled. Only the defaults are. Validation is reduced to its verdict, because validate.go wraps a JSON-schema library and a schema table that are not part of this model.
- The "Doesn't implement buildable interface" panic (parse.go:142) is left out, because `RouteDef` always implements `Buildable`. build.go is folded into `ShouldBuild`/`Build`.
- The texts of Go runtime panics (an index out of range, a failed interface conversion) are approximated.
- `fmt.Println` debug output, builder/mux.go (a gorilla/mux adapter) and route_test.go (reads a file) are left out.
- Go's map iteration order is fixed as the order of `members`. Go's `append` aliasing of `union`'s argument is not modelled; value semantics is used instead.
- Concurrency is left out as a whole. That covers concurrent registration into the global registry, and concurrent package-level `Parse` calls, which all write the default parser's shared context (parse.go:45-47).
