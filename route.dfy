/** route.go: the output record `Route`, the registry record `function`, the role
    `FuncType`, and the process-wide registry that `register` fills. The callables
    themselves are opaque references; the qualified name that Go derives from the
    callable by reflection (`runtime.FuncForPC`) is passed in explicitly. */
module Routes {
  import opened Wrappers
  import opened Strings

  /** The role a callable is registered under (Handler = 0, Middleware = 1 in the source). */
  datatype FuncType = Handler | Middleware

  /** An opaque reference to a registered callable. */
  datatype FuncRef = FuncRef(id: nat)

  /** A registry entry: the package and name split from the qualified name, the role, the callable. */
  datatype Function = Function(package: string, name: string, kind: FuncType, func: FuncRef)

  /** A finished route descriptor. `handler` is None where Go holds a nil HandlerFunc. */
  datatype Route = Route(
    methods: seq<string>,
    pattern: string,
    host: string,
    schemes: seq<string>,
    queries: seq<string>,
    headers: seq<string>,
    handler: Option<FuncRef>,
    middleware: seq<FuncRef>)

  /** The registry's contents: qualified name to entry. */
  type Table = map<string, Function>

  /** The entry `register` stores for a qualified name: `Package` is the text before the
      first '.', `Name` the next dot-separated piece, and role and callable are the arguments. */
  function Entry(kind: FuncType, name: string, fn: FuncRef): (e: Function)
    requires '.' in name
    ensures e.kind == kind && e.func == fn
    ensures '.' !in e.package && '.' !in e.name
    ensures |e.package| + 1 + |e.name| <= |name|
    ensures name[..|e.package| + 1 + |e.name|] == e.package + "." + e.name
    ensures |e.package| + 1 + |e.name| < |name| ==> name[|e.package| + 1 + |e.name|] == '.'
  {
    SplitMany(name, '.');
    SplitPieces(name, '.');
    JoinSplit(name, '.');
    var parts := Split(name, '.');
    JoinFirstTwo(parts, '.');
    assert parts[0] in parts && parts[1] in parts;
    Function(parts[0], parts[1], kind, fn)
  }

  /** The registry after storing `fns` one after the other under role `kind`. */
  function Stored(table: Table, kind: FuncType, fns: seq<(string, FuncRef)>): Table
    requires forall i :: 0 <= i < |fns| ==> '.' in fns[i].0
  {
    if fns == [] then table
    else
      var last := fns[|fns| - 1];
      Stored(table, kind, fns[..|fns| - 1])[last.0 := Entry(kind, last.0, last.1)]
  }

  /** Last write wins: a name's entry comes from its last occurrence among the arguments. */
  lemma {:induction false} StoredLastWins(table: Table, kind: FuncType, fns: seq<(string, FuncRef)>, i: nat)
    requires forall j :: 0 <= j < |fns| ==> '.' in fns[j].0
    requires i < |fns|
    requires forall j :: i < j < |fns| ==> fns[j].0 != fns[i].0
    ensures fns[i].0 in Stored(table, kind, fns)
    ensures Stored(table, kind, fns)[fns[i].0] == Entry(kind, fns[i].0, fns[i].1)
    ensures Stored(table, kind, fns)[fns[i].0].kind == kind
  {
    if i < |fns| - 1 {
      var init := fns[..|fns| - 1];
      assert init[i] == fns[i];
      StoredLastWins(table, kind, init, i);
    }
  }

  /** Names that are not among the arguments keep their entry, or their absence. */
  lemma {:induction false} StoredOthers(table: Table, kind: FuncType, fns: seq<(string, FuncRef)>, name: string)
    requires forall j :: 0 <= j < |fns| ==> '.' in fns[j].0
    requires forall j :: 0 <= j < |fns| ==> fns[j].0 != name
    ensures name in Stored(table, kind, fns) <==> name in table
    ensures name in table ==> Stored(table, kind, fns)[name] == table[name]
  {
    if fns != [] {
      StoredOthers(table, kind, fns[..|fns| - 1], name);
    }
  }

  /** The process-wide registry. `init` creates it empty; `register` writes into it. */
  class Registry {
    var entries: Table

    /** route.go's `init`: the registry starts empty. */
    constructor ()
      ensures entries == map[]
    {
      entries := map[];
    }

    /** route.go's `register`. Go indexes the second piece of the split name before it
        stores anything, so a name without '.' panics and leaves the registry as it was. */
    method Register(kind: FuncType, name: string, fn: FuncRef) returns (ok: bool)
      modifies this
      ensures ok <==> '.' in name
      ensures ok ==> entries == old(entries)[name := Entry(kind, name, fn)]
      ensures !ok ==> entries == old(entries)
    {
      SplitMany(name, '.');
      var s := Split(name, '.');
      if |s| < 2 {
        return false;
      }
      entries := entries[name := Function(s[0], s[1], kind, fn)];
      ok := true;
    }

    /** Calls `Register` for each argument in order under `kind`; `stored` is how many it
        stored before a name without '.' panicked (all of them when none does). */
    method RegisterAll(kind: FuncType, fns: seq<(string, FuncRef)>) returns (stored: nat)
      modifies this
      ensures stored <= |fns|
      ensures forall j :: 0 <= j < stored ==> '.' in fns[j].0
      ensures stored < |fns| ==> '.' !in fns[stored].0
      ensures entries == Stored(old(entries), kind, fns[..stored])
    {
      stored := 0;
      while stored < |fns|
        invariant stored <= |fns|
        invariant forall j :: 0 <= j < stored ==> '.' in fns[j].0
        invariant entries == Stored(old(entries), kind, fns[..stored])
      {
        var ok := Register(kind, fns[stored].0, fns[stored].1);
        if !ok {
          return;
        }
        assert fns[..stored + 1][..stored] == fns[..stored];
        stored := stored + 1;
      }
    }

    /** route.go's `RegisterHandler`: every argument stored with role Handler, in order. */
    method RegisterHandler(fns: seq<(string, FuncRef)>) returns (stored: nat)
      modifies this
      ensures stored <= |fns|
      ensures forall j :: 0 <= j < stored ==> '.' in fns[j].0
      ensures stored < |fns| ==> '.' !in fns[stored].0
      ensures entries == Stored(old(entries), Handler, fns[..stored])
    {
      stored := RegisterAll(Handler, fns);
    }

    /** route.go's `RegisterMiddleware`: every argument stored with role Middleware, in order. */
    method RegisterMiddleware(fns: seq<(string, FuncRef)>) returns (stored: nat)
      modifies this
      ensures stored <= |fns|
      ensures forall j :: 0 <= j < stored ==> '.' in fns[j].0
      ensures stored < |fns| ==> '.' !in fns[stored].0
      ensures entries == Stored(old(entries), Middleware, fns[..stored])
    {
      stored := RegisterAll(Middleware, fns);
    }
  }
}
