/** Resolving label and value queries against an object: `pkg/resolver`. */
module Resolver {
  import opened Labelset
  import opened Text

  /** A Go value inside an object or a CEL result. `Int` and `Int64` are different
      Go types, and only the first passes the resolvers' type switch. */
  datatype Value =
    | Nil
    | Bool(b: bool)
    | Int(n: int)
    | Uint(u: nat)
    | Int64(i: int)
    | Float64(bits: int)
    | Str(s: string)
    | List(items: seq<Value>)
    | Map(fields: map<string, Value>)
    | Other

  /** What compiling and running a CEL query gives: an error, or a result by its
      CEL type. A list or map may fail the cast to a native Go container. */
  datatype Evaluation =
    | Failed
    | Scalar(value: Value)
    | ListResult(list: Option<seq<Value>>)
    | MapResult(entries: Option<map<string, Value>>)
    | Unsupported

  /** Library code the program calls: `%v`, `ParseFloat` with `%f`, CEL, and
      `sort.Slice` under the comparison of label keys. */
  datatype Library = Library(
    show: Value -> string,
    sort: Sorter,
    number: string -> Option<string>,
    evaluate: (string, map<string, Value>) -> Evaluation)

  datatype Engine = Cel | Unstructured

  // ---- unstructured.go ----

  function Nested(v: Value, path: seq<string>): Option<Value> {
    if path == [] then Some(v)
    else if v.Map? && path[0] in v.fields then Nested(v.fields[path[0]], path[1..])
    else None
  }

  function ResolveUnstructured(lib: Library, query: string, fields: map<string, Value>): map<string, string> {
    match Nested(Map(fields), Split(query))
    case Some(v) => map[query := lib.show(v)]
    case None => map[query := query]
  }

  /** `chain` walks down from `v` along `path`, one field a step. */
  ghost predicate Walks(v: Value, path: seq<string>, chain: seq<Value>) {
    && |chain| == |path| + 1 && chain[0] == v
    && forall i :: 0 <= i < |path| ==>
         chain[i].Map? && path[i] in chain[i].fields && chain[i + 1] == chain[i].fields[path[i]]
  }

  lemma {:induction false} NestedWalks(v: Value, path: seq<string>) returns (chain: seq<Value>)
    requires Nested(v, path).Some?
    ensures Walks(v, path, chain) && chain[|path|] == Nested(v, path).value
  {
    if path == [] {
      chain := [v];
    } else {
      var rest := NestedWalks(v.fields[path[0]], path[1..]);
      chain := [v] + rest;
      assert forall i :: 0 < i < |path| ==> path[i] == path[1..][i - 1] && chain[i] == rest[i - 1];
    }
  }

  lemma {:induction false} WalkIsNested(v: Value, path: seq<string>, chain: seq<Value>)
    requires Walks(v, path, chain)
    ensures Nested(v, path) == Some(chain[|path|])
  {
    if path != [] {
      assert chain[0].Map? && chain[1] == v.fields[path[0]];
      var rest := chain[1..];
      assert forall i :: 0 <= i < |path| - 1 ==> path[1..][i] == path[i + 1] && rest[i] == chain[i + 1];
      WalkIsNested(chain[1], path[1..], rest);
    }
  }

  /** A dotted query yields one entry, named by the query itself: the value its
      path leads to, or the query when the path leads nowhere. */
  lemma {:induction false} DottedPath(lib: Library, path: seq<string>, fields: map<string, Value>)
    requires path != [] && forall i :: 0 <= i < |path| ==> DotFree(path[i])
    ensures
      var query := Join(path);
      var resolved := ResolveUnstructured(lib, query, fields);
      && resolved.Keys == {query}
      && (forall chain :: Walks(Map(fields), path, chain) ==> resolved[query] == lib.show(chain[|path|]))
      && ((forall chain :: !Walks(Map(fields), path, chain)) ==> resolved[query] == query)
  {
    SplitJoin(path);
    forall chain | Walks(Map(fields), path, chain) ensures Nested(Map(fields), path) == Some(chain[|path|]) {
      WalkIsNested(Map(fields), path, chain);
    }
    if Nested(Map(fields), path).Some? {
      var chain := NestedWalks(Map(fields), path);
    }
  }

  // ---- cel.go ----

  /** The entries of a composite that the type switch lets through. */
  predicate Kept(v: Value) {
    v.Str? || v.Int? || v.Uint? || v.Float64? || v.Bool?
  }

  function ListEntries(lib: Library, items: seq<Value>, n: nat): map<string, string>
    requires n <= |items|
  {
    if n == 0 then map[]
    else if Kept(items[n - 1]) then ListEntries(lib, items, n - 1)[Itoa(n - 1) := lib.show(items[n - 1])]
    else ListEntries(lib, items, n - 1)
  }

  function MapEntries(lib: Library, fields: map<string, Value>): map<string, string> {
    map k | k in fields && Kept(fields[k]) :: lib.show(fields[k])
  }

  method ResolveList(lib: Library, out: Option<seq<Value>>) returns (m: Option<map<string, string>>)
    ensures m == if out.None? then None else Some(ListEntries(lib, out.value, |out.value|))
  {
    if out.None? {
      return None;
    }
    var entries: map<string, string> := map[];
    for i := 0 to |out.value|
      invariant entries == ListEntries(lib, out.value, i)
    {
      if Kept(out.value[i]) {
        entries := entries[Itoa(i) := lib.show(out.value[i])];
      }
    }
    m := Some(entries);
  }

  /** Go visits the fields in any order. */
  method ResolveMap(lib: Library, out: Option<map<string, Value>>) returns (m: Option<map<string, string>>)
    ensures m == if out.None? then None else Some(MapEntries(lib, out.value))
  {
    if out.None? {
      return None;
    }
    var entries: map<string, string> := map[];
    var rest := out.value.Keys;
    while rest != {}
      invariant rest <= out.value.Keys
      invariant entries == MapEntries(lib, out.value - rest)
    {
      var k :| k in rest;
      if Kept(out.value[k]) {
        entries := entries[k := lib.show(out.value[k])];
      }
      rest := rest - {k};
    }
    assert out.value - rest == out.value;
    m := Some(entries);
  }

  /** An unsupported result type leaves an empty, non-nil map; a failed cast a nil
      one, which becomes the query itself. */
  function ResolveCel(lib: Library, query: string, fields: map<string, Value>): map<string, string> {
    match lib.evaluate(query, fields)
    case Failed => map[query := query]
    case Scalar(v) => map[query := lib.show(v)]
    case ListResult(Some(items)) => ListEntries(lib, items, |items|)
    case MapResult(Some(entries)) => MapEntries(lib, entries)
    case Unsupported => map[]
    case _ => map[query := query]
  }

  function Resolve(lib: Library, engine: Engine, query: string, fields: map<string, Value>): map<string, string> {
    if engine.Cel? then ResolveCel(lib, query, fields) else ResolveUnstructured(lib, query, fields)
  }

  function CountKept(items: seq<Value>, n: nat): nat
    requires n <= |items|
  {
    if n == 0 then 0 else CountKept(items, n - 1) + if Kept(items[n - 1]) then 1 else 0
  }

  lemma {:induction false} FreshIndex(lib: Library, items: seq<Value>, n: nat, i: nat)
    requires n <= |items| && n <= i
    ensures Itoa(i) !in ListEntries(lib, items, n)
  {
    if n > 0 {
      FreshIndex(lib, items, n - 1, i);
      if Itoa(n - 1) == Itoa(i) {
        ItoaInjective(n - 1, i);
      }
    }
  }

  /** A list result has one entry per kept element: no two elements collide. */
  lemma {:induction false} ListEntriesCount(lib: Library, items: seq<Value>, n: nat)
    requires n <= |items|
    ensures |ListEntries(lib, items, n)| == CountKept(items, n)
  {
    if n > 0 {
      ListEntriesCount(lib, items, n - 1);
      FreshIndex(lib, items, n - 1, n - 1);
      if Kept(items[n - 1]) {
        assert ListEntries(lib, items, n).Keys == ListEntries(lib, items, n - 1).Keys + {Itoa(n - 1)};
      }
    }
  }

  /** Each entry sits under its element's own index. */
  lemma {:induction false} ListEntryAt(lib: Library, items: seq<Value>, n: nat, i: nat)
    requires i < n <= |items|
    ensures var m := ListEntries(lib, items, n);
            if Kept(items[i]) then Itoa(i) in m && m[Itoa(i)] == lib.show(items[i]) else Itoa(i) !in m
  {
    if i == n - 1 {
      FreshIndex(lib, items, n - 1, i);
    } else {
      ListEntryAt(lib, items, n - 1, i);
      if Itoa(n - 1) == Itoa(i) {
        ItoaInjective(n - 1, i);
      }
    }
  }

  // ---- What either resolver gives ----

  /** What a query gives, by its outcome: a scalar gives itself, an error or a failed
      cast the query, and a composite its elements of a primitive Go type. */
  ghost predicate CelGives(lib: Library, query: string, out: Evaluation, m: map<string, string>) {
    match out
    case Scalar(v) => m == map[query := lib.show(v)]
    case Failed => m == map[query := query]
    case ListResult(None) => m == map[query := query]
    case MapResult(None) => m == map[query := query]
    case Unsupported => m == map[]
    case ListResult(Some(items)) =>
      && (forall i :: 0 <= i < |items| ==>
            (items[i].Str? || items[i].Int? || items[i].Uint? || items[i].Float64? || items[i].Bool? <==> Itoa(i) in m))
      && (forall i :: 0 <= i < |items| && Itoa(i) in m ==> m[Itoa(i)] == lib.show(items[i]))
      && (forall key :: key in m ==> exists i :: 0 <= i < |items| && key == Itoa(i))
    case MapResult(Some(entries)) =>
      && (forall key :: key in m ==> key in entries)
      && (forall key :: key in entries ==>
            (entries[key].Str? || entries[key].Int? || entries[key].Uint? || entries[key].Float64? || entries[key].Bool?
             <==> key in m))
      && (forall key :: key in m ==> m[key] == lib.show(entries[key]))
  }

  /** What a path leads to, or the query itself. */
  ghost predicate PathGives(lib: Library, query: string, fields: map<string, Value>, m: map<string, string>) {
    && m.Keys == {query}
    && (forall chain :: Walks(Map(fields), Split(query), chain) ==> m[query] == lib.show(chain[|Split(query)|]))
    && ((forall chain :: !Walks(Map(fields), Split(query), chain)) ==> m[query] == query)
  }

  lemma {:induction false} ListKey(lib: Library, items: seq<Value>, n: nat, key: string) returns (i: nat)
    requires n <= |items| && key in ListEntries(lib, items, n)
    ensures i < n && key == Itoa(i)
  {
    i := n - 1;
    if key != Itoa(n - 1) {
      i := ListKey(lib, items, n - 1, key);
    }
  }

  lemma {:induction false} CelResults(lib: Library, query: string, fields: map<string, Value>)
    ensures CelGives(lib, query, lib.evaluate(query, fields), ResolveCel(lib, query, fields))
  {
    var out := lib.evaluate(query, fields);
    if out.ListResult? && out.list.Some? {
      hide Itoa;
      var items := out.list.value;
      forall key | key in ListEntries(lib, items, |items|) ensures exists i :: 0 <= i < |items| && key == Itoa(i) {
        var i := ListKey(lib, items, |items|, key);
      }
      forall i | 0 <= i < |items|
        ensures var m := ListEntries(lib, items, |items|);
                if Kept(items[i]) then Itoa(i) in m && m[Itoa(i)] == lib.show(items[i]) else Itoa(i) !in m
      {
        ListEntryAt(lib, items, |items|, i);
      }
    }
  }

  lemma {:induction false} PathResults(lib: Library, query: string, fields: map<string, Value>)
    ensures PathGives(lib, query, fields, ResolveUnstructured(lib, query, fields))
  {
    JoinSplit(query);
    DottedPath(lib, Split(query), fields);
  }

  method ResolveQuery(lib: Library, engine: Engine, query: string, fields: map<string, Value>)
    returns (m: map<string, string>)
    ensures m == Resolve(lib, engine, query, fields)
    ensures if engine.Cel? then CelGives(lib, query, lib.evaluate(query, fields), m)
            else PathGives(lib, query, fields, m)
  {
    hide CelGives;
    hide PathGives;
    CelResults(lib, query, fields);
    PathResults(lib, query, fields);
    if engine.Unstructured? {
      return ResolveUnstructured(lib, query, fields);
    }
    var result: Option<map<string, string>>;
    match lib.evaluate(query, fields) {
      case Failed => return map[query := query];
      case Scalar(v) => result := Some(map[query := lib.show(v)]);
      case ListResult(out) => result := ResolveList(lib, out);
      case MapResult(out) => result := ResolveMap(lib, out);
      case Unsupported => result := Some(map[]);
    }
    return if result.None? then map[query := query] else result.value;
  }
}
