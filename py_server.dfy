/**
 * The helpers behind the HTTP endpoints of server.py: the allow-list tables
 * that `_build_maps` derives from CRD files, `_prune`, `_make_skeleton`, and
 * the result shaping of the list_crds, list_supported, skeleton_crd and
 * prune_crd endpoints. Reading and parsing the files is not modelled: the
 * tables are built from the decoded documents. An exception that escapes a
 * helper is the `Raised` failure (FastAPI answers it with status 500).
 */
module PyServer {
  import opened Wrappers
  import opened Strings
  import opened Json
  import opened Paths
  import Pruning
  import Sorting

  type Key = (string, string)

  /** An HTTPException raised on purpose, or any other exception. */
  datatype Failure = Http(code: int, detail: string) | Raised

  // ---- the walk of _build_maps

  /** The paths the `walk` closure of `_build_maps` adds for `node` at `base`:
      `base.k` for every property `k` together with what the walk of the
      property adds, and what the walk of `items` adds at the same base. None
      when the walk raises: a node that is not a dict, or a `properties` that
      is not one. Nothing else of the node is read. */
  function WalkPaths(node: Value, base: string): Option<set<string>>
    decreases node, 2
  {
    if !node.Obj? then None
    else
      var m := node.fields;
      var props := if "properties" in m then PropsWalk(m, base) else Some({});
      var items := if "items" in m then WalkPaths(m["items"], base) else Some({});
      if props.None? || items.None? then None else Some(props.value + items.value)
  }

  /** The loop over `properties`; None when it is not a dict or one of its walks raises. */
  function PropsWalk(m: Object, base: string): Option<set<string>>
    requires "properties" in m
    decreases Obj(m), 1
  {
    if !m["properties"].Obj? then None
    else
      var props := m["properties"].fields;
      if exists k :: k in props && WalkPaths(props[k], Here(base, k)).None? then None
      else Some(PropPaths(m, props.Keys, base))
  }

  /** What the loop adds for the properties `ks`. */
  function PropPaths(m: Object, ks: set<string>, base: string): set<string>
    requires "properties" in m && m["properties"].Obj? && ks <= m["properties"].fields.Keys
    decreases Obj(m), 0
  {
    var props := m["properties"].fields;
    (set k | k in ks :: Here(base, k))
    + (set k, p | k in ks && WalkPaths(props[k], Here(base, k)).Some? && p in WalkPaths(props[k], Here(base, k)).value :: p)
  }

  lemma PropPathsStep(m: Object, done: set<string>, k: string, base: string)
    requires "properties" in m && m["properties"].Obj? && done <= m["properties"].fields.Keys
    requires k in m["properties"].fields && k !in done
    requires WalkPaths(m["properties"].fields[k], Here(base, k)).Some?
    ensures PropPaths(m, done + {k}, base) ==
      PropPaths(m, done, base) + {Here(base, k)} + WalkPaths(m["properties"].fields[k], Here(base, k)).value
  {
  }

  /** The `walk` closure of `_build_maps`: adds to `paths` what the walk of
      `node` at `base` adds, or raises. */
  method Walk(node: Value, base: string, paths: set<string>) returns (r: Option<set<string>>)
    ensures r.Some? <==> WalkPaths(node, base).Some?
    ensures r.Some? ==> r.value == paths + WalkPaths(node, base).value
    decreases node, 3
  {
    if !node.Obj? {
      return None;
    }
    var m := node.fields;
    var acc := Some(paths);
    if "properties" in m {
      acc := WalkProps(m, base, paths);
      if acc.None? {
        return None;
      }
    }
    if "items" in m {
      r := Walk(m["items"], base, acc.value);
    } else {
      r := acc;
    }
  }

  /** The loop over `properties`: each property's path, then its own walk. */
  method WalkProps(m: Object, base: string, paths: set<string>) returns (r: Option<set<string>>)
    requires "properties" in m
    ensures r.Some? <==> PropsWalk(m, base).Some?
    ensures r.Some? ==> r.value == paths + PropsWalk(m, base).value
    decreases Obj(m), 2
  {
    if !m["properties"].Obj? {
      return None;
    }
    var props := m["properties"].fields;
    var acc := paths;
    var ks := props.Keys;
    while ks != {}
      invariant ks <= props.Keys
      invariant forall k :: k in props.Keys - ks ==> WalkPaths(props[k], Here(base, k)).Some?
      invariant acc == paths + PropPaths(m, props.Keys - ks, base)
      decreases ks
    {
      var k :| k in ks;
      var here := if base != "" then base + "." + k else k;
      assert here == Here(base, k);
      var sub := Walk(props[k], here, acc + {here});
      if sub.None? {
        return None;
      }
      PropPathsStep(m, props.Keys - ks, k, base);
      assert props.Keys - (ks - {k}) == (props.Keys - ks) + {k};
      acc := sub.value;
      ks := ks - {k};
    }
    assert props.Keys - ks == props.Keys;
    r := Some(acc);
  }

  /** Below a non-empty base every collected path starts with `base.`; in
      particular every allow-list entry starts with `spec.`. */
  lemma {:induction false} WalkUnderBase(node: Value, base: string)
    requires base != "" && WalkPaths(node, base).Some?
    ensures forall p :: p in WalkPaths(node, base).value ==> HasPrefix(p, base + ".")
    decreases node, 2
  {
    var m := node.fields;
    if "properties" in m {
      PropsUnderBase(m, base);
    }
    if "items" in m {
      WalkUnderBase(m["items"], base);
    }
  }

  lemma {:induction false} PropsUnderBase(m: Object, base: string)
    requires base != "" && "properties" in m && PropsWalk(m, base).Some?
    ensures forall p :: p in PropsWalk(m, base).value ==> HasPrefix(p, base + ".")
    decreases Obj(m), 1
  {
    var props := m["properties"].fields;
    forall p | p in PropsWalk(m, base).value ensures HasPrefix(p, base + ".") {
      if k :| k in props && p == Here(base, k) {
        assert p == (base + ".") + k;
      } else {
        var k :| k in props && WalkPaths(props[k], Here(base, k)).Some? && p in WalkPaths(props[k], Here(base, k)).value;
        WalkUnderBase(props[k], Here(base, k));
        assert Here(base, k) + "." == (base + ".") + (k + ".");
        assert HasPrefix(p, (base + ".") + (k + "."));
      }
    }
  }

  /** The walk reads nothing but `properties` and `items`: no wildcard for
      `additionalProperties` or `x-kubernetes-preserve-unknown-fields`, no
      descent into `allOf` / `anyOf` / `oneOf`, and `type` is not consulted. */
  lemma WalkReadsPropertiesAndItems(m: Object, c: string, v: Value, base: string)
    requires c != "properties" && c != "items"
    ensures WalkPaths(Obj(m[c := v]), base) == WalkPaths(Obj(m), base)
  {
    var m' := m[c := v];
    if "properties" in m {
      assert m'["properties"] == m["properties"];
      if m["properties"].Obj? {
        assert PropPaths(m', m["properties"].fields.Keys, base) == PropPaths(m, m["properties"].fields.Keys, base);
      }
      assert PropsWalk(m', base) == PropsWalk(m, base);
    }
    if "items" in m {
      assert m'["items"] == m["items"];
    }
  }

  /** Every property of a walked node is collected as `base.k`. */
  lemma WalkHasProperties(m: Object, base: string, k: string)
    requires WalkPaths(Obj(m), base).Some?
    requires "properties" in m && m["properties"].Obj? && k in m["properties"].fields
    ensures Here(base, k) in WalkPaths(Obj(m), base).value
  {
    assert PropsWalk(m, base).Some?;
    assert Here(base, k) in PropPaths(m, m["properties"].fields.Keys, base);
  }

  /** A property name whose path `base.k` cannot end in `.*`. */
  predicate PlainName(k: string) {
    k != "*" && !HasSuffix(k, ".*")
  }

  /** Every property name the walk meets below `node` is plain. */
  predicate PlainNames(node: Value)
    decreases node, 1
  {
    node.Obj? ==>
      && ("properties" in node.fields ==> PlainProps(node.fields))
      && ("items" in node.fields ==> PlainNames(node.fields["items"]))
  }

  predicate PlainProps(m: Object)
    requires "properties" in m
    decreases Obj(m), 0
  {
    m["properties"].Obj? ==>
      forall k :: k in m["properties"].fields ==> PlainName(k) && PlainNames(m["properties"].fields[k])
  }

  lemma HereNoWildcard(base: string, k: string)
    requires PlainName(k)
    ensures !HasSuffix(Here(base, k), ".*")
  {
    var p := Here(base, k);
    if base != "" {
      if |k| >= 2 {
        assert p[|p| - 2..] == k[|k| - 2..];
      } else if |k| == 1 {
        assert p[|p| - 2..] == "." + k;
        assert k == [k[0]] && ("." + k)[1] == k[0];
      } else {
        assert p[|p| - 1] == '.';
      }
    }
  }

  /** With plain property names the walk collects no entry ending in `.*`;
      a property named `*` would give the entry `base.*`. */
  lemma {:induction false} WalkNoWildcards(node: Value, base: string)
    requires PlainNames(node) && WalkPaths(node, base).Some?
    ensures forall p :: p in WalkPaths(node, base).value ==> !HasSuffix(p, ".*")
    decreases node, 2
  {
    var m := node.fields;
    if "properties" in m {
      PropsNoWildcards(m, base);
    }
    if "items" in m {
      WalkNoWildcards(m["items"], base);
    }
  }

  lemma {:induction false} PropsNoWildcards(m: Object, base: string)
    requires "properties" in m && PlainProps(m) && PropsWalk(m, base).Some?
    ensures forall p :: p in PropsWalk(m, base).value ==> !HasSuffix(p, ".*")
    decreases Obj(m), 1
  {
    var props := m["properties"].fields;
    forall p | p in PropsWalk(m, base).value ensures !HasSuffix(p, ".*") {
      if k :| k in props && p == Here(base, k) {
        HereNoWildcard(base, k);
      } else {
        var k :| k in props && WalkPaths(props[k], Here(base, k)).Some? && p in WalkPaths(props[k], Here(base, k)).value;
        WalkNoWildcards(props[k], Here(base, k));
      }
    }
  }

  /** A schema whose only property is named `*` gives the entry `spec.*`. */
  lemma EmptyWalk(base: string)
    ensures WalkPaths(Obj(map[]), base) == Some({})
  {
    var n := Obj(map[]);
    assert n.Obj? && "properties" !in n.fields && "items" !in n.fields;
    var none: set<string> := {};
    assert WalkPaths(n, base) == Some(none + none) && none + none == none;
  }

  lemma StarPropertyGivesWildcard()
    ensures WalkPaths(Obj(map["properties" := Obj(map["*" := Obj(map[])])]), "spec") == Some({"spec.*"})
  {
    var leaf: Object := map[];
    var props := map["*" := Obj(leaf)];
    var m := map["properties" := Obj(props)];
    assert Here("spec", "*") == "spec.*";
    EmptyWalk("spec.*");
    assert props.Keys == {"*"};
    assert PropsWalk(m, "spec") == Some(PropPaths(m, {"*"}, "spec"));
    var none: set<string> := {};
    var one: set<string> := {"spec.*"};
    assert (set k, p | k in {"*"} && WalkPaths(props[k], Here("spec", k)).Some? && p in WalkPaths(props[k], Here("spec", k)).value :: p) == none;
    assert (set k | k in {"*"} :: Here("spec", k)) == one;
    assert PropPaths(m, {"*"}, "spec") == one;
    assert "items" !in m;
    assert WalkPaths(Obj(m), "spec") == Some(one + none) && one + none == one;
  }

  // ---- _build_maps

  /** One version of one CRD file: its `group/name`, its kind, the `spec`
      property schema of its openAPIV3Schema and what the walk collects there. */
  datatype Row = Row(api: string, kind: string, spec: Value, paths: set<string>)

  /** `v[k]` on a decoded YAML node: KeyError or TypeError unless `v` is a
      dict holding `k`. */
  function Sub(v: Value, k: string): Option<Value> {
    if v.Obj? && k in v.fields then Some(v.fields[k]) else None
  }

  /** What `for ver in versions` iterates: the elements of a list; an empty
      dict or string yields nothing, any other dict or string yields a key or
      character on which `ver['name']` raises, and anything else is not iterable. */
  function Versions(v: Value): Option<seq<Value>> {
    match v
    case Arr(items) => Some(items)
    case Obj(m) => if m == map[] then Some([]) else None
    case Str(s) => if s == "" then Some([]) else None
    case _ => None
  }

  /** The row of one version entry; None when a lookup or the walk raises,
      or when the group, the kind or the version name is not a string. */
  function RowOf(group: Value, kind: Value, ver: Value): (r: Option<Row>)
    ensures r.Some? ==> WalkPaths(r.value.spec, "spec") == Some(r.value.paths)
  {
    var name := Sub(ver, "name");
    var schema := Sub(ver, "schema");
    var open := if schema.Some? then Sub(schema.value, "openAPIV3Schema") else None;
    var props := if open.Some? then Sub(open.value, "properties") else None;
    var spec := if props.Some? then Sub(props.value, "spec") else None;
    if name.None? || !group.Str? || !kind.Str? || !name.value.Str? || spec.None? then None
    else
      var paths := WalkPaths(spec.value, "spec");
      if paths.None? then None
      else Some(Row(group.s + "/" + name.value.s, kind.s, spec.value, paths.value))
  }

  /** `rest` behind the rows already produced. */
  function Then(done: seq<Row>, rest: Option<seq<Row>>): Option<seq<Row>> {
    if rest.None? then None else Some(done + rest.value)
  }

  /** The rows of a version list, in order. */
  function VersionRows(group: Value, kind: Value, vers: seq<Value>): Option<seq<Row>> {
    if vers == [] then Some([])
    else
      var head := RowOf(group, kind, vers[0]);
      if head.None? then None else Then([head.value], VersionRows(group, kind, vers[1..]))
  }

  /** The rows of one CRD file: `doc["spec"]`, its `group`, `names.kind` and `versions`. */
  function FileRows(doc: Value): Option<seq<Row>> {
    var spec := Sub(doc, "spec");
    var group := if spec.Some? then Sub(spec.value, "group") else None;
    var names := if spec.Some? then Sub(spec.value, "names") else None;
    var kind := if names.Some? then Sub(names.value, "kind") else None;
    var vs := if spec.Some? then Sub(spec.value, "versions") else None;
    if group.None? || kind.None? || vs.None? || Versions(vs.value).None? then None
    else VersionRows(group.value, kind.value, Versions(vs.value).value)
  }

  /** The rows of all files, file after file. */
  function AllRows(docs: seq<Value>): Option<seq<Row>> {
    if docs == [] then Some([])
    else
      var head := FileRows(docs[0]);
      if head.None? then None else Then(head.value, AllRows(docs[1..]))
  }

  /** The three tables of `_build_maps`: allow-lists and raw spec schemas by
      (apiVersion, kind), and the apiVersions of each kind. */
  datatype Maps = Maps(allowed: map<Key, set<string>>, kind2api: map<string, seq<string>>, raw: map<Key, Value>)

  function NoMaps(): Maps {
    Maps(map[], map[], map[])
  }

  function ApisOf(mp: Maps, kind: string): seq<string> {
    if kind in mp.kind2api then mp.kind2api[kind] else []
  }

  /** One row: the api is appended to its kind's list as it is, the raw
      schema and the allow-list of the key are overwritten. */
  function AddRow(mp: Maps, r: Row): Maps {
    Maps(mp.allowed[(r.api, r.kind) := r.paths],
         mp.kind2api[r.kind := ApisOf(mp, r.kind) + [r.api]],
         mp.raw[(r.api, r.kind) := r.spec])
  }

  /** Rows applied in order. */
  function Tabulate(mp: Maps, rows: seq<Row>): Maps
    decreases |rows|
  {
    if rows == [] then mp else AddRow(Tabulate(mp, rows[..|rows| - 1]), rows[|rows| - 1])
  }

  lemma TabulateSnoc(mp: Maps, rows: seq<Row>, r: Row)
    ensures Tabulate(mp, rows + [r]) == AddRow(Tabulate(mp, rows), r)
  {
    assert (rows + [r])[..|rows|] == rows;
  }

  lemma ThenSnoc(done: seq<Row>, r: Row, rest: Option<seq<Row>>)
    ensures Then(done, Then([r], rest)) == Then(done + [r], rest)
  {
    if rest.Some? {
      assert done + ([r] + rest.value) == (done + [r]) + rest.value;
    }
  }

  lemma ThenAppend(done: seq<Row>, more: seq<Row>, rest: Option<seq<Row>>)
    ensures Then(done, Then(more, rest)) == Then(done + more, rest)
  {
    if rest.Some? {
      assert done + (more + rest.value) == (done + more) + rest.value;
    }
  }

  lemma ThenNil(x: Option<seq<Row>>)
    ensures Then([], x) == x
  {
    if x.Some? {
      assert [] + x.value == x.value;
    }
  }

  /** `_build_maps` on the decoded CRD files, in the order the directory
      listing yields them. */
  method BuildMaps(docs: seq<Value>) returns (r: Option<Maps>)
    ensures r.Some? <==> AllRows(docs).Some?
    ensures r.Some? ==> r.value == Tabulate(NoMaps(), AllRows(docs).value)
  {
    var mp := NoMaps();
    ghost var done: seq<Row> := [];
    var j := 0;
    assert docs[0..] == docs;
    ThenNil(AllRows(docs));
    while j < |docs|
      invariant 0 <= j <= |docs|
      invariant AllRows(docs) == Then(done, AllRows(docs[j..]))
      invariant mp == Tabulate(NoMaps(), done)
    {
      assert docs[j..][0] == docs[j] && docs[j..][1..] == docs[j + 1..];
      var next, rows := AddFile(mp, done, docs[j]);
      if next.None? {
        return None;
      }
      ThenAppend(done, rows, AllRows(docs[j + 1..]));
      mp, done := next.value, done + rows;
      j := j + 1;
    }
    assert done + [] == done;
    return Some(mp);
  }

  /** The body of the file loop for one document. */
  method AddFile(mp: Maps, ghost done: seq<Row>, doc: Value) returns (r: Option<Maps>, ghost rows: seq<Row>)
    requires mp == Tabulate(NoMaps(), done)
    ensures r.Some? <==> FileRows(doc).Some?
    ensures r.Some? ==> rows == FileRows(doc).value && r.value == Tabulate(NoMaps(), done + rows)
  {
    rows := [];
    var spec := Sub(doc, "spec");
    if spec.None? {
      return None, rows;
    }
    var group := Sub(spec.value, "group");
    var names := Sub(spec.value, "names");
    if group.None? || names.None? {
      return None, rows;
    }
    var kind := Sub(names.value, "kind");
    var vs := Sub(spec.value, "versions");
    if kind.None? || vs.None? || Versions(vs.value).None? {
      return None, rows;
    }
    r, rows := AddVersions(mp, done, group.value, kind.value, Versions(vs.value).value);
  }

  /** The loop over a file's versions: one row each, added in order. */
  method AddVersions(mp: Maps, ghost done: seq<Row>, group: Value, kind: Value, vers: seq<Value>)
    returns (r: Option<Maps>, ghost rows: seq<Row>)
    requires mp == Tabulate(NoMaps(), done)
    ensures r.Some? <==> VersionRows(group, kind, vers).Some?
    ensures r.Some? ==> rows == VersionRows(group, kind, vers).value && r.value == Tabulate(NoMaps(), done + rows)
  {
    rows := [];
    var acc := mp;
    var i := 0;
    assert vers[0..] == vers && done + [] == done;
    ThenNil(VersionRows(group, kind, vers));
    while i < |vers|
      invariant 0 <= i <= |vers|
      invariant VersionRows(group, kind, vers) == Then(rows, VersionRows(group, kind, vers[i..]))
      invariant acc == Tabulate(NoMaps(), done + rows)
    {
      assert vers[i..][0] == vers[i] && vers[i..][1..] == vers[i + 1..];
      var row := RowOf(group, kind, vers[i]);
      if row.None? {
        return None, rows;
      }
      acc := AddRow(acc, row.value);
      TabulateSnoc(NoMaps(), done + rows, row.value);
      assert done + rows + [row.value] == done + (rows + [row.value]);
      ThenSnoc(rows, row.value, VersionRows(group, kind, vers[i + 1..]));
      rows := rows + [row.value];
      i := i + 1;
    }
    assert rows + [] == rows;
    return Some(acc), rows;
  }

  /** Every row carries the walk of its own spec schema. */
  predicate RowsWalked(rows: seq<Row>) {
    forall i :: 0 <= i < |rows| ==> WalkPaths(rows[i].spec, "spec") == Some(rows[i].paths)
  }

  lemma {:induction false} VersionRowsWalked(group: Value, kind: Value, vers: seq<Value>)
    ensures VersionRows(group, kind, vers).Some? ==> RowsWalked(VersionRows(group, kind, vers).value)
    decreases |vers|
  {
    if vers != [] {
      VersionRowsWalked(group, kind, vers[1..]);
    }
  }

  lemma {:induction false} FileRowsWalked(doc: Value)
    ensures FileRows(doc).Some? ==> RowsWalked(FileRows(doc).value)
  {
    var spec := Sub(doc, "spec");
    var group := if spec.Some? then Sub(spec.value, "group") else None;
    var names := if spec.Some? then Sub(spec.value, "names") else None;
    var kind := if names.Some? then Sub(names.value, "kind") else None;
    var vs := if spec.Some? then Sub(spec.value, "versions") else None;
    if !(group.None? || kind.None? || vs.None? || Versions(vs.value).None?) {
      VersionRowsWalked(group.value, kind.value, Versions(vs.value).value);
    }
  }

  /** The rows `_build_maps` produces each hold the walk of their spec schema. */
  lemma {:induction false} AllRowsWalked(docs: seq<Value>)
    ensures AllRows(docs).Some? ==> RowsWalked(AllRows(docs).value)
    decreases |docs|
  {
    if docs != [] {
      FileRowsWalked(docs[0]);
      AllRowsWalked(docs[1..]);
    }
  }

  /** When every row's spec schema has plain property names, no allow-list
      of the tables holds an entry ending in `.*`. */
  lemma {:induction false} TablesNoWildcards(rows: seq<Row>, key: Key, p: string)
    requires RowsWalked(rows) && forall i :: 0 <= i < |rows| ==> PlainNames(rows[i].spec)
    requires key in Tabulate(NoMaps(), rows).allowed && p in Tabulate(NoMaps(), rows).allowed[key]
    ensures !HasSuffix(p, ".*")
    decreases |rows|
  {
    var n := |rows| - 1;
    var last := rows[n];
    if (last.api, last.kind) == key {
      WalkNoWildcards(last.spec, "spec");
    } else {
      assert forall i :: 0 <= i < n ==> rows[..n][i] == rows[i];
      TablesNoWildcards(rows[..n], key, p);
    }
  }

  /** The apiVersions of the rows of `kind`, in row order, repeats included. */
  function ApisFor(rows: seq<Row>, kind: string): seq<string> {
    if rows == [] then []
    else
      var last := rows[|rows| - 1];
      ApisFor(rows[..|rows| - 1], kind) + (if last.kind == kind then [last.api] else [])
  }

  /** Row `i` is the last one of `key`, and `mp` holds its schema and allow-list. */
  predicate IsLastRow(rows: seq<Row>, i: int, key: Key, mp: Maps) {
    && 0 <= i < |rows| && (rows[i].api, rows[i].kind) == key
    && key in mp.raw && key in mp.allowed
    && mp.raw[key] == rows[i].spec && mp.allowed[key] == rows[i].paths
    && forall j :: i < j < |rows| ==> (rows[j].api, rows[j].kind) != key
  }

  ghost predicate LastRow(rows: seq<Row>, key: Key, mp: Maps) {
    exists i :: IsLastRow(rows, i, key, mp)
  }

  /** `kind2api` lists one apiVersion per version row of the kind, in order,
      without removing repeats; every other table entry is the last row's. */
  lemma {:induction false} TabulateTables(rows: seq<Row>, kind: string, key: Key)
    ensures var mp := Tabulate(NoMaps(), rows);
      && ApisOf(mp, kind) == ApisFor(rows, kind)
      && (kind in mp.kind2api <==> exists i :: 0 <= i < |rows| && rows[i].kind == kind)
      && (key in mp.raw <==> key in mp.allowed)
      && (key in mp.raw ==> LastRow(rows, key, mp))
    decreases |rows|
  {
    if rows != [] {
      var n := |rows| - 1;
      TabulateTables(rows[..n], kind, key);
      var mp := Tabulate(NoMaps(), rows[..n]);
      if key in mp.raw && (rows[n].api, rows[n].kind) != key {
        var i :| 0 <= i < n && IsLastRow(rows[..n], i, key, mp);
        assert rows[i] == rows[..n][i];
        assert IsLastRow(rows, i, key, Tabulate(NoMaps(), rows));
      } else if (rows[n].api, rows[n].kind) == key {
        assert IsLastRow(rows, n, key, Tabulate(NoMaps(), rows));
      }
      if kind in mp.kind2api {
        var i :| 0 <= i < n && rows[..n][i].kind == kind;
        assert rows[i] == rows[..n][i];
      }
      if exists i :: 0 <= i < |rows| && rows[i].kind == kind {
        var i :| 0 <= i < |rows| && rows[i].kind == kind;
        if i < n {
          assert rows[..n][i].kind == kind;
        }
      }
    }
  }

  /** Two files declaring the same version of a CRD list its apiVersion twice. */
  lemma RepeatedVersionListedTwice(r: Row)
    ensures Tabulate(NoMaps(), [r, r]).kind2api[r.kind] == [r.api, r.api]
  {
    TabulateSnoc(NoMaps(), [], r);
    assert [] + [r] == [r] && [r] + [r] == [r, r];
    TabulateSnoc(NoMaps(), [r], r);
  }
}
