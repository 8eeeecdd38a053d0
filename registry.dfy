/**
 * The four lookup tables of the discovery cache as a value, the effect of
 * registerSchema on them, and which registrations the OpenAPI and CRD
 * ingestion paths of internal/discovery/discovery.go perform.
 */
module Registry {
  import opened Wrappers
  import opened Strings
  import opened Json
  import opened Paths
  import opened SpecPaths

  /** The `api|kind` key of the per-schema tables. */
  function JoinKey(api: string, kind: string): (key: string)
    ensures '|' in key
  {
    assert (api + "|" + kind)[|api|] == '|';
    api + "|" + kind
  }

  /** strings.SplitN(key, "|", 2) for a key holding a `|`. */
  function SplitKey(key: string): (string, string)
    requires '|' in key
  {
    var i := IndexOf(key, '|');
    (key[..i], key[i + 1..])
  }

  /** A key splits back into its parts when the apiVersion holds no `|`. */
  lemma SplitJoinKey(api: string, kind: string)
    requires '|' !in api
    ensures SplitKey(JoinKey(api, kind)) == (api, kind)
  {
    var key := JoinKey(api, kind);
    IndexOfConcat(api, "|" + kind, '|');
    assert key == api + ("|" + kind);
    assert key[..|api|] == api;
    assert key[|api| + 1..] == kind;
  }

  lemma {:induction false} IndexOfConcat(a: string, b: string, c: char)
    requires c !in a && |b| > 0 && b[0] == c
    ensures c in a + b && IndexOf(a + b, c) == |a|
  {
    assert (a + b)[|a|] == c;
    if a != [] {
      assert (a + b)[1..] == a[1..] + b;
      IndexOfConcat(a[1..], b, c);
    }
  }

  datatype Tables = Tables(
    allowed: map<string, set<string>>,    // key -> spec.* allow-list
    topAllowed: map<string, set<string>>, // key -> top-level property names
    kind2api: map<string, seq<string>>,   // kind -> apiVersions, in order of first registration
    fullSchema: map<string, Object>)      // key -> schema fragment

  /** The tables after Reset. */
  function Empty(): Tables {
    Tables(map[], map[], map[], map[])
  }

  /** The apiVersions recorded for `kind` (a missing entry reads as empty). */
  function Apis(t: Tables, kind: string): seq<string> {
    if kind in t.kind2api then t.kind2api[kind] else []
  }

  /** Whether a schema is registered for api/kind. */
  predicate Known(t: Tables, api: string, kind: string) {
    JoinKey(api, kind) in t.fullSchema
  }

  /** The top-level property names recorded for api/kind, if any. */
  function TopOf(t: Tables, api: string, kind: string): Option<set<string>> {
    if JoinKey(api, kind) in t.topAllowed then Some(t.topAllowed[JoinKey(api, kind)]) else None
  }

  /** The `spec.` allow-list recorded for api/kind, if any. */
  function AllowOf(t: Tables, api: string, kind: string): Option<set<string>> {
    if JoinKey(api, kind) in t.allowed then Some(t.allowed[JoinKey(api, kind)]) else None
  }

  /** `properties` of a schema, empty when absent or not a map. */
  function Props(schema: Object): Object {
    MapOrEmpty(schema, "properties")
  }

  /** The `spec` sub-schema, when `properties.spec` is a map. */
  function SpecSchema(schema: Object): Option<Object> {
    MapAt(Props(schema), "spec")
  }

  predicate NoDuplicates(s: seq<string>) {
    forall i, j :: 0 <= i < j < |s| ==> s[i] != s[j]
  }

  /** One registerSchema call. */
  datatype Registration = Registration(api: string, kind: string, schema: Object)

  function KeyOf(r: Registration): string {
    JoinKey(r.api, r.kind)
  }

  /** registerSchema(api, kind, schema) as a function of the tables. */
  function Register(t: Tables, r: Registration): Tables {
    var key := KeyOf(r);
    var apis := Apis(t, r.kind);
    Tables(
      if SpecSchema(r.schema).Some? then t.allowed[key := Collect(SpecSchema(r.schema).value, "spec")]
      else t.allowed,
      t.topAllowed[key := Props(r.schema).Keys],
      if r.api in apis then t.kind2api else t.kind2api[r.kind := apis + [r.api]],
      t.fullSchema[key := r.schema])
  }

  /** Registrations applied in order. */
  function Fold(t: Tables, log: seq<Registration>): Tables
    decreases |log|
  {
    if log == [] then t else Fold(Register(t, log[0]), log[1..])
  }

  /** The invariant the cache keeps between calls. */
  predicate Inv(t: Tables) {
    KeysInv(t) && AllowInv(t) && ApisInv(t)
  }

  /** Every key is an `api|kind` key with a schema and its top-level property names. */
  predicate KeysInv(t: Tables) {
    && t.topAllowed.Keys == t.fullSchema.Keys
    && t.allowed.Keys <= t.fullSchema.Keys
    && (forall key :: key in t.fullSchema ==> '|' in key)
    && (forall key :: key in t.topAllowed ==> t.topAllowed[key] == Props(t.fullSchema[key]).Keys)
  }

  /** A schema with a `spec` map has its collected allow-list; every allow-list
      entry is a `spec.` path. */
  predicate AllowInv(t: Tables) {
    && (forall key :: key in t.fullSchema && SpecSchema(t.fullSchema[key]).Some? ==>
          key in t.allowed && t.allowed[key] == Collect(SpecSchema(t.fullSchema[key]).value, "spec"))
    && (forall key, p :: key in t.allowed && p in t.allowed[key] ==> HasPrefix(p, "spec."))
  }

  /** The apiVersions of a kind are registered keys, without duplicates. */
  predicate ApisInv(t: Tables) {
    && (forall kind :: kind in t.kind2api ==> NoDuplicates(t.kind2api[kind]))
    && (forall kind, a :: kind in t.kind2api && a in t.kind2api[kind] ==> JoinKey(a, kind) in t.fullSchema)
  }

  lemma EmptyInv()
    ensures Inv(Empty())
  {
  }

  /** registerSchema keeps the invariant. */
  lemma RegisterInv(t: Tables, r: Registration)
    requires Inv(t)
    ensures Inv(Register(t, r))
  {
    RegisterKeysInv(t, r);
    RegisterAllowInv(t, r);
    RegisterApisInv(t, r);
  }

  lemma RegisterKeysInv(t: Tables, r: Registration)
    requires KeysInv(t)
    ensures KeysInv(Register(t, r))
  {
  }

  lemma RegisterAllowInv(t: Tables, r: Registration)
    requires AllowInv(t) && t.allowed.Keys <= t.fullSchema.Keys
    ensures AllowInv(Register(t, r))
  {
    var t', k := Register(t, r), KeyOf(r);
    forall key | key in t'.fullSchema && SpecSchema(t'.fullSchema[key]).Some?
      ensures key in t'.allowed && t'.allowed[key] == Collect(SpecSchema(t'.fullSchema[key]).value, "spec")
    {
      if key != k {
        assert t'.fullSchema[key] == t.fullSchema[key];
      }
    }
    if SpecSchema(r.schema).Some? {
      CollectUnderBase(SpecSchema(r.schema).value, "spec");
    }
    forall key, p | key in t'.allowed && p in t'.allowed[key] ensures HasPrefix(p, "spec.") {
      if key != k || SpecSchema(r.schema).None? {
        assert t'.allowed[key] == t.allowed[key];
      }
    }
  }

  lemma RegisterApisInv(t: Tables, r: Registration)
    requires ApisInv(t)
    ensures ApisInv(Register(t, r))
  {
    var apis := Apis(t, r.kind);
    if r.api !in apis {
      assert Register(t, r).kind2api[r.kind] == apis + [r.api];
      assert NoDuplicates(apis + [r.api]);
    }
  }

  /** What one registration does: the key's schema and top-level set are
      overwritten, `api` is recorded for `kind` once, the allow-list is rewritten
      exactly when the new schema has a `spec` map, and no other key changes. */
  lemma RegisterEffect(t: Tables, r: Registration)
    ensures Register(t, r).fullSchema[KeyOf(r)] == r.schema
    ensures Register(t, r).topAllowed[KeyOf(r)] == Props(r.schema).Keys
    ensures forall key :: key != KeyOf(r) ==>
      (key in Register(t, r).fullSchema <==> key in t.fullSchema)
      && (key in t.fullSchema ==> Register(t, r).fullSchema[key] == t.fullSchema[key])
      && (key in Register(t, r).allowed <==> key in t.allowed)
      && (key in t.allowed ==> Register(t, r).allowed[key] == t.allowed[key])
    ensures r.api in Apis(Register(t, r), r.kind)
    ensures forall a :: a in Apis(Register(t, r), r.kind) <==> a in Apis(t, r.kind) || a == r.api
    ensures forall kind :: kind != r.kind ==> Apis(Register(t, r), kind) == Apis(t, kind)
    ensures SpecSchema(r.schema).Some? ==>
      Register(t, r).allowed[KeyOf(r)] == Collect(SpecSchema(r.schema).value, "spec")
    ensures SpecSchema(r.schema).None? ==> Register(t, r).allowed == t.allowed
  {
  }

  /** The allow-list of a key survives a later registration of that key whose
      schema has no `spec` map, although the stored schema is replaced. */
  lemma StaleAllowList(t: Tables, r: Registration)
    requires Inv(t) && KeyOf(r) in t.fullSchema && SpecSchema(t.fullSchema[KeyOf(r)]).Some?
    requires SpecSchema(r.schema).None?
    ensures KeyOf(r) in Register(t, r).allowed
    ensures Register(t, r).allowed[KeyOf(r)] == Collect(SpecSchema(t.fullSchema[KeyOf(r)]).value, "spec")
    ensures SpecSchema(Register(t, r).fullSchema[KeyOf(r)]).None?
  {
  }

  lemma {:induction false} FoldInv(t: Tables, log: seq<Registration>)
    requires Inv(t)
    ensures Inv(Fold(t, log))
    decreases |log|
  {
    if log != [] {
      RegisterInv(t, log[0]);
      FoldInv(Register(t, log[0]), log[1..]);
    }
  }

  /** Folding one more registration is registering it on the folded tables. */
  lemma {:induction false} FoldSnoc(t: Tables, log: seq<Registration>, r: Registration)
    ensures Fold(t, log + [r]) == Register(Fold(t, log), r)
    decreases |log|
  {
    if log == [] {
      assert log + [r] == [r];
    } else {
      assert (log + [r])[1..] == log[1..] + [r];
      FoldSnoc(Register(t, log[0]), log[1..], r);
    }
  }

  lemma {:induction false} FoldAppend(t: Tables, a: seq<Registration>, b: seq<Registration>)
    ensures Fold(t, a + b) == Fold(Fold(t, a), b)
    decreases |a|
  {
    if a == [] {
      assert a + b == b;
    } else {
      assert (a + b)[1..] == a[1..] + b;
      FoldAppend(Register(t, a[0]), a[1..], b);
    }
  }

  /** The schema of the last registration for `key`, scanning from the end. */
  function LastFor(log: seq<Registration>, key: string): (r: Option<Object>)
    ensures r.None? <==> forall i :: 0 <= i < |log| ==> KeyOf(log[i]) != key
    decreases |log|
  {
    if log == [] then None
    else if KeyOf(log[|log| - 1]) == key then Some(log[|log| - 1].schema)
    else LastFor(log[..|log| - 1], key)
  }

  /** Last writer wins: after a sequence of registrations a key holds the schema
      of the last registration for it, or its earlier schema when there was none. */
  lemma {:induction false} LastWriterWins(t: Tables, log: seq<Registration>, key: string)
    ensures LastFor(log, key).Some? ==>
      key in Fold(t, log).fullSchema && Fold(t, log).fullSchema[key] == LastFor(log, key).value
    ensures LastFor(log, key).None? ==>
      (key in Fold(t, log).fullSchema <==> key in t.fullSchema)
      && (key in t.fullSchema ==> Fold(t, log).fullSchema[key] == t.fullSchema[key])
    decreases |log|
  {
    if log != [] {
      var init, last := log[..|log| - 1], log[|log| - 1];
      assert log == init + [last];
      FoldSnoc(t, init, last);
      LastWriterWins(t, init, key);
    }
  }

  /** The apiVersions registered for `kind` by a log. */
  function ApisOf(log: seq<Registration>, kind: string): set<string> {
    set i | 0 <= i < |log| && log[i].kind == kind :: log[i].api
  }

  lemma ApisOfSnoc(log: seq<Registration>, r: Registration, kind: string)
    ensures ApisOf(log + [r], kind) == ApisOf(log, kind) + (if r.kind == kind then {r.api} else {})
  {
    var l := log + [r];
    forall a | a in ApisOf(l, kind)
      ensures a in ApisOf(log, kind) + (if r.kind == kind then {r.api} else {})
    {
      var i :| 0 <= i < |l| && l[i].kind == kind && l[i].api == a;
      if i < |log| {
        assert log[i] == l[i];
      }
    }
    forall a | a in ApisOf(log, kind) ensures a in ApisOf(l, kind) {
      var i :| 0 <= i < |log| && log[i].kind == kind && log[i].api == a;
      assert l[i] == log[i];
    }
    if r.kind == kind {
      assert l[|log|] == r;
    }
  }

  /** The apiVersions of a kind only grow, in order of first registration, never
      repeat, and are exactly the earlier ones plus those registered for it. */
  lemma {:induction false} FoldApis(t: Tables, log: seq<Registration>, kind: string)
    requires ApisInv(t)
    ensures Apis(t, kind) <= Apis(Fold(t, log), kind)
    ensures NoDuplicates(Apis(Fold(t, log), kind))
    ensures forall a :: a in Apis(Fold(t, log), kind) <==> a in Apis(t, kind) || a in ApisOf(log, kind)
    decreases |log|
  {
    if log == [] {
    } else {
      var init, last := log[..|log| - 1], log[|log| - 1];
      assert log == init + [last];
      FoldSnoc(t, init, last);
      FoldApis(t, init, kind);
      FoldApisInv(t, init);
      var f := Fold(t, init);
      RegisterApisInv(f, last);
      ApisOfSnoc(init, last, kind);
      if last.kind == kind {
        assert Apis(Register(f, last), kind) == Apis(f, kind)
          || Apis(Register(f, last), kind) == Apis(f, kind) + [last.api];
      } else {
        assert Apis(Register(f, last), kind) == Apis(f, kind);
      }
    }
  }

  lemma {:induction false} FoldApisInv(t: Tables, log: seq<Registration>)
    requires ApisInv(t)
    ensures ApisInv(Fold(t, log))
    decreases |log|
  {
    if log != [] {
      RegisterApisInv(t, log[0]);
      FoldApisInv(Register(t, log[0]), log[1..]);
    }
  }

  // ---- which registrations each ingestion path performs

  /** The apiVersion of a GVK: `group/version`, or the bare version for the core group. */
  function ApiVersion(group: string, version: string): string {
    if group != "" then group + "/" + version else version
  }

  /** The apiVersion determines group and version when the version has no `/`. */
  lemma ApiVersionInjective(g1: string, v1: string, g2: string, v2: string)
    requires '/' !in v1 && '/' !in v2 && '/' !in g1 && '/' !in g2
    requires ApiVersion(g1, v1) == ApiVersion(g2, v2)
    ensures g1 == g2 && v1 == v2
  {
    var a := ApiVersion(g1, v1);
    if g1 != "" && g2 != "" {
      assert a[|g1|] == '/' && a[|g2|] == '/';
      assert forall i :: 0 <= i < |g1| ==> a[i] == g1[i];
      assert forall i :: 0 <= i < |g2| ==> a[i] == g2[i];
      assert |g1| == |g2|;
      assert g1 == a[..|g1|] == g2;
      assert v1 == a[|g1| + 1..] == v2;
    }
  }

  /** The `(api, kind)` one x-kubernetes-group-version-kind entry registers:
      none for an empty version or kind, or a kind ending in `List`. */
  function GvkKey(gvk: Value): Option<(string, string)> {
    var gm := if gvk.Obj? then gvk.fields else map[];
    var group, version, kind := StrAt(gm, "group"), StrAt(gm, "version"), StrAt(gm, "kind");
    if version == "" || kind == "" || HasSuffix(kind, "List") then None
    else Some((ApiVersion(group, version), kind))
  }

  /** The registrations of one schema of components.schemas, in list order. */
  function SchemaRegs(v: Value): seq<Registration> {
    if v.Obj? then GvkRegs(v.fields, ListAt(v.fields, "x-kubernetes-group-version-kind").GetOr([]))
    else []
  }

  function GvkRegs(s: Object, gvks: seq<Value>): (r: seq<Registration>)
    ensures |r| <= |gvks|
    ensures forall x :: x in r ==> x.schema == s
  {
    if gvks == [] then []
    else
      (if GvkKey(gvks[0]).Some? then [Registration(GvkKey(gvks[0]).value.0, GvkKey(gvks[0]).value.1, s)] else [])
      + GvkRegs(s, gvks[1..])
  }

  /** Registrations of a GVK list, one entry at a time. */
  lemma GvkRegsCons(s: Object, gvks: seq<Value>, log: seq<Registration>)
    requires gvks != []
    ensures GvkKey(gvks[0]).None? ==> log + GvkRegs(s, gvks) == log + GvkRegs(s, gvks[1..])
    ensures GvkKey(gvks[0]).Some? ==>
      var key := GvkKey(gvks[0]).value;
      log + GvkRegs(s, gvks) == (log + [Registration(key.0, key.1, s)]) + GvkRegs(s, gvks[1..])
  {
    var head := GvkKey(gvks[0]);
    var rest := GvkRegs(s, gvks[1..]);
    if head.Some? {
      var r := Registration(head.value.0, head.value.1, s);
      assert GvkRegs(s, gvks) == [r] + rest;
      assert log + ([r] + rest) == (log + [r]) + rest;
    } else {
      assert GvkRegs(s, gvks) == [] + rest;
      assert [] + rest == rest;
    }
  }

  /** A GVK entry is registered exactly when it has a version and a non-List
      kind, under ApiVersion(group, version); one schema may be registered
      under several keys. */
  lemma {:induction false} GvkRegsSpec(s: Object, gvks: seq<Value>, api: string, kind: string)
    ensures Registration(api, kind, s) in GvkRegs(s, gvks) <==>
      exists i :: 0 <= i < |gvks| && GvkKey(gvks[i]) == Some((api, kind))
  {
    if gvks != [] {
      GvkRegsSpec(s, gvks[1..], api, kind);
      if exists i :: 0 <= i < |gvks| && GvkKey(gvks[i]) == Some((api, kind)) {
        var i :| 0 <= i < |gvks| && GvkKey(gvks[i]) == Some((api, kind));
        if i > 0 {
          assert gvks[1..][i - 1] == gvks[i];
        }
      }
      if exists i :: 0 <= i < |gvks| - 1 && GvkKey(gvks[1..][i]) == Some((api, kind)) {
        var i :| 0 <= i < |gvks| - 1 && GvkKey(gvks[1..][i]) == Some((api, kind));
        assert gvks[i + 1] == gvks[1..][i];
      }
    }
  }

  /** The registrations of ingestOpenAPI for the schemas under keys `ks`, in no
      particular order. */
  ghost function OpenAPIRegs(schemas: Object, ks: set<string>): multiset<Registration>
    requires ks <= schemas.Keys
    decreases ks
  {
    if ks == {} then multiset{}
    else
      var k :| k in ks;
      multiset(SchemaRegs(schemas[k])) + OpenAPIRegs(schemas, ks - {k})
  }

  /** The choice of key does not matter. */
  lemma {:induction false} OpenAPIRegsPick(schemas: Object, ks: set<string>, k: string)
    requires ks <= schemas.Keys && k in ks
    ensures OpenAPIRegs(schemas, ks) == multiset(SchemaRegs(schemas[k])) + OpenAPIRegs(schemas, ks - {k})
    decreases ks
  {
    var j :| j in ks && OpenAPIRegs(schemas, ks) ==
      multiset(SchemaRegs(schemas[j])) + OpenAPIRegs(schemas, ks - {j});
    if j != k {
      OpenAPIRegsPick(schemas, ks - {j}, k);
      OpenAPIRegsPick(schemas, ks - {k}, j);
      assert ks - {j} - {k} == ks - {k} - {j};
    }
  }

  /** The schemas ingestOpenAPI reads: components.schemas, empty when absent. */
  function ComponentSchemas(spec: Object): Object {
    MapOrEmpty(MapOrEmpty(spec, "components"), "schemas")
  }

  /** CRD defaults: `type: object` and empty `properties` when absent. */
  function WithDefaults(schema: Object): (r: Object)
    ensures "type" in r && "properties" in r
    ensures forall k :: k in schema ==> k in r && r[k] == schema[k]
    ensures forall k :: k in r && k !in schema ==> k in {"type", "properties"}
  {
    var typed := if "type" in schema then schema else schema["type" := Str("object")];
    if "properties" in typed then typed else typed["properties" := Obj(map[])]
  }

  /** The registration one CRD version entry yields, if any: not for a
      non-map entry, `served: false`, or an empty name. */
  function VersionReg(group: string, kind: string, v: Value): Option<Registration> {
    if !v.Obj? then None
    else
      var vm := v.fields;
      var ver := StrAt(vm, "name");
      var schema := MapAt(MapOrEmpty(vm, "schema"), "openAPIV3Schema").GetOr(map[]);
      if BoolAt(vm, "served") == Some(false) || ver == "" then None
      else Some(Registration(group + "/" + ver, kind, WithDefaults(schema)))
  }

  function VersionRegs(group: string, kind: string, vs: seq<Value>): (r: seq<Registration>)
    ensures |r| <= |vs|
  {
    if vs == [] then []
    else
      (if VersionReg(group, kind, vs[0]).Some? then [VersionReg(group, kind, vs[0]).value] else [])
      + VersionRegs(group, kind, vs[1..])
  }

  /** Registrations of a version list, one entry at a time. */
  lemma VersionRegsCons(group: string, kind: string, vs: seq<Value>, log: seq<Registration>)
    requires vs != []
    ensures VersionReg(group, kind, vs[0]).None? ==>
      log + VersionRegs(group, kind, vs) == log + VersionRegs(group, kind, vs[1..])
    ensures VersionReg(group, kind, vs[0]).Some? ==>
      log + VersionRegs(group, kind, vs)
      == (log + [VersionReg(group, kind, vs[0]).value]) + VersionRegs(group, kind, vs[1..])
  {
    OptionalConsAssoc(log, VersionReg(group, kind, vs[0]), VersionRegs(group, kind, vs[1..]));
  }

  /** Appending an optional head and a tail, one piece at a time. */
  lemma OptionalConsAssoc(log: seq<Registration>, head: Option<Registration>, rest: seq<Registration>)
    ensures head.None? ==> log + ((if head.Some? then [head.value] else []) + rest) == log + rest
    ensures head.Some? ==> log + ((if head.Some? then [head.value] else []) + rest) == (log + [head.value]) + rest
  {
    if head.None? {
      assert [] + rest == rest;
    }
  }

  /** ingestCRD: the served, named versions in list order; nothing for a CRD
      lacking group, kind or versions. */
  function CRDRegs(crd: Object): seq<Registration> {
    var spec := MapOrEmpty(crd, "spec");
    var group := StrAt(spec, "group");
    var kind := StrAt(MapOrEmpty(spec, "names"), "kind");
    var versions := ListAt(spec, "versions").GetOr([]);
    if group == "" || kind == "" || versions == [] then [] else VersionRegs(group, kind, versions)
  }

  /** Every registration of a CRD is under `group/name` for its kind, with the
      defaults filled in, and a version entry registers exactly when it is a map
      that is not `served: false` and has a name. */
  lemma VersionRegsSpec(group: string, kind: string, vs: seq<Value>)
    ensures forall r :: r in VersionRegs(group, kind, vs) ==>
      HasPrefix(r.api, group + "/") && r.kind == kind
      && "type" in r.schema && "properties" in r.schema
    ensures forall i :: 0 <= i < |vs| && VersionReg(group, kind, vs[i]).Some? ==>
      VersionReg(group, kind, vs[i]).value in VersionRegs(group, kind, vs)
  {
    VersionRegsShape(group, kind, vs);
    VersionRegsComplete(group, kind, vs);
  }

  /** The registration of one version entry. */
  lemma VersionRegShape(group: string, kind: string, v: Value)
    requires VersionReg(group, kind, v).Some?
    ensures var r := VersionReg(group, kind, v).value;
      HasPrefix(r.api, group + "/") && r.kind == kind && "type" in r.schema && "properties" in r.schema
  {
    var r := VersionReg(group, kind, v).value;
    var ver := StrAt(v.fields, "name");
    assert r.api == (group + "/") + ver;
  }

  lemma {:induction false} VersionRegsShape(group: string, kind: string, vs: seq<Value>)
    ensures forall r :: r in VersionRegs(group, kind, vs) ==>
      HasPrefix(r.api, group + "/") && r.kind == kind
      && "type" in r.schema && "properties" in r.schema
  {
    if vs != [] {
      VersionRegsShape(group, kind, vs[1..]);
      if VersionReg(group, kind, vs[0]).Some? {
        VersionRegShape(group, kind, vs[0]);
      }
    }
  }

  lemma {:induction false} VersionRegsComplete(group: string, kind: string, vs: seq<Value>)
    ensures forall i :: 0 <= i < |vs| && VersionReg(group, kind, vs[i]).Some? ==>
      VersionReg(group, kind, vs[i]).value in VersionRegs(group, kind, vs)
  {
    if vs != [] {
      VersionRegsComplete(group, kind, vs[1..]);
      forall i | 0 <= i < |vs| && VersionReg(group, kind, vs[i]).Some?
        ensures VersionReg(group, kind, vs[i]).value in VersionRegs(group, kind, vs)
      {
        if i > 0 {
          assert vs[1..][i - 1] == vs[i];
        }
      }
    }
  }
}
