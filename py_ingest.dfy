/**
 * What DiscoveryCache.refresh of discovery.py reads from the listing and the
 * downloaded documents, as functions: which entries it downloads, how a
 * payload splits into documents, how a document is dispatched, and which
 * `_register_schema` calls `_ingest_openapi` and `_ingest_crd` make. None
 * stands for a Python exception, which ends the refresh.
 */
module PyIngest {
  import opened Wrappers
  import opened Strings
  import opened Json
  import opened PyCollect
  import opened PyRegistry
  import Registry
  import Discovery

  const GitHubRepo: string := "datum-cloud/network-services-operator"
  const GitHubRef: string := "main"
  const GitHubDir: string := "config/crd/bases"
  const GvkField: string := "x-kubernetes-group-version-kind"

  /** The GitHub contents API address of the CRD directory. */
  const DirURL: string :=
    "https://api.github.com/repos/" + GitHubRepo + "/contents/" + GitHubDir + "?ref=" + GitHubRef

  // ---- _ingest_openapi

  /** The key of one x-kubernetes-group-version-kind entry: Some(None) when it
      is skipped (a falsy version or kind, or a kind ending in `List`), None
      when Python raises (an entry that is not a dict) or when a name is not a
      string. */
  function GvkKeyOf(gvk: Value): Option<Option<Key>> {
    if !gvk.Obj? then None
    else
      var g := gvk.fields;
      var group, version, kind := GetOr(g, "group", Str("")), GetOr(g, "version", Null), GetOr(g, "kind", Null);
      if !Truthy(version) || !Truthy(kind) then Some(None)
      else if !version.Str? || !kind.Str? || (Truthy(group) && !group.Str?) then None
      else if HasSuffix(kind.s, "List") then Some(None)
      else Some(Some((if Truthy(group) then group.s + "/" + version.s else version.s, kind.s)))
  }

  /** The key rule is the Go one: `group/version`, or the bare version when
      the group is empty, and no key for an empty version or kind or a `List`
      kind. */
  lemma SameKeyRule(gvk: Value)
    requires GvkKeyOf(gvk).Some?
    ensures GvkKeyOf(gvk).value == Registry.GvkKey(gvk)
  {
  }

  /** `a` in front of the outcome of the rest of a loop. */
  function Prepend(a: seq<Reg>, rest: Option<seq<Reg>>): Option<seq<Reg>> {
    if rest.None? then None else Some(a + rest.value)
  }

  /** The `_register_schema` calls for a GVK list, in list order. */
  function GvkRegs(s: Object, gvks: seq<Value>): (r: Option<seq<Reg>>)
    ensures r.Some? ==> AllOk(r.value) && forall x :: x in r.value ==> x.schema == s
  {
    if gvks == [] then Some([])
    else
      var head := GvkKeyOf(gvks[0]);
      if head.None? then None
      else if head.value.None? then GvkRegs(s, gvks[1..])
      else if !RegOk(s) then None
      else Prepend([Reg(head.value.value.0, head.value.value.1, s)], GvkRegs(s, gvks[1..]))
  }

  /** One value of components.schemas: it must be a dict; a falsy GVK list is
      skipped and any other non-list one raises when iterated. */
  function SchemaRegs(v: Value): Option<seq<Reg>> {
    if !v.Obj? then None
    else
      var gv := GetOr(v.fields, GvkField, Null);
      if !Truthy(gv) then Some([])
      else if !gv.Arr? then None
      else GvkRegs(v.fields, gv.items)
  }

  /** `(spec.get("components", {}) or {}).get("schemas", {}) or {}`, None when
      a `.get` or `.items()` raises. */
  function SchemasOf(doc: Object): Option<Object> {
    var comps := DictOr(GetOr(doc, "components", Obj(map[])));
    if comps.None? then None else DictOr(GetOr(comps.value, "schemas", Obj(map[])))
  }

  /** `_ingest_openapi(doc)` returns normally. */
  predicate OpenAPIOk(doc: Object) {
    SchemasOf(doc).Some? && forall k :: k in SchemasOf(doc).value ==> SchemaRegs(SchemasOf(doc).value[k]).Some?
  }

  /** The registrations of `_ingest_openapi` for the schemas under keys `ks`,
      in no particular order. */
  ghost function OpenAPIRegs(schemas: Object, ks: set<string>): multiset<Reg>
    requires ks <= schemas.Keys && forall k :: k in ks ==> SchemaRegs(schemas[k]).Some?
    decreases ks
  {
    if ks == {} then multiset{}
    else
      var k :| k in ks;
      multiset(SchemaRegs(schemas[k]).value) + OpenAPIRegs(schemas, ks - {k})
  }

  /** The choice of key does not matter. */
  lemma {:induction false} OpenAPIRegsPick(schemas: Object, ks: set<string>, k: string)
    requires ks <= schemas.Keys && forall k :: k in ks ==> SchemaRegs(schemas[k]).Some?
    requires k in ks
    ensures OpenAPIRegs(schemas, ks) == multiset(SchemaRegs(schemas[k]).value) + OpenAPIRegs(schemas, ks - {k})
    decreases ks
  {
    var j :| j in ks && OpenAPIRegs(schemas, ks) ==
      multiset(SchemaRegs(schemas[j]).value) + OpenAPIRegs(schemas, ks - {j});
    if j != k {
      OpenAPIRegsPick(schemas, ks - {j}, k);
      OpenAPIRegsPick(schemas, ks - {k}, j);
      assert ks - {j} - {k} == ks - {k} - {j};
    }
  }

  /** Every registration of `_ingest_openapi` is of a schema of components.schemas. */
  lemma {:induction false} OpenAPIRegsSchemas(schemas: Object, ks: set<string>, r: Reg)
    requires ks <= schemas.Keys && forall k :: k in ks ==> SchemaRegs(schemas[k]).Some?
    requires r in OpenAPIRegs(schemas, ks)
    ensures exists k :: k in ks && r in SchemaRegs(schemas[k]).value
    decreases ks
  {
    var k :| k in ks && OpenAPIRegs(schemas, ks) ==
      multiset(SchemaRegs(schemas[k]).value) + OpenAPIRegs(schemas, ks - {k});
    if r !in SchemaRegs(schemas[k]).value {
      OpenAPIRegsSchemas(schemas, ks - {k}, r);
    }
  }

  // ---- _ingest_crd

  /** The registration of one CRD version entry: Some(None) when it is
      skipped (falsy `served`, which defaults to true; a falsy name; an
      `openAPIV3Schema` that is not a dict), None when Python raises (an entry
      or `schema` that is not a dict, or a schema `_register_schema` rejects)
      or when a name is not a string. */
  function VersionRegOf(group: Value, kind: Value, v: Value): Option<Option<Reg>> {
    if !v.Obj? then None
    else
      var vm := v.fields;
      if !Truthy(GetOr(vm, "served", Bool(true))) then Some(None)
      else
        var ver := GetOr(vm, "name", Null);
        var sch := DictOr(GetOr(vm, "schema", Null));
        if sch.None? then None
        else
          var openapi := Or(GetOr(sch.value, "openAPIV3Schema", Null), Obj(map[]));
          if !Truthy(ver) || !openapi.Obj? then Some(None)
          else if !ver.Str? || !group.Str? || !kind.Str? then None
          else if !RegOk(Registry.WithDefaults(openapi.fields)) then None
          else Some(Some(Reg(group.s + "/" + ver.s, kind.s, Registry.WithDefaults(openapi.fields))))
  }

  /** The `_register_schema` calls for a version list, in list order. */
  function VersionRegs(group: Value, kind: Value, vs: seq<Value>): (r: Option<seq<Reg>>)
    ensures r.Some? ==> AllOk(r.value)
  {
    if vs == [] then Some([])
    else
      var head := VersionRegOf(group, kind, vs[0]);
      if head.None? then None
      else if head.value.None? then VersionRegs(group, kind, vs[1..])
      else Prepend([head.value.value], VersionRegs(group, kind, vs[1..]))
  }

  /** `_ingest_crd(crd)`: nothing for a falsy group, kind or version list;
      `spec`, `names` and the version list must otherwise be a dict, a dict
      and a list. */
  function CRDRegs(crd: Object): Option<seq<Reg>> {
    var spec := DictOr(GetOr(crd, "spec", Null));
    if spec.None? then None
    else
      var group := GetOr(spec.value, "group", Null);
      var names := DictOr(GetOr(spec.value, "names", Null));
      if names.None? then None
      else
        var kind := GetOr(names.value, "kind", Null);
        var versions := GetOr(spec.value, "versions", Null);
        if !Truthy(group) || !Truthy(kind) || !Truthy(versions) then Some([])
        else if !versions.Arr? then None
        else VersionRegs(group, kind, versions.items)
  }

  /** A version entry without `served` is registered like one with
      `served: true`, under `group/name`, with `type` and `properties`
      defaulted. */
  lemma ServedDefault(group: string, kind: string, vm: Object)
    requires group != "" && kind != ""
    requires "served" !in vm
    requires VersionRegOf(Str(group), Str(kind), Obj(vm)).Some?
    ensures VersionRegOf(Str(group), Str(kind), Obj(vm)) ==
      VersionRegOf(Str(group), Str(kind), Obj(vm["served" := Bool(true)]))
    ensures VersionRegOf(Str(group), Str(kind), Obj(vm)).value.Some? ==>
      var r := VersionRegOf(Str(group), Str(kind), Obj(vm)).value.value;
      && r.api == group + "/" + vm["name"].s && r.kind == kind
      && "type" in r.schema && "properties" in r.schema
  {
    assert GetOr(vm, "served", Bool(true)) == GetOr(vm["served" := Bool(true)], "served", Bool(true));
    var vm' := vm["served" := Bool(true)];
    assert GetOr(vm, "name", Null) == GetOr(vm', "name", Null);
    assert GetOr(vm, "schema", Null) == GetOr(vm', "schema", Null);
  }

  /** Every CRD registration is under `group/name` for the CRD's kind, with
      `type` and `properties` present. */
  lemma {:induction false} VersionRegsShape(group: string, kind: string, vs: seq<Value>)
    requires VersionRegs(Str(group), Str(kind), vs).Some?
    ensures forall r :: r in VersionRegs(Str(group), Str(kind), vs).value ==>
      HasPrefix(r.api, group + "/") && r.kind == kind && "type" in r.schema && "properties" in r.schema
  {
    if vs != [] {
      VersionRegsShape(group, kind, vs[1..]);
      var head := VersionRegOf(Str(group), Str(kind), vs[0]);
      if head.value.Some? {
        var ver := GetOr(vs[0].fields, "name", Null);
        assert head.value.value.api == (group + "/") + ver.s;
      }
    }
  }

  // ---- dispatch

  datatype DocKind = CRDDoc | OpenAPIDoc | OtherDoc

  /** The dispatch of refresh: a CRD of apiextensions.k8s.io, else a
      document whose `components` contains `schemas`; None when `doc.get`
      raises (a JSON payload that is not an object) or when `in` does (a
      truthy number or boolean `components`). */
  function Dispatch(doc: Value): (r: Option<DocKind>)
    ensures r == Some(CRDDoc) <==> doc.Obj? && Discovery.IsCRD(doc.fields)
    ensures r.Some? && doc.Obj? && Discovery.HasSchemas(doc.fields) && !Discovery.IsCRD(doc.fields) ==>
      r == Some(OpenAPIDoc)
    ensures r == Some(OpenAPIDoc) ==> doc.Obj? && "components" in doc.fields
  {
    if !doc.Obj? then None
    else
      var d := doc.fields;
      var av := GetOr(d, "apiVersion", Str(""));
      if Lookup(d, "kind") == Some(Str("CustomResourceDefinition")) && av.Str? && HasPrefix(av.s, "apiextensions.k8s.io/") then
        Some(CRDDoc)
      else if "components" !in d then Some(OtherDoc)
      else
        var has := In("schemas", Or(d["components"], Obj(map[])));
        if has.None? then None else if has.value then Some(OpenAPIDoc) else Some(OtherDoc)
  }

  /** Ingesting `doc` returns normally. */
  predicate DocOk(doc: Value) {
    && Dispatch(doc).Some?
    && (Dispatch(doc).value == CRDDoc ==> CRDRegs(doc.fields).Some?)
    && (Dispatch(doc).value == OpenAPIDoc ==> OpenAPIOk(doc.fields))
  }

  /** `l` is a run of the dispatch on `doc` that returned normally. */
  ghost predicate DocLog(doc: Value, l: seq<Reg>) {
    && DocOk(doc)
    && AllOk(l)
    && match Dispatch(doc).value
       case CRDDoc => l == CRDRegs(doc.fields).value
       case OpenAPIDoc =>
         multiset(l) == OpenAPIRegs(SchemasOf(doc.fields).value, SchemasOf(doc.fields).value.Keys)
       case OtherDoc => l == []
  }

  // ---- _fetch_json_or_yaml_docs

  /** A downloaded file: its text, what `json.loads` gives (None when it
      raises) and the documents `yaml.safe_load_all` yields (None when it
      raises). */
  datatype Payload = Payload(text: string, json: Option<Value>, yaml: Option<seq<Value>>)

  /** The characters `str.isspace` accepts, restricted to the Latin-1 range. */
  predicate PySpace(c: char) {
    c == ' ' || '\t' <= c <= '\r' || '\U{1C}' <= c <= '\U{1F}' || c == '\U{85}' || c == '\U{A0}'
  }

  /** `str.lstrip()` */
  function LStrip(s: string): (r: string)
    ensures |r| <= |s| && r == s[|s| - |r|..]
    ensures r == [] || !PySpace(r[0])
    ensures forall i :: 0 <= i < |s| - |r| ==> PySpace(s[i])
  {
    if s != [] && PySpace(s[0]) then LStrip(s[1..]) else s
  }

  /** The dict documents of a YAML stream, in order. */
  function Dicts(vs: seq<Value>): (r: seq<Value>)
    ensures forall v :: v in r <==> v in vs && v.Obj?
    ensures |r| <= |vs|
  {
    if vs == [] then []
    else Dicts(vs[..|vs| - 1]) + (if vs[|vs| - 1].Obj? then [vs[|vs| - 1]] else [])
  }

  /** The payload is read as one JSON document. */
  predicate JsonFirst(p: Payload) {
    var text := LStrip(p.text);
    text != [] && text[0] in {'{', '['} && p.json.Some?
  }

  /** `_fetch_json_or_yaml_docs` after the download: the JSON document when
      the text starts with `{` or `[` and parses, otherwise the dict YAML
      documents, an error when there are none. */
  function Docs(url: string, p: Payload): (r: Result<seq<Value>, string>)
    ensures r.Ok? ==> r.value != []
    ensures r.Ok? && !JsonFirst(p) ==> forall d :: d in r.value ==> d.Obj?
    ensures r.Ok? && JsonFirst(p) ==> r.value == [p.json.value]
    ensures !JsonFirst(p) && p.yaml.Some? ==>
      (r.Err? <==> forall d :: d in p.yaml.value ==> !d.Obj?)
  {
    if JsonFirst(p) then Ok([p.json.value])
    else if p.yaml.None? then Err("YAML error")
    else if Dicts(p.yaml.value) == [] then Err("Unsupported or empty document at " + url)
    else
      assert Dicts(p.yaml.value)[0] in Dicts(p.yaml.value);
      Ok(Dicts(p.yaml.value))
  }

  // ---- the listing

  datatype Action = Skip | Fetch(url: string)

  /** What refresh does with one listing entry: skip it unless it is a
      `file` named `*.yaml` or `*.yml`, else download its `download_url`, or
      the raw.githubusercontent.com address of its `path`. None when Python
      raises: an entry that is not a dict, a name or path that is not a
      string, a truthy `download_url` that is not one. */
  function EntryAction(it: Value): Option<Action> {
    if !it.Obj? then None
    else
      var e := it.fields;
      var name := GetOr(e, "name", Str(""));
      if Lookup(e, "type") != Some(Str("file")) then Some(Skip)
      else if !name.Str? then None
      else if !(HasSuffix(name.s, ".yaml") || HasSuffix(name.s, ".yml")) then Some(Skip)
      else
        var du := GetOr(e, "download_url", Null);
        var path := GetOr(e, "path", Str(""));
        if Truthy(du) then (if du.Str? then Some(Fetch(du.s)) else None)
        else if !path.Str? then None
        else Some(Fetch("https://raw.githubusercontent.com/" + GitHubRepo + "/" + GitHubRef + "/"
                        + TrimLeftChar(path.s, '/')))
  }

  /** Downloading and ingesting the file at `url` returns normally. */
  predicate FileOk(url: string, download: string -> Result<Payload, string>) {
    && download(url).Ok?
    && Docs(url, download(url).value).Ok?
    && forall d :: d in Docs(url, download(url).value).value ==> DocOk(d)
  }

  /** One listing entry is processed without an exception. */
  predicate EntryOk(it: Value, download: string -> Result<Payload, string>) {
    && EntryAction(it).Some?
    && (EntryAction(it).value.Fetch? ==> FileOk(EntryAction(it).value.url, download))
  }

  /** The documents refresh dispatches for one entry. */
  function EntryDocs(it: Value, download: string -> Result<Payload, string>): seq<Value> {
    if EntryOk(it, download) && EntryAction(it).value.Fetch? then
      Docs(EntryAction(it).value.url, download(EntryAction(it).value.url).value).value
    else []
  }

  /** The documents refresh dispatches for a listing, in order. */
  function AllDocs(entries: seq<Value>, download: string -> Result<Payload, string>): seq<Value> {
    if entries == [] then []
    else AllDocs(entries[..|entries| - 1], download) + EntryDocs(entries[|entries| - 1], download)
  }

  /** refresh returns normally: the listing was fetched and is a list, and
      every entry is processed without an exception. */
  predicate RefreshOk(listing: Result<Value, string>, download: string -> Result<Payload, string>) {
    && listing.Ok?
    && listing.value.Arr?
    && forall i :: 0 <= i < |listing.value.items| ==> EntryOk(listing.value.items[i], download)
  }

  /** `ls[j]` is a run of the dispatch on `docs[j]`, for every j. */
  ghost predicate DocLogs(docs: seq<Value>, ls: seq<seq<Reg>>) {
    |docs| == |ls| && forall j :: 0 <= j < |docs| ==> DocLog(docs[j], ls[j])
  }

  function Flat(ls: seq<seq<Reg>>): seq<Reg> {
    if ls == [] then [] else Flat(ls[..|ls| - 1]) + ls[|ls| - 1]
  }

  lemma {:induction false} FlatOk(ls: seq<seq<Reg>>)
    requires forall j :: 0 <= j < |ls| ==> AllOk(ls[j])
    ensures AllOk(Flat(ls))
  {
    if ls != [] {
      FlatOk(ls[..|ls| - 1]);
    }
  }
}
