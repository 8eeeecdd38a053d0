/**
 * DiscoveryCache of discovery.py: four dicts that refresh clears and then
 * fills from the CRD files of a GitHub directory. Fetching is not modelled:
 * refresh receives the decoded directory listing and a download function.
 * A Python exception is returned as an error; it ends the refresh.
 */
module PyDiscovery {
  import opened Wrappers
  import opened Strings
  import opened Json
  import opened PyCollect
  import opened PyRegistry
  import opened PyIngest
  import Registry

  class DiscoveryCache {
    var allowed: map<Key, set<string>>
    var topAllowed: map<Key, set<string>>
    var kind2api: map<string, seq<string>>
    var fullSchema: map<Key, Object>

    function State(): Tables
      reads this
    {
      Tables(allowed, topAllowed, kind2api, fullSchema)
    }

    predicate Valid()
      reads this
    {
      Inv(State())
    }

    /** The empty lookup tables of `__init__`, which then calls Refresh. */
    constructor ()
      ensures State() == Empty() && Valid()
    {
      allowed, topAllowed, kind2api, fullSchema := map[], map[], map[], map[];
    }

    /** The four `clear()` calls that start refresh. */
    method Clear()
      modifies this
      ensures State() == Empty() && Valid()
    {
      allowed := map[];
      topAllowed := map[];
      kind2api := map[];
      fullSchema := map[];
      EmptyInv();
    }

    /** `_register_schema`: the schema and the kind's apiVersion list are
        written first, so they change even when reading `properties` or
        walking `spec` raises afterwards. */
    method RegisterSchema(api: string, kind: string, schema: Object) returns (err: Option<string>)
      modifies this
      ensures err.None? <==> RegOk(schema)
      ensures err.None? ==> State() == Register(old(State()), Reg(api, kind, schema))
      ensures fullSchema == old(fullSchema)[(api, kind) := schema]
      ensures kind2api == old(Register(Tables(map[], map[], kind2api, map[]), Reg(api, kind, map[])).kind2api)
      ensures err.Some? ==> allowed == old(allowed)
      ensures err.Some? ==>
        topAllowed == (if PropsOf(schema).Some? then old(topAllowed)[(api, kind) := PropsOf(schema).value.Keys]
                       else old(topAllowed))
    {
      StoreSchema(api, kind, schema);
      err := StoreProps(api, kind, schema);
    }

    /** The first half of `_register_schema`: the schema itself, and `api`
        appended to the kind's list unless already there. */
    method StoreSchema(api: string, kind: string, schema: Object)
      modifies this
      ensures fullSchema == old(fullSchema)[(api, kind) := schema]
      ensures kind2api == old(kind2api)[kind := if api in Apis(old(State()), kind) then Apis(old(State()), kind) else Apis(old(State()), kind) + [api]]
      ensures allowed == old(allowed) && topAllowed == old(topAllowed)
    {
      fullSchema := fullSchema[(api, kind) := schema];
      var apis := if kind in kind2api then kind2api[kind] else [];
      kind2api := kind2api[kind := apis];
      if api !in kind2api[kind] {
        kind2api := kind2api[kind := kind2api[kind] + [api]];
      }
    }

    /** The second half: the top-level names, then the `spec` paths when the
        schema has a `spec` property; either read can raise. */
    method StoreProps(api: string, kind: string, schema: Object) returns (err: Option<string>)
      modifies this
      ensures err.None? <==> RegOk(schema)
      ensures fullSchema == old(fullSchema) && kind2api == old(kind2api)
      ensures PropsOf(schema).Some? ==> topAllowed == old(topAllowed)[(api, kind) := PropsOf(schema).value.Keys]
      ensures PropsOf(schema).None? ==> topAllowed == old(topAllowed)
      ensures err.Some? ==> allowed == old(allowed)
      ensures err.None? ==>
        allowed == (if "spec" in PropsOf(schema).value
                    then old(allowed)[(api, kind) := SpecPathsOf(PropsOf(schema).value["spec"]).value]
                    else old(allowed))
    {
      var props := DictOr(GetOr(schema, "properties", Obj(map[])));
      if props.None? {
        return Some("AttributeError: properties has no keys()");
      }
      topAllowed := topAllowed[(api, kind) := props.value.Keys];
      if "spec" in props.value {
        var s := SpecPathsOf(props.value["spec"]);
        if s.None? {
          return Some("AttributeError: a spec sub-schema has no get()");
        }
        allowed := allowed[(api, kind) := s.value];
      }
      return None;
    }

    /** `_ingest_openapi`: every GVK of every schema of components.schemas is
        registered, the schemas taken in some order; it raises exactly when
        some schema or GVK entry is malformed. */
    method IngestOpenAPI(spec: Object) returns (err: Option<string>, ghost log: seq<Reg>)
      modifies this
      ensures err.None? <==> OpenAPIOk(spec)
      ensures err.None? ==>
        && AllOk(log) && State() == Fold(old(State()), log)
        && multiset(log) == OpenAPIRegs(SchemasOf(spec).value, SchemasOf(spec).value.Keys)
    {
      log := [];
      var schemas := SchemasOf(spec);
      if schemas.None? {
        return Some("AttributeError: components or schemas is not a dict"), log;
      }
      var m := schemas.value;
      var rest := m.Keys;
      while rest != {}
        invariant rest <= m.Keys
        invariant forall k :: k in m.Keys - rest ==> SchemaRegs(m[k]).Some?
        invariant AllOk(log) && State() == Fold(old(State()), log)
        invariant multiset(log) == OpenAPIRegs(m, m.Keys - rest)
        decreases rest
      {
        var k :| k in rest;
        var e, regs := IngestSchema(m[k]);
        if e.Some? {
          return e, log;
        }
        FoldAppend(old(State()), log, regs);
        OpenAPIRegsPick(m, m.Keys - rest + {k}, k);
        assert m.Keys - rest + {k} - {k} == m.Keys - rest;
        assert m.Keys - (rest - {k}) == m.Keys - rest + {k};
        log := log + regs;
        rest := rest - {k};
      }
      assert m.Keys - rest == m.Keys;
      return None, log;
    }

    /** One schema of components.schemas: its GVK entries in list order. */
    method IngestSchema(v: Value) returns (err: Option<string>, ghost regs: seq<Reg>)
      modifies this
      ensures err.None? <==> SchemaRegs(v).Some?
      ensures err.None? ==> regs == SchemaRegs(v).value && State() == Fold(old(State()), regs)
    {
      err, regs := None, [];
      if !v.Obj? {
        return Some("AttributeError: schema has no get()"), regs;
      }
      var s := v.fields;
      var gv := GetOr(s, GvkField, Null);
      if !Truthy(gv) {
        return None, regs;
      }
      if !gv.Arr? {
        return Some("AttributeError: a GVK entry has no get()"), regs;
      }
      var l := gv.items;
      var i := 0;
      assert l[0..] == l;
      PrependNil(GvkRegs(s, l));
      while i < |l|
        invariant 0 <= i <= |l|
        invariant GvkRegs(s, l) == Prepend(regs, GvkRegs(s, l[i..]))
        invariant AllOk(regs) && State() == Fold(old(State()), regs)
      {
        GvkStep(s, l, i);
        var e, r := IngestGvk(s, l[i]);
        if e.Some? {
          return e, regs;
        }
        if r.Some? {
          FoldSnoc(old(State()), regs, r.value);
          PrependSnoc(regs, r.value, GvkRegs(s, l[i + 1..]));
          regs := regs + [r.value];
        }
        i := i + 1;
      }
      assert regs + [] == regs;
    }

    /** One x-kubernetes-group-version-kind entry. */
    method IngestGvk(s: Object, gvk: Value) returns (err: Option<string>, ghost r: Option<Reg>)
      modifies this
      ensures err.None? <==> GvkKeyOf(gvk).Some? && (GvkKeyOf(gvk).value.Some? ==> RegOk(s))
      ensures err.None? ==>
        && r == (if GvkKeyOf(gvk).value.Some? then Some(Reg(GvkKeyOf(gvk).value.value.0, GvkKeyOf(gvk).value.value.1, s)) else None)
        && State() == (if r.Some? then Register(old(State()), r.value) else old(State()))
    {
      r := None;
      if !gvk.Obj? {
        return Some("AttributeError: a GVK entry has no get()"), r;
      }
      var g := gvk.fields;
      var group, version, kind := GetOr(g, "group", Str("")), GetOr(g, "version", Null), GetOr(g, "kind", Null);
      if !Truthy(version) || !Truthy(kind) {
        return None, r;
      }
      if !version.Str? || !kind.Str? || (Truthy(group) && !group.Str?) {
        return Some("a non-string group, version or kind"), r;
      }
      if HasSuffix(kind.s, "List") {
        return None, r;
      }
      var api := if Truthy(group) then group.s + "/" + version.s else version.s;
      err := RegisterSchema(api, kind.s, s);
      r := Some(Reg(api, kind.s, s));
    }

    /** `_ingest_crd`: the served, named versions registered in list order,
        each with its defaults filled in. */
    method IngestCRD(crd: Object) returns (err: Option<string>, ghost log: seq<Reg>)
      modifies this
      ensures err.None? <==> CRDRegs(crd).Some?
      ensures err.None? ==> log == CRDRegs(crd).value && AllOk(log) && State() == Fold(old(State()), log)
    {
      err, log := None, [];
      var spec := DictOr(GetOr(crd, "spec", Null));
      if spec.None? {
        return Some("AttributeError: spec has no get()"), log;
      }
      var group := GetOr(spec.value, "group", Null);
      var names := DictOr(GetOr(spec.value, "names", Null));
      if names.None? {
        return Some("AttributeError: names has no get()"), log;
      }
      var kind := GetOr(names.value, "kind", Null);
      var versions := GetOr(spec.value, "versions", Null);
      if !Truthy(group) || !Truthy(kind) || !Truthy(versions) {
        return None, log;
      }
      if !versions.Arr? {
        return Some("AttributeError: a version entry has no get()"), log;
      }
      var vs := versions.items;
      var i := 0;
      assert vs[0..] == vs;
      PrependNil(VersionRegs(group, kind, vs));
      while i < |vs|
        invariant 0 <= i <= |vs|
        invariant VersionRegs(group, kind, vs) == Prepend(log, VersionRegs(group, kind, vs[i..]))
        invariant AllOk(log) && State() == Fold(old(State()), log)
      {
        VersionStep(group, kind, vs, i);
        var e, r := IngestVersion(group, kind, vs[i]);
        if e.Some? {
          return e, log;
        }
        if r.Some? {
          FoldSnoc(old(State()), log, r.value);
          PrependSnoc(log, r.value, VersionRegs(group, kind, vs[i + 1..]));
          log := log + [r.value];
        }
        i := i + 1;
      }
      assert log + [] == log;
    }

    /** One CRD version entry; `type` and `properties` are written into its
        schema when absent. */
    method IngestVersion(group: Value, kind: Value, v: Value) returns (err: Option<string>, ghost r: Option<Reg>)
      modifies this
      ensures err.None? <==> VersionRegOf(group, kind, v).Some?
      ensures err.None? ==>
        && r == VersionRegOf(group, kind, v).value
        && State() == (if r.Some? then Register(old(State()), r.value) else old(State()))
    {
      r := None;
      if !v.Obj? {
        return Some("AttributeError: a version entry has no get()"), r;
      }
      var vm := v.fields;
      if !Truthy(GetOr(vm, "served", Bool(true))) {
        return None, r;
      }
      var ver := GetOr(vm, "name", Null);
      var sch := DictOr(GetOr(vm, "schema", Null));
      if sch.None? {
        return Some("AttributeError: schema has no get()"), r;
      }
      var openapi := Or(GetOr(sch.value, "openAPIV3Schema", Null), Obj(map[]));
      if !Truthy(ver) || !openapi.Obj? {
        return None, r;
      }
      if !ver.Str? || !group.Str? || !kind.Str? {
        return Some("a non-string group, kind or version name"), r;
      }
      var schema := openapi.fields;
      if "type" !in schema {
        schema := schema["type" := Str("object")];
      }
      if "properties" !in schema {
        schema := schema["properties" := Obj(map[])];
      }
      assert schema == Registry.WithDefaults(openapi.fields);
      err := RegisterSchema(group.s + "/" + ver.s, kind.s, schema);
      r := Some(Reg(group.s + "/" + ver.s, kind.s, schema));
    }

    /** The dispatch of refresh on one document. */
    method IngestDoc(doc: Value) returns (err: Option<string>, ghost l: seq<Reg>)
      modifies this
      ensures err.None? <==> DocOk(doc)
      ensures err.None? ==> DocLog(doc, l) && State() == Fold(old(State()), l)
    {
      err, l := None, [];
      if !doc.Obj? {
        return Some("AttributeError: the document has no get()"), l;
      }
      var d := doc.fields;
      var av := GetOr(d, "apiVersion", Str(""));
      if Lookup(d, "kind") == Some(Str("CustomResourceDefinition")) && av.Str? && HasPrefix(av.s, "apiextensions.k8s.io/") {
        assert Dispatch(doc) == Some(CRDDoc);
        err, l := IngestCRD(d);
      } else if "components" in d {
        var has := In("schemas", Or(d["components"], Obj(map[])));
        if has.None? {
          return Some("TypeError: components is not a container"), l;
        }
        if has.value {
          assert Dispatch(doc) == Some(OpenAPIDoc);
          err, l := IngestOpenAPI(d);
        } else {
          assert Dispatch(doc) == Some(OtherDoc);
        }
      } else {
        assert Dispatch(doc) == Some(OtherDoc);
      }
    }

    /** `_fetch_json_or_yaml_docs` once the file is downloaded. */
    static method FetchDocs(url: string, p: Payload) returns (r: Result<seq<Value>, string>)
      ensures r == Docs(url, p)
    {
      var text := LStrip(p.text);
      if text != [] && text[0] in {'{', '['} && p.json.Some? {
        return Ok([p.json.value]);
      }
      if p.yaml.None? {
        return Err("YAML error");
      }
      var docs := DictDocs(p.yaml.value);
      if docs == [] {
        return Err("Unsupported or empty document at " + url);
      }
      return Ok(docs);
    }

    /** The filter of `_fetch_json_or_yaml_docs` that keeps the dict documents. */
    static method DictDocs(ys: seq<Value>) returns (docs: seq<Value>)
      ensures docs == Dicts(ys)
    {
      docs := [];
      var i := 0;
      while i < |ys|
        invariant 0 <= i <= |ys| && docs == Dicts(ys[..i])
      {
        assert ys[..i + 1][..i] == ys[..i];
        if ys[i].Obj? {
          docs := docs + [ys[i]];
        }
        i := i + 1;
      }
      assert ys[..i] == ys;
    }

    /** Download one file and dispatch each of its documents in order. */
    method IngestFile(url: string, download: string -> Result<Payload, string>)
      returns (err: Option<string>, ghost docs: seq<Value>, ghost ls: seq<seq<Reg>>)
      modifies this
      ensures err.None? <==> FileOk(url, download)
      ensures err.None? ==>
        && docs == Docs(url, download(url).value).value
        && DocLogs(docs, ls) && AllOk(Flat(ls)) && State() == Fold(old(State()), Flat(ls))
    {
      docs, ls := [], [];
      var raw := download(url);
      if raw.Err? {
        return Some(raw.error), docs, ls;
      }
      var r := FetchDocs(url, raw.value);
      if r.Err? {
        return Some(r.error), docs, ls;
      }
      docs := r.value;
      err, ls := IngestDocs(r.value);
    }

    /** The documents of one file, dispatched in order until one raises. */
    method IngestDocs(ds: seq<Value>) returns (err: Option<string>, ghost ls: seq<seq<Reg>>)
      modifies this
      ensures err.None? <==> forall d :: d in ds ==> DocOk(d)
      ensures err.None? ==> DocLogs(ds, ls) && AllOk(Flat(ls)) && State() == Fold(old(State()), Flat(ls))
    {
      ls := [];
      var j := 0;
      while j < |ds|
        invariant 0 <= j <= |ds|
        invariant DocLogs(ds[..j], ls)
        invariant AllOk(Flat(ls)) && State() == Fold(old(State()), Flat(ls))
      {
        var e, l := IngestDoc(ds[j]);
        if e.Some? {
          assert ds[j] in ds;
          return e, ls;
        }
        FlatSnoc(ls, l);
        FoldAppend(old(State()), Flat(ls), l);
        DocLogsSnoc(ds, j, ls, l);
        ls := ls + [l];
        j := j + 1;
      }
      assert ds[..j] == ds;
      DocLogsOk(ds, ls);
      return None, ls;
    }

    /** One entry of the listing: skipped unless a YAML file, otherwise
        downloaded and ingested. */
    method IngestEntry(it: Value, download: string -> Result<Payload, string>)
      returns (err: Option<string>, ghost docs: seq<Value>, ghost ls: seq<seq<Reg>>)
      modifies this
      ensures err.None? <==> EntryOk(it, download)
      ensures err.None? ==>
        && docs == EntryDocs(it, download)
        && DocLogs(docs, ls) && AllOk(Flat(ls)) && State() == Fold(old(State()), Flat(ls))
    {
      docs, ls := [], [];
      if !it.Obj? {
        return Some("AttributeError: a listing entry has no get()"), docs, ls;
      }
      var e := it.fields;
      if Lookup(e, "type") != Some(Str("file")) {
        return None, docs, ls;
      }
      var name := GetOr(e, "name", Str(""));
      if !name.Str? {
        return Some("AttributeError: name has no endswith()"), docs, ls;
      }
      if !(HasSuffix(name.s, ".yaml") || HasSuffix(name.s, ".yml")) {
        return None, docs, ls;
      }
      var du := GetOr(e, "download_url", Null);
      var url: string;
      if Truthy(du) {
        if !du.Str? {
          return Some("AttributeError: download_url is not a string"), docs, ls;
        }
        url := du.s;
      } else {
        var path := GetOr(e, "path", Str(""));
        if !path.Str? {
          return Some("AttributeError: path has no lstrip()"), docs, ls;
        }
        url := "https://raw.githubusercontent.com/" + GitHubRepo + "/" + GitHubRef + "/" + TrimLeftChar(path.s, '/');
      }
      assert EntryAction(it) == Some(Fetch(url));
      err, docs, ls := IngestFile(url, download);
    }

    /** refresh: clear the tables, then ingest the documents of every YAML
        file of the listing in order. A listing that failed to download or is
        not a list leaves the tables empty; on success the tables are the
        registrations of all documents applied in order. */
    method Refresh(listing: Result<Value, string>, download: string -> Result<Payload, string>)
      returns (err: Option<string>, ghost docs: seq<Value>, ghost ls: seq<seq<Reg>>)
      modifies this
      ensures err.None? <==> RefreshOk(listing, download)
      ensures listing.Err? ==> err == Some(listing.error) && State() == Empty()
      ensures listing.Ok? && !listing.value.Arr? ==>
        err == Some("GitHub contents listing did not return a list: " + DirURL) && State() == Empty()
      ensures err.None? ==>
        && docs == AllDocs(listing.value.items, download)
        && DocLogs(docs, ls) && AllOk(Flat(ls)) && State() == Fold(Empty(), Flat(ls))
        && Valid()
    {
      Clear();
      docs, ls := [], [];
      if listing.Err? {
        return Some(listing.error), docs, ls;
      }
      if !listing.value.Arr? {
        return Some("GitHub contents listing did not return a list: " + DirURL), docs, ls;
      }
      err, docs, ls := IngestEntries(listing.value.items, download);
      if err.None? {
        EmptyInv();
        FoldInv(Empty(), Flat(ls));
      }
    }

    /** The loop of refresh over the listing entries, in order until one raises. */
    method IngestEntries(entries: seq<Value>, download: string -> Result<Payload, string>)
      returns (err: Option<string>, ghost docs: seq<Value>, ghost ls: seq<seq<Reg>>)
      modifies this
      ensures err.None? <==> forall j :: 0 <= j < |entries| ==> EntryOk(entries[j], download)
      ensures err.None? ==>
        && docs == AllDocs(entries, download)
        && DocLogs(docs, ls) && AllOk(Flat(ls)) && State() == Fold(old(State()), Flat(ls))
    {
      docs, ls := [], [];
      var i := 0;
      assert entries[..0] == [];
      while i < |entries|
        invariant 0 <= i <= |entries|
        invariant forall j :: 0 <= j < i ==> EntryOk(entries[j], download)
        invariant docs == AllDocs(entries[..i], download)
        invariant DocLogs(docs, ls) && AllOk(Flat(ls)) && State() == Fold(old(State()), Flat(ls))
      {
        var e, d, l := IngestEntry(entries[i], download);
        if e.Some? {
          return e, docs, ls;
        }
        AllDocsSnoc(entries, i, download, docs, d);
        EntriesOkSnoc(entries, i, download);
        FlatAppend(ls, l);
        FoldAppend(old(State()), Flat(ls), Flat(l));
        DocLogsAppend(docs, ls, d, l);
        docs, ls := docs + d, ls + l;
        i := i + 1;
      }
      assert entries[..i] == entries;
      return None, docs, ls;
    }
  }

  lemma PrependNil(x: Option<seq<Reg>>)
    ensures Prepend([], x) == x
  {
    if x.Some? {
      assert [] + x.value == x.value;
    }
  }

  lemma PrependSnoc(a: seq<Reg>, r: Reg, rest: Option<seq<Reg>>)
    ensures Prepend(a, Prepend([r], rest)) == Prepend(a + [r], rest)
  {
    if rest.Some? {
      assert a + ([r] + rest.value) == (a + [r]) + rest.value;
    }
  }

  /** One step of the GVK loop. */
  lemma GvkStep(s: Object, l: seq<Value>, i: nat)
    requires i < |l|
    ensures GvkKeyOf(l[i]).None? ==> GvkRegs(s, l[i..]).None?
    ensures GvkKeyOf(l[i]) == Some(None) ==> GvkRegs(s, l[i..]) == GvkRegs(s, l[i + 1..])
    ensures GvkKeyOf(l[i]).Some? && GvkKeyOf(l[i]).value.Some? ==>
      GvkRegs(s, l[i..]) ==
        if RegOk(s) then Prepend([Reg(GvkKeyOf(l[i]).value.value.0, GvkKeyOf(l[i]).value.value.1, s)], GvkRegs(s, l[i + 1..]))
        else None
  {
    assert l[i..][0] == l[i] && l[i..][1..] == l[i + 1..];
  }

  /** One step of the version loop. */
  lemma VersionStep(group: Value, kind: Value, vs: seq<Value>, i: nat)
    requires i < |vs|
    ensures VersionRegOf(group, kind, vs[i]).None? ==> VersionRegs(group, kind, vs[i..]).None?
    ensures VersionRegOf(group, kind, vs[i]) == Some(None) ==>
      VersionRegs(group, kind, vs[i..]) == VersionRegs(group, kind, vs[i + 1..])
    ensures VersionRegOf(group, kind, vs[i]).Some? && VersionRegOf(group, kind, vs[i]).value.Some? ==>
      VersionRegs(group, kind, vs[i..]) ==
        Prepend([VersionRegOf(group, kind, vs[i]).value.value], VersionRegs(group, kind, vs[i + 1..]))
  {
    assert vs[i..][0] == vs[i] && vs[i..][1..] == vs[i + 1..];
  }

  lemma AllDocsSnoc(entries: seq<Value>, i: nat, download: string -> Result<Payload, string>, docs: seq<Value>, d: seq<Value>)
    requires i < |entries|
    requires docs == AllDocs(entries[..i], download) && d == EntryDocs(entries[i], download)
    ensures docs + d == AllDocs(entries[..i + 1], download)
  {
    assert entries[..i + 1][..i] == entries[..i];
  }

  lemma EntriesOkSnoc(entries: seq<Value>, i: nat, download: string -> Result<Payload, string>)
    requires i < |entries| && EntryOk(entries[i], download)
    requires forall j :: 0 <= j < i ==> EntryOk(entries[j], download)
    ensures forall j :: 0 <= j < i + 1 ==> EntryOk(entries[j], download)
  {
  }

  lemma DocLogsSnoc(ds: seq<Value>, j: nat, ls: seq<seq<Reg>>, l: seq<Reg>)
    requires j < |ds| && DocLogs(ds[..j], ls) && DocLog(ds[j], l)
    ensures DocLogs(ds[..j + 1], ls + [l])
  {
    assert ds[..j + 1] == ds[..j] + [ds[j]];
  }

  lemma DocLogsOk(ds: seq<Value>, ls: seq<seq<Reg>>)
    requires DocLogs(ds, ls)
    ensures forall d :: d in ds ==> DocOk(d)
  {
    forall d | d in ds ensures DocOk(d) {
      var i :| 0 <= i < |ds| && ds[i] == d;
      assert DocLog(ds[i], ls[i]);
    }
  }

  lemma FlatSnoc(ls: seq<seq<Reg>>, l: seq<Reg>)
    ensures Flat(ls + [l]) == Flat(ls) + l
  {
    assert (ls + [l])[..|ls|] == ls;
  }

  lemma {:induction false} FlatAppend(a: seq<seq<Reg>>, b: seq<seq<Reg>>)
    ensures Flat(a + b) == Flat(a) + Flat(b)
    decreases |b|
  {
    if b == [] {
      assert a + b == a;
    } else {
      var n := |b| - 1;
      FlatAppend(a, b[..n]);
      assert (a + b)[..|a + b| - 1] == a + b[..n];
    }
  }

  lemma DocLogsAppend(docs: seq<Value>, ls: seq<seq<Reg>>, d: seq<Value>, l: seq<seq<Reg>>)
    requires DocLogs(docs, ls) && DocLogs(d, l)
    ensures DocLogs(docs + d, ls + l)
  {
    forall j | 0 <= j < |docs + d| ensures DocLog((docs + d)[j], (ls + l)[j]) {
      if j >= |docs| {
        assert (docs + d)[j] == d[j - |docs|] && (ls + l)[j] == l[j - |docs|];
      }
    }
  }
}
