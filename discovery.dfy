/**
 * The Cache of internal/discovery/discovery.go: four tables filled by
 * registerSchema from CRD documents and OpenAPI v3 documents. Fetching is not
 * modelled: Refresh receives what the fetches returned.
 */
module Discovery {
  import opened Wrappers
  import opened Strings
  import opened Json
  import opened Paths
  import opened SpecPaths
  import opened Registry
  import opened Skeletons
  import Sorting

  const DefaultRepo: string := "datum-cloud/network-services-operator"
  const DefaultRef: string := "main"
  const DefaultDir: string := "config/crd/bases"

  /** What one downloaded file decodes to: the raw text, what json.Unmarshal
      into a map gives (None on failure), the documents the YAML decoder yields
      in order (None for an empty document) and the error that ended the YAML
      stream, if it did not end at EOF. */
  datatype Payload = Payload(raw: string, json: Option<Object>, yamlDocs: seq<Option<Object>>,
                             yamlError: Option<string>)

  /** The first byte above the space character, or NUL when there is none. */
  function FirstSignificant(raw: string): (c: char)
    ensures c == '\0' <==> forall i :: 0 <= i < |raw| ==> raw[i] <= ' '
    ensures c != '\0' ==> c > ' ' && exists i :: 0 <= i < |raw| && raw[i] == c && forall j :: 0 <= j < i ==> raw[j] <= ' '
  {
    if raw == [] then '\0'
    else if raw[0] > ' ' then raw[0]
    else
      var c := FirstSignificant(raw[1..]);
      assert forall i :: 1 <= i < |raw| ==> raw[i] == raw[1..][i - 1];
      assert c != '\0' ==> exists i :: 0 <= i < |raw| && raw[i] == c && forall j :: 0 <= j < i ==> raw[j] <= ' ' by {
        if c != '\0' {
          var i :| 0 <= i < |raw[1..]| && raw[1..][i] == c && forall j :: 0 <= j < i ==> raw[1..][j] <= ' ';
          assert raw[i + 1] == c;
        }
      }
      c
  }

  /** ingestDocs reads the payload as one JSON document. */
  predicate IsJsonPayload(p: Payload) {
    FirstSignificant(p.raw) in {'{', '['} && p.json.Some?
  }

  /** A CustomResourceDefinition of apiextensions.k8s.io. */
  predicate IsCRD(doc: Object) {
    StrAt(doc, "kind") == "CustomResourceDefinition"
    && HasPrefix(StrAt(doc, "apiVersion"), "apiextensions.k8s.io/")
  }

  /** A document with a components.schemas map. */
  predicate HasSchemas(doc: Object) {
    MapAt(doc, "components").Some? && MapAt(MapAt(doc, "components").value, "schemas").Some?
  }

  /** The registrations ingestOpenAPI performs for a document, in no particular order. */
  ghost function OpenAPIDocRegs(spec: Object): multiset<Registration> {
    OpenAPIRegs(ComponentSchemas(spec), ComponentSchemas(spec).Keys)
  }

  /** `l` is a run of ingestDocs's dispatch on one YAML document: CRDs first,
      then OpenAPI documents, anything else ignored. */
  ghost predicate DocLog(doc: Option<Object>, l: seq<Registration>) {
    if doc.None? then l == []
    else if IsCRD(doc.value) then l == CRDRegs(doc.value)
    else if HasSchemas(doc.value) then multiset(l) == OpenAPIDocRegs(doc.value)
    else l == []
  }

  function Concat(ls: seq<seq<Registration>>): seq<Registration> {
    if ls == [] then [] else Concat(ls[..|ls| - 1]) + ls[|ls| - 1]
  }

  /** `l` is a run of ingestDocs on a payload: one OpenAPI ingestion for a JSON
      payload, otherwise the YAML documents in order. */
  ghost predicate PayloadLog(p: Payload, l: seq<Registration>) {
    if IsJsonPayload(p) then multiset(l) == OpenAPIDocRegs(p.json.value)
    else exists ls: seq<seq<Registration>> {:trigger Concat(ls)} ::
      l == Concat(ls) && DocLogs(p.yamlDocs, ls)
  }

  /** `ls[i]` is a run of the dispatch on `docs[i]`, for every i. */
  ghost predicate DocLogs(docs: seq<Option<Object>>, ls: seq<seq<Registration>>)
    decreases |docs|
  {
    |docs| == |ls|
    && (docs != [] ==>
          DocLogs(docs[..|docs| - 1], ls[..|ls| - 1]) && DocLog(docs[|docs| - 1], ls[|ls| - 1]))
  }

  lemma DocLogsSnoc(docs: seq<Option<Object>>, i: nat, ls: seq<seq<Registration>>, l: seq<Registration>)
    requires i < |docs| && DocLogs(docs[..i], ls) && DocLog(docs[i], l)
    ensures DocLogs(docs[..i + 1], ls + [l])
  {
    assert docs[..i + 1][..i] == docs[..i];
    assert (ls + [l])[..|ls|] == ls;
  }

  /** DocLogs is the pointwise relation. */
  lemma {:induction false} DocLogsSpec(docs: seq<Option<Object>>, ls: seq<seq<Registration>>)
    ensures DocLogs(docs, ls) <==>
      |docs| == |ls| && forall i :: 0 <= i < |docs| ==> DocLog(docs[i], ls[i])
    decreases |docs|
  {
    if docs != [] && |docs| == |ls| {
      var n := |docs| - 1;
      DocLogsSpec(docs[..n], ls[..n]);
      if DocLogs(docs, ls) {
        forall i | 0 <= i < |docs|
          ensures DocLog(docs[i], ls[i])
        {
          if i < n {
            assert docs[..n][i] == docs[i] && ls[..n][i] == ls[i];
          }
        }
      }
      if forall i :: 0 <= i < |docs| ==> DocLog(docs[i], ls[i]) {
        forall i | 0 <= i < n
          ensures DocLog(docs[..n][i], ls[..n][i])
        {
          assert docs[..n][i] == docs[i] && ls[..n][i] == ls[i];
        }
      }
    }
  }

  /** What ingestDocs returns. */
  function PayloadError(p: Payload): Option<string> {
    if IsJsonPayload(p) then None else p.yamlError
  }

  /** A listing entry that Refresh downloads: a file named `*.yaml` or `*.yml`. */
  predicate IsYamlFile(entry: Object) {
    Lookup(entry, "type") == Some(Str("file"))
    && (HasSuffix(StrAt(entry, "name"), ".yaml") || HasSuffix(StrAt(entry, "name"), ".yml"))
  }

  /** The entry's download_url, or the raw.githubusercontent.com address of its path. */
  function DownloadURL(entry: Object, repo: string, ref: string): (url: string)
    ensures StrAt(entry, "download_url") != "" ==> url == StrAt(entry, "download_url")
  {
    if StrAt(entry, "download_url") != "" then StrAt(entry, "download_url")
    else "https://raw.githubusercontent.com/" + repo + "/" + ref + "/" + TrimLeftChar(StrAt(entry, "path"), '/')
  }

  class Cache {
    var gitHubRepo: string
    var gitHubRef: string
    var gitHubDir: string
    var openAPIBase: string
    var bearerToken: string

    var allowed: map<string, set<string>>
    var topAllowed: map<string, set<string>>
    var kind2api: map<string, seq<string>>
    var fullSchema: map<string, Object>

    function State(): Tables
      reads this
    {
      Tables(allowed, topAllowed, kind2api, fullSchema)
    }

    predicate Valid()
      reads this
    {
      Inv(State())
    }

    /** The source configuration, which no method changes. */
    function Config(): (string, string, string, string, string)
      reads this
    {
      (gitHubRepo, gitHubRef, gitHubDir, openAPIBase, bearerToken)
    }

    /** New: the default GitHub source and empty tables. */
    constructor ()
      ensures Valid() && State() == Empty()
      ensures gitHubRepo == DefaultRepo && gitHubRef == DefaultRef && gitHubDir == DefaultDir
      ensures openAPIBase == "" && bearerToken == ""
    {
      gitHubRepo, gitHubRef, gitHubDir := DefaultRepo, DefaultRef, DefaultDir;
      openAPIBase, bearerToken := "", "";
      allowed, topAllowed, kind2api, fullSchema := map[], map[], map[], map[];
    }

    /** Reset replaces the four tables by empty ones. */
    method Reset()
      modifies this
      ensures State() == Empty() && Valid()
      ensures Config() == old(Config())
    {
      allowed := map[];
      topAllowed := map[];
      kind2api := map[];
      fullSchema := map[];
    }

    /** registerSchema: the tables become Register(old tables, r). */
    method RegisterSchema(api: string, kind: string, schema: Object)
      modifies this
      ensures State() == Register(old(State()), Registration(api, kind, schema))
      ensures Config() == old(Config())
    {
      var key := JoinKey(api, kind);

      // kind -> apiVersions, appended only when absent
      var apis := if kind in kind2api then kind2api[kind] else [];
      var found := Find(apis, api);

      // top-level fields
      var props := MapOrEmpty(schema, "properties");
      var tset := KeySet(props);

      // spec.* collection if present
      var sp := MapAt(props, "spec");
      var aset := if sp.Some? then Some(Collect(sp.value, "spec")) else None;

      fullSchema := fullSchema[key := schema];
      if !found {
        kind2api := kind2api[kind := apis + [api]];
      }
      topAllowed := topAllowed[key := tset];
      if aset.Some? {
        allowed := allowed[key := aset.value];
      }
    }

    /** One more registration on top of a logged sequence of them. */
    method Apply(r: Registration, ghost base: Tables, ghost log: seq<Registration>)
      requires State() == Fold(base, log)
      modifies this
      ensures State() == Fold(base, log + [r])
      ensures Config() == old(Config())
    {
      RegisterSchema(r.api, r.kind, r.schema);
      FoldSnoc(base, log, r);
    }

    /** The search of registerSchema for `api` among the recorded apiVersions. */
    static method Find(apis: seq<string>, api: string) returns (found: bool)
      ensures found <==> api in apis
    {
      found := false;
      var i := 0;
      while i < |apis|
        invariant 0 <= i <= |apis| && api !in apis[..i]
      {
        if apis[i] == api {
          found := true;
          break;
        }
        i := i + 1;
      }
      assert !found ==> apis[..i] == apis;
    }

    /** The set of a map's keys, built one key at a time. */
    static method KeySet(props: Object) returns (tset: set<string>)
      ensures tset == props.Keys
    {
      tset := {};
      var rest := props.Keys;
      while rest != {}
        invariant rest <= props.Keys && tset == props.Keys - rest
        decreases rest
      {
        var prop :| prop in rest;
        tset := tset + {prop};
        rest := rest - {prop};
      }
    }

    /** ingestOpenAPI: every GVK of every schema of components.schemas is
        registered, the schemas taken in some order. */
    method IngestOpenAPI(spec: Object) returns (ghost log: seq<Registration>)
      modifies this
      ensures State() == Fold(old(State()), log)
      ensures multiset(log) == OpenAPIDocRegs(spec)
      ensures Config() == old(Config())
    {
      var schemas := ComponentSchemas(spec);
      var rest := schemas.Keys;
      log := [];
      while rest != {}
        invariant rest <= schemas.Keys
        invariant State() == Fold(old(State()), log)
        invariant multiset(log) + OpenAPIRegs(schemas, rest) == OpenAPIRegs(schemas, schemas.Keys)
        invariant Config() == old(Config())
        decreases rest
      {
        var k :| k in rest;
        ghost var before := log;
        var regs := IngestSchema(schemas[k]);
        FoldAppend(old(State()), log, regs);
        log := log + regs;
        assert multiset(log) == multiset(before) + multiset(regs);
        OpenAPIRegsPick(schemas, rest, k);
        rest := rest - {k};
      }
    }

    /** One schema of components.schemas: its GVK entries in list order. */
    method IngestSchema(v: Value) returns (ghost regs: seq<Registration>)
      modifies this
      ensures regs == SchemaRegs(v)
      ensures State() == Fold(old(State()), regs)
      ensures Config() == old(Config())
    {
      regs := [];
      if !v.Obj? {
        return;
      }
      var s := v.fields;
      var gvks := ListAt(s, "x-kubernetes-group-version-kind");
      if gvks.None? || |gvks.value| == 0 {
        return;
      }
      var l := gvks.value;
      var i := 0;
      while i < |l|
        invariant 0 <= i <= |l|
        invariant regs + GvkRegs(s, l[i..]) == GvkRegs(s, l)
        invariant State() == Fold(old(State()), regs)
        invariant Config() == old(Config())
      {
        GvkRegsCons(s, l[i..], regs);
        assert l[i..][1..] == l[i + 1..];
        var key := GvkKey(l[i]);
        if key.Some? {
          Apply(Registration(key.value.0, key.value.1, s), old(State()), regs);
          regs := regs + [Registration(key.value.0, key.value.1, s)];
        }
        i := i + 1;
      }
    }

    /** One CRD version entry: skipped when not a map, `served: false` or
        unnamed; otherwise registered with the defaults filled in place. */
    static method VersionEntry(group: string, kind: string, v: Value) returns (e: Option<Registration>)
      ensures e == VersionReg(group, kind, v)
    {
      if !v.Obj? {
        return None;
      }
      var vm := v.fields;
      if BoolAt(vm, "served") == Some(false) {
        return None;
      }
      var ver := StrAt(vm, "name");
      var schema := MapAt(MapOrEmpty(vm, "schema"), "openAPIV3Schema").GetOr(map[]);
      if ver == "" {
        return None;
      }
      if "type" !in schema {
        schema := schema["type" := Str("object")];
      }
      if "properties" !in schema {
        schema := schema["properties" := Obj(map[])];
      }
      return Some(Registration(group + "/" + ver, kind, schema));
    }

    /** ingestCRD: the served, named versions registered in list order. */
    method IngestCRD(crd: Object) returns (ghost log: seq<Registration>)
      modifies this
      ensures log == CRDRegs(crd)
      ensures State() == Fold(old(State()), log)
      ensures Config() == old(Config())
    {
      log := [];
      var spec := MapOrEmpty(crd, "spec");
      var group := StrAt(spec, "group");
      var kind := StrAt(MapOrEmpty(spec, "names"), "kind");
      var versions := ListAt(spec, "versions").GetOr([]);
      if group == "" || kind == "" || |versions| == 0 {
        return;
      }
      var i := 0;
      while i < |versions|
        invariant 0 <= i <= |versions|
        invariant log + VersionRegs(group, kind, versions[i..]) == VersionRegs(group, kind, versions)
        invariant State() == Fold(old(State()), log)
        invariant Config() == old(Config())
      {
        VersionRegsCons(group, kind, versions[i..], log);
        assert versions[i..][1..] == versions[i + 1..];
        var e := VersionEntry(group, kind, versions[i]);
        i := i + 1;
        if e.Some? {
          Apply(e.value, old(State()), log);
          log := log + [e.value];
        }
      }
    }

    /** ingestDocs: a JSON payload is one OpenAPI document; otherwise every YAML
        document is dispatched in order, and a decoder error is returned after
        the documents before it were ingested. */
    method IngestDocs(p: Payload) returns (err: Option<string>, ghost log: seq<Registration>)
      modifies this
      ensures err == PayloadError(p)
      ensures PayloadLog(p, log)
      ensures State() == Fold(old(State()), log)
      ensures Config() == old(Config())
    {
      var first := FirstByte(p.raw);
      if first == '{' || first == '[' {
        if p.json.Some? {
          log := IngestOpenAPI(p.json.value);
          err := None;
          return;
        }
      }
      ghost var ls: seq<seq<Registration>> := [];
      var i := 0;
      while i < |p.yamlDocs|
        invariant 0 <= i <= |p.yamlDocs| && DocLogs(p.yamlDocs[..i], ls)
        invariant State() == Fold(old(State()), Concat(ls))
        invariant Config() == old(Config())
      {
        var l := IngestDoc(p.yamlDocs[i]);
        FoldConcatSnoc(old(State()), ls, l);
        DocLogsSnoc(p.yamlDocs, i, ls, l);
        ls := ls + [l];
        i := i + 1;
      }
      assert p.yamlDocs[..i] == p.yamlDocs;
      log := Concat(ls);
      err := p.yamlError;
    }

    /** The dispatch of ingestDocs on one YAML document. */
    method IngestDoc(doc: Option<Object>) returns (ghost l: seq<Registration>)
      modifies this
      ensures DocLog(doc, l)
      ensures State() == Fold(old(State()), l)
      ensures Config() == old(Config())
    {
      l := [];
      if doc.Some? {
        var d := doc.value;
        if IsCRD(d) {
          l := IngestCRD(d);
        } else if HasSchemas(d) {
          l := IngestOpenAPI(d);
        }
      }
    }

    /** The scan for the first significant byte. */
    static method FirstByte(raw: string) returns (first: char)
      ensures first == FirstSignificant(raw)
    {
      first := '\0';
      var i := 0;
      while i < |raw|
        invariant 0 <= i <= |raw|
        invariant FirstSignificant(raw) == FirstSignificant(raw[i..])
      {
        assert raw[i..][1..] == raw[i + 1..];
        if raw[i] > ' ' {
          first := raw[i];
          return;
        }
        i := i + 1;
      }
    }

    /** Refresh: Reset, then the control-plane OpenAPI document when a base is
        configured and it was fetched (a failed fetch is ignored), then every
        YAML file of the GitHub listing in order. A failed listing, download or
        ingestion ends the refresh with what was ingested so far. */
    method Refresh(openAPI: Option<Object>, listing: Result<seq<Object>, string>,
                   download: string -> Result<Payload, string>)
      returns (err: Option<string>, ghost first: seq<Registration>, ghost files: seq<seq<Registration>>)
      modifies this
      ensures Valid() && State() == Fold(Empty(), first + Concat(files))
      ensures multiset(first) ==
        if openAPIBase != "" && openAPI.Some? then OpenAPIDocRegs(openAPI.value) else multiset{}
      ensures listing.Err? ==> err == Some("fetch GitHub dir: " + listing.error) && files == []
      ensures err.None? ==> listing.Ok?
      ensures listing.Ok? ==> Downloaded(YamlEntries(listing.value), files, download, gitHubRepo, gitHubRef)
      ensures listing.Ok? ==> var yaml := YamlEntries(listing.value);
        && (err.None? <==> forall j :: 0 <= j < |yaml| ==> FileError(yaml[j], download, gitHubRepo, gitHubRef).None?)
        && (err.None? ==> |files| == |yaml|)
        && (err.Some? ==> exists k ::
              && FirstFailure(yaml, k, download, gitHubRepo, gitHubRef)
              && err == FileError(yaml[k], download, gitHubRepo, gitHubRef)
              && |files| == (if download(DownloadURL(yaml[k], gitHubRepo, gitHubRef)).Ok? then k + 1 else k))
      ensures Config() == old(Config())
    {
      Reset();
      first := [];
      files := [];
      if openAPIBase != "" && openAPI.Some? {
        first := IngestOpenAPI(openAPI.value);
      } else {
        assert Fold(Empty(), first) == Empty();
      }
      EmptyInv();
      FoldNoFiles(Empty(), first);
      if listing.Err? {
        err := Some("fetch GitHub dir: " + listing.error);
        FoldInv(Empty(), first);
        return;
      }
      err, files := IngestListing(listing.value, download, Empty(), first);
      FoldInv(Empty(), first + Concat(files));
    }

    /** The GitHub half of Refresh: every YAML file of the listing downloaded
        and ingested in order, stopping at the first failed download or
        ingestion. */
    method IngestListing(entries: seq<Object>, download: string -> Result<Payload, string>,
                         ghost base: Tables, ghost first: seq<Registration>)
      returns (err: Option<string>, ghost files: seq<seq<Registration>>)
      requires State() == Fold(base, first + Concat([]))
      modifies this
      ensures State() == Fold(base, first + Concat(files))
      ensures Downloaded(YamlEntries(entries), files, download, gitHubRepo, gitHubRef)
      ensures var yaml := YamlEntries(entries);
        && (err.None? <==> forall j :: 0 <= j < |yaml| ==> FileError(yaml[j], download, gitHubRepo, gitHubRef).None?)
        && (err.None? ==> |files| == |yaml|)
        && (err.Some? ==> exists k ::
              && FirstFailure(yaml, k, download, gitHubRepo, gitHubRef)
              && err == FileError(yaml[k], download, gitHubRepo, gitHubRef)
              && |files| == (if download(DownloadURL(yaml[k], gitHubRepo, gitHubRef)).Ok? then k + 1 else k))
      ensures Config() == old(Config())
    {
      files := [];
      err := None;
      var i := 0;
      assert entries[..0] == [];
      while i < |entries| && err.None?
        invariant 0 <= i <= |entries|
        invariant Downloaded(YamlEntries(entries[..i]), files, download, gitHubRepo, gitHubRef)
        invariant Stopped(YamlEntries(entries[..i]), files, err, download, gitHubRepo, gitHubRef)
        invariant State() == Fold(base, first + Concat(files))
        invariant Config() == old(Config())
      {
        err, files := IngestEntry(entries, i, download, base, first, files);
        i := i + 1;
      }
      ListingDone(entries, i, files, download, gitHubRepo, gitHubRef, err.None?);
      YamlEntriesPrefix(entries, i);
      if err.None? {
        YamlEntriesAll(entries);
      }
      StoppedDone(YamlEntries(entries[..i]), YamlEntries(entries), files, err, download, gitHubRepo, gitHubRef);
    }

    /** One entry of the listing: skipped unless a YAML file, otherwise
        downloaded and ingested after the earlier files. */
    method IngestEntry(entries: seq<Object>, i: nat, download: string -> Result<Payload, string>,
                       ghost base: Tables, ghost first: seq<Registration>, ghost files: seq<seq<Registration>>)
      returns (err: Option<string>, ghost files': seq<seq<Registration>>)
      requires i < |entries|
      requires Downloaded(YamlEntries(entries[..i]), files, download, gitHubRepo, gitHubRef)
      requires Stopped(YamlEntries(entries[..i]), files, None, download, gitHubRepo, gitHubRef)
      requires State() == Fold(base, first + Concat(files))
      modifies this
      ensures Downloaded(YamlEntries(entries[..i + 1]), files', download, gitHubRepo, gitHubRef)
      ensures Stopped(YamlEntries(entries[..i + 1]), files', err, download, gitHubRepo, gitHubRef)
      ensures !IsYamlFile(entries[i]) ==> err == None && files' == files
      ensures IsYamlFile(entries[i]) ==> err == FileError(entries[i], download, gitHubRepo, gitHubRef)
      ensures State() == Fold(base, first + Concat(files'))
      ensures Config() == old(Config())
    {
      var it := entries[i];
      YamlEntriesNext(entries, i);
      files' := files;
      err := None;
      if !IsYamlFile(it) {
        return;
      }
      var url := DownloadURL(it, gitHubRepo, gitHubRef);
      var raw := download(url);
      if raw.Err? {
        err := Some("fetch " + url + ": " + raw.error);
        DownloadedPrefix(YamlEntries(entries[..i]), YamlEntries(entries[..i + 1]), files, download, gitHubRepo, gitHubRef);
        StoppedSnoc(YamlEntries(entries[..i]), files, it, [], download, gitHubRepo, gitHubRef);
        return;
      }
      var e, l := IngestDocs(raw.value);
      FoldFilesSnoc(base, first, files, l);
      DownloadedSnoc(YamlEntries(entries[..i]), files, it, l, download, gitHubRepo, gitHubRef);
      files' := files + [l];
      if e.Some? {
        err := Some("ingest " + url + ": " + e.value);
      }
      StoppedSnoc(YamlEntries(entries[..i]), files, it, l, download, gitHubRepo, gitHubRef);
    }

    /** Has: whether a schema is registered for api/kind. */
    function Has(api: string, kind: string): (r: bool)
      reads this
      ensures r <==> GetSchema(api, kind).Some?
    {
      Known(State(), api, kind)
    }

    /** GetSchema: the registered schema (a copy), or nil. */
    function GetSchema(api: string, kind: string): (r: Option<Object>)
      reads this
      ensures r.Some? <==> JoinKey(api, kind) in fullSchema
      ensures r.Some? ==> r.value == fullSchema[JoinKey(api, kind)]
    {
      if JoinKey(api, kind) in fullSchema then Some(fullSchema[JoinKey(api, kind)]) else None
    }

    /** TopAllowed: exactly the property names of the registered schema, nil
        for an unregistered api/kind. */
    function TopAllowed(api: string, kind: string): (r: Option<set<string>>)
      reads this
      requires Valid()
      ensures r.Some? <==> Has(api, kind)
      ensures r.Some? ==> r.value == Props(GetSchema(api, kind).value).Keys
    {
      TopOf(State(), api, kind)
    }

    /** AllowedSpec: the allow-list collected from the schema's `spec`, whose
        every entry is a `spec.` path; nil when the api/kind was never registered
        with a `spec` map. */
    function AllowedSpec(api: string, kind: string): (r: Option<set<string>>)
      reads this
      requires Valid()
      ensures r.Some? ==> Has(api, kind) && forall p :: p in r.value ==> HasPrefix(p, "spec.")
      ensures Has(api, kind) && SpecSchema(GetSchema(api, kind).value).Some? ==>
        r == Some(Collect(SpecSchema(GetSchema(api, kind).value).value, "spec"))
    {
      AllowOf(State(), api, kind)
    }

    /** ListCRDs: every registered (apiVersion, kind), sorted by apiVersion then kind. */
    method ListCRDs() returns (out: seq<(string, string)>)
      requires Valid()
      ensures Sorting.SortedBy(out, Sorting.PairLess)
      ensures forall p :: p in out <==> exists key :: key in fullSchema && SplitKey(key) == p
    {
      Sorting.PairOrder();
      var pairs := set key | key in fullSchema :: SplitKey(key);
      out := Sorting.SortSet(pairs, Sorting.PairLess);
    }

    /** Skeleton of the registered schema for api/kind. */
    method Skeleton(api: string, kind: string) returns (r: Result<Object, string>)
      ensures r == Skeletons.Skeleton(GetSchema(api, kind), api, kind)
      ensures r.Ok? <==> Has(api, kind)
    {
      r := Skeletons.Skeleton(GetSchema(api, kind), api, kind);
    }
  }

  lemma FoldNoFiles(t: Tables, first: seq<Registration>)
    ensures Fold(t, first + Concat([])) == Fold(t, first)
  {
    assert first + Concat([]) == first;
  }

  /** One more document's registrations on top of the earlier ones. */
  lemma FoldConcatSnoc(t: Tables, ls: seq<seq<Registration>>, l: seq<Registration>)
    ensures Fold(Fold(t, Concat(ls)), l) == Fold(t, Concat(ls + [l]))
  {
    FoldAppend(t, Concat(ls), l);
    assert (ls + [l])[..|ls|] == ls;
  }

  lemma ConcatSnoc(first: seq<Registration>, ls: seq<seq<Registration>>, l: seq<Registration>)
    ensures (first + Concat(ls)) + l == first + Concat(ls + [l])
  {
    assert (ls + [l])[..|ls|] == ls;
  }

  /** One more file's registrations on top of the earlier ones. */
  lemma FoldFilesSnoc(t: Tables, first: seq<Registration>, files: seq<seq<Registration>>, l: seq<Registration>)
    ensures Fold(Fold(t, first + Concat(files)), l) == Fold(t, first + Concat(files + [l]))
  {
    FoldAppend(t, first + Concat(files), l);
    ConcatSnoc(first, files, l);
  }

  /** The listing entries Refresh downloads, in order. */
  function YamlEntries(entries: seq<Object>): (r: seq<Object>)
    ensures |r| <= |entries|
  {
    if entries == [] then []
    else YamlEntries(entries[..|entries| - 1])
         + (if IsYamlFile(entries[|entries| - 1]) then [entries[|entries| - 1]] else [])
  }

  lemma YamlEntriesNext(entries: seq<Object>, i: nat)
    requires i < |entries|
    ensures IsYamlFile(entries[i]) ==> YamlEntries(entries[..i + 1]) == YamlEntries(entries[..i]) + [entries[i]]
    ensures !IsYamlFile(entries[i]) ==> YamlEntries(entries[..i + 1]) == YamlEntries(entries[..i])
  {
    assert entries[..i + 1][..i] == entries[..i];
    assert YamlEntries(entries[..i]) + [] == YamlEntries(entries[..i]);
  }

  lemma YamlEntriesAll(entries: seq<Object>)
    ensures YamlEntries(entries[..|entries|]) == YamlEntries(entries)
  {
    assert entries[..|entries|] == entries;
  }

  lemma {:induction false} YamlEntriesPrefix(entries: seq<Object>, i: nat)
    requires i <= |entries|
    ensures YamlEntries(entries[..i]) <= YamlEntries(entries)
    decreases |entries|
  {
    if i < |entries| {
      var init := entries[..|entries| - 1];
      assert entries[..i] == init[..i];
      YamlEntriesPrefix(init, i);
    } else {
      assert entries[..i] == entries;
    }
  }

  /** Where the walk over the listing stopped, at its end or earlier. */
  lemma ListingDone(entries: seq<Object>, i: nat, files: seq<seq<Registration>>,
                    download: string -> Result<Payload, string>, repo: string, ref: string, complete: bool)
    requires i <= |entries| && Downloaded(YamlEntries(entries[..i]), files, download, repo, ref)
    requires complete ==> i == |entries| && |files| == |YamlEntries(entries[..i])|
    ensures Downloaded(YamlEntries(entries), files, download, repo, ref)
    ensures complete ==> |files| == |YamlEntries(entries)|
  {
    YamlEntriesPrefix(entries, i);
    DownloadedPrefix(YamlEntries(entries[..i]), YamlEntries(entries), files, download, repo, ref);
    if complete {
      YamlEntriesAll(entries);
    }
  }

  /** Each of `files` is a run of ingestDocs on the download of the YAML
      listing entry at the same position. */
  ghost predicate Downloaded(yaml: seq<Object>, files: seq<seq<Registration>>,
                             download: string -> Result<Payload, string>, repo: string, ref: string)
  {
    |files| <= |yaml|
    && forall j :: 0 <= j < |files| ==>
         var url := DownloadURL(yaml[j], repo, ref);
         download(url).Ok? && PayloadLog(download(url).value, files[j])
  }

  lemma DownloadedSnoc(yaml: seq<Object>, files: seq<seq<Registration>>, it: Object, l: seq<Registration>,
                       download: string -> Result<Payload, string>, repo: string, ref: string)
    requires Downloaded(yaml, files, download, repo, ref) && |files| == |yaml|
    requires download(DownloadURL(it, repo, ref)).Ok?
    requires PayloadLog(download(DownloadURL(it, repo, ref)).value, l)
    ensures Downloaded(yaml + [it], files + [l], download, repo, ref)
  {
  }

  lemma DownloadedPrefix(yaml: seq<Object>, full: seq<Object>, files: seq<seq<Registration>>,
                         download: string -> Result<Payload, string>, repo: string, ref: string)
    requires Downloaded(yaml, files, download, repo, ref) && yaml <= full
    ensures Downloaded(full, files, download, repo, ref)
  {
  }

  /** How one YAML file of the listing fails Refresh: the download's error
      after `fetch <url>: `, or ingestDocs' error after `ingest <url>: `. */
  function FileError(it: Object, download: string -> Result<Payload, string>, repo: string, ref: string): Option<string> {
    var url := DownloadURL(it, repo, ref);
    match download(url)
    case Err(e) => Some("fetch " + url + ": " + e)
    case Ok(p) => if PayloadError(p).Some? then Some("ingest " + url + ": " + PayloadError(p).value) else None
  }

  /** `yaml[k]` is the first YAML file that fails. */
  predicate FirstFailure(yaml: seq<Object>, k: int, download: string -> Result<Payload, string>, repo: string, ref: string) {
    && 0 <= k < |yaml|
    && FileError(yaml[k], download, repo, ref).Some?
    && forall j :: 0 <= j < k ==> FileError(yaml[j], download, repo, ref).None?
  }

  /** Where the walk over the YAML files `yaml` seen so far stands: without an
      error every file was ingested and none failed; with one, the last file
      is the first that failed, `err` is its error, and the files ingested are
      those before it, plus it when its download succeeded. */
  ghost predicate Stopped(yaml: seq<Object>, files: seq<seq<Registration>>, err: Option<string>,
                          download: string -> Result<Payload, string>, repo: string, ref: string) {
    if err.None? then
      && |files| == |yaml|
      && forall j :: 0 <= j < |yaml| ==> FileError(yaml[j], download, repo, ref).None?
    else
      var k := |yaml| - 1;
      && FirstFailure(yaml, k, download, repo, ref)
      && err == FileError(yaml[k], download, repo, ref)
      && |files| == (if download(DownloadURL(yaml[k], repo, ref)).Ok? then k + 1 else k)
  }

  /** One more YAML file after a clean walk: the walk goes on exactly when
      the file does not fail, and stops with the file's error otherwise. */
  lemma StoppedSnoc(yaml: seq<Object>, files: seq<seq<Registration>>, it: Object, l: seq<Registration>,
                    download: string -> Result<Payload, string>, repo: string, ref: string)
    requires Stopped(yaml, files, None, download, repo, ref)
    ensures var files' := if download(DownloadURL(it, repo, ref)).Ok? then files + [l] else files;
      Stopped(yaml + [it], files', FileError(it, download, repo, ref), download, repo, ref)
  {
    var y := yaml + [it];
    var e := FileError(it, download, repo, ref);
    var ok := download(DownloadURL(it, repo, ref)).Ok?;
    assert e.None? ==> ok;
    CleanSnoc(yaml, it, download, repo, ref);
    if e.Some? {
      assert FirstFailure(y, |yaml|, download, repo, ref);
    }
  }

  /** The files before an appended one are those of the clean walk. */
  lemma CleanSnoc(yaml: seq<Object>, it: Object, download: string -> Result<Payload, string>, repo: string, ref: string)
    requires forall j :: 0 <= j < |yaml| ==> FileError(yaml[j], download, repo, ref).None?
    ensures (yaml + [it])[|yaml|] == it
    ensures forall j :: 0 <= j < |yaml| ==> FileError((yaml + [it])[j], download, repo, ref).None?
  {
    var y := yaml + [it];
    forall j | 0 <= j < |yaml|
      ensures FileError(y[j], download, repo, ref).None?
    {
      assert y[j] == yaml[j];
    }
  }

  /** A walk that stopped on a prefix of the listing's YAML files, and ran to
      the end when it met no error, meets Refresh's promise on the whole. */
  lemma StoppedDone(yaml: seq<Object>, full: seq<Object>, files: seq<seq<Registration>>, err: Option<string>,
                    download: string -> Result<Payload, string>, repo: string, ref: string)
    requires Stopped(yaml, files, err, download, repo, ref) && yaml <= full
    requires err.None? ==> yaml == full
    ensures err.None? <==> forall j :: 0 <= j < |full| ==> FileError(full[j], download, repo, ref).None?
    ensures err.None? ==> |files| == |full|
    ensures err.Some? ==> exists k ::
      && FirstFailure(full, k, download, repo, ref)
      && err == FileError(full[k], download, repo, ref)
      && |files| == (if download(DownloadURL(full[k], repo, ref)).Ok? then k + 1 else k)
  {
    if err.Some? {
      var k := |yaml| - 1;
      assert full[k] == yaml[k];
      forall j | 0 <= j < k
        ensures FileError(full[j], download, repo, ref).None?
      {
        assert full[j] == yaml[j];
      }
      assert FirstFailure(full, k, download, repo, ref);
      assert FileError(full[k], download, repo, ref).Some?;
    }
  }

}
