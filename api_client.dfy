/**
 * The in-process logic of internal/api/client.go: the structural trimming
 * of an OpenAPI schema, the lookup of a group/version component in the
 * OpenAPI v3 index, the parsing of index keys into groups and versions, the
 * filter that keeps top-level resources, the kind filter over a component
 * document, and the naming of the list kind. The HTTP requests and the REST
 * mapper around them are not modelled: their results are parameters.
 */
module ApiClient {
  import opened Wrappers
  import opened Strings
  import opened Json
  import Registry

  // ---- trimToStructure

  /** The keys a trimmed schema can hold. */
  const Structural: set<string> :=
    {"type", "required", "additionalProperties", "properties", "items", "oneOf", "anyOf", "allOf"}

  /** The composition keywords, in the order the code visits them. */
  const Compositions: seq<string> := ["oneOf", "anyOf", "allOf"]

  /** Whether member `k` of a map survives the trim: the structural keys, with
      `properties` only when it is a map and a composition keyword only when
      it is a list. */
  predicate Kept(t: Object, k: string)
    requires k in t
  {
    || k in {"type", "required", "additionalProperties", "items"}
    || (k == "properties" && t[k].Obj?)
    || (k in Compositions && t[k].Arr?)
  }

  /** The trimmed value of a kept member: `type` and `required` as they are,
      a map `additionalProperties` trimmed and any other one as it is, every
      property trimmed, `items` and each composition member trimmed. */
  function TrimmedAt(t: Object, k: string): Value
    requires k in t
    decreases Obj(t), 0
  {
    if k == "type" || k == "required" then t[k]
    else if k == "additionalProperties" && !t[k].Obj? then t[k]
    else if k == "properties" && t[k].Obj? then Obj(map n | n in t[k].fields :: Trimmed(t[k].fields[n]))
    else Trimmed(t[k])
  }

  /** trimToStructure as a function of the value. */
  function Trimmed(v: Value): Value
    decreases v, 2
  {
    match v
    case Obj(t) => Obj(map k | k in t && Kept(t, k) :: TrimmedAt(t, k))
    case Arr(s) => Arr(TrimmedList(s))
    case _ => v
  }

  function TrimmedList(s: seq<Value>): seq<Value>
    decreases Arr(s), 1
  {
    seq(|s|, i requires 0 <= i < |s| => Trimmed(s[i]))
  }

  /** What the trim keeps of a map: only structural keys; `type` and
      `required` unchanged; a map `properties` and list compositions always;
      a list trimmed element by element; a scalar unchanged. */
  lemma TrimShape(v: Value)
    ensures v.Obj? ==> Trimmed(v).Obj? && Trimmed(v).fields.Keys <= Structural
    ensures v.Obj? ==> forall k :: k in v.fields && k !in Structural ==> k !in Trimmed(v).fields
    ensures v.Obj? && "type" in v.fields ==> Trimmed(v).fields["type"] == v.fields["type"]
    ensures v.Obj? && "required" in v.fields ==> Trimmed(v).fields["required"] == v.fields["required"]
    ensures v.Obj? && "properties" in v.fields ==>
      ("properties" in Trimmed(v).fields <==> v.fields["properties"].Obj?)
    ensures v.Obj? && "properties" in v.fields && v.fields["properties"].Obj? ==>
      && Trimmed(v).fields["properties"].Obj?
      && Trimmed(v).fields["properties"].fields.Keys == v.fields["properties"].fields.Keys
    ensures v.Arr? ==>
      && Trimmed(v).Arr? && |Trimmed(v).items| == |v.items|
      && forall i :: 0 <= i < |v.items| ==> Trimmed(v).items[i] == Trimmed(v.items[i])
    ensures !v.Obj? && !v.Arr? ==> Trimmed(v) == v
  {
  }

  /** Trimming twice is trimming once. */
  lemma {:induction false} TrimIdempotent(v: Value)
    ensures Trimmed(Trimmed(v)) == Trimmed(v)
    decreases v
  {
    match v
    case Obj(t) =>
      var once := Trimmed(v).fields;
      forall k | k in once
        ensures Kept(once, k) && TrimmedAt(once, k) == TrimmedAt(t, k)
      {
        TrimIdempotentAt(t, k);
      }
      assert Trimmed(Obj(once)).fields == once;
    case Arr(s) =>
      forall i | 0 <= i < |s|
        ensures Trimmed(Trimmed(s[i])) == Trimmed(s[i])
      {
        TrimIdempotent(s[i]);
      }
    case _ =>
  }

  lemma {:induction false} TrimIdempotentAt(t: Object, k: string)
    requires k in t && Kept(t, k)
    ensures var once := Trimmed(Obj(t)).fields;
      k in once && Kept(once, k) && TrimmedAt(once, k) == TrimmedAt(t, k)
    decreases Obj(t), 0
  {
    var once := Trimmed(Obj(t)).fields;
    if k == "type" || k == "required" {
    } else if k == "additionalProperties" && !t[k].Obj? {
    } else if k == "properties" && t[k].Obj? {
      var ps := t[k].fields;
      forall n | n in ps
        ensures Trimmed(Trimmed(ps[n])) == Trimmed(ps[n])
      {
        TrimIdempotent(ps[n]);
      }
      var tp := map n | n in ps :: Trimmed(ps[n]);
      assert once[k] == TrimmedAt(t, k);
      assert TrimmedAt(t, k) == Obj(tp);
      assert TrimmedAt(once, k) == Obj(map n | n in tp :: Trimmed(tp[n]));
      assert (map n | n in tp :: Trimmed(tp[n])) == tp;
    } else {
      TrimIdempotent(t[k]);
    }
  }

  /** trimToStructure as the code runs it. */
  method TrimToStructure(v: Value) returns (r: Value)
    ensures r == Trimmed(v)
    decreases v, 3
  {
    match v {
      case Obj(t) =>
        var out := TrimMap(t);
        r := Obj(out);
      case Arr(s) =>
        var items := TrimElements(s);
        r := Arr(items);
      case _ =>
        r := v;
    }
  }

  /** The kept members of `t` among the keys `ks`, trimmed. */
  ghost function KeptAmong(t: Object, ks: set<string>): Object {
    map k | k in t && k in ks && Kept(t, k) :: TrimmedAt(t, k)
  }

  /** One more key visited: its trimmed member is added when it is kept. */
  lemma KeptAmongStep(t: Object, ks: set<string>, k: string)
    ensures k in t && Kept(t, k) ==> KeptAmong(t, ks + {k}) == KeptAmong(t, ks)[k := TrimmedAt(t, k)]
    ensures !(k in t && Kept(t, k)) ==> KeptAmong(t, ks + {k}) == KeptAmong(t, ks)
  {
  }

  /** Every kept key is structural, so the structural keys give the whole trim. */
  lemma KeptAmongAll(t: Object)
    ensures KeptAmong(t, Structural) == Trimmed(Obj(t)).fields
  {
  }

  /** A composition keyword is kept exactly when it holds a list, and then trimmed element-wise. */
  lemma CompositionKept(t: Object, k: string)
    requires k in Compositions
    ensures k in t ==> (Kept(t, k) <==> t[k].Arr?)
    ensures k in t && t[k].Arr? ==> TrimmedAt(t, k) == Arr(TrimmedList(t[k].items))
  {
  }

  /** The keys visited after `i` composition keywords. */
  ghost function Visited(i: nat): set<string>
    requires i <= |Compositions|
  {
    {"type", "required", "additionalProperties", "properties", "items"} + set k | k in Compositions[..i]
  }

  lemma VisitedStep(i: nat)
    requires i < |Compositions|
    ensures Visited(i + 1) == Visited(i) + {Compositions[i]}
  {
    assert Compositions[..i + 1] == Compositions[..i] + [Compositions[i]];
  }

  lemma VisitedAll()
    ensures Visited(0) == {"type", "required", "additionalProperties", "properties", "items"}
    ensures Visited(|Compositions|) == Structural
  {
    assert Compositions[..0] == [];
    assert Compositions[..3] == ["oneOf", "anyOf", "allOf"];
  }

  /** The map case: the plain keys, then the composition keywords one by one. */
  method TrimMap(t: Object) returns (out: Object)
    ensures out == Trimmed(Obj(t)).fields
    decreases Obj(t), 2
  {
    out := TrimPlainKeys(t);
    ghost var seen := Visited(0);
    var i := 0;
    while i < |Compositions|
      invariant 0 <= i <= |Compositions|
      invariant seen == Visited(i)
      invariant out == KeptAmong(t, seen)
    {
      var k := Compositions[i];
      KeptAmongStep(t, seen, k);
      CompositionKept(t, k);
      if k in t && t[k].Arr? {
        var trimmed := TrimElements(t[k].items);
        out := out[k := Arr(trimmed)];
      }
      seen := seen + {k};
      VisitedStep(i);
      i := i + 1;
    }
    VisitedAll();
    KeptAmongAll(t);
  }

  /** The keys before the composition loop, each as the code copies or trims it. */
  method TrimPlainKeys(t: Object) returns (out: Object)
    ensures out == KeptAmong(t, Visited(0))
    decreases Obj(t), 1
  {
    ghost var seen: set<string> := {};
    assert KeptAmong(t, seen) == map[];
    out := PutRaw(t, map[], seen, "type");
    seen := seen + {"type"};
    out := PutRaw(t, out, seen, "required");
    seen := seen + {"required"};
    out := PutAdditional(t, out, seen);
    seen := seen + {"additionalProperties"};
    out := PutProperties(t, out, seen);
    seen := seen + {"properties"};
    out := PutItems(t, out, seen);
    seen := seen + {"items"};
    VisitedAll();
    assert seen == Visited(0);
  }

  /** `type` and `required` are copied as they are. */
  method PutRaw(t: Object, out: Object, ghost seen: set<string>, k: string) returns (out': Object)
    requires k == "type" || k == "required"
    requires out == KeptAmong(t, seen)
    ensures out' == KeptAmong(t, seen + {k})
  {
    KeptAmongStep(t, seen, k);
    out' := out;
    if k in t {
      out' := out'[k := t[k]];
    }
  }

  /** A map `additionalProperties` is trimmed, any other one copied. */
  method PutAdditional(t: Object, out: Object, ghost seen: set<string>) returns (out': Object)
    requires out == KeptAmong(t, seen)
    ensures out' == KeptAmong(t, seen + {"additionalProperties"})
    decreases Obj(t), 0
  {
    KeptAmongStep(t, seen, "additionalProperties");
    out' := out;
    if "additionalProperties" in t {
      var ap := t["additionalProperties"];
      if ap.Obj? {
        var trimmed := TrimMap(ap.fields);
        out' := out'["additionalProperties" := Obj(trimmed)];
      } else {
        out' := out'["additionalProperties" := ap];
      }
    }
  }

  /** `for name, pv := range props`: every property trimmed, in any order;
      a `properties` that is not a map is dropped. */
  method PutProperties(t: Object, out: Object, ghost seen: set<string>) returns (out': Object)
    requires out == KeptAmong(t, seen)
    ensures out' == KeptAmong(t, seen + {"properties"})
    decreases Obj(t), 0
  {
    KeptAmongStep(t, seen, "properties");
    out' := out;
    if "properties" in t && t["properties"].Obj? {
      var props := t["properties"].fields;
      var trimmedProps: Object := map[];
      var ks := props.Keys;
      while ks != {}
        invariant ks <= props.Keys
        invariant trimmedProps == map n | n in props.Keys - ks :: Trimmed(props[n])
        decreases ks
      {
        var name :| name in ks;
        var pv := TrimToStructure(props[name]);
        trimmedProps := trimmedProps[name := pv];
        ks := ks - {name};
      }
      assert Kept(t, "properties") && TrimmedAt(t, "properties") == Obj(trimmedProps);
      out' := out'["properties" := Obj(trimmedProps)];
    } else if "properties" in t {
      assert !Kept(t, "properties");
    }
  }

  /** `items` is trimmed, whatever it is. */
  method PutItems(t: Object, out: Object, ghost seen: set<string>) returns (out': Object)
    requires out == KeptAmong(t, seen)
    ensures out' == KeptAmong(t, seen + {"items"})
    decreases Obj(t), 0
  {
    KeptAmongStep(t, seen, "items");
    out' := out;
    if "items" in t {
      var items := TrimToStructure(t["items"]);
      assert Kept(t, "items") && TrimmedAt(t, "items") == items;
      out' := out'["items" := items];
    }
  }

  /** A list trimmed element by element, in order. */
  method TrimElements(s: seq<Value>) returns (trimmed: seq<Value>)
    ensures trimmed == TrimmedList(s)
    decreases Arr(s), 2
  {
    trimmed := [];
    var i := 0;
    while i < |s|
      invariant 0 <= i <= |s| && |trimmed| == i
      invariant forall j :: 0 <= j < i ==> trimmed[j] == Trimmed(s[j])
    {
      var e := TrimToStructure(s[i]);
      trimmed := trimmed + [e];
      i := i + 1;
    }
  }

  // ---- getIndexComponentRel

  /** The relative URL of one index entry: a non-empty `serverRelativeURL`,
      else a non-empty `url`. */
  function EntryRel(paths: Object, k: string): Option<string> {
    match MapAt(paths, k)
    case None => None
    case Some(ent) =>
      if StrAt(ent, "serverRelativeURL") != "" then Some(StrAt(ent, "serverRelativeURL"))
      else if StrAt(ent, "url") != "" then Some(StrAt(ent, "url"))
      else None
  }

  /** The component of `key` in the index: none without a `paths` map; the
      entry under `key` is tried before the one under `/key`. */
  function IndexRel(index: Object, key: string): Option<string> {
    match MapAt(index, "paths")
    case None => None
    case Some(paths) => if EntryRel(paths, key).Some? then EntryRel(paths, key) else EntryRel(paths, "/" + key)
  }

  /** getIndexComponentRel: the relative URL and whether one was found. */
  method GetIndexComponentRel(index: Object, key: string) returns (rel: string, ok: bool)
    ensures ok <==> IndexRel(index, key).Some?
    ensures ok ==> rel == IndexRel(index, key).value && rel != ""
    ensures !ok ==> rel == ""
  {
    if !("paths" in index && index["paths"].Obj?) {
      return "", false;
    }
    var paths := index["paths"].fields;
    var candidates := [key, "/" + key];
    assert IndexRel(index, key) == if EntryRel(paths, key).Some? then EntryRel(paths, key) else EntryRel(paths, "/" + key);
    var i := 0;
    while i < |candidates|
      invariant 0 <= i <= 2
      invariant i >= 1 ==> EntryRel(paths, key).None?
      invariant i >= 2 ==> EntryRel(paths, "/" + key).None?
    {
      var k := candidates[i];
      if k in paths && paths[k].Obj? {
        var ent := paths[k].fields;
        var s := StrAt(ent, "serverRelativeURL");
        if s != "" {
          assert EntryRel(paths, k) == Some(s);
          return s, true;
        }
        s := StrAt(ent, "url");
        if s != "" {
          assert EntryRel(paths, k) == Some(s);
          return s, true;
        }
      }
      assert EntryRel(paths, k).None?;
      i := i + 1;
    }
    return "", false;
  }

  /** The found URL is never empty, and an entry under the bare key hides one under `/key`. */
  lemma IndexRelCases(index: Object, key: string, paths: Object)
    requires MapAt(index, "paths") == Some(paths)
    ensures IndexRel(index, key).Some? ==> IndexRel(index, key).value != ""
    ensures EntryRel(paths, key).Some? ==> IndexRel(index, key) == EntryRel(paths, key)
    ensures EntryRel(paths, key).None? ==> IndexRel(index, key) == EntryRel(paths, "/" + key)
    ensures MapAt(paths, key).Some? && StrAt(MapAt(paths, key).value, "serverRelativeURL") != "" ==>
      IndexRel(index, key) == Some(StrAt(MapAt(paths, key).value, "serverRelativeURL"))
  {
  }

  // ---- group/version parsing of index keys

  /** The component key GetResourceDefinition looks up: `apis/<group>/<version>`
      with dots trimmed from both ends of group and version. */
  function ComponentKey(group: string, version: string): string {
    "apis/" + TrimChar(group, '.') + "/" + TrimChar(version, '.')
  }

  /** The (group, version) one index key contributes: a leading `/` is
      dropped; only `apis/` keys with at least three segments count. */
  function KeyGV(key: string): Option<(string, string)> {
    var k := TrimPrefix(key, "/");
    if !HasPrefix(k, "apis/") then None
    else
      var parts := Split(k, '/');
      if |parts| < 3 then None else Some((parts[1], parts[2]))
  }

  /** The keys ListResourceDefinitions reads: those of the `paths` map when
      the index has `paths` (none when it is not a map), otherwise the index's own. */
  function IndexKeys(idx: Value): set<string> {
    if !idx.Obj? then {}
    else if "paths" in idx.fields then
      (if idx.fields["paths"].Obj? then idx.fields["paths"].fields.Keys else {})
    else idx.fields.Keys
  }

  /** `gv` holds exactly the pairs the keys `ks` contribute, versions as a set per group. */
  ghost predicate Collected(gv: map<string, set<string>>, ks: set<string>) {
    && (forall g :: g in gv <==> exists key :: key in ks && KeyGV(key).Some? && KeyGV(key).value.0 == g)
    && (forall g, v :: g in gv ==> (v in gv[g] <==> exists key :: key in ks && KeyGV(key) == Some((g, v))))
  }

  /** Step 1 of ListResourceDefinitions: groupToVersions. */
  method GroupVersions(idx: Value) returns (gv: map<string, set<string>>)
    ensures Collected(gv, IndexKeys(idx))
  {
    gv := map[];
    var keys := IndexKeys(idx);
    var ks := keys;
    while ks != {}
      invariant ks <= keys
      invariant Collected(gv, keys - ks)
      decreases ks
    {
      var key :| key in ks;
      gv := AddKey(gv, keys - ks, key);
      assert keys - (ks - {key}) == (keys - ks) + {key};
      ks := ks - {key};
    }
    assert keys - ks == keys;
  }

  /** The body of the key loop. */
  method AddKey(gv: map<string, set<string>>, ghost done: set<string>, key: string)
    returns (gv': map<string, set<string>>)
    requires Collected(gv, done)
    ensures Collected(gv', done + {key})
  {
    gv' := gv;
    var p := KeyGV(key);
    if p.None? {
      return;
    }
    var g, v := p.value.0, p.value.1;
    if g !in gv' {
      gv' := gv'[g := {}];
    }
    gv' := gv'[g := gv'[g] + {v}];
  }

  /** Three `/`-free pieces joined with `/` split back into themselves. */
  lemma SplitThree(a: string, b: string, c: string)
    requires '/' !in a && '/' !in b && '/' !in c
    ensures Split(a + "/" + b + "/" + c, '/') == [a, b, c]
  {
    assert Join([a, b, c], "/") == a + "/" + b + "/" + c by {
      assert Join([b, c], "/") == b + "/" + c;
      assert [a, b, c][1..] == [b, c];
    }
    JoinSplit([a, b, c], '/');
  }

  /** An `apis/<g>/<v>` key with `/`-free g and v parses to (g, v). */
  lemma KeyGVParts(g: string, v: string)
    requires '/' !in g && '/' !in v
    ensures KeyGV("apis/" + g + "/" + v) == Some((g, v))
  {
    var apis := "apis";
    var key := "apis/" + g + "/" + v;
    assert '/' !in apis;
    assert key == apis + "/" + g + "/" + v;
    SplitThree(apis, g, v);
    assert !HasPrefix(key, "/") by {
      assert key[0] == 'a';
    }
    assert HasPrefix(key, "apis/") by {
      assert key[..5] == "apis/";
    }
  }

  /** The component key of a group and version without `/` parses back to
      the trimmed group and version. */
  lemma ComponentKeyParses(group: string, version: string)
    requires '/' !in TrimChar(group, '.') && '/' !in TrimChar(version, '.')
    ensures KeyGV(ComponentKey(group, version)) == Some((TrimChar(group, '.'), TrimChar(version, '.')))
  {
    KeyGVParts(TrimChar(group, '.'), TrimChar(version, '.'));
  }

  // ---- the resource filter

  /** A resource of an APIResourceList as the listing reports it. */
  datatype Resource = Resource(name: string, kind: string, namespaced: bool)

  /** One element of `resources`: kept unless its name or kind is empty or
      its name holds `/` (a subresource such as `pods/status`). */
  function ResourceOf(r: Value): Option<Resource> {
    var rm := if r.Obj? then r.fields else map[];
    var name, kind := StrAt(rm, "name"), StrAt(rm, "kind");
    if name == "" || kind == "" || Contains(name, "/") then None
    else Some(Resource(name, kind, BoolAt(rm, "namespaced").GetOr(false)))
  }

  /** The kept resources, in list order. */
  function KeptResources(rs: seq<Value>): seq<Resource>
    decreases |rs|
  {
    if rs == [] then []
    else
      var last := ResourceOf(rs[|rs| - 1]);
      KeptResources(rs[..|rs| - 1]) + (if last.Some? then [last.value] else [])
  }

  /** The resource loop over `arl["resources"]`; anything but a list is empty. */
  method FilterResources(arl: Object) returns (out: seq<Resource>)
    ensures out == KeptResources(ListAt(arl, "resources").GetOr([]))
  {
    var resArr := ListAt(arl, "resources").GetOr([]);
    out := [];
    var i := 0;
    while i < |resArr|
      invariant 0 <= i <= |resArr| && out == KeptResources(resArr[..i])
    {
      assert resArr[..i + 1][..i] == resArr[..i];
      var rm := if resArr[i].Obj? then resArr[i].fields else map[];
      var name := StrAt(rm, "name");
      var kind := StrAt(rm, "kind");
      var ns := BoolAt(rm, "namespaced").GetOr(false);
      if !(name == "" || kind == "" || Contains(name, "/")) {
        out := out + [Resource(name, kind, ns)];
      }
      i := i + 1;
    }
    assert resArr[..i] == resArr;
  }

  /** Exactly the well-formed top-level resources are kept, in order: each
      kept one has a name without `/` and a kind, and each element with
      those is kept. */
  lemma {:induction false} KeptResourcesExactly(rs: seq<Value>)
    ensures forall r :: r in KeptResources(rs) ==> r.name != "" && r.kind != "" && !Contains(r.name, "/")
    ensures forall i :: 0 <= i < |rs| && ResourceOf(rs[i]).Some? ==> ResourceOf(rs[i]).value in KeptResources(rs)
    ensures |KeptResources(rs)| <= |rs|
    decreases |rs|
  {
    if rs != [] {
      var init := rs[..|rs| - 1];
      KeptResourcesExactly(init);
      forall i | 0 <= i < |rs| - 1 && ResourceOf(rs[i]).Some?
        ensures ResourceOf(rs[i]).value in KeptResources(rs)
      {
        assert rs[i] == init[i];
      }
    }
  }

  // ---- the kind filter of GetResourceDefinition

  /** One x-kubernetes-group-version-kind entry names the requested group,
      version and kind, ignoring case (ASCII folding here), with dots
      trimmed from the requested group and version. */
  predicate GvkMatches(e: Value, group: string, version: string, k: string) {
    var em := if e.Obj? then e.fields else map[];
    && EqualFoldAscii(StrAt(em, "group"), TrimChar(group, '.'))
    && EqualFoldAscii(StrAt(em, "version"), TrimChar(version, '.'))
    && EqualFoldAscii(StrAt(em, "kind"), k)
  }

  /** Schema `v` carries a matching entry. */
  predicate SchemaMatches(v: Value, group: string, version: string, k: string) {
    var xs := GvkEntries(v);
    exists i :: 0 <= i < |xs| && GvkMatches(xs[i], group, version, k)
  }

  /** The x-kubernetes-group-version-kind list of a schema; empty when missing. */
  function GvkEntries(v: Value): seq<Value> {
    var sm := if v.Obj? then v.fields else map[];
    ListAt(sm, "x-kubernetes-group-version-kind").GetOr([])
  }

  /** `components.schemas` of a component document; empty when missing. */
  function SchemasOf(doc: Value): Object {
    var m := if doc.Obj? then doc.fields else map[];
    MapOrEmpty(MapOrEmpty(m, "components"), "schemas")
  }

  /** Whether some schema of the document matches. */
  ghost predicate AnyMatch(doc: Value, group: string, version: string, k: string) {
    exists name :: name in SchemasOf(doc) && SchemaMatches(SchemasOf(doc)[name], group, version, k)
  }

  /** The filter: with a blank kind, or no matching schema, the whole
      document; otherwise one matching schema (map order decides which). */
  method FilterByKind(doc: Value, group: string, version: string, kind: string) returns (r: Value)
    ensures TrimSpace(kind) == "" || !AnyMatch(doc, group, version, TrimSpace(kind)) ==> r == doc
    ensures TrimSpace(kind) != "" && AnyMatch(doc, group, version, TrimSpace(kind)) ==>
      exists name :: name in SchemasOf(doc) && SchemasOf(doc)[name] == r
        && SchemaMatches(r, group, version, TrimSpace(kind))
  {
    var k := TrimSpace(kind);
    if k == "" {
      return doc;
    }
    var schemas := SchemasOf(doc);
    var ks := schemas.Keys;
    while ks != {}
      invariant ks <= schemas.Keys
      invariant forall name :: name in schemas.Keys - ks ==> !SchemaMatches(schemas[name], group, version, k)
      decreases ks
    {
      var name :| name in ks;
      var found := FirstMatch(schemas[name], group, version, k);
      if found {
        return schemas[name];
      }
      ks := ks - {name};
    }
    return doc;
  }

  /** The entry loop of one schema. */
  method FirstMatch(v: Value, group: string, version: string, k: string) returns (found: bool)
    ensures found <==> SchemaMatches(v, group, version, k)
  {
    var xs := GvkEntries(v);
    var i := 0;
    while i < |xs|
      invariant 0 <= i <= |xs|
      invariant forall j :: 0 <= j < i ==> !GvkMatches(xs[j], group, version, k)
    {
      var em := if xs[i].Obj? then xs[i].fields else map[];
      if EqualFoldAscii(StrAt(em, "group"), TrimChar(group, '.'))
         && EqualFoldAscii(StrAt(em, "version"), TrimChar(version, '.'))
         && EqualFoldAscii(StrAt(em, "kind"), k) {
        assert GvkMatches(xs[i], group, version, k);
        return true;
      }
      i := i + 1;
    }
    return false;
  }

  // ---- the list kind

  datatype GVK = GVK(group: string, version: string, kind: string)

  /** The list GVK of resolveGVKs: same group and version, kind + "List". */
  function ListGVK(obj: GVK): (l: GVK)
    ensures l.group == obj.group && l.version == obj.version
    ensures HasSuffix(l.kind, "List") && TrimSuffix(l.kind, "List") == obj.kind
  {
    GVK(obj.group, obj.version, obj.kind + "List")
  }

  /** An OpenAPI x-kubernetes-group-version-kind entry naming a list GVK is
      skipped by the schema cache's ingestion. */
  lemma ListKindNotRegistered(obj: GVK)
    ensures var l := ListGVK(obj);
      Registry.GvkKey(Obj(map["group" := Str(l.group), "version" := Str(l.version), "kind" := Str(l.kind)])).None?
  {
  }
}
