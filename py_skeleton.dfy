/**
 * `_make_skeleton` of server.py and the result shaping of the list_crds,
 * skeleton_crd and list_supported endpoints over the tables `_build_maps`
 * produces. `yaml.safe_dump` of the skeleton is not modelled: the skeleton
 * tree is the result.
 */
module PySkeleton {
  import opened Wrappers
  import opened Strings
  import opened Json
  import Skeletons
  import Sorting
  import PyServer

  // ---- _make_skeleton

  /** The `build` closure: an object keeps the properties `required` names,
      each built, an array becomes a one-element list of its built `items`,
      any other type is None. None when it raises: a node that is not a dict,
      an object whose `properties` is not a dict or whose `required` cannot be
      searched with `in`, an array without `items`. */
  function Build(node: Value): Option<Value>
    decreases node, 2
  {
    if !node.Obj? then None
    else
      var m := node.fields;
      if GetOr(m, "type", Null) == Str("object") then
        if "properties" in m then BuildProps(m) else Some(Obj(map[]))
      else if GetOr(m, "type", Null) == Str("array") then
        if "items" !in m then None
        else
          var b := Build(m["items"]);
          if b.None? then None else Some(Arr([b.value]))
      else Some(Null)
  }

  /** The loop `for k, sub in node.get("properties", {}).items()` with the
      `k in node.get("required", [])` test. */
  function BuildProps(m: Object): Option<Value>
    requires "properties" in m
    decreases Obj(m), 1
  {
    if !m["properties"].Obj? then None
    else
      var props := m["properties"].fields;
      var req := GetOr(m, "required", Arr([]));
      if exists k :: k in props && (In(k, req).None? || (In(k, req) == Some(true) && Build(props[k]).None?)) then None
      else Some(Obj(map k | k in props && In(k, req) == Some(true) :: Build(props[k]).value))
  }

  /** The shape of a built node, by the node's `type`. */
  lemma BuildShape(m: Object)
    requires Build(Obj(m)).Some?
    ensures GetOr(m, "type", Null) == Str("object") ==>
      && Build(Obj(m)).value.Obj?
      && forall k :: k in Build(Obj(m)).value.fields <==>
           k in MapOrEmpty(m, "properties") && In(k, GetOr(m, "required", Arr([]))) == Some(true)
    ensures GetOr(m, "type", Null) == Str("array") ==>
      "items" in m && Build(m["items"]).Some? && Build(Obj(m)).value == Arr([Build(m["items"]).value])
    ensures GetOr(m, "type", Null) !in {Str("object"), Str("array")} ==> Build(Obj(m)).value == Null
  {
  }

  /** Every `required` along the schema is a list without the empty string,
      so that the `in` test and the Go code's listToSet agree. */
  predicate PlainRequired(v: Value)
    decreases v
  {
    v.Obj? ==>
      && ("required" in v.fields ==> v.fields["required"].Arr? && Str("") !in v.fields["required"].items)
      && ("properties" in v.fields && v.fields["properties"].Obj? ==>
            forall k :: k in v.fields["properties"].fields ==> PlainRequired(v.fields["properties"].fields[k]))
      && ("items" in v.fields ==> PlainRequired(v.fields["items"]))
  }

  /** Where the build does not raise and every `required` is a plain list, it
      builds what the Go skeleton builder builds. */
  lemma {:induction false} BuildAsGo(node: Value)
    requires Build(node).Some? && PlainRequired(node)
    ensures Build(node).value == Skeletons.Build(node.fields)
    decreases node
  {
    var m := node.fields;
    if GetOr(m, "type", Null) == Str("object") {
      if "properties" in m {
        var props := m["properties"].fields;
        var req := GetOr(m, "required", Arr([]));
        var goReq := ListToSet(Lookup(m, "required"));
        forall k | k in props
          ensures In(k, req) == Some(true) <==> k in goReq
          ensures In(k, req) == Some(true) ==>
            props[k].Obj? && Build(props[k]).Some? && Build(props[k]).value == Skeletons.Build(props[k].fields)
        {
          assert !(In(k, req).None? || (In(k, req) == Some(true) && Build(props[k]).None?));
          if In(k, req) == Some(true) {
            BuildAsGo(props[k]);
          }
        }
      }
    } else if GetOr(m, "type", Null) == Str("array") {
      BuildAsGo(m["items"]);
    }
  }

  /** `_make_skeleton(api, kind)` on the stored spec schema: apiVersion, kind,
      and the built spec, or `{}` when the build is falsy. */
  function MakeSkeleton(api: string, kind: string, spec: Value): (r: Option<Object>)
    ensures r.Some? <==> Build(spec).Some?
    ensures r.Some? ==>
      && r.value.Keys == {"apiVersion", "kind", "spec"}
      && r.value["apiVersion"] == Str(api) && r.value["kind"] == Str(kind)
      && (Truthy(Build(spec).value) ==> r.value["spec"] == Build(spec).value)
      && (!Truthy(Build(spec).value) ==> r.value["spec"] == Obj(map[]))
  {
    var b := Build(spec);
    if b.None? then None
    else Some(map["apiVersion" := Str(api), "kind" := Str(kind), "spec" := Or(b.value, Obj(map[]))])
  }

  /** A spec schema of type object with no required property, or of a scalar
      type, gives the skeleton `spec: {}`; one of type array always gives a
      one-element list. */
  lemma SkeletonSpecCases(api: string, kind: string, m: Object)
    requires MakeSkeleton(api, kind, Obj(m)).Some?
    ensures GetOr(m, "type", Null) == Str("object") && "required" !in m ==>
      MakeSkeleton(api, kind, Obj(m)).value["spec"] == Obj(map[])
    ensures GetOr(m, "type", Null) !in {Str("object"), Str("array")} ==>
      MakeSkeleton(api, kind, Obj(m)).value["spec"] == Obj(map[])
    ensures GetOr(m, "type", Null) == Str("array") ==>
      MakeSkeleton(api, kind, Obj(m)).value["spec"] == Arr([Build(m["items"]).value])
  {
    BuildShape(m);
    var b := Build(Obj(m)).value;
    if GetOr(m, "type", Null) == Str("object") && "required" !in m {
      assert b.fields == map[];
    }
  }

  // ---- the endpoints

  /** `skeleton(req)`: 400 for a key `_RAW_SCHEMA` lacks, the skeleton otherwise. */
  function SkeletonCrd(raw: map<PyServer.Key, Value>, api: string, kind: string): (r: Result<Object, PyServer.Failure>)
    ensures (api, kind) !in raw <==> r == Err(PyServer.Http(400, "Unknown apiVersion/kind"))
    ensures r.Ok? <==> (api, kind) in raw && MakeSkeleton(api, kind, raw[(api, kind)]).Some?
    ensures r.Ok? ==> r.value == MakeSkeleton(api, kind, raw[(api, kind)]).value
  {
    if (api, kind) !in raw then Err(PyServer.Http(400, "Unknown apiVersion/kind"))
    else
      var s := MakeSkeleton(api, kind, raw[(api, kind)]);
      if s.None? then Err(PyServer.Raised) else Ok(s.value)
  }

  /** `list_crds()`: the keys of `_ALLOWED`, each once, in ascending
      (apiVersion, kind) order. */
  method ListCrds(allowed: map<PyServer.Key, set<string>>) returns (out: seq<PyServer.Key>)
    ensures Sorting.SortedBy(out, Sorting.PairLess)
    ensures |out| == |allowed.Keys|
    ensures forall p :: p in out <==> p in allowed
  {
    Sorting.PairOrder();
    out := Sorting.SortSet(allowed.Keys, Sorting.PairLess);
  }

  /** `list_supported(req)`: 400 for a key `_ALLOWED` lacks, its allow-list
      in ascending order otherwise. */
  method ListSupported(allowed: map<PyServer.Key, set<string>>, api: string, kind: string)
    returns (r: Result<seq<string>, PyServer.Failure>)
    ensures (api, kind) !in allowed <==> r.Err?
    ensures r.Err? ==> r.error == PyServer.Http(400, "Unknown apiVersion/kind")
    ensures r.Ok? ==>
      && Sorting.SortedBy(r.value, LexLess)
      && |r.value| == |allowed[(api, kind)]|
      && forall p :: p in r.value <==> p in allowed[(api, kind)]
  {
    if (api, kind) !in allowed {
      return Err(PyServer.Http(400, "Unknown apiVersion/kind"));
    }
    Sorting.StringOrder();
    var paths := Sorting.SortSet(allowed[(api, kind)], LexLess);
    r := Ok(paths);
  }
}
