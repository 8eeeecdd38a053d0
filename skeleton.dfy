/**
 * Skeleton of internal/discovery/discovery.go: a minimal document for an
 * apiVersion/kind holding only what the schema marks as required. The YAML
 * rendering is the identity on the document tree here.
 */
module Skeletons {
  import opened Wrappers
  import opened Json

  /** The recursive `build` closure: an object keeps its required properties,
      an array becomes a one-element list, anything else is null. */
  function Build(node: Object): Value
    decreases Obj(node)
  {
    var t := StrAt(node, "type");
    if t == "object" then
      var req := ListToSet(Lookup(node, "required"));
      if MapAt(node, "properties").Some? then
        var pr := MapAt(node, "properties").value;
        Obj(map k | k in pr && k in req :: if pr[k].Obj? then Build(pr[k].fields) else Null)
      else Obj(map[])
    else if t == "array" then
      if MapAt(node, "items").Some? then Arr([Build(MapAt(node, "items").value)]) else Arr([Null])
    else Null
  }

  /** The shape of a built node, by the node's `type`. */
  lemma BuildShape(node: Object)
    ensures StrAt(node, "type") == "object" ==>
      Build(node).Obj?
      && Build(node).fields.Keys == MapOrEmpty(node, "properties").Keys * ListToSet(Lookup(node, "required"))
    ensures StrAt(node, "type") == "array" ==> Build(node).Arr? && |Build(node).items| == 1
    ensures StrAt(node, "type") == "array" && MapAt(node, "items").Some? ==>
      Build(node).items[0] == Build(MapAt(node, "items").value)
    ensures StrAt(node, "type") !in {"object", "array"} ==> Build(node) == Null
  {
  }

  /** The `metadata` of a skeleton: `name` and `namespace` as empty strings,
      each only when required. */
  function SkeletonMeta(ms: Object): Object {
    var req := ListToSet(Lookup(ms, "required"));
    (if "name" in req then map["name" := Str("")] else map[])
    + (if "namespace" in req then map["namespace" := Str("")] else map[])
  }

  /** The top-level keys required by the schema, less the ones always present. */
  function RequiredTop(schema: Object): set<string> {
    ListToSet(Lookup(schema, "required")) - {"apiVersion", "kind", "metadata"}
  }

  /** The skeleton document for a schema. */
  function SkeletonBody(schema: Object, api: string, kind: string): (body: Object)
    ensures "apiVersion" in body && body["apiVersion"] == Str(api)
    ensures "kind" in body && body["kind"] == Str(kind)
  {
    var props := MapOrEmpty(schema, "properties");
    var base := map["apiVersion" := Str(api), "kind" := Str(kind)];
    var withMeta :=
      if MapAt(props, "metadata").Some? && SkeletonMeta(MapAt(props, "metadata").value) != map[] then
        base["metadata" := Obj(SkeletonMeta(MapAt(props, "metadata").value))]
      else base;
    if MapAt(props, "spec").Some? then
      var x := Build(MapAt(props, "spec").value);
      withMeta["spec" := if x == Null then Obj(map[]) else x]
    else
      withMeta + map k | k in RequiredTop(schema) ::
        if MapAt(props, k).Some? then Build(MapAt(props, k).value) else Null
  }

  /** Skeleton: an error for an unregistered apiVersion/kind. */
  function Skeleton(schema: Option<Object>, api: string, kind: string): (r: Result<Object, string>)
    ensures schema.None? <==> r == Err("unknown apiVersion/kind")
  {
    if schema.None? then Err("unknown apiVersion/kind") else Ok(SkeletonBody(schema.value, api, kind))
  }

  /** The skeleton's `metadata` holds only `name` / `namespace` as "", each only
      when the schema's `metadata` requires it, and is left out when empty. */
  lemma SkeletonMetadata(schema: Object, api: string, kind: string)
    requires "metadata" in SkeletonBody(schema, api, kind)
    ensures var ms := MapAt(MapOrEmpty(schema, "properties"), "metadata");
      var meta := SkeletonBody(schema, api, kind)["metadata"];
      && ms.Some? && meta.Obj? && meta.fields != map[]
      && meta.fields.Keys <= {"name", "namespace"}
      && (forall k :: k in meta.fields ==>
            meta.fields[k] == Str("") && k in ListToSet(Lookup(ms.value, "required")))
  {
  }

  /** With a `spec` map in the schema the skeleton is the apiVersion, kind,
      maybe metadata, and a `spec` that is `{}` when nothing was built. */
  lemma SkeletonSpec(schema: Object, api: string, kind: string)
    requires MapAt(MapOrEmpty(schema, "properties"), "spec").Some?
    ensures var body := SkeletonBody(schema, api, kind);
      var sp := MapAt(MapOrEmpty(schema, "properties"), "spec").value;
      && body.Keys <= {"apiVersion", "kind", "metadata", "spec"}
      && "spec" in body && body["spec"] != Null
      && (body["spec"] == Obj(map[]) <==> Build(sp) in {Null, Obj(map[])})
  {
  }

  /** Without a `spec` map the skeleton carries the required top-level properties. */
  lemma SkeletonNoSpec(schema: Object, api: string, kind: string)
    requires MapAt(MapOrEmpty(schema, "properties"), "spec").None?
    ensures var body := SkeletonBody(schema, api, kind);
      body.Keys == {"apiVersion", "kind"} + (if "metadata" in body then {"metadata"} else {})
                   + RequiredTop(schema)
  {
  }
}
