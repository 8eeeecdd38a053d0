/**
 * `_collect_paths` of discovery.py, the Python form of collectPaths: the same
 * rules, except that a sub-schema which is neither a dict nor falsy makes the
 * walk raise (its `.get` or `.items()` fails) where the Go code skips it.
 * `v or {}` replaces a falsy sub-schema by the empty dict, which adds nothing.
 */
module PyCollect {
  import opened Wrappers
  import opened Strings
  import opened Json
  import opened Paths
  import opened SpecPaths

  const PreserveKey: string := "x-kubernetes-preserve-unknown-fields"

  /** `v or {}` read as a dict: None when `v` is truthy but not a dict, so that
      the following `.get` / `.items()` raises. */
  function DictOr(v: Value): (r: Option<Object>)
    ensures r.Some? <==> v.Obj? || !Truthy(v)
    ensures v.Obj? ==> r == Some(v.fields)
  {
    if v.Obj? then Some(v.fields) else if Truthy(v) then None else Some(map[])
  }

  /** `_collect_paths(node, base, out)` adds Gather(node, base) to `out`, or
      raises (None). */
  function Gather(node: Object, base: string): Option<set<string>>
    decreases Obj(node), 2
  {
    var pre: set<string> := if Lookup(node, PreserveKey) == Some(Bool(true)) then {Wild(base)} else {};
    var all, any, one := Members(node, "allOf", base), Members(node, "anyOf", base), Members(node, "oneOf", base);
    var typed :=
      if Lookup(node, "type") == Some(Str("object")) then ObjectOf(node, base)
      else if Lookup(node, "type") == Some(Str("array")) && "items" in node then GatherOr(node["items"], base)
      else Some({});
    if all.None? || any.None? || one.None? || typed.None? then None
    else Some(pre + all.value + any.value + one.value + typed.value)
  }

  /** `_collect_paths(v or {}, base, out)` */
  function GatherOr(v: Value, base: string): (r: Option<set<string>>)
    ensures !v.Obj? ==> (r.Some? <==> !Truthy(v)) && (r.Some? ==> r.value == {})
    decreases v, 3
  {
    if v.Obj? then Gather(v.fields, base) else if Truthy(v) then None else Some({})
  }

  /** The members of a composition list `node[key]`, each at the same base. */
  function Members(node: Object, key: string, base: string): Option<set<string>>
    decreases Obj(node), 0
  {
    if key in node && node[key].Arr? then
      var l := node[key].items;
      if exists i :: 0 <= i < |l| && GatherOr(l[i], base).None? then None
      else Some(set i, p | 0 <= i < |l| && GatherOr(l[i], base).Some? && p in GatherOr(l[i], base).value :: p)
    else Some({})
  }

  /** An object node: `node.get("properties", {}) or {}` must be a dict; each
      property path, what its sub-schema allows, and `additionalProperties`. */
  function ObjectOf(node: Object, base: string): Option<set<string>>
    decreases Obj(node), 1
  {
    var pv := if "properties" in node then node["properties"] else Null;
    if Truthy(pv) && !pv.Obj? then None
    else
      var props := if pv.Obj? then pv.fields else map[];
      var add := Additional(node, base);
      if add.None? || exists k :: k in props && GatherOr(props[k], Here(base, k)).None? then None
      else
        Some((set k | k in props :: Here(base, k))
             + (set k, p | k in props && GatherOr(props[k], Here(base, k)).Some?
                             && p in GatherOr(props[k], Here(base, k)).value :: p)
             + add.value)
  }

  /** A dict `additionalProperties` adds the wildcard and is walked at the same
      base; `True` adds the wildcard alone. */
  function Additional(node: Object, base: string): Option<set<string>>
    decreases Obj(node), 0
  {
    if "additionalProperties" in node && node["additionalProperties"].Obj? then
      var r := Gather(node["additionalProperties"].fields, base);
      if r.None? then None else Some({Wild(base)} + r.value)
    else if Lookup(node, "additionalProperties") == Some(Bool(true)) then Some({Wild(base)})
    else Some({})
  }

  /** The walk of the empty dict adds nothing, which is why `v or {}` does. */
  lemma EmptyAddsNothing(base: string)
    ensures Gather(map[], base) == Some({})
    ensures Collect(map[], base) == {}
  {
  }

  /** Where the Python walk does not raise, it collects exactly what the Go
      walk collects. */
  lemma {:induction false} Agrees(node: Object, base: string)
    requires Gather(node, base).Some?
    ensures Gather(node, base).value == Collect(node, base)
    decreases Obj(node), 2
  {
    MembersAgree(node, "allOf", base);
    MembersAgree(node, "anyOf", base);
    MembersAgree(node, "oneOf", base);
    if Lookup(node, "type") == Some(Str("object")) {
      ObjectAgrees(node, base);
    } else if Lookup(node, "type") == Some(Str("array")) && "items" in node {
      OrAgrees(node["items"], base);
    }
  }

  lemma {:induction false} OrAgrees(v: Value, base: string)
    requires GatherOr(v, base).Some?
    ensures GatherOr(v, base).value == if v.Obj? then Collect(v.fields, base) else {}
    decreases v, 3
  {
    if v.Obj? {
      Agrees(v.fields, base);
    }
  }

  lemma {:induction false} MembersAgree(node: Object, key: string, base: string)
    requires Members(node, key, base).Some?
    ensures Members(node, key, base).value == MembersPaths(node, key, base)
    decreases Obj(node), 0
  {
    if key in node && node[key].Arr? {
      var l := node[key].items;
      forall i | 0 <= i < |l|
        ensures GatherOr(l[i], base).Some?
        ensures GatherOr(l[i], base).value == if l[i].Obj? then Collect(l[i].fields, base) else {}
      {
        OrAgrees(l[i], base);
      }
      var py := Members(node, key, base).value;
      var go := MembersPaths(node, key, base);
      forall p | p in py ensures p in go {
        var i :| 0 <= i < |l| && GatherOr(l[i], base).Some? && p in GatherOr(l[i], base).value;
      }
      forall p | p in go ensures p in py {
        var i :| 0 <= i < |l| && l[i].Obj? && p in Collect(l[i].fields, base);
      }
    }
  }

  lemma {:induction false} ObjectAgrees(node: Object, base: string)
    requires ObjectOf(node, base).Some?
    ensures ObjectOf(node, base).value == ObjectPaths(node, base)
    decreases Obj(node), 1
  {
    var pv := if "properties" in node then node["properties"] else Null;
    var props := if pv.Obj? then pv.fields else map[];
    assert props == MapOrEmpty(node, "properties");
    forall k | k in props
      ensures GatherOr(props[k], Here(base, k)).Some?
      ensures GatherOr(props[k], Here(base, k)).value ==
        if props[k].Obj? then Collect(props[k].fields, Here(base, k)) else {}
    {
      OrAgrees(props[k], Here(base, k));
    }
    var py := set k, p | k in props && GatherOr(props[k], Here(base, k)).Some?
                          && p in GatherOr(props[k], Here(base, k)).value :: p;
    var go := NestedPaths(node, base);
    forall p | p in py ensures p in go {
      var k :| k in props && GatherOr(props[k], Here(base, k)).Some? && p in GatherOr(props[k], Here(base, k)).value;
    }
    forall p | p in go ensures p in py {
      var k :| k in props && props[k].Obj? && p in Collect(props[k].fields, Here(base, k));
    }
    AdditionalAgrees(node, base);
  }

  lemma {:induction false} AdditionalAgrees(node: Object, base: string)
    requires Additional(node, base).Some?
    ensures Additional(node, base).value == AdditionalPaths(node, base)
    decreases Obj(node), 0
  {
    if "additionalProperties" in node && node["additionalProperties"].Obj? {
      Agrees(node["additionalProperties"].fields, base);
    }
  }

  /** Hence every entry of a spec allow-list the Python walk collects starts
      with `spec.`. */
  lemma UnderSpec(node: Object)
    requires Gather(node, "spec").Some?
    ensures forall p :: p in Gather(node, "spec").value ==> HasPrefix(p, "spec.")
  {
    Agrees(node, "spec");
    CollectUnderBase(node, "spec");
  }
}
