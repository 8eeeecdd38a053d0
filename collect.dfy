/**
 * collectPaths of internal/discovery/discovery.go: the dotted paths (and
 * `base.*` wildcards) that a schema fragment allows below `base`.
 */
module SpecPaths {
  import opened Wrappers
  import opened Strings
  import opened Json
  import opened Paths

  /** The wildcard entry for everything below `base`. */
  function Wild(base: string): string {
    base + ".*"
  }

  /** collectPaths(node, base, out) adds exactly Collect(node, base) to `out`. */
  function Collect(node: Object, base: string): set<string>
    decreases Obj(node), 2
  {
    (if BoolAt(node, "x-kubernetes-preserve-unknown-fields") == Some(true) then {Wild(base)} else {})
    + MembersPaths(node, "allOf", base)
    + MembersPaths(node, "anyOf", base)
    + MembersPaths(node, "oneOf", base)
    + (if StrAt(node, "type") == "object" then ObjectPaths(node, base)
       else if StrAt(node, "type") == "array" && MapAt(node, "items").Some? then
         Collect(MapAt(node, "items").value, base)
       else {})
  }

  /** The map members of the composition list `node[key]`, each collected at the same base. */
  function MembersPaths(node: Object, key: string, base: string): set<string>
    decreases Obj(node), 0
  {
    if key in node && node[key].Arr? then
      var l := node[key].items;
      set i, p | 0 <= i < |l| && l[i].Obj? && p in Collect(l[i].fields, base) :: p
    else {}
  }

  /** An object node: each property path, what its sub-schema allows below
      it, and the wildcard of `additionalProperties`. */
  function ObjectPaths(node: Object, base: string): set<string>
    decreases Obj(node), 1
  {
    (set k | k in MapOrEmpty(node, "properties") :: Here(base, k))
    + NestedPaths(node, base)
    + AdditionalPaths(node, base)
  }

  /** What each map-valued property allows below its own path. */
  function NestedPaths(node: Object, base: string): set<string>
    decreases Obj(node), 0
  {
    var props := MapOrEmpty(node, "properties");
    set k, p | k in props && props[k].Obj? && p in Collect(props[k].fields, Here(base, k)) :: p
  }

  /** `additionalProperties`: a map adds the wildcard and recurses at the same
      base; `true` adds the wildcard alone. */
  function AdditionalPaths(node: Object, base: string): set<string>
    decreases Obj(node), 0
  {
    if MapAt(node, "additionalProperties").Some? then
      {Wild(base)} + Collect(MapAt(node, "additionalProperties").value, base)
    else if BoolAt(node, "additionalProperties") == Some(true) then {Wild(base)}
    else {}
  }

  /** `x-kubernetes-preserve-unknown-fields: true` allows everything below the base. */
  lemma PreserveRule(node: Object, base: string)
    requires BoolAt(node, "x-kubernetes-preserve-unknown-fields") == Some(true)
    ensures Wild(base) in Collect(node, base)
  {
  }

  /** Every map member of `allOf`, `anyOf` or `oneOf` is collected at the same base. */
  lemma MemberRule(node: Object, key: string, i: nat, base: string)
    requires key in ["allOf", "anyOf", "oneOf"] && ListAt(node, key).Some?
    requires i < |ListAt(node, key).value| && ListAt(node, key).value[i].Obj?
    ensures Collect(ListAt(node, key).value[i].fields, base) <= Collect(node, base)
  {
    var l := ListAt(node, key).value;
    forall p | p in Collect(l[i].fields, base) ensures p in MembersPaths(node, key, base) {
      assert 0 <= i < |l| && l[i].Obj?;
    }
  }

  /** An object node allows each property path, and what a map-valued property
      allows below that path. */
  lemma PropertyRule(node: Object, k: string, base: string)
    requires StrAt(node, "type") == "object" && k in MapOrEmpty(node, "properties")
    ensures Here(base, k) in Collect(node, base)
    ensures MapOrEmpty(node, "properties")[k].Obj? ==>
      Collect(MapOrEmpty(node, "properties")[k].fields, Here(base, k)) <= Collect(node, base)
  {
    var props := MapOrEmpty(node, "properties");
    assert Here(base, k) in ObjectPaths(node, base);
    if props[k].Obj? {
      forall p | p in Collect(props[k].fields, Here(base, k)) ensures p in NestedPaths(node, base) {
      }
    }
  }

  /** `additionalProperties` on an object node: a map or `true` allows the
      wildcard, and a map also contributes what it allows at the same base. */
  lemma AdditionalRule(node: Object, base: string)
    requires StrAt(node, "type") == "object"
    ensures MapAt(node, "additionalProperties").Some? ==>
      Wild(base) in Collect(node, base)
      && Collect(MapAt(node, "additionalProperties").value, base) <= Collect(node, base)
    ensures BoolAt(node, "additionalProperties") == Some(true) ==> Wild(base) in Collect(node, base)
  {
    assert AdditionalPaths(node, base) <= ObjectPaths(node, base);
  }

  /** The `items` map of an array node is collected at the same base. */
  lemma ItemsRule(node: Object, base: string)
    requires StrAt(node, "type") == "array" && MapAt(node, "items").Some?
    ensures Collect(MapAt(node, "items").value, base) <= Collect(node, base)
  {
  }

  /** Every entry collected below a non-empty base starts with `base.`; so every
      entry of a spec allow-list (base "spec") starts with `spec.`. */
  lemma {:induction false} CollectUnderBase(node: Object, base: string)
    requires base != ""
    ensures forall p :: p in Collect(node, base) ==> HasPrefix(p, base + ".")
    decreases Obj(node)
  {
    forall p | p in Collect(node, base) ensures HasPrefix(p, base + ".") {
      CollectUnderBaseAt(node, base, p);
    }
  }

  lemma {:induction false} CollectUnderBaseAt(node: Object, base: string, p: string)
    requires base != "" && p in Collect(node, base)
    ensures HasPrefix(p, base + ".")
    decreases Obj(node), 2
  {
    if p == Wild(base) {
    } else if p in MembersPaths(node, "allOf", base) {
      MembersUnderBase(node, "allOf", base, p);
    } else if p in MembersPaths(node, "anyOf", base) {
      MembersUnderBase(node, "anyOf", base, p);
    } else if p in MembersPaths(node, "oneOf", base) {
      MembersUnderBase(node, "oneOf", base, p);
    } else if StrAt(node, "type") == "object" {
      ObjectUnderBase(node, base, p);
    } else {
      CollectUnderBaseAt(MapAt(node, "items").value, base, p);
    }
  }

  lemma {:induction false} ObjectUnderBase(node: Object, base: string, p: string)
    requires base != "" && p in ObjectPaths(node, base)
    ensures HasPrefix(p, base + ".")
    decreases Obj(node), 1
  {
    if p in NestedPaths(node, base) {
      var props := MapOrEmpty(node, "properties");
      var k :| k in props && props[k].Obj? && p in Collect(props[k].fields, Here(base, k));
      CollectUnderBaseAt(props[k].fields, Here(base, k), p);
      HereUnder(base, k, p);
    } else if p in AdditionalPaths(node, base) {
      if p != Wild(base) {
        CollectUnderBaseAt(MapAt(node, "additionalProperties").value, base, p);
      }
    } else {
      var k :| k in MapOrEmpty(node, "properties") && p == Here(base, k);
    }
  }

  /** A path under a property of `base` is under `base`. */
  lemma HereUnder(base: string, k: string, p: string)
    requires base != "" && HasPrefix(p, Here(base, k) + ".")
    ensures HasPrefix(p, base + ".")
  {
    var q := Here(base, k) + ".";
    assert q == (base + ".") + (k + ".");
    assert q[..|base| + 1] == base + ".";
    assert p[..|base| + 1] == p[..|q|][..|base| + 1];
  }

  lemma {:induction false} MembersUnderBase(node: Object, key: string, base: string, p: string)
    requires base != "" && p in MembersPaths(node, key, base)
    ensures HasPrefix(p, base + ".")
    decreases Obj(node), 0
  {
    var l := node[key].items;
    var i :| 0 <= i < |l| && l[i].Obj? && p in Collect(l[i].fields, base);
    CollectUnderBaseAt(l[i].fields, base, p);
  }
}
