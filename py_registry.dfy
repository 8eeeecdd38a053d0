/**
 * The four lookup tables of DiscoveryCache in discovery.py, keyed by
 * (apiVersion, kind) tuples, and `_register_schema` as a function of them.
 * `_register_schema` raises when `properties` is truthy but not a dict, or
 * when the `spec` property is not a dict; RegOk says it does not.
 */
module PyRegistry {
  import opened Wrappers
  import opened Strings
  import opened Json
  import opened SpecPaths
  import opened PyCollect
  import Registry

  type Key = (string, string)

  datatype Tables = Tables(
    allowed: map<Key, set<string>>,    // (api, kind) -> spec.* paths
    topAllowed: map<Key, set<string>>, // (api, kind) -> top-level property names
    kind2api: map<string, seq<string>>, // kind -> apiVersions
    fullSchema: map<Key, Object>)      // (api, kind) -> schema

  /** The tables after the four `clear()` calls. */
  function Empty(): Tables {
    Tables(map[], map[], map[], map[])
  }

  function Apis(t: Tables, kind: string): seq<string> {
    if kind in t.kind2api then t.kind2api[kind] else []
  }

  /** `schema.get("properties", {}) or {}`; None when its `.keys()` raises. */
  function PropsOf(schema: Object): Option<Object> {
    DictOr(GetOr(schema, "properties", Obj(map[])))
  }

  /** `_collect_paths(props["spec"], base="spec", out=s)`: there is no `or {}`
      here, so a `spec` that is not a dict, None included, raises. */
  function SpecPathsOf(spec: Value): Option<set<string>> {
    if spec.Obj? then Gather(spec.fields, "spec") else None
  }

  /** `_register_schema(api, kind, schema)` returns normally. */
  predicate RegOk(schema: Object) {
    && PropsOf(schema).Some?
    && ("spec" in PropsOf(schema).value ==> SpecPathsOf(PropsOf(schema).value["spec"]).Some?)
  }

  /** One `_register_schema` call. */
  datatype Reg = Reg(api: string, kind: string, schema: Object)

  predicate AllOk(log: seq<Reg>) {
    forall r :: r in log ==> RegOk(r.schema)
  }

  /** `_register_schema` on tables, for a call that returns normally. */
  function Register(t: Tables, r: Reg): Tables
    requires RegOk(r.schema)
  {
    var key := (r.api, r.kind);
    var props := PropsOf(r.schema).value;
    var apis := Apis(t, r.kind);
    Tables(
      if "spec" in props then t.allowed[key := SpecPathsOf(props["spec"]).value] else t.allowed,
      t.topAllowed[key := props.Keys],
      t.kind2api[r.kind := if r.api in apis then apis else apis + [r.api]],
      t.fullSchema[key := r.schema])
  }

  /** Registrations applied in order. */
  function Fold(t: Tables, log: seq<Reg>): Tables
    requires AllOk(log)
    decreases |log|
  {
    if log == [] then t
    else
      assert forall r :: r in log[..|log| - 1] ==> r in log;
      Register(Fold(t, log[..|log| - 1]), log[|log| - 1])
  }

  /** What the tables keep between calls. */
  predicate Inv(t: Tables) {
    KeysInv(t) && AllowInv(t) && ApisInv(t)
  }

  /** Every stored schema registers normally, and its top-level names are
      the keys of its `properties`. */
  predicate KeysInv(t: Tables) {
    && t.topAllowed.Keys == t.fullSchema.Keys
    && t.allowed.Keys <= t.fullSchema.Keys
    && (forall key :: key in t.fullSchema ==>
          RegOk(t.fullSchema[key]) && t.topAllowed[key] == PropsOf(t.fullSchema[key]).value.Keys)
  }

  /** A stored schema with a `spec` property has its allow-list, whose
      every entry is a `spec.` path. */
  predicate AllowInv(t: Tables) {
    && (forall key :: key in t.fullSchema && "spec" in PropsOf(t.fullSchema[key]).GetOr(map[]) ==>
          key in t.allowed && Some(t.allowed[key]) == SpecPathsOf(PropsOf(t.fullSchema[key]).value["spec"]))
    && (forall key, p :: key in t.allowed && p in t.allowed[key] ==> HasPrefix(p, "spec."))
  }

  /** The apiVersions of a kind are exactly the registered ones, without duplicates. */
  predicate ApisInv(t: Tables) {
    && (forall kind :: kind in t.kind2api ==> Registry.NoDuplicates(t.kind2api[kind]))
    && (forall kind, a :: kind in t.kind2api && a in t.kind2api[kind] ==> (a, kind) in t.fullSchema)
    && (forall key :: key in t.fullSchema ==> key.1 in t.kind2api && key.0 in t.kind2api[key.1])
  }

  lemma EmptyInv()
    ensures Inv(Empty())
  {
  }

  /** Every path of a registered spec allow-list starts with `spec.`. */
  lemma SpecPathsUnder(spec: Value)
    requires SpecPathsOf(spec).Some?
    ensures forall p :: p in SpecPathsOf(spec).value ==> HasPrefix(p, "spec.")
  {
    UnderSpec(spec.fields);
  }

  /** `_register_schema` keeps the invariant. */
  lemma RegisterInv(t: Tables, r: Reg)
    requires Inv(t) && RegOk(r.schema)
    ensures Inv(Register(t, r))
  {
    RegisterKeysInv(t, r);
    RegisterAllowInv(t, r);
    RegisterApisInv(t, r);
  }

  lemma RegisterKeysInv(t: Tables, r: Reg)
    requires KeysInv(t) && RegOk(r.schema)
    ensures KeysInv(Register(t, r))
  {
  }

  lemma RegisterAllowInv(t: Tables, r: Reg)
    requires AllowInv(t) && RegOk(r.schema)
    ensures AllowInv(Register(t, r))
  {
    var props := PropsOf(r.schema).value;
    if "spec" in props {
      SpecPathsUnder(props["spec"]);
    }
  }

  lemma RegisterApisInv(t: Tables, r: Reg)
    requires ApisInv(t) && RegOk(r.schema)
    ensures ApisInv(Register(t, r))
  {
    var apis := Apis(t, r.kind);
    if r.api !in apis {
      var s := apis + [r.api];
      forall i, j | 0 <= i < j < |s| ensures s[i] != s[j] {
        if j == |apis| {
          assert s[i] in apis;
        }
      }
    }
  }

  /** What one `_register_schema` call does: the key's schema and top-level
      names are overwritten (last writer wins), the top-level names are exactly
      the keys of `properties`, `api` is listed once under `kind`, the spec
      allow-list is replaced only when `spec` is a property, and every other
      entry stays. */
  lemma RegisterEffect(t: Tables, r: Reg)
    requires Inv(t) && RegOk(r.schema)
    ensures var t' := Register(t, r); var key := (r.api, r.kind);
      && t'.fullSchema[key] == r.schema
      && t'.topAllowed[key] == PropsOf(r.schema).value.Keys
      && r.api in t'.kind2api[r.kind]
      && |t'.kind2api[r.kind]| == |Apis(t, r.kind)| + (if r.api in Apis(t, r.kind) then 0 else 1)
      && ("spec" in PropsOf(r.schema).value ==>
            t'.allowed[key] == SpecPathsOf(PropsOf(r.schema).value["spec"]).value)
      && ("spec" !in PropsOf(r.schema).value ==> t'.allowed == t.allowed)
      && (forall k :: k != key && k in t.fullSchema ==> k in t'.fullSchema && t'.fullSchema[k] == t.fullSchema[k])
      && (forall k :: k != r.kind && k in t.kind2api ==> k in t'.kind2api && t'.kind2api[k] == t.kind2api[k])
  {
  }

  /** An allow-list from an earlier registration survives re-registering the
      key with a schema that has no `spec` property. */
  lemma StaleAllowList(t: Tables, r: Reg)
    requires RegOk(r.schema) && (r.api, r.kind) in t.allowed
    requires "spec" !in PropsOf(r.schema).value
    ensures (r.api, r.kind) in Register(t, r).allowed
    ensures Register(t, r).allowed[(r.api, r.kind)] == t.allowed[(r.api, r.kind)]
  {
  }

  /** Where `_register_schema` returns normally it derives the same top-level
      names and spec allow-list as registerSchema in the Go cache. */
  lemma RegisterAgrees(t: Tables, r: Reg)
    requires RegOk(r.schema)
    ensures var t' := Register(t, r); var key := (r.api, r.kind);
      && t'.topAllowed[key] == Registry.Props(r.schema).Keys
      && (Registry.SpecSchema(r.schema).Some? <==> "spec" in PropsOf(r.schema).value)
      && (Registry.SpecSchema(r.schema).Some? ==>
            t'.allowed[key] == Collect(Registry.SpecSchema(r.schema).value, "spec"))
  {
    var props := PropsOf(r.schema).value;
    assert props == Registry.Props(r.schema);
    if "spec" in props {
      Agrees(props["spec"].fields, "spec");
    }
  }

  lemma {:induction false} FoldInv(t: Tables, log: seq<Reg>)
    requires Inv(t) && AllOk(log)
    ensures Inv(Fold(t, log))
    decreases |log|
  {
    if log != [] {
      assert forall r :: r in log[..|log| - 1] ==> r in log;
      FoldInv(t, log[..|log| - 1]);
      RegisterInv(Fold(t, log[..|log| - 1]), log[|log| - 1]);
    }
  }

  lemma FoldSnoc(t: Tables, log: seq<Reg>, r: Reg)
    requires AllOk(log) && RegOk(r.schema)
    ensures AllOk(log + [r])
    ensures Fold(t, log + [r]) == Register(Fold(t, log), r)
  {
    assert (log + [r])[..|log|] == log;
  }

  lemma {:induction false} FoldAppend(t: Tables, a: seq<Reg>, b: seq<Reg>)
    requires AllOk(a) && AllOk(b)
    ensures AllOk(a + b)
    ensures Fold(t, a + b) == Fold(Fold(t, a), b)
    decreases |b|
  {
    if b == [] {
      assert a + b == a;
    } else {
      var n := |b| - 1;
      assert forall r :: r in b[..n] ==> r in b;
      FoldAppend(t, a, b[..n]);
      assert (a + b)[..|a + b| - 1] == a + b[..n];
    }
  }

  /** The schema of the last registration of `key`, scanning from the end. */
  function LastFor(log: seq<Reg>, key: Key): (r: Option<Object>)
    ensures r.None? <==> forall i :: 0 <= i < |log| ==> (log[i].api, log[i].kind) != key
    decreases |log|
  {
    if log == [] then None
    else if (log[|log| - 1].api, log[|log| - 1].kind) == key then Some(log[|log| - 1].schema)
    else LastFor(log[..|log| - 1], key)
  }

  /** After a run of registrations a key holds the schema of its last
      registration, or what it held before when it was not registered. */
  lemma {:induction false} LastWriterWins(t: Tables, log: seq<Reg>, key: Key)
    requires AllOk(log)
    ensures LastFor(log, key).Some? ==>
      key in Fold(t, log).fullSchema && Fold(t, log).fullSchema[key] == LastFor(log, key).value
    ensures LastFor(log, key).None? ==>
      (key in Fold(t, log).fullSchema <==> key in t.fullSchema)
      && (key in t.fullSchema ==> Fold(t, log).fullSchema[key] == t.fullSchema[key])
    decreases |log|
  {
    if log != [] {
      assert forall r :: r in log[..|log| - 1] ==> r in log;
      LastWriterWins(t, log[..|log| - 1], key);
    }
  }
}
