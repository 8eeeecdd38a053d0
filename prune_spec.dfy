/**
 * What pruneImpl of internal/mcp/service.go does to a parsed document, as
 * functions of the document and the discovery tables: the walk that deletes
 * `spec.` members the allow-list does not admit, the metadata step that keeps
 * only allow-listed annotations and labels, and the step that drops stray
 * top-level keys. Each step comes with the paths it records as removed; the
 * order in which a Go map is visited is not fixed, so removals are multisets.
 */
module Pruning {
  import opened Wrappers
  import opened Strings
  import opened Json
  import opened Paths
  import opened Registry

  // ---- the spec walk

  /** The walk deletes the member reached at `here` when its index-stripped
      path lies under `spec.` and the allow-list does not admit it. */
  predicate Drop(here: string, a: set<string>) {
    HasPrefix(StripIndices(here), "spec.") && !IsAllowed(Some(a), StripIndices(here))
  }

  /** What the walk leaves of the node reached at path `dotted`. */
  function PruneTree(v: Value, dotted: string, a: set<string>): Value
    decreases v, 1
  {
    match v
    case Obj(m) => Obj(PruneMap(m, dotted, a))
    case Arr(s) => Arr(PruneItems(s, dotted, a))
    case _ => v
  }

  /** A map keeps the members not dropped, each pruned below its own path. */
  function PruneMap(m: Object, dotted: string, a: set<string>): Object
    decreases Obj(m), 0
  {
    map k | k in m && !Drop(Here(dotted, k), a) :: PruneTree(m[k], Here(dotted, k), a)
  }

  /** An array keeps every element, each pruned below `dotted[i]`. */
  function PruneItems(s: seq<Value>, dotted: string, a: set<string>): seq<Value>
    decreases Arr(s), 0
  {
    seq(|s|, i requires 0 <= i < |s| => PruneTree(s[i], Indexed(dotted, i), a))
  }

  /** The index-stripped paths the walk records, one per deleted member. */
  ghost function Removed(v: Value, dotted: string, a: set<string>): multiset<string>
    decreases v, 1, 0
  {
    match v
    case Obj(m) => RemovedKeys(m, m.Keys, dotted, a)
    case Arr(s) => RemovedItems(s, |s|, dotted, a)
    case _ => multiset{}
  }

  /** What visiting member `k` of `m` records: its own path when it is
      deleted, otherwise whatever the walk below it records. */
  ghost function RemovedAt(m: Object, k: string, dotted: string, a: set<string>): multiset<string>
    requires k in m
    decreases Obj(m), 0, 0
  {
    if Drop(Here(dotted, k), a) then multiset{StripIndices(Here(dotted, k))}
    else Removed(m[k], Here(dotted, k), a)
  }

  /** The removals recorded while visiting the members `ks` of `m`, in any order. */
  ghost function RemovedKeys(m: Object, ks: set<string>, dotted: string, a: set<string>): multiset<string>
    requires ks <= m.Keys
    decreases Obj(m), 0, |ks|
  {
    if ks == {} then multiset{}
    else
      var k :| k in ks;
      RemovedAt(m, k, dotted, a) + RemovedKeys(m, ks - {k}, dotted, a)
  }

  /** The removals recorded below the first `n` elements of an array. */
  ghost function RemovedItems(s: seq<Value>, n: nat, dotted: string, a: set<string>): multiset<string>
    requires n <= |s|
    decreases Arr(s), 0, n
  {
    if n == 0 then multiset{}
    else RemovedItems(s, n - 1, dotted, a) + Removed(s[n - 1], Indexed(dotted, n - 1), a)
  }

  /** Visiting the members in any order records the same removals. */
  lemma {:induction false} RemovedKeysPick(m: Object, ks: set<string>, k: string, dotted: string, a: set<string>)
    requires ks <= m.Keys && k in ks
    ensures RemovedKeys(m, ks, dotted, a) == RemovedAt(m, k, dotted, a) + RemovedKeys(m, ks - {k}, dotted, a)
    decreases |ks|
  {
    var j :| j in ks && RemovedKeys(m, ks, dotted, a) == RemovedAt(m, j, dotted, a) + RemovedKeys(m, ks - {j}, dotted, a);
    if j != k {
      RemovedKeysPick(m, ks - {j}, k, dotted, a);
      RemovedKeysPick(m, ks - {k}, j, dotted, a);
      assert ks - {j} - {k} == ks - {k} - {j};
    }
  }

  /** Nothing the walk would delete is left below `v`. */
  predicate Clean(v: Value, dotted: string, a: set<string>)
    decreases v, 1
  {
    match v
    case Obj(m) => CleanMap(m, dotted, a)
    case Arr(s) => forall i :: 0 <= i < |s| ==> Clean(s[i], Indexed(dotted, i), a)
    case _ => true
  }

  predicate CleanMap(m: Object, dotted: string, a: set<string>)
    decreases Obj(m), 0
  {
    forall k :: k in m ==> !Drop(Here(dotted, k), a) && Clean(m[k], Here(dotted, k), a)
  }

  /** `w` is `v` with some map members deleted, at any depth; nothing else differs. */
  predicate SubTree(w: Value, v: Value)
    decreases v
  {
    match v
    case Obj(m) =>
      w.Obj? && w.fields.Keys <= m.Keys && forall k :: k in w.fields ==> SubTree(w.fields[k], m[k])
    case Arr(s) =>
      w.Arr? && |w.items| == |s| && forall i :: 0 <= i < |s| ==> SubTree(w.items[i], s[i])
    case _ => w == v
  }

  /** The walk leaves nothing it would delete. */
  lemma {:induction false} PruneIsClean(v: Value, dotted: string, a: set<string>)
    ensures Clean(PruneTree(v, dotted, a), dotted, a)
    decreases v
  {
    match v
    case Obj(m) =>
      var r := PruneMap(m, dotted, a);
      forall k | k in r
        ensures !Drop(Here(dotted, k), a) && Clean(r[k], Here(dotted, k), a)
      {
        PruneIsClean(m[k], Here(dotted, k), a);
      }
    case Arr(s) =>
      var r := PruneItems(s, dotted, a);
      forall i | 0 <= i < |s|
        ensures Clean(r[i], Indexed(dotted, i), a)
      {
        PruneIsClean(s[i], Indexed(dotted, i), a);
      }
    case _ =>
  }

  /** The walk changes nothing in a clean document. */
  lemma {:induction false} CleanUnchanged(v: Value, dotted: string, a: set<string>)
    requires Clean(v, dotted, a)
    ensures PruneTree(v, dotted, a) == v
    decreases v
  {
    match v
    case Obj(m) =>
      forall k | k in m
        ensures PruneTree(m[k], Here(dotted, k), a) == m[k]
      {
        CleanUnchanged(m[k], Here(dotted, k), a);
      }
      assert PruneMap(m, dotted, a) == m;
    case Arr(s) =>
      forall i | 0 <= i < |s|
        ensures PruneTree(s[i], Indexed(dotted, i), a) == s[i]
      {
        CleanUnchanged(s[i], Indexed(dotted, i), a);
      }
      assert PruneItems(s, dotted, a) == s;
    case _ =>
  }

  /** Pruning twice is pruning once. */
  lemma PruneIdempotent(v: Value, dotted: string, a: set<string>)
    ensures PruneTree(PruneTree(v, dotted, a), dotted, a) == PruneTree(v, dotted, a)
  {
    PruneIsClean(v, dotted, a);
    CleanUnchanged(PruneTree(v, dotted, a), dotted, a);
  }

  /** The walk only deletes map members. */
  lemma {:induction false} PruneIsSubTree(v: Value, dotted: string, a: set<string>)
    ensures SubTree(PruneTree(v, dotted, a), v)
    decreases v
  {
    match v
    case Obj(m) =>
      var r := PruneMap(m, dotted, a);
      forall k | k in r
        ensures SubTree(r[k], m[k])
      {
        PruneIsSubTree(m[k], Here(dotted, k), a);
      }
    case Arr(s) =>
      var r := PruneItems(s, dotted, a);
      forall i | 0 <= i < |s|
        ensures SubTree(r[i], s[i])
      {
        PruneIsSubTree(s[i], Indexed(dotted, i), a);
      }
    case _ =>
  }

  lemma {:induction false} SubTreeTransitive(u: Value, w: Value, v: Value)
    requires SubTree(u, w) && SubTree(w, v)
    ensures SubTree(u, v)
    decreases v
  {
    match v
    case Obj(m) =>
      forall k | k in u.fields
        ensures SubTree(u.fields[k], m[k])
      {
        SubTreeTransitive(u.fields[k], w.fields[k], m[k]);
      }
    case Arr(s) =>
      forall i | 0 <= i < |s|
        ensures SubTree(u.items[i], s[i])
      {
        SubTreeTransitive(u.items[i], w.items[i], s[i]);
      }
    case _ =>
  }

  /** Deleting members cannot make a clean document unclean. */
  lemma {:induction false} CleanSubTree(w: Value, v: Value, dotted: string, a: set<string>)
    requires SubTree(w, v) && Clean(v, dotted, a)
    ensures Clean(w, dotted, a)
    decreases v
  {
    match v
    case Obj(m) =>
      forall k | k in w.fields
        ensures !Drop(Here(dotted, k), a) && Clean(w.fields[k], Here(dotted, k), a)
      {
        CleanSubTree(w.fields[k], m[k], Here(dotted, k), a);
      }
    case Arr(s) =>
      forall i | 0 <= i < |s|
        ensures Clean(w.items[i], Indexed(dotted, i), a)
      {
        CleanSubTree(w.items[i], s[i], Indexed(dotted, i), a);
      }
    case _ =>
  }

  /** Deleting members of a map gives a sub-tree of it. */
  lemma FewerKeysSubTree(w: Object, m: Object)
    requires w.Keys <= m.Keys && forall k :: k in w ==> w[k] == m[k]
    ensures SubTree(Obj(w), Obj(m))
  {
    forall k | k in w
      ensures SubTree(w[k], m[k])
    {
      SubTreeReflexive(m[k]);
    }
  }

  lemma {:induction false} SubTreeReflexive(v: Value)
    ensures SubTree(v, v)
    decreases v
  {
    match v
    case Obj(m) =>
      forall k | k in m
        ensures SubTree(m[k], m[k])
      {
        SubTreeReflexive(m[k]);
      }
    case Arr(s) =>
      forall i | 0 <= i < |s|
        ensures SubTree(s[i], s[i])
      {
        SubTreeReflexive(s[i]);
      }
    case _ =>
  }

  /** The walk records nothing exactly when it has nothing to delete. */
  lemma {:induction false} RemovedNone(v: Value, dotted: string, a: set<string>)
    ensures Removed(v, dotted, a) == multiset{} <==> Clean(v, dotted, a)
    decreases v, 1
  {
    match v
    case Obj(m) =>
      RemovedKeysNone(m, m.Keys, dotted, a);
      forall k | k in m
        ensures RemovedAt(m, k, dotted, a) == multiset{} <==>
          !Drop(Here(dotted, k), a) && Clean(m[k], Here(dotted, k), a)
      {
        RemovedNone(m[k], Here(dotted, k), a);
      }
    case Arr(s) =>
      RemovedItemsNone(s, |s|, dotted, a);
      forall i | 0 <= i < |s|
        ensures Removed(s[i], Indexed(dotted, i), a) == multiset{} <==> Clean(s[i], Indexed(dotted, i), a)
      {
        RemovedNone(s[i], Indexed(dotted, i), a);
      }
    case _ =>
  }

  lemma {:induction false} RemovedKeysNone(m: Object, ks: set<string>, dotted: string, a: set<string>)
    requires ks <= m.Keys
    ensures RemovedKeys(m, ks, dotted, a) == multiset{} <==>
      forall k :: k in ks ==> RemovedAt(m, k, dotted, a) == multiset{}
    decreases |ks|
  {
    if ks != {} {
      var k :| k in ks;
      RemovedKeysPick(m, ks, k, dotted, a);
      RemovedKeysNone(m, ks - {k}, dotted, a);
    }
  }

  lemma {:induction false} RemovedItemsNone(s: seq<Value>, n: nat, dotted: string, a: set<string>)
    requires n <= |s|
    ensures RemovedItems(s, n, dotted, a) == multiset{} <==>
      forall i :: 0 <= i < n ==> Removed(s[i], Indexed(dotted, i), a) == multiset{}
  {
    if n > 0 {
      RemovedItemsNone(s, n - 1, dotted, a);
    }
  }

  /** Every recorded path is a `spec.` path the allow-list does not admit. */
  lemma {:induction false} RemovedSound(v: Value, dotted: string, a: set<string>, p: string)
    requires p in Removed(v, dotted, a)
    ensures HasPrefix(p, "spec.") && !IsAllowed(Some(a), p)
    decreases v, 1
  {
    match v
    case Obj(m) =>
      var k := RemovedKeysWitness(m, m.Keys, dotted, a, p);
      if !Drop(Here(dotted, k), a) {
        RemovedSound(m[k], Here(dotted, k), a, p);
      }
    case Arr(s) =>
      var i := RemovedItemsWitness(s, |s|, dotted, a, p);
      RemovedSound(s[i], Indexed(dotted, i), a, p);
  }

  lemma {:induction false} RemovedKeysWitness(m: Object, ks: set<string>, dotted: string, a: set<string>, p: string)
    returns (k: string)
    requires ks <= m.Keys && p in RemovedKeys(m, ks, dotted, a)
    ensures k in ks && p in RemovedAt(m, k, dotted, a)
    decreases |ks|
  {
    var j :| j in ks;
    RemovedKeysPick(m, ks, j, dotted, a);
    if p in RemovedAt(m, j, dotted, a) {
      k := j;
    } else {
      k := RemovedKeysWitness(m, ks - {j}, dotted, a, p);
    }
  }

  lemma {:induction false} RemovedItemsWitness(s: seq<Value>, n: nat, dotted: string, a: set<string>, p: string)
    returns (i: nat)
    requires n <= |s| && p in RemovedItems(s, n, dotted, a)
    ensures i < n && p in Removed(s[i], Indexed(dotted, i), a)
  {
    if p in Removed(s[n - 1], Indexed(dotted, n - 1), a) {
      i := n - 1;
    } else {
      i := RemovedItemsWitness(s, n - 1, dotted, a, p);
    }
  }

  /** A top-level key without `[` that does not start with `spec.` (such as
      `spec`, `apiVersion`, `kind`, `metadata`) is never deleted by the walk. */
  lemma RootKeyKept(k: string, a: set<string>)
    requires '[' !in k && !HasPrefix(k, "spec.")
    ensures !Drop(Here("", k), a)
  {
    StripNoBracket(k);
  }

  lemma SpecKeyKept(m: Object, a: set<string>)
    requires "spec" in m
    ensures "spec" in PruneMap(m, "", a)
  {
    RootKeyKept("spec", a);
  }

  // ---- metadata and top-level keys

  /** The members of `m` whose keys are in `keep`. */
  function KeepKeys(m: Object, keep: set<string>): Object {
    map k | k in m && k in keep :: m[k]
  }

  /** The paths recorded for the members of `m` not in `keep`. */
  function Unkept(m: Object, keep: set<string>, prefix: string): multiset<string> {
    multiset(set k | k in m && k !in keep :: prefix + k)
  }

  /** One of `annotations` / `labels` inside `metadata`: when it is a map, only
      the kept keys stay, and a map left empty is deleted. */
  function PruneField(meta: Object, field: string, keep: set<string>): Object {
    match MapAt(meta, field)
    case None => meta
    case Some(f) =>
      var kept := KeepKeys(f, keep);
      if kept == map[] then meta - {field} else meta[field := Obj(kept)]
  }

  /** The metadata step: annotations, then labels; an emptied `metadata` is deleted. */
  function PruneMeta(m: Object, annKeep: set<string>, labKeep: set<string>): Object {
    match MapAt(m, "metadata")
    case None => m
    case Some(meta) =>
      var done := PruneField(PruneField(meta, "annotations", annKeep), "labels", labKeep);
      if done == map[] then m - {"metadata"} else m["metadata" := Obj(done)]
  }

  /** The paths the metadata step records. */
  function MetaRemoved(m: Object, annKeep: set<string>, labKeep: set<string>): multiset<string> {
    match MapAt(m, "metadata")
    case None => multiset{}
    case Some(meta) =>
      Unkept(MapOrEmpty(meta, "annotations"), annKeep, "metadata.annotations.")
        + Unkept(MapOrEmpty(meta, "labels"), labKeep, "metadata.labels.")
  }

  /** Keys kept at the top level whatever the schema says. */
  const Always: set<string> := {"apiVersion", "kind", "metadata"}

  /** The top-level step: keys that are neither schema properties nor in Always go. */
  function PruneTop(m: Object, top: set<string>): Object {
    KeepKeys(m, top + Always)
  }

  function TopRemoved(m: Object, top: set<string>): multiset<string> {
    Unkept(m, top + Always, "")
  }

  // ---- the whole document

  /** A parsed document as pruneImpl reads it: anything but a map is an empty map. */
  function DocMap(parsed: Value): Object {
    if parsed.Obj? then parsed.fields else map[]
  }

  /** The cleaned document and the paths recorded by the three steps. */
  datatype Outcome = Outcome(cleaned: Object, spec: multiset<string>, meta: multiset<string>, top: multiset<string>)

  /** The document after the spec walk, which runs only when an allow-list is recorded. */
  function Walked(m: Object, allow: Option<set<string>>): Object {
    if allow.Some? then PruneMap(m, "", allow.value) else m
  }

  ghost function WalkRemoved(m: Object, allow: Option<set<string>>): multiset<string> {
    if allow.Some? then Removed(Obj(m), "", allow.value) else multiset{}
  }

  /** pruneImpl on a parse result, against tables `t` and the metadata allow-lists. */
  ghost function PruneDoc(parsed: Result<Value, string>, t: Tables, annKeep: set<string>, labKeep: set<string>)
    : Result<Outcome, string>
  {
    if parsed.Err? then Err("Invalid YAML: " + parsed.error)
    else
      var m := DocMap(parsed.value);
      var api := StrAt(m, "apiVersion");
      var kind := StrAt(m, "kind");
      if !Known(t, api, kind) then Err(api + "/" + kind + " is not known to the control plane")
      else
        var allow := AllowOf(t, api, kind);
        var top := TopOf(t, api, kind).GetOr({});
        var walked := Walked(m, allow);
        var metaDone := PruneMeta(walked, annKeep, labKeep);
        Ok(Outcome(PruneTop(metaDone, top), WalkRemoved(m, allow),
                   MetaRemoved(walked, annKeep, labKeep), TopRemoved(metaDone, top)))
  }

  // ---- properties of the whole document

  lemma RootNames()
    ensures '[' !in "apiVersion" && !HasPrefix("apiVersion", "spec.")
    ensures '[' !in "kind" && !HasPrefix("kind", "spec.")
  {
    assert "apiVersion"[..5][0] == 'a';
  }

  /** The walk leaves the string read at a top-level key like `apiVersion` as it was. */
  lemma WalkedStrAt(m: Object, allow: Option<set<string>>, k: string)
    requires '[' !in k && !HasPrefix(k, "spec.")
    ensures StrAt(Walked(m, allow), k) == StrAt(m, k)
  {
    if allow.Some? && k in m {
      RootKeyKept(k, allow.value);
      assert Walked(m, allow)[k] == PruneTree(m[k], Here("", k), allow.value);
    }
  }

  /** A field as the metadata step leaves it: absent, not a map, or a
      non-empty map of kept keys only. */
  predicate FieldSettled(meta: Object, field: string, keep: set<string>) {
    MapAt(meta, field).None? || (MapAt(meta, field).value != map[] && MapAt(meta, field).value.Keys <= keep)
  }

  /** A document as the metadata step leaves it. */
  predicate MetaSettled(m: Object, annKeep: set<string>, labKeep: set<string>) {
    MapAt(m, "metadata").None? ||
    (var meta := MapAt(m, "metadata").value;
     meta != map[] && FieldSettled(meta, "annotations", annKeep) && FieldSettled(meta, "labels", labKeep))
  }

  lemma PruneFieldSettles(meta: Object, field: string, keep: set<string>)
    ensures FieldSettled(PruneField(meta, field, keep), field, keep)
  {
  }

  lemma PruneFieldOther(meta: Object, field: string, other: string, keep: set<string>)
    requires field != other
    ensures MapAt(PruneField(meta, field, keep), other) == MapAt(meta, other)
  {
  }

  /** After the metadata step the document is settled. */
  lemma PruneMetaSettles(m: Object, annKeep: set<string>, labKeep: set<string>)
    ensures MetaSettled(PruneMeta(m, annKeep, labKeep), annKeep, labKeep)
  {
    if MapAt(m, "metadata").Some? {
      var meta := MapAt(m, "metadata").value;
      var once := PruneField(meta, "annotations", annKeep);
      PruneFieldSettles(meta, "annotations", annKeep);
      PruneFieldSettles(once, "labels", labKeep);
      PruneFieldOther(once, "labels", "annotations", labKeep);
    }
  }

  lemma SettledField(meta: Object, field: string, keep: set<string>)
    requires FieldSettled(meta, field, keep)
    ensures PruneField(meta, field, keep) == meta
    ensures Unkept(MapOrEmpty(meta, field), keep, "") == multiset{}
    ensures forall prefix :: Unkept(MapOrEmpty(meta, field), keep, prefix) == multiset{}
  {
    if MapAt(meta, field).Some? {
      var f := MapAt(meta, field).value;
      assert KeepKeys(f, keep) == f;
    }
  }

  /** The metadata step changes and records nothing in a settled document. */
  lemma SettledFixed(m: Object, annKeep: set<string>, labKeep: set<string>)
    requires MetaSettled(m, annKeep, labKeep)
    ensures PruneMeta(m, annKeep, labKeep) == m
    ensures MetaRemoved(m, annKeep, labKeep) == multiset{}
  {
    if MapAt(m, "metadata").Some? {
      var meta := MapAt(m, "metadata").value;
      SettledField(meta, "annotations", annKeep);
      SettledField(meta, "labels", labKeep);
    }
  }

  lemma TopKeepsSettled(m: Object, top: set<string>, annKeep: set<string>, labKeep: set<string>)
    requires MetaSettled(m, annKeep, labKeep)
    ensures MetaSettled(PruneTop(m, top), annKeep, labKeep)
  {
    assert MapAt(PruneTop(m, top), "metadata") == MapAt(m, "metadata");
  }

  /** The top-level step changes and records nothing the second time. */
  lemma PruneTopFixed(m: Object, top: set<string>)
    ensures PruneTop(PruneTop(m, top), top) == PruneTop(m, top)
    ensures TopRemoved(PruneTop(m, top), top) == multiset{}
  {
    assert (set k | k in PruneTop(m, top) && k !in top + Always :: "" + k) == {};
  }

  lemma PruneFieldSubTree(meta: Object, field: string, keep: set<string>)
    ensures SubTree(Obj(PruneField(meta, field, keep)), Obj(meta))
  {
    var r := PruneField(meta, field, keep);
    forall k | k in r
      ensures SubTree(r[k], meta[k])
    {
      if k == field && MapAt(meta, field).Some? {
        FewerKeysSubTree(KeepKeys(MapAt(meta, field).value, keep), MapAt(meta, field).value);
      } else {
        SubTreeReflexive(meta[k]);
      }
    }
  }

  /** The metadata step only deletes map members. */
  lemma PruneMetaSubTree(m: Object, annKeep: set<string>, labKeep: set<string>)
    ensures SubTree(Obj(PruneMeta(m, annKeep, labKeep)), Obj(m))
  {
    var r := PruneMeta(m, annKeep, labKeep);
    if MapAt(m, "metadata").Some? {
      var meta := MapAt(m, "metadata").value;
      var once := PruneField(meta, "annotations", annKeep);
      PruneFieldSubTree(meta, "annotations", annKeep);
      PruneFieldSubTree(once, "labels", labKeep);
      SubTreeTransitive(Obj(PruneField(once, "labels", labKeep)), Obj(once), Obj(meta));
      forall k | k in r
        ensures SubTree(r[k], m[k])
      {
        if k != "metadata" {
          SubTreeReflexive(m[k]);
        }
      }
    } else {
      SubTreeReflexive(Obj(m));
    }
  }

  /** The cleaned document is the input with some map members deleted. */
  lemma PruneDocSubTree(parsed: Result<Value, string>, t: Tables, annKeep: set<string>, labKeep: set<string>)
    requires PruneDoc(parsed, t, annKeep, labKeep).Ok?
    ensures SubTree(Obj(PruneDoc(parsed, t, annKeep, labKeep).value.cleaned), Obj(DocMap(parsed.value)))
  {
    var m := DocMap(parsed.value);
    var api := StrAt(m, "apiVersion");
    var kind := StrAt(m, "kind");
    var allow := AllowOf(t, api, kind);
    var top := TopOf(t, api, kind).GetOr({});
    var walked := Walked(m, allow);
    var metaDone := PruneMeta(walked, annKeep, labKeep);
    if allow.Some? {
      PruneIsSubTree(Obj(m), "", allow.value);
    } else {
      SubTreeReflexive(Obj(m));
    }
    PruneMetaSubTree(walked, annKeep, labKeep);
    FewerKeysSubTree(PruneTop(metaDone, top), metaDone);
    SubTreeTransitive(Obj(metaDone), Obj(walked), Obj(m));
    SubTreeTransitive(Obj(PruneTop(metaDone, top)), Obj(metaDone), Obj(m));
  }

  /** Every spec path recorded lies under `spec.` and is not admitted by the allow-list. */
  lemma PruneDocSpecSound(parsed: Result<Value, string>, t: Tables, annKeep: set<string>, labKeep: set<string>, p: string)
    requires PruneDoc(parsed, t, annKeep, labKeep).Ok?
    requires p in PruneDoc(parsed, t, annKeep, labKeep).value.spec
    ensures HasPrefix(p, "spec.")
    ensures var m := DocMap(parsed.value);
      !IsAllowed(AllowOf(t, StrAt(m, "apiVersion"), StrAt(m, "kind")), p)
  {
    var m := DocMap(parsed.value);
    var allow := AllowOf(t, StrAt(m, "apiVersion"), StrAt(m, "kind"));
    RemovedSound(Obj(m), "", allow.value, p);
  }

  /** pruneImpl on a parsed value once apiVersion/kind are known. */
  lemma PruneDocKnown(v: Value, t: Tables, annKeep: set<string>, labKeep: set<string>)
    requires Known(t, StrAt(DocMap(v), "apiVersion"), StrAt(DocMap(v), "kind"))
    ensures var m := DocMap(v);
      var allow := AllowOf(t, StrAt(m, "apiVersion"), StrAt(m, "kind"));
      var top := TopOf(t, StrAt(m, "apiVersion"), StrAt(m, "kind")).GetOr({});
      var metaDone := PruneMeta(Walked(m, allow), annKeep, labKeep);
      PruneDoc(Ok(v), t, annKeep, labKeep) ==
        Ok(Outcome(PruneTop(metaDone, top), WalkRemoved(m, allow),
                   MetaRemoved(Walked(m, allow), annKeep, labKeep), TopRemoved(metaDone, top)))
  {
  }

  /** Pruning the cleaned document again succeeds, changes nothing and records nothing. */
  lemma PruneDocIdempotent(parsed: Result<Value, string>, t: Tables, annKeep: set<string>, labKeep: set<string>)
    requires PruneDoc(parsed, t, annKeep, labKeep).Ok?
    ensures var c := PruneDoc(parsed, t, annKeep, labKeep).value.cleaned;
      PruneDoc(Ok(Obj(c)), t, annKeep, labKeep) == Ok(Outcome(c, multiset{}, multiset{}, multiset{}))
  {
    var m := DocMap(parsed.value);
    var api := StrAt(m, "apiVersion");
    var kind := StrAt(m, "kind");
    var allow := AllowOf(t, api, kind);
    var top := TopOf(t, api, kind).GetOr({});
    var walked := Walked(m, allow);
    var metaDone := PruneMeta(walked, annKeep, labKeep);
    var c := PruneTop(metaDone, top);
    PruneDocKnown(parsed.value, t, annKeep, labKeep);
    SameKeys(m, allow, annKeep, labKeep, top);
    PruneDocKnown(Obj(c), t, annKeep, labKeep);
    SecondWalk(m, allow, c, annKeep, labKeep, top);
    PruneMetaSettles(walked, annKeep, labKeep);
    TopKeepsSettled(metaDone, top, annKeep, labKeep);
    SettledFixed(c, annKeep, labKeep);
    PruneTopFixed(metaDone, top);
  }

  /** The cleaned document reads the same apiVersion and kind. */
  lemma SameKeys(m: Object, allow: Option<set<string>>, annKeep: set<string>, labKeep: set<string>, top: set<string>)
    ensures var c := PruneTop(PruneMeta(Walked(m, allow), annKeep, labKeep), top);
      StrAt(c, "apiVersion") == StrAt(m, "apiVersion") && StrAt(c, "kind") == StrAt(m, "kind")
  {
    var walked := Walked(m, allow);
    var metaDone := PruneMeta(walked, annKeep, labKeep);
    RootNames();
    WalkedStrAt(m, allow, "apiVersion");
    WalkedStrAt(m, allow, "kind");
    LaterStepsStrAt(walked, annKeep, labKeep, top, "apiVersion");
    LaterStepsStrAt(walked, annKeep, labKeep, top, "kind");
  }

  /** The metadata and top-level steps keep `apiVersion` and `kind` as they are. */
  lemma LaterStepsStrAt(w: Object, annKeep: set<string>, labKeep: set<string>, top: set<string>, k: string)
    requires k == "apiVersion" || k == "kind"
    ensures StrAt(PruneTop(PruneMeta(w, annKeep, labKeep), top), k) == StrAt(w, k)
  {
    assert k != "metadata" by {
      assert |k| != |"metadata"|;
    }
    assert k in Always;
  }

  lemma SecondWalk(m: Object, allow: Option<set<string>>, c: Object, annKeep: set<string>, labKeep: set<string>, top: set<string>)
    requires c == PruneTop(PruneMeta(Walked(m, allow), annKeep, labKeep), top)
    ensures Walked(c, allow) == c && WalkRemoved(c, allow) == multiset{}
  {
    if allow.Some? {
      var a := allow.value;
      var walked := Walked(m, allow);
      var metaDone := PruneMeta(walked, annKeep, labKeep);
      PruneIsClean(Obj(m), "", a);
      PruneMetaSubTree(walked, annKeep, labKeep);
      FewerKeysSubTree(c, metaDone);
      SubTreeTransitive(Obj(c), Obj(metaDone), Obj(walked));
      CleanSubTree(Obj(c), Obj(walked), "", a);
      CleanUnchanged(Obj(c), "", a);
      RemovedNone(Obj(c), "", a);
    }
  }
}
