/**
 * `_prune` of server.py and the prune_crd endpoint built on it. The document
 * arrives as the result of `yaml.safe_load`; `yaml.safe_dump` of the cleaned
 * document is not modelled, the cleaned tree is the result. The walk changes
 * the dict in place; here it returns the new tree.
 */
module PyPrune {
  import opened Wrappers
  import opened Strings
  import opened Json
  import opened Paths
  import Pruning
  import McpService
  import PyServer

  // ---- the spec walk

  /** The walk drops the member reached at `here` when its index-stripped
      path lies under `spec.` and is not an element of the allow-list: plain
      membership, so an entry ending in `.*` admits only its own text. */
  predicate Drops(here: string, a: set<string>) {
    HasPrefix(StripIndices(here), "spec.") && StripIndices(here) !in a
  }

  /** What the walk leaves of the node reached at `dotted`. */
  function Pruned(v: Value, dotted: string, a: set<string>): Value
    decreases v, 1
  {
    match v
    case Obj(m) => Obj(PrunedMap(m, dotted, a))
    case Arr(s) => Arr(PrunedItems(s, dotted, a))
    case _ => v
  }

  function PrunedMap(m: Object, dotted: string, a: set<string>): Object
    decreases Obj(m), 0
  {
    map k | k in m && !Drops(Here(dotted, k), a) :: Pruned(m[k], Here(dotted, k), a)
  }

  function PrunedItems(s: seq<Value>, dotted: string, a: set<string>): seq<Value>
    decreases Arr(s), 0
  {
    seq(|s|, i requires 0 <= i < |s| => Pruned(s[i], Indexed(dotted, i), a))
  }

  /** The stripped paths `removed_spec` receives, one per deleted member. */
  ghost function Stripped(v: Value, dotted: string, a: set<string>): multiset<string>
    decreases v, 1, 0
  {
    match v
    case Obj(m) => StrippedKeys(m, m.Keys, dotted, a)
    case Arr(s) => StrippedItems(s, |s|, dotted, a)
    case _ => multiset{}
  }

  ghost function StrippedAt(m: Object, k: string, dotted: string, a: set<string>): multiset<string>
    requires k in m
    decreases Obj(m), 0, 0
  {
    if Drops(Here(dotted, k), a) then multiset{StripIndices(Here(dotted, k))}
    else Stripped(m[k], Here(dotted, k), a)
  }

  ghost function StrippedKeys(m: Object, ks: set<string>, dotted: string, a: set<string>): multiset<string>
    requires ks <= m.Keys
    decreases Obj(m), 0, |ks|
  {
    if ks == {} then multiset{}
    else
      var k :| k in ks;
      StrippedAt(m, k, dotted, a) + StrippedKeys(m, ks - {k}, dotted, a)
  }

  ghost function StrippedItems(s: seq<Value>, n: nat, dotted: string, a: set<string>): multiset<string>
    requires n <= |s|
    decreases Arr(s), 0, n
  {
    if n == 0 then multiset{}
    else StrippedItems(s, n - 1, dotted, a) + Stripped(s[n - 1], Indexed(dotted, n - 1), a)
  }

  /** Visiting the keys in any order records the same paths. */
  lemma {:induction false} StrippedKeysPick(m: Object, ks: set<string>, k: string, dotted: string, a: set<string>)
    requires ks <= m.Keys && k in ks
    ensures StrippedKeys(m, ks, dotted, a) == StrippedAt(m, k, dotted, a) + StrippedKeys(m, ks - {k}, dotted, a)
    decreases |ks|
  {
    var j :| j in ks && StrippedKeys(m, ks, dotted, a) == StrippedAt(m, j, dotted, a) + StrippedKeys(m, ks - {j}, dotted, a);
    if j != k {
      StrippedKeysPick(m, ks - {j}, k, dotted, a);
      StrippedKeysPick(m, ks - {k}, j, dotted, a);
      assert ks - {j} - {k} == ks - {k} - {j};
    }
  }

  // ---- what the walk leaves

  /** Nothing this walk would delete is left below `v`. */
  predicate Clean(v: Value, dotted: string, a: set<string>)
    decreases v, 1
  {
    match v
    case Obj(m) => CleanMap(m, dotted, a)
    case Arr(s) => forall i :: 0 <= i < |s| ==> Clean(s[i], Indexed(dotted, i), a)
    case _ => true
  }

  predicate CleanMap(m: Object, dotted: string, a: set<string>)
    decreases Obj(m), 0
  {
    forall k :: k in m ==> !Drops(Here(dotted, k), a) && Clean(m[k], Here(dotted, k), a)
  }

  /** The walk leaves nothing it would delete. */
  lemma {:induction false} PrunedIsClean(v: Value, dotted: string, a: set<string>)
    ensures Clean(Pruned(v, dotted, a), dotted, a)
    decreases v
  {
    match v
    case Obj(m) =>
      var r := PrunedMap(m, dotted, a);
      forall k | k in r
        ensures !Drops(Here(dotted, k), a) && Clean(r[k], Here(dotted, k), a)
      {
        PrunedIsClean(m[k], Here(dotted, k), a);
      }
    case Arr(s) =>
      var r := PrunedItems(s, dotted, a);
      forall i | 0 <= i < |s|
        ensures Clean(r[i], Indexed(dotted, i), a)
      {
        PrunedIsClean(s[i], Indexed(dotted, i), a);
      }
    case _ =>
  }

  /** The walk changes nothing in a clean document. */
  lemma {:induction false} CleanUnchanged(v: Value, dotted: string, a: set<string>)
    requires Clean(v, dotted, a)
    ensures Pruned(v, dotted, a) == v
    decreases v
  {
    match v
    case Obj(m) =>
      forall k | k in m
        ensures Pruned(m[k], Here(dotted, k), a) == m[k]
      {
        CleanUnchanged(m[k], Here(dotted, k), a);
      }
      assert PrunedMap(m, dotted, a) == m;
    case Arr(s) =>
      forall i | 0 <= i < |s|
        ensures Pruned(s[i], Indexed(dotted, i), a) == s[i]
      {
        CleanUnchanged(s[i], Indexed(dotted, i), a);
      }
      assert PrunedItems(s, dotted, a) == s;
    case _ =>
  }

  /** Pruning twice is pruning once, for any allow-list. */
  lemma PrunedIdempotent(v: Value, dotted: string, a: set<string>)
    ensures Pruned(Pruned(v, dotted, a), dotted, a) == Pruned(v, dotted, a)
  {
    PrunedIsClean(v, dotted, a);
    CleanUnchanged(Pruned(v, dotted, a), dotted, a);
  }

  /** `removed_spec` gains nothing exactly when there is nothing to delete. */
  lemma {:induction false} StrippedClean(v: Value, dotted: string, a: set<string>)
    ensures Stripped(v, dotted, a) == multiset{} <==> Clean(v, dotted, a)
    decreases v, 1
  {
    match v
    case Obj(m) =>
      StrippedKeysNone(m, m.Keys, dotted, a);
      forall k | k in m
        ensures StrippedAt(m, k, dotted, a) == multiset{} <==>
          !Drops(Here(dotted, k), a) && Clean(m[k], Here(dotted, k), a)
      {
        StrippedClean(m[k], Here(dotted, k), a);
      }
    case Arr(s) =>
      StrippedItemsNone(s, |s|, dotted, a);
      forall i | 0 <= i < |s|
        ensures Stripped(s[i], Indexed(dotted, i), a) == multiset{} <==> Clean(s[i], Indexed(dotted, i), a)
      {
        StrippedClean(s[i], Indexed(dotted, i), a);
      }
    case _ =>
  }

  lemma {:induction false} StrippedKeysNone(m: Object, ks: set<string>, dotted: string, a: set<string>)
    requires ks <= m.Keys
    ensures StrippedKeys(m, ks, dotted, a) == multiset{} <==>
      forall k :: k in ks ==> StrippedAt(m, k, dotted, a) == multiset{}
    decreases |ks|
  {
    if ks != {} {
      var k :| k in ks;
      StrippedKeysPick(m, ks, k, dotted, a);
      StrippedKeysNone(m, ks - {k}, dotted, a);
    }
  }

  lemma {:induction false} StrippedItemsNone(s: seq<Value>, n: nat, dotted: string, a: set<string>)
    requires n <= |s|
    ensures StrippedItems(s, n, dotted, a) == multiset{} <==>
      forall i :: 0 <= i < n ==> Stripped(s[i], Indexed(dotted, i), a) == multiset{}
  {
    if n > 0 {
      StrippedItemsNone(s, n - 1, dotted, a);
    }
  }

  /** Nothing is recorded exactly when the walk deletes nothing. */
  lemma StrippedNone(v: Value, dotted: string, a: set<string>)
    ensures Stripped(v, dotted, a) == multiset{} <==> Pruned(v, dotted, a) == v
  {
    StrippedClean(v, dotted, a);
    PrunedIsClean(v, dotted, a);
    if Clean(v, dotted, a) {
      CleanUnchanged(v, dotted, a);
    }
  }

  // ---- how the walk relates to the Go walk

  /** An allow-list none of whose entries ends in `.*`. */
  predicate NoWildcards(a: set<string>) {
    forall k :: k in a ==> !HasSuffix(k, ".*")
  }

  /** Whatever the Go walk deletes, this walk deletes too. */
  lemma DropsWhereGoDrops(here: string, a: set<string>)
    requires Pruning.Drop(here, a)
    ensures Drops(here, a)
  {
  }

  /** Without wildcard entries the two walks delete the same members. */
  lemma DropsAsGo(here: string, a: set<string>)
    requires NoWildcards(a)
    ensures Drops(here, a) <==> Pruning.Drop(here, a)
  {
  }

  /** A wildcard entry `b.*` admits nothing but its own text here, where the
      Go walk admits every path below `b`. */
  lemma WildcardIsLiteral(b: string, x: string)
    requires HasPrefix(b, "spec.") && '[' !in b && '[' !in x && x != "*"
    ensures Drops(b + "." + x, {b + ".*"})
    ensures !Pruning.Drop(b + "." + x, {b + ".*"})
  {
    var p := b + "." + x;
    assert '[' !in p by {
      assert p == b + ("." + x);
    }
    StripNoBracket(p);
    assert p[..|b|] == b && p[..5] == b[..5];
    assert p[..|b| + 1] == b + ".";
    assert p[|b| + 1..] == x && (b + ".*")[|b| + 1..] == "*";
    WildcardEntry(b, p);
  }

  /** The tree this walk leaves is the Go walk's with possibly more members deleted. */
  lemma {:induction false} PrunedWithinGo(v: Value, dotted: string, a: set<string>)
    ensures Pruning.SubTree(Pruned(v, dotted, a), Pruning.PruneTree(v, dotted, a))
    decreases v
  {
    match v
    case Obj(m) =>
      forall k | k in PrunedMap(m, dotted, a)
        ensures Pruning.SubTree(PrunedMap(m, dotted, a)[k], Pruning.PruneMap(m, dotted, a)[k])
      {
        PrunedWithinGo(m[k], Here(dotted, k), a);
      }
    case Arr(s) =>
      forall i | 0 <= i < |s|
        ensures Pruning.SubTree(PrunedItems(s, dotted, a)[i], Pruning.PruneItems(s, dotted, a)[i])
      {
        PrunedWithinGo(s[i], Indexed(dotted, i), a);
      }
    case _ =>
  }

  /** The walk only deletes map members. */
  lemma PrunedIsSubTree(v: Value, dotted: string, a: set<string>)
    ensures Pruning.SubTree(Pruned(v, dotted, a), v)
  {
    PrunedWithinGo(v, dotted, a);
    Pruning.PruneIsSubTree(v, dotted, a);
    Pruning.SubTreeTransitive(Pruned(v, dotted, a), Pruning.PruneTree(v, dotted, a), v);
  }

  /** Without wildcard entries the walk leaves and records exactly what the Go walk does. */
  lemma {:induction false} AgreesWithGo(v: Value, dotted: string, a: set<string>)
    requires NoWildcards(a)
    ensures Pruned(v, dotted, a) == Pruning.PruneTree(v, dotted, a)
    ensures Stripped(v, dotted, a) == Pruning.Removed(v, dotted, a)
    decreases v, 1
  {
    match v
    case Obj(m) =>
      forall k | k in m
        ensures Pruned(m[k], Here(dotted, k), a) == Pruning.PruneTree(m[k], Here(dotted, k), a)
      {
        AgreesWithGo(m[k], Here(dotted, k), a);
      }
      forall k | k in m
        ensures Drops(Here(dotted, k), a) <==> Pruning.Drop(Here(dotted, k), a)
      {
        DropsAsGo(Here(dotted, k), a);
      }
      KeysAgree(m, m.Keys, dotted, a);
    case Arr(s) =>
      forall i | 0 <= i < |s|
        ensures Pruned(s[i], Indexed(dotted, i), a) == Pruning.PruneTree(s[i], Indexed(dotted, i), a)
      {
        AgreesWithGo(s[i], Indexed(dotted, i), a);
      }
      ItemsAgree(s, |s|, dotted, a);
    case _ =>
  }

  lemma {:induction false} KeysAgree(m: Object, ks: set<string>, dotted: string, a: set<string>)
    requires NoWildcards(a) && ks <= m.Keys
    ensures StrippedKeys(m, ks, dotted, a) == Pruning.RemovedKeys(m, ks, dotted, a)
    decreases Obj(m), 0, |ks|
  {
    if ks != {} {
      var k :| k in ks;
      StrippedKeysPick(m, ks, k, dotted, a);
      Pruning.RemovedKeysPick(m, ks, k, dotted, a);
      DropsAsGo(Here(dotted, k), a);
      if !Drops(Here(dotted, k), a) {
        AgreesWithGo(m[k], Here(dotted, k), a);
      }
      KeysAgree(m, ks - {k}, dotted, a);
    }
  }

  lemma {:induction false} ItemsAgree(s: seq<Value>, n: nat, dotted: string, a: set<string>)
    requires NoWildcards(a) && n <= |s|
    ensures StrippedItems(s, n, dotted, a) == Pruning.RemovedItems(s, n, dotted, a)
    decreases Arr(s), 0, n
  {
    if n > 0 {
      ItemsAgree(s, n - 1, dotted, a);
      AgreesWithGo(s[n - 1], Indexed(dotted, n - 1), a);
    }
  }

  /** The allow-lists `_build_maps` derives hold no wildcard entry when no
      property name in a version's spec schema is `*` or ends in `.*`; this
      walk then leaves and records what the Go walk does with them. */
  lemma BuiltListsAgree(docs: seq<Value>, key: PyServer.Key, v: Value, dotted: string)
    requires PyServer.AllRows(docs).Some?
    requires var rows := PyServer.AllRows(docs).value;
      forall i :: 0 <= i < |rows| ==> PyServer.PlainNames(rows[i].spec)
    requires key in PyServer.Tabulate(PyServer.NoMaps(), PyServer.AllRows(docs).value).allowed
    ensures var a := PyServer.Tabulate(PyServer.NoMaps(), PyServer.AllRows(docs).value).allowed[key];
      && NoWildcards(a)
      && Pruned(v, dotted, a) == Pruning.PruneTree(v, dotted, a)
      && Stripped(v, dotted, a) == Pruning.Removed(v, dotted, a)
  {
    var rows := PyServer.AllRows(docs).value;
    var a := PyServer.Tabulate(PyServer.NoMaps(), rows).allowed[key];
    PyServer.AllRowsWalked(docs);
    forall p | p in a
      ensures !HasSuffix(p, ".*")
    {
      PyServer.TablesNoWildcards(rows, key, p);
    }
    AgreesWithGo(v, dotted, a);
  }

  // ---- the walk as the code runs it

  /** `walk(node, dotted)`: dicts and lists are descended, anything else is left. */
  method Walk(node: Value, dotted: string, a: set<string>) returns (r: Value, removed: seq<string>)
    ensures r == Pruned(node, dotted, a)
    ensures multiset(removed) == Stripped(node, dotted, a)
    decreases node, 2
  {
    match node {
      case Obj(m) =>
        var fields, below := WalkMap(m, dotted, a);
        r, removed := Obj(fields), below;
      case Arr(s) =>
        var items, below := WalkItems(s, dotted, a);
        r, removed := Arr(items), below;
      case _ =>
        r, removed := node, [];
    }
  }

  /** A dict part-way through `for k in list(node)`: the keys in `ks` are not visited yet. */
  ghost function Partial(m: Object, ks: set<string>, dotted: string, a: set<string>): Object {
    map k | k in m && (k in ks || !Drops(Here(dotted, k), a)) ::
      if k in ks then m[k] else Pruned(m[k], Here(dotted, k), a)
  }

  lemma PartialDrop(m: Object, ks: set<string>, k: string, dotted: string, a: set<string>)
    requires k in ks && ks <= m.Keys && Drops(Here(dotted, k), a)
    ensures Partial(m, ks - {k}, dotted, a) == Partial(m, ks, dotted, a) - {k}
  {
    assert Partial(m, ks - {k}, dotted, a).Keys == Partial(m, ks, dotted, a).Keys - {k};
  }

  lemma PartialKeep(m: Object, ks: set<string>, k: string, dotted: string, a: set<string>)
    requires k in ks && ks <= m.Keys && !Drops(Here(dotted, k), a)
    ensures k in Partial(m, ks, dotted, a) && Partial(m, ks, dotted, a)[k] == m[k]
    ensures Partial(m, ks - {k}, dotted, a) == Partial(m, ks, dotted, a)[k := Pruned(m[k], Here(dotted, k), a)]
  {
    var before := Partial(m, ks, dotted, a);
    var after := Partial(m, ks - {k}, dotted, a);
    var target := before[k := Pruned(m[k], Here(dotted, k), a)];
    assert k in before && before[k] == m[k];
    forall j | j in m
      ensures j in after <==> j in target
    {
    }
    assert after.Keys == target.Keys;
    forall j | j in after
      ensures after[j] == target[j]
    {
      if j != k {
        assert after[j] == before[j];
      }
    }
    assert after == target;
  }

  /** The loop over the keys of a dict, in the dict's order (any order here). */
  method WalkMap(m: Object, dotted: string, a: set<string>) returns (r: Object, removed: seq<string>)
    ensures r == PrunedMap(m, dotted, a)
    ensures multiset(removed) == StrippedKeys(m, m.Keys, dotted, a)
    decreases Obj(m), 1
  {
    r, removed := m, [];
    var ks := m.Keys;
    assert Partial(m, ks, dotted, a) == m;
    while ks != {}
      invariant ks <= m.Keys
      invariant r == Partial(m, ks, dotted, a)
      invariant multiset(removed) + StrippedKeys(m, ks, dotted, a) == StrippedKeys(m, m.Keys, dotted, a)
      decreases |ks|
    {
      var k :| k in ks;
      r, removed := WalkMember(m, ks, k, dotted, a, r, removed);
      ks := ks - {k};
    }
    assert Partial(m, {}, dotted, a) == PrunedMap(m, dotted, a);
  }

  /** One key: recorded and popped when dropped, walked below `here` otherwise. */
  method WalkMember(m: Object, ks: set<string>, k: string, dotted: string, a: set<string>,
                    r: Object, removed: seq<string>)
    returns (r': Object, removed': seq<string>)
    requires k in ks && ks <= m.Keys && r == Partial(m, ks, dotted, a)
    requires multiset(removed) + StrippedKeys(m, ks, dotted, a) == StrippedKeys(m, m.Keys, dotted, a)
    ensures r' == Partial(m, ks - {k}, dotted, a)
    ensures multiset(removed') + StrippedKeys(m, ks - {k}, dotted, a) == StrippedKeys(m, m.Keys, dotted, a)
    decreases Obj(m), 0
  {
    StrippedKeysPick(m, ks, k, dotted, a);
    var here := if dotted != "" then dotted + "." + k else k;
    assert here == Here(dotted, k);
    var clean := StripIndices(here);
    var visit: seq<string>;
    if HasPrefix(clean, "spec.") && clean !in a {
      PartialDrop(m, ks, k, dotted, a);
      visit := [clean];
      r' := r - {k};
    } else {
      PartialKeep(m, ks, k, dotted, a);
      var child;
      child, visit := Walk(r[k], here, a);
      r' := r[k := child];
    }
    removed' := removed + visit;
    McpService.MultisetShift(removed, visit, StrippedAt(m, k, dotted, a), StrippedKeys(m, ks - {k}, dotted, a),
                             StrippedKeys(m, m.Keys, dotted, a));
  }

  /** `for i, x in enumerate(node)`: every element walked below `dotted[i]`. */
  method WalkItems(s: seq<Value>, dotted: string, a: set<string>) returns (r: seq<Value>, removed: seq<string>)
    ensures r == PrunedItems(s, dotted, a)
    ensures multiset(removed) == StrippedItems(s, |s|, dotted, a)
    decreases Arr(s), 1
  {
    r, removed := s, [];
    var i := 0;
    while i < |s|
      invariant 0 <= i <= |s| && ItemsWalked(s, i, r, dotted, a)
      invariant multiset(removed) == StrippedItems(s, i, dotted, a)
    {
      r, removed := WalkItem(s, i, r, removed, dotted, a);
      i := i + 1;
    }
  }

  ghost predicate ItemsWalked(s: seq<Value>, i: nat, r: seq<Value>, dotted: string, a: set<string>) {
    && i <= |s| && |r| == |s|
    && (forall j :: 0 <= j < i ==> r[j] == Pruned(s[j], Indexed(dotted, j), a))
    && (forall j :: i <= j < |s| ==> r[j] == s[j])
  }

  method WalkItem(s: seq<Value>, i: nat, r: seq<Value>, removed: seq<string>, dotted: string, a: set<string>)
    returns (r': seq<Value>, removed': seq<string>)
    requires i < |s| && ItemsWalked(s, i, r, dotted, a)
    requires multiset(removed) == StrippedItems(s, i, dotted, a)
    ensures ItemsWalked(s, i + 1, r', dotted, a)
    ensures multiset(removed') == StrippedItems(s, i + 1, dotted, a)
    decreases Arr(s), 0
  {
    var child, below := Walk(r[i], Indexed(dotted, i), a);
    removed' := removed + below;
    r' := r[i := child];
  }

  // ---- metadata, top-level keys and the whole helper

  /** ALLOWED_META_ANNOTATIONS and ALLOWED_META_LABELS: both empty. */
  const AllowedMetaAnnotations: set<string> := {}
  const AllowedMetaLabels: set<string> := {}

  /** The top-level keys `_prune` keeps: `spec` besides apiVersion, kind and metadata. */
  const TopKeys: set<string> := {"spec"}

  /** The metadata block of `_prune`: annotations, then labels, each cleared
      of keys not allow-listed and removed when emptied; an emptied
      `metadata` goes too. A `metadata` that is not a dict is left alone. */
  method PruneMetadata(data: Object) returns (r: Object, removed: seq<string>)
    ensures r == Pruning.PruneMeta(data, AllowedMetaAnnotations, AllowedMetaLabels)
    ensures multiset(removed) == Pruning.MetaRemoved(data, AllowedMetaAnnotations, AllowedMetaLabels)
  {
    r, removed := data, [];
    if "metadata" in data && data["metadata"].Obj? {
      var meta := data["metadata"].fields;
      var done, fromAnn := McpService.PruneMetaField(meta, "annotations", AllowedMetaAnnotations, "metadata.annotations.");
      McpService.LabelsUntouched(meta, AllowedMetaAnnotations);
      var fromLab;
      done, fromLab := McpService.PruneMetaField(done, "labels", AllowedMetaLabels, "metadata.labels.");
      removed := fromAnn + fromLab;
      if |done| == 0 {
        r := data - {"metadata"};
      } else {
        r := data["metadata" := Obj(done)];
      }
    }
  }

  /** A value whose `str()` the 400 message shows: everything the model
      decodes except lists and dicts, which are unhashable and make the
      membership test raise first. */
  predicate Hashable(v: Value) {
    !v.Arr? && !v.Obj?
  }

  /** Python's `str()` of a hashable decoded value. */
  function Show(v: Value): (r: string)
    requires Hashable(v)
    ensures v.Str? ==> r == v.s
    ensures v.Null? ==> r == "None"
    ensures v.Num? && v.n >= 0 ==> r == NatToString(v.n)
    ensures v.Num? && v.n < 0 ==> r == "-" + NatToString(-v.n)
    ensures v.Bool? ==> r == (if v.b then "True" else "False")
  {
    match v
    case Null => "None"
    case Bool(b) => if b then "True" else "False"
    case Num(n) => if n < 0 then "-" + NatToString(-n) else NatToString(n)
    case Str(s) => s
  }

  /** `_prune` on the result of `yaml.safe_load`: the cleaned document and
      the recorded paths of the spec walk, of the metadata block and of the
      top-level loop. A YAML error, a document that is not a dict, or an
      unhashable apiVersion or kind raises; an unknown (apiVersion, kind) is
      refused with status 400. */
  ghost function PruneSpec(parsed: Result<Value, string>, allowed: map<PyServer.Key, set<string>>)
    : Result<Pruning.Outcome, PyServer.Failure>
  {
    if parsed.Err? || !parsed.value.Obj? then Err(PyServer.Raised)
    else
      var data := parsed.value.fields;
      var api := GetOr(data, "apiVersion", Null);
      var kind := GetOr(data, "kind", Null);
      if !Hashable(api) || !Hashable(kind) then Err(PyServer.Raised)
      else if !(api.Str? && kind.Str? && (api.s, kind.s) in allowed) then
        Err(PyServer.Http(400, Show(api) + "/" + Show(kind) + " is not an allowed CRD"))
      else
        var a := allowed[(api.s, kind.s)];
        var walked := PrunedMap(data, "", a);
        var meta := Pruning.PruneMeta(walked, AllowedMetaAnnotations, AllowedMetaLabels);
        Ok(Pruning.Outcome(Pruning.PruneTop(meta, TopKeys), Stripped(parsed.value, "", a),
                           Pruning.MetaRemoved(walked, AllowedMetaAnnotations, AllowedMetaLabels),
                           Pruning.TopRemoved(meta, TopKeys)))
  }

  /** What `_prune` returns, before `yaml.safe_dump`. */
  datatype Pruning3 = Pruning3(cleaned: Object, removedSpec: seq<string>, removedMeta: seq<string>)

  /** `r` reports outcome `d`: the same failure, or the cleaned document with
      the spec paths, then the metadata paths followed by the top-level keys. */
  ghost predicate Reports(r: Result<Pruning3, PyServer.Failure>, d: Result<Pruning.Outcome, PyServer.Failure>) {
    match d
    case Err(e) => r == Err(e)
    case Ok(o) =>
      && r.Ok?
      && r.value.cleaned == o.cleaned
      && multiset(r.value.removedSpec) == o.spec
      && |o.meta| <= |r.value.removedMeta|
      && multiset(r.value.removedMeta[..|o.meta|]) == o.meta
      && multiset(r.value.removedMeta[|o.meta|..]) == o.top
  }

  /** `_prune(doc)` with `_ALLOWED` passed in and the YAML already loaded. */
  method Prune(allowed: map<PyServer.Key, set<string>>, parsed: Result<Value, string>)
    returns (r: Result<Pruning3, PyServer.Failure>)
    ensures Reports(r, PruneSpec(parsed, allowed))
  {
    if parsed.Err? || !parsed.value.Obj? {
      return Err(PyServer.Raised);
    }
    var data := parsed.value.fields;
    var api := GetOr(data, "apiVersion", Null);
    var kind := GetOr(data, "kind", Null);
    if !Hashable(api) || !Hashable(kind) {
      return Err(PyServer.Raised);
    }
    if !(api.Str? && kind.Str? && (api.s, kind.s) in allowed) {
      return Err(PyServer.Http(400, Show(api) + "/" + Show(kind) + " is not an allowed CRD"));
    }
    var a := allowed[(api.s, kind.s)];
    var walked, removedSpec := WalkMap(data, "", a);
    var cleaned, removedMeta := PruneMetadata(walked);
    var kept, removedTop := McpService.DeleteUnkept(cleaned, TopKeys + Pruning.Always, "");
    r := Ok(Pruning3(kept, removedSpec, removedMeta + removedTop));
    KnownReports(parsed, allowed, a, kept, removedSpec, removedMeta, removedTop);
  }

  /** The three steps on an allowed document report PruneSpec's outcome. */
  lemma KnownReports(parsed: Result<Value, string>, allowed: map<PyServer.Key, set<string>>, a: set<string>,
                     kept: Object, removedSpec: seq<string>, removedMeta: seq<string>, removedTop: seq<string>)
    requires parsed.Ok? && parsed.value.Obj?
    requires var api, kind := GetOr(parsed.value.fields, "apiVersion", Null), GetOr(parsed.value.fields, "kind", Null);
      && Hashable(api) && Hashable(kind) && api.Str? && kind.Str?
      && (api.s, kind.s) in allowed && a == allowed[(api.s, kind.s)]
    requires var walked := PrunedMap(parsed.value.fields, "", a);
      var meta := Pruning.PruneMeta(walked, AllowedMetaAnnotations, AllowedMetaLabels);
      && kept == Pruning.PruneTop(meta, TopKeys)
      && multiset(removedSpec) == StrippedKeys(parsed.value.fields, parsed.value.fields.Keys, "", a)
      && multiset(removedMeta) == Pruning.MetaRemoved(walked, AllowedMetaAnnotations, AllowedMetaLabels)
      && multiset(removedTop) == Pruning.TopRemoved(meta, TopKeys)
    ensures Reports(Ok(Pruning3(kept, removedSpec, removedMeta + removedTop)), PruneSpec(parsed, allowed))
  {
    assert (removedMeta + removedTop)[..|removedMeta|] == removedMeta;
    assert (removedMeta + removedTop)[|removedMeta|..] == removedTop;
  }

  // ---- properties of `_prune`

  /** The paths recorded below `v` are all stripped paths under `spec.` that
      the allow-list does not contain. */
  lemma {:induction false} StrippedSound(v: Value, dotted: string, a: set<string>)
    ensures forall p :: p in Stripped(v, dotted, a) ==> HasPrefix(p, "spec.") && p !in a
    decreases v, 1
  {
    match v
    case Obj(m) => KeysSound(m, m.Keys, dotted, a);
    case Arr(s) => ItemsSound(s, |s|, dotted, a);
    case _ =>
  }

  lemma {:induction false} KeysSound(m: Object, ks: set<string>, dotted: string, a: set<string>)
    requires ks <= m.Keys
    ensures forall p :: p in StrippedKeys(m, ks, dotted, a) ==> HasPrefix(p, "spec.") && p !in a
    decreases Obj(m), 0, |ks|
  {
    if ks != {} {
      var k :| k in ks;
      StrippedKeysPick(m, ks, k, dotted, a);
      if !Drops(Here(dotted, k), a) {
        StrippedSound(m[k], Here(dotted, k), a);
      }
      KeysSound(m, ks - {k}, dotted, a);
    }
  }

  lemma {:induction false} ItemsSound(s: seq<Value>, n: nat, dotted: string, a: set<string>)
    requires n <= |s|
    ensures forall p :: p in StrippedItems(s, n, dotted, a) ==> HasPrefix(p, "spec.") && p !in a
    decreases Arr(s), 0, n
  {
    if n > 0 {
      ItemsSound(s, n - 1, dotted, a);
      StrippedSound(s[n - 1], Indexed(dotted, n - 1), a);
    }
  }

  /** A path whose first character is neither `s` nor `[` keeps that first
      character after stripping, so it never lies under `spec.`. */
  lemma NotSpec(here: string, a: set<string>)
    requires |here| > 0 && here[0] != 's' && here[0] != '['
    ensures !Drops(here, a)
    ensures forall k :: |Here(here, k)| > 0 && Here(here, k)[0] == here[0]
    ensures forall i :: |Indexed(here, i)| > 0 && Indexed(here, i)[0] == here[0]
  {
    assert IndexTokenLength(here) == 0;
    assert StripIndices(here)[0] == here[0];
  }

  /** Nothing below a path that does not start with `s` (such as `metadata`)
      is touched or recorded by the walk. */
  lemma {:induction false} OutsideSpec(v: Value, dotted: string, a: set<string>)
    requires |dotted| > 0 && dotted[0] != 's' && dotted[0] != '['
    ensures Pruned(v, dotted, a) == v && Stripped(v, dotted, a) == multiset{}
    decreases v, 1
  {
    NotSpec(dotted, a);
    match v
    case Obj(m) =>
      forall k | k in m
        ensures !Drops(Here(dotted, k), a) && Pruned(m[k], Here(dotted, k), a) == m[k]
      {
        NotSpec(Here(dotted, k), a);
        OutsideSpec(m[k], Here(dotted, k), a);
      }
      KeysOutside(m, m.Keys, dotted, a);
    case Arr(s) =>
      forall i | 0 <= i < |s|
        ensures Pruned(s[i], Indexed(dotted, i), a) == s[i]
      {
        OutsideSpec(s[i], Indexed(dotted, i), a);
      }
      ItemsOutside(s, |s|, dotted, a);
    case _ =>
  }

  lemma {:induction false} KeysOutside(m: Object, ks: set<string>, dotted: string, a: set<string>)
    requires |dotted| > 0 && dotted[0] != 's' && dotted[0] != '[' && ks <= m.Keys
    ensures StrippedKeys(m, ks, dotted, a) == multiset{}
    decreases Obj(m), 0, |ks|
  {
    if ks != {} {
      var k :| k in ks;
      StrippedKeysPick(m, ks, k, dotted, a);
      NotSpec(dotted, a);
      NotSpec(Here(dotted, k), a);
      OutsideSpec(m[k], Here(dotted, k), a);
      KeysOutside(m, ks - {k}, dotted, a);
    }
  }

  lemma {:induction false} ItemsOutside(s: seq<Value>, n: nat, dotted: string, a: set<string>)
    requires |dotted| > 0 && dotted[0] != 's' && dotted[0] != '[' && n <= |s|
    ensures StrippedItems(s, n, dotted, a) == multiset{}
    decreases Arr(s), 0, n
  {
    if n > 0 {
      NotSpec(dotted, a);
      ItemsOutside(s, n - 1, dotted, a);
      OutsideSpec(s[n - 1], Indexed(dotted, n - 1), a);
    }
  }

  /** An (apiVersion, kind) pair of strings missing from the table is refused with 400. */
  lemma RefusedWith400(data: Object, allowed: map<PyServer.Key, set<string>>, api: string, kind: string)
    requires "apiVersion" in data && data["apiVersion"] == Str(api)
    requires "kind" in data && data["kind"] == Str(kind)
    requires (api, kind) !in allowed
    ensures PruneSpec(Ok(Obj(data)), allowed) == Err(PyServer.Http(400, api + "/" + kind + " is not an allowed CRD"))
  {
  }

  /** A document without apiVersion is refused with a message naming `None`. */
  lemma MissingApiVersion(data: Object, allowed: map<PyServer.Key, set<string>>)
    requires "apiVersion" !in data && "kind" in data && data["kind"].Str?
    ensures PruneSpec(Ok(Obj(data)), allowed) ==
      Err(PyServer.Http(400, "None/" + data["kind"].s + " is not an allowed CRD"))
  {
    assert "None" + "/" + data["kind"].s == "None/" + data["kind"].s;
  }

  /** A successful `_prune` leaves only apiVersion, kind, metadata and spec
      at the top, and every spec path it records lies under `spec.` and is
      missing from the allow-list. */
  lemma PruneSpecKeys(parsed: Result<Value, string>, allowed: map<PyServer.Key, set<string>>)
    requires PruneSpec(parsed, allowed).Ok?
    ensures var o := PruneSpec(parsed, allowed).value;
      var data := parsed.value.fields;
      && o.cleaned.Keys <= {"apiVersion", "kind", "metadata", "spec"}
      && forall p :: p in o.spec ==>
           HasPrefix(p, "spec.") && p !in allowed[(data["apiVersion"].s, data["kind"].s)]
  {
    var data := parsed.value.fields;
    StrippedSound(parsed.value, "", allowed[(data["apiVersion"].s, data["kind"].s)]);
  }

  /** The walk hands `metadata` to the metadata block untouched. */
  lemma WalkKeepsMetadata(data: Object, a: set<string>)
    ensures MapAt(PrunedMap(data, "", a), "metadata") == MapAt(data, "metadata")
  {
    if "metadata" in data {
      NotSpec("metadata", a);
      OutsideSpec(data["metadata"], "metadata", a);
      assert PrunedMap(data, "", a)["metadata"] == data["metadata"];
    }
  }

  /** With the empty metadata allow-lists every annotation and every label
      of the input is recorded, and the cleaned `metadata`, when left, holds
      neither an annotations nor a labels dict. */
  lemma PruneSpecMeta(parsed: Result<Value, string>, allowed: map<PyServer.Key, set<string>>)
    requires PruneSpec(parsed, allowed).Ok?
    ensures var o := PruneSpec(parsed, allowed).value;
      var data := parsed.value.fields;
      && o.meta == Pruning.MetaRemoved(data, {}, {})
      && (forall k :: k in MapOrEmpty(MapOrEmpty(data, "metadata"), "annotations") ==> "metadata.annotations." + k in o.meta)
      && (forall k :: k in MapOrEmpty(MapOrEmpty(data, "metadata"), "labels") ==> "metadata.labels." + k in o.meta)
      && (MapAt(o.cleaned, "metadata").Some? ==>
            MapAt(MapAt(o.cleaned, "metadata").value, "annotations").None? &&
            MapAt(MapAt(o.cleaned, "metadata").value, "labels").None?)
  {
    var data := parsed.value.fields;
    var a := allowed[(data["apiVersion"].s, data["kind"].s)];
    MetaStepDropsAll(data, a);
  }

  /** The metadata and top-level steps after the walk, with empty keep-lists. */
  lemma MetaStepDropsAll(data: Object, a: set<string>)
    ensures var walked := PrunedMap(data, "", a);
      var removed := Pruning.MetaRemoved(walked, {}, {});
      var cleaned := Pruning.PruneTop(Pruning.PruneMeta(walked, {}, {}), TopKeys);
      && removed == Pruning.MetaRemoved(data, {}, {})
      && (forall k :: k in MapOrEmpty(MapOrEmpty(data, "metadata"), "annotations") ==> "metadata.annotations." + k in removed)
      && (forall k :: k in MapOrEmpty(MapOrEmpty(data, "metadata"), "labels") ==> "metadata.labels." + k in removed)
      && (MapAt(cleaned, "metadata").Some? ==>
            MapAt(MapAt(cleaned, "metadata").value, "annotations").None? &&
            MapAt(MapAt(cleaned, "metadata").value, "labels").None?)
  {
    var walked := PrunedMap(data, "", a);
    WalkKeepsMetadata(data, a);
    Pruning.PruneMetaSettles(walked, {}, {});
    var meta := Pruning.PruneMeta(walked, {}, {});
    assert MapAt(Pruning.PruneTop(meta, TopKeys), "metadata") == MapAt(meta, "metadata");
  }

  // ---- the prune_crd endpoint

  /** PruneResp: the cleaned document (before `yaml.safe_dump`) and the removals. */
  datatype Reply = Reply(yaml: Object, removed: seq<string>)

  /** The detail of the 422 answer. */
  function StrippedMessage(removed: seq<string>): string {
    "Unsupported fields stripped:\n- " + Join(removed, "\n- ")
  }

  /** The 422 detail is the very text of the Go service's UnsupportedRemoved error. */
  lemma MessageAsGo(rs: seq<string>)
    requires |rs| > 0
    ensures StrippedMessage(rs) == McpService.ErrorText(McpService.UnsupportedRemoved(rs))
  {
    var head := "Unsupported fields stripped:\n";
    var body := Join(rs, "\n- ");
    BulletsJoined(rs);
    assert head + "- " == "Unsupported fields stripped:\n- ";
    assert (head + "- ") + body == head + ("- " + body);
  }

  lemma {:induction false} BulletsJoined(rs: seq<string>)
    requires |rs| > 0
    ensures "- " + Join(rs, "\n- ") == Join(McpService.Bullets(rs), "\n")
    decreases |rs|
  {
    var bs := McpService.Bullets(rs);
    if |rs| > 1 {
      BulletsJoined(rs[1..]);
      assert bs[1..] == McpService.Bullets(rs[1..]);
      assert "- " + (rs[0] + "\n- " + Join(rs[1..], "\n- ")) == bs[0] + "\n" + ("- " + Join(rs[1..], "\n- "));
    }
  }

  /** `r` answers prune outcome `d`: its failure; the cleaned document
      exactly when nothing was removed; otherwise a 422 listing every
      removed path. */
  ghost predicate Answers(r: Result<Reply, PyServer.Failure>, d: Result<Pruning.Outcome, PyServer.Failure>) {
    && (d.Err? ==> r == Err(d.error))
    && (d.Ok? ==> (r.Ok? <==> McpService.AllRemoved(d.value) == multiset{}))
    && (r.Ok? ==> d.Ok? && r.value == Reply(d.value.cleaned, []))
    && (d.Ok? && r.Err? ==> exists removed: seq<string> ::
          McpService.InGroups(removed, d.value) && r.error == PyServer.Http(422, StrippedMessage(removed)))
  }

  /** `prune(req)`: the spec removals followed by the metadata and top-level
      ones; any of them makes the answer a 422 listing them all, otherwise
      the cleaned document comes back with nothing removed. */
  method PruneEndpoint(allowed: map<PyServer.Key, set<string>>, parsed: Result<Value, string>)
    returns (r: Result<Reply, PyServer.Failure>)
    ensures Answers(r, PruneSpec(parsed, allowed))
  {
    var out := Prune(allowed, parsed);
    if out.Err? {
      r := Err(out.error);
    } else {
      var removed := out.value.removedSpec + out.value.removedMeta;
      if |removed| > 0 {
        r := Err(PyServer.Http(422, StrippedMessage(removed)));
      } else {
        r := Ok(Reply(out.value.cleaned, []));
      }
    }
    AnswerOf(out, PruneSpec(parsed, allowed), r);
  }

  lemma AnswerOf(out: Result<Pruning3, PyServer.Failure>, d: Result<Pruning.Outcome, PyServer.Failure>,
                 r: Result<Reply, PyServer.Failure>)
    requires Reports(out, d)
    requires out.Err? ==> r == Err(out.error)
    requires out.Ok? ==>
      var removed := out.value.removedSpec + out.value.removedMeta;
      r == if |removed| > 0 then Err(PyServer.Http(422, StrippedMessage(removed))) else Ok(Reply(out.value.cleaned, []))
    ensures Answers(r, d)
  {
    ReportsAll(out, d);
    if out.Ok? {
      var removed := out.value.removedSpec + out.value.removedMeta;
      McpService.InGroupsAll(removed, d.value);
      if |removed| > 0 {
        assert McpService.InGroups(removed, d.value) && r.error == PyServer.Http(422, StrippedMessage(removed));
      }
    }
  }

  lemma ReportsAll(r: Result<Pruning3, PyServer.Failure>, d: Result<Pruning.Outcome, PyServer.Failure>)
    requires Reports(r, d)
    ensures r.Err? <==> d.Err?
    ensures r.Err? ==> r.error == d.error
    ensures r.Ok? ==> r.value.cleaned == d.value.cleaned
    ensures r.Ok? ==> McpService.InGroups(r.value.removedSpec + r.value.removedMeta, d.value)
    ensures r.Ok? ==> multiset(r.value.removedSpec + r.value.removedMeta) == McpService.AllRemoved(d.value)
  {
    if r.Ok? {
      McpService.GroupsOf(r.value.removedSpec, r.value.removedMeta, d.value);
      McpService.InGroupsAll(r.value.removedSpec + r.value.removedMeta, d.value);
    }
  }
}
