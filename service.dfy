/**
 * The MCP tool service of internal/mcp/service.go: a discovery cache plus the
 * annotation and label keys to keep, and the tools built on them (list CRDs,
 * skeleton, list supported paths, prune, validate). YAML parsing and
 * serialisation are not modelled: a tool receives the parse result, and the
 * cleaned document is returned as a decoded map.
 */
module McpService {
  import opened Wrappers
  import opened Strings
  import opened Json
  import opened Paths
  import opened Registry
  import opened Skeletons
  import opened Pruning
  import opened Discovery
  import Sorting

  /** What pruneImpl returns on success. */
  datatype PruneOut = PruneOut(cleaned: Object, removedSpec: seq<string>, removedMetaOrTop: seq<string>)

  datatype PruneResp = PruneResp(yaml: Object, removed: seq<string>)

  datatype ValResp = ValResp(valid: bool, details: string)

  /** The errors of the service: a message, or the paths a prune would strip. */
  datatype ServiceError = Failure(msg: string) | UnsupportedRemoved(removed: seq<string>)

  function Bullets(rs: seq<string>): (lines: seq<string>)
    ensures |lines| == |rs| && forall i :: 0 <= i < |rs| ==> lines[i] == "- " + rs[i]
  {
    seq(|rs|, i requires 0 <= i < |rs| => "- " + rs[i])
  }

  /** The text of an error. */
  function ErrorText(e: ServiceError): string {
    match e
    case Failure(msg) => msg
    case UnsupportedRemoved(rs) => "Unsupported fields stripped:\n" + Join(Bullets(rs), "\n")
  }

  /** The stripped-fields message is a header line and one `- path` line per
      removed path, in order, as long as no path holds a line break. */
  lemma ErrorTextLines(rs: seq<string>)
    requires |rs| > 0 && forall i :: 0 <= i < |rs| ==> '\n' !in rs[i]
    ensures Split(ErrorText(UnsupportedRemoved(rs)), '\n') == ["Unsupported fields stripped:"] + Bullets(rs)
  {
    var lines := ["Unsupported fields stripped:"] + Bullets(rs);
    LinesNoBreak(rs);
    JoinCons("Unsupported fields stripped:", Bullets(rs), "\n");
    assert "Unsupported fields stripped:\n" == "Unsupported fields stripped:" + "\n";
    JoinSplit(lines, '\n');
  }

  lemma LinesNoBreak(rs: seq<string>)
    requires forall i :: 0 <= i < |rs| ==> '\n' !in rs[i]
    ensures forall i :: 0 <= i < |rs| + 1 ==> '\n' !in (["Unsupported fields stripped:"] + Bullets(rs))[i]
  {
    var lines := ["Unsupported fields stripped:"] + Bullets(rs);
    forall i | 0 <= i < |lines|
      ensures '\n' !in lines[i]
    {
      if i > 0 {
        assert lines[i] == "- " + rs[i - 1];
      }
    }
  }

  lemma JoinCons(head: string, rest: seq<string>, sep: string)
    requires |rest| > 0
    ensures Join([head] + rest, sep) == head + sep + Join(rest, sep)
  {
    assert ([head] + rest)[1..] == rest;
  }

  /** IsUnsupportedRemoved: whether an error carries stripped paths, and which. */
  function IsUnsupportedRemoved(err: Option<ServiceError>): (r: (bool, seq<string>))
    ensures r.0 <==> err.Some? && err.value.UnsupportedRemoved?
    ensures r.0 ==> r.1 == err.value.removed
    ensures !r.0 ==> r.1 == []
  {
    if err.Some? && err.value.UnsupportedRemoved? then (true, err.value.removed) else (false, [])
  }

  /** pruneImpl's result agrees with PruneDoc: the same error, or the same
      cleaned document with the spec paths and then the metadata and top-level
      paths, each group in some order. */
  ghost predicate Reports(r: Result<PruneOut, string>, d: Result<Outcome, string>) {
    match d
    case Err(e) => r == Err(e)
    case Ok(o) =>
      && r.Ok?
      && r.value.cleaned == o.cleaned
      && multiset(r.value.removedSpec) == o.spec
      && |o.meta| <= |r.value.removedMetaOrTop|
      && multiset(r.value.removedMetaOrTop[..|o.meta|]) == o.meta
      && multiset(r.value.removedMetaOrTop[|o.meta|..]) == o.top
  }

  /** Everything a prune of a successfully parsed, known document records. */
  ghost function AllRemoved(o: Outcome): multiset<string> {
    o.spec + o.meta + o.top
  }

  /** The order Prune and Validate list removals in: first the spec paths,
      then the metadata paths, then the top-level keys, each group in the
      order its map was visited. */
  ghost predicate InGroups(removed: seq<string>, o: Outcome) {
    var s, m := |o.spec|, |o.meta|;
    && s + m <= |removed|
    && multiset(removed[..s]) == o.spec
    && multiset(removed[s..s + m]) == o.meta
    && multiset(removed[s + m..]) == o.top
  }

  /** The spec group followed by the metadata and top-level group is in that order. */
  lemma GroupsOf(rs: seq<string>, rest: seq<string>, o: Outcome)
    requires multiset(rs) == o.spec
    requires |o.meta| <= |rest| && multiset(rest[..|o.meta|]) == o.meta && multiset(rest[|o.meta|..]) == o.top
    ensures InGroups(rs + rest, o)
  {
    var all := rs + rest;
    var s, cut := |o.spec|, |o.meta|;
    assert |multiset(rs)| == |rs|;
    assert all[..s] == rs;
    assert all[s..s + cut] == rest[..cut];
    assert all[s + cut..] == rest[cut..];
  }

  /** A list in that order holds every removal, and is empty exactly when nothing is removed. */
  lemma InGroupsAll(removed: seq<string>, o: Outcome)
    requires InGroups(removed, o)
    ensures multiset(removed) == AllRemoved(o)
    ensures |removed| == 0 <==> AllRemoved(o) == multiset{}
  {
    var s, m := |o.spec|, |o.meta|;
    assert removed == removed[..s] + removed[s..s + m] + removed[s + m..];
  }

  /** The paths ListSupported reports: the allow-list when there is one,
      otherwise the top-level property names other than apiVersion, kind and metadata. */
  function SupportedPaths(t: Tables, api: string, kind: string): set<string> {
    match AllowOf(t, api, kind)
    case Some(a) => a
    case None => TopOf(t, api, kind).GetOr({}) - Always
  }

  /** With an allow-list, a member whose stripped path is listed as supported
      is never deleted by the walk. */
  lemma SupportedSurvivesWalk(t: Tables, api: string, kind: string, here: string)
    requires AllowOf(t, api, kind).Some?
    requires StripIndices(here) in SupportedPaths(t, api, kind)
    ensures !Drop(here, AllowOf(t, api, kind).value)
  {
  }

  /** Without an allow-list, a top-level key listed as supported survives the top-level step. */
  lemma SupportedSurvivesTop(t: Tables, api: string, kind: string, m: Object, k: string)
    requires AllowOf(t, api, kind).None? && k in m
    requires k in SupportedPaths(t, api, kind)
    ensures k in PruneTop(m, TopOf(t, api, kind).GetOr({}))
  {
  }

  // ---- the walk, the metadata step and the key deletion, as the code runs them

  /** The walk over one node: maps and arrays are descended, anything else is left. */
  method Walk(node: Value, dotted: string, a: set<string>) returns (r: Value, removed: seq<string>)
    ensures r == PruneTree(node, dotted, a)
    ensures multiset(removed) == Removed(node, dotted, a)
    decreases node, 2
  {
    match node {
      case Obj(m) =>
        var fields, below := WalkMap(m, dotted, a);
        r, removed := Obj(fields), below;
      case Arr(s) =>
        var items, below := WalkItems(s, dotted, a);
        r, removed := Arr(items), below;
      case _ =>
        r, removed := node, [];
    }
  }

  /** A map part-way through the walk: the members in `ks` are not visited yet. */
  ghost function Partial(m: Object, ks: set<string>, dotted: string, a: set<string>): Object {
    map k | k in m && (k in ks || !Drop(Here(dotted, k), a)) ::
      if k in ks then m[k] else PruneTree(m[k], Here(dotted, k), a)
  }

  lemma PartialEnds(m: Object, dotted: string, a: set<string>)
    ensures Partial(m, m.Keys, dotted, a) == m
    ensures Partial(m, {}, dotted, a) == PruneMap(m, dotted, a)
  {
  }

  /** A member not visited yet still holds its original value. */
  lemma PartialUnvisited(m: Object, ks: set<string>, k: string, dotted: string, a: set<string>)
    requires k in ks && ks <= m.Keys
    ensures k in Partial(m, ks, dotted, a) && Partial(m, ks, dotted, a)[k] == m[k]
  {
  }

  /** Visiting a dropped member deletes it. */
  lemma PartialDrop(m: Object, ks: set<string>, k: string, dotted: string, a: set<string>)
    requires k in ks && ks <= m.Keys && Drop(Here(dotted, k), a)
    ensures Partial(m, ks - {k}, dotted, a) == Partial(m, ks, dotted, a) - {k}
  {
    var before := Partial(m, ks, dotted, a);
    var after := Partial(m, ks - {k}, dotted, a);
    assert after.Keys == before.Keys - {k};
  }

  /** Visiting a kept member replaces it by its pruned value. */
  lemma PartialKeep(m: Object, ks: set<string>, k: string, dotted: string, a: set<string>)
    requires k in ks && ks <= m.Keys && !Drop(Here(dotted, k), a)
    ensures Partial(m, ks - {k}, dotted, a) == Partial(m, ks, dotted, a)[k := PruneTree(m[k], Here(dotted, k), a)]
  {
    var before := Partial(m, ks, dotted, a);
    var after := Partial(m, ks - {k}, dotted, a);
    assert after.Keys == before.Keys;
    forall j | j in after && j != k
      ensures after[j] == before[j]
    {
    }
  }

  /** Every member of a map, in an arbitrary order: a dropped member is
      recorded and deleted, any other is walked below its own path. */
  method WalkMap(m: Object, dotted: string, a: set<string>) returns (r: Object, removed: seq<string>)
    ensures r == PruneMap(m, dotted, a)
    ensures multiset(removed) == RemovedKeys(m, m.Keys, dotted, a)
    decreases Obj(m), 1
  {
    r, removed := m, [];
    var ks := m.Keys;
    PartialEnds(m, dotted, a);
    while ks != {}
      invariant ks <= m.Keys
      invariant r == Partial(m, ks, dotted, a)
      invariant multiset(removed) + RemovedKeys(m, ks, dotted, a) == RemovedKeys(m, m.Keys, dotted, a)
      decreases |ks|
    {
      var k :| k in ks;
      r, removed := WalkMember(m, ks, k, dotted, a, r, removed);
      ks := ks - {k};
    }
  }

  /** One member `k` of the map: deleted and recorded when dropped, walked otherwise. */
  method WalkMember(m: Object, ks: set<string>, k: string, dotted: string, a: set<string>,
                    r: Object, removed: seq<string>)
    returns (r': Object, removed': seq<string>)
    requires k in ks && ks <= m.Keys && r == Partial(m, ks, dotted, a)
    requires multiset(removed) + RemovedKeys(m, ks, dotted, a) == RemovedKeys(m, m.Keys, dotted, a)
    ensures r' == Partial(m, ks - {k}, dotted, a)
    ensures multiset(removed') + RemovedKeys(m, ks - {k}, dotted, a) == RemovedKeys(m, m.Keys, dotted, a)
    decreases Obj(m), 0
  {
    RemovedKeysPick(m, ks, k, dotted, a);
    PartialUnvisited(m, ks, k, dotted, a);
    var here := dotted;
    if here != "" {
      here := here + ".";
    }
    here := here + k;
    assert here == Here(dotted, k);
    var clean := StripIndices(here);
    var visit: seq<string>;
    if HasPrefix(clean, "spec.") && !IsAllowed(Some(a), clean) {
      PartialDrop(m, ks, k, dotted, a);
      visit := [clean];
      r' := r - {k};
    } else {
      PartialKeep(m, ks, k, dotted, a);
      var child;
      child, visit := Walk(r[k], here, a);
      r' := r[k := child];
    }
    removed' := removed + visit;
    MultisetShift(removed, visit, RemovedAt(m, k, dotted, a), RemovedKeys(m, ks - {k}, dotted, a),
                  RemovedKeys(m, m.Keys, dotted, a));
  }

  lemma MultisetShift(done: seq<string>, visit: seq<string>, here: multiset<string>,
                      rest: multiset<string>, total: multiset<string>)
    requires multiset(visit) == here && multiset(done) + (here + rest) == total
    ensures multiset(done + visit) + rest == total
  {
  }

  /** Every element of an array, walked below `dotted[i]`. */
  method WalkItems(s: seq<Value>, dotted: string, a: set<string>) returns (r: seq<Value>, removed: seq<string>)
    ensures r == PruneItems(s, dotted, a)
    ensures multiset(removed) == RemovedItems(s, |s|, dotted, a)
    decreases Arr(s), 1
  {
    r, removed := s, [];
    var i := 0;
    while i < |s|
      invariant 0 <= i <= |s| && ItemsWalked(s, i, r, dotted, a)
      invariant multiset(removed) == RemovedItems(s, i, dotted, a)
    {
      r, removed := WalkItem(s, i, r, removed, dotted, a);
      i := i + 1;
    }
    ItemsDone(s, r, dotted, a);
  }

  /** The first `i` elements of `r` are walked, the rest are those of `s`. */
  ghost predicate ItemsWalked(s: seq<Value>, i: nat, r: seq<Value>, dotted: string, a: set<string>) {
    && i <= |s| && |r| == |s|
    && (forall j :: 0 <= j < i ==> r[j] == PruneTree(s[j], Indexed(dotted, j), a))
    && (forall j :: i <= j < |s| ==> r[j] == s[j])
  }

  /** Element `i`, walked below `dotted[i]`. */
  method WalkItem(s: seq<Value>, i: nat, r: seq<Value>, removed: seq<string>, dotted: string, a: set<string>)
    returns (r': seq<Value>, removed': seq<string>)
    requires i < |s| && ItemsWalked(s, i, r, dotted, a)
    requires multiset(removed) == RemovedItems(s, i, dotted, a)
    ensures ItemsWalked(s, i + 1, r', dotted, a)
    ensures multiset(removed') == RemovedItems(s, i + 1, dotted, a)
    decreases Arr(s), 0
  {
    var child, below := Walk(r[i], Indexed(dotted, i), a);
    removed' := removed + below;
    r' := r[i := child];
  }

  lemma ItemsDone(s: seq<Value>, r: seq<Value>, dotted: string, a: set<string>)
    requires ItemsWalked(s, |s|, r, dotted, a)
    ensures r == PruneItems(s, dotted, a)
  {
  }

  /** The recorded paths of the members of `f` outside `keep` and outside `ks`. */
  ghost function UnkeptOutside(f: Object, keep: set<string>, ks: set<string>, prefix: string): set<string> {
    set k | k in f && k !in keep && k !in ks :: prefix + k
  }

  lemma UnkeptOutsideStep(f: Object, keep: set<string>, ks: set<string>, k: string, prefix: string)
    requires k in ks && k in f && k !in keep
    ensures UnkeptOutside(f, keep, ks - {k}, prefix) == UnkeptOutside(f, keep, ks, prefix) + {prefix + k}
    ensures prefix + k !in UnkeptOutside(f, keep, ks, prefix)
  {
    forall j | j in f && j !in keep && j !in ks
      ensures prefix + j != prefix + k
    {
      assert (prefix + j)[|prefix|..] == j;
      assert (prefix + k)[|prefix|..] == k;
    }
  }

  /** Deletes the members of `f` whose key is not in `keep`, recording
      `prefix + key` for each, in an arbitrary order. */
  method DeleteUnkept(f: Object, keep: set<string>, prefix: string) returns (kept: Object, removed: seq<string>)
    ensures kept == KeepKeys(f, keep)
    ensures multiset(removed) == Unkept(f, keep, prefix)
  {
    kept, removed := f, [];
    var ks := f.Keys;
    while ks != {}
      invariant ks <= f.Keys
      invariant forall k :: k in kept <==> k in f && (k in ks || k in keep)
      invariant forall k :: k in kept ==> kept[k] == f[k]
      invariant multiset(removed) == multiset(UnkeptOutside(f, keep, ks, prefix))
      decreases |ks|
    {
      var k :| k in ks;
      if k !in keep {
        UnkeptOutsideStep(f, keep, ks, k, prefix);
        removed := removed + [prefix + k];
        kept := kept - {k};
      } else {
        assert UnkeptOutside(f, keep, ks - {k}, prefix) == UnkeptOutside(f, keep, ks, prefix);
      }
      ks := ks - {k};
    }
    assert UnkeptOutside(f, keep, {}, prefix) == set k | k in f && k !in keep :: prefix + k;
  }

  /** One of `annotations` / `labels`: unkept keys deleted and an emptied map removed. */
  method PruneMetaField(meta: Object, field: string, keep: set<string>, prefix: string)
    returns (r: Object, removed: seq<string>)
    ensures r == PruneField(meta, field, keep)
    ensures multiset(removed) == Unkept(MapOrEmpty(meta, field), keep, prefix)
  {
    r, removed := meta, [];
    if field in meta && meta[field].Obj? {
      var kept;
      kept, removed := DeleteUnkept(meta[field].fields, keep, prefix);
      if |kept| == 0 {
        r := meta - {field};
      } else {
        r := meta[field := Obj(kept)];
      }
    }
  }

  /** Whether two metadata maps read the same `labels` map. */
  lemma LabelsUntouched(meta: Object, annKeep: set<string>)
    ensures MapOrEmpty(PruneField(meta, "annotations", annKeep), "labels") == MapOrEmpty(meta, "labels")
  {
    PruneFieldOther(meta, "annotations", "labels", annKeep);
  }

  /** The three steps' results, assembled as pruneImpl returns them, agree with PruneDoc. */
  lemma ReportsKnown(parsed: Result<Value, string>, t: Tables, annKeep: set<string>, labKeep: set<string>,
                     cleaned: Object, removedSpec: seq<string>, removedMeta: seq<string>, removedTop: seq<string>)
    requires parsed.Ok?
    requires var m := DocMap(parsed.value);
      var api := StrAt(m, "apiVersion");
      var kind := StrAt(m, "kind");
      var allow := AllowOf(t, api, kind);
      var metaDone := PruneMeta(Walked(m, allow), annKeep, labKeep);
      var top := TopOf(t, api, kind).GetOr({});
      && Known(t, api, kind)
      && cleaned == PruneTop(metaDone, top)
      && multiset(removedSpec) == WalkRemoved(m, allow)
      && multiset(removedMeta) == MetaRemoved(Walked(m, allow), annKeep, labKeep)
      && multiset(removedTop) == TopRemoved(metaDone, top)
    ensures Reports(Ok(PruneOut(cleaned, removedSpec, removedMeta + removedTop)), PruneDoc(parsed, t, annKeep, labKeep))
  {
    PruneDocKnown(parsed.value, t, annKeep, labKeep);
    var rest := removedMeta + removedTop;
    assert |multiset(removedMeta)| == |removedMeta|;
    assert rest[..|removedMeta|] == removedMeta;
    assert rest[|removedMeta|..] == removedTop;
  }

  /** What pruneImpl reports, all groups together. */
  lemma ReportsAll(r: Result<PruneOut, string>, d: Result<Outcome, string>)
    requires Reports(r, d)
    ensures r.Err? <==> d.Err?
    ensures r.Err? ==> r.error == d.error
    ensures r.Ok? ==> r.value.cleaned == d.value.cleaned
    ensures r.Ok? ==> InGroups(r.value.removedSpec + r.value.removedMetaOrTop, d.value)
    ensures r.Ok? ==> multiset(r.value.removedSpec + r.value.removedMetaOrTop) == AllRemoved(d.value)
  {
    if r.Ok? {
      GroupsOf(r.value.removedSpec, r.value.removedMetaOrTop, d.value);
      InGroupsAll(r.value.removedSpec + r.value.removedMetaOrTop, d.value);
    }
  }

  /** Validate's answer to a prune outcome: the prune's error; the pass
      message exactly when nothing would be removed; otherwise every path that
      would be removed, joined with ", ". */
  ghost predicate Verdict(r: ValResp, d: Result<Outcome, string>) {
    match d
    case Err(e) => r == ValResp(false, e)
    case Ok(o) =>
      if AllRemoved(o) == multiset{} then r == ValResp(true, "Local schema check passed (no cluster dry-run).")
      else
        && !r.valid
        && exists rs :: InGroups(rs, o) && r.details == "Unsupported fields (local schema): " + Join(rs, ", ")
  }

  lemma VerdictRemoved(r: ValResp, d: Result<Outcome, string>, removed: seq<string>)
    requires d.Ok? && InGroups(removed, d.value) && |removed| > 0
    requires r == ValResp(false, "Unsupported fields (local schema): " + Join(removed, ", "))
    ensures Verdict(r, d)
  {
    InGroupsAll(removed, d.value);
    assert removed[0] in multiset(removed);
  }

  lemma PruneDocParseError(parsed: Result<Value, string>, t: Tables, annKeep: set<string>, labKeep: set<string>)
    requires parsed.Err?
    ensures PruneDoc(parsed, t, annKeep, labKeep) == Err("Invalid YAML: " + parsed.error)
  {
  }

  class Service {
    var disc: Cache
    var allowedMetaAnnotations: set<string>
    var allowedMetaLabels: set<string>

    /** NewService: the given cache and no annotation or label kept. */
    constructor (d: Cache)
      ensures disc == d && allowedMetaAnnotations == {} && allowedMetaLabels == {}
    {
      disc := d;
      allowedMetaAnnotations, allowedMetaLabels := {}, {};
    }

    /** The metadata step with this service's keep-lists. */
    method PruneMetadata(m: Object) returns (r: Object, removed: seq<string>)
      ensures r == PruneMeta(m, allowedMetaAnnotations, allowedMetaLabels)
      ensures multiset(removed) == MetaRemoved(m, allowedMetaAnnotations, allowedMetaLabels)
    {
      r, removed := m, [];
      if "metadata" in m && m["metadata"].Obj? {
        var meta := m["metadata"].fields;
        var done, fromAnn := PruneMetaField(meta, "annotations", allowedMetaAnnotations, "metadata.annotations.");
        LabelsUntouched(meta, allowedMetaAnnotations);
        var fromLab;
        done, fromLab := PruneMetaField(done, "labels", allowedMetaLabels, "metadata.labels.");
        removed := fromAnn + fromLab;
        if |done| == 0 {
          r := m - {"metadata"};
        } else {
          r := m["metadata" := Obj(done)];
        }
      }
    }

    /** pruneImpl on a parse result. */
    method PruneImpl(parsed: Result<Value, string>) returns (r: Result<PruneOut, string>)
      requires disc.Valid()
      ensures Reports(r, PruneDoc(parsed, disc.State(), allowedMetaAnnotations, allowedMetaLabels))
    {
      if parsed.Err? {
        return Err("Invalid YAML: " + parsed.error);
      }
      var m := if parsed.value.Obj? then parsed.value.fields else map[];
      var api := StrAt(m, "apiVersion");
      var kind := StrAt(m, "kind");
      if !disc.Has(api, kind) {
        return Err(api + "/" + kind + " is not known to the control plane");
      }
      var a := disc.AllowedSpec(api, kind);
      var top := disc.TopAllowed(api, kind);
      var cleaned, removedSpec, removedMeta, removedTop := PruneSteps(m, a, top.GetOr({}));
      r := Ok(PruneOut(cleaned, removedSpec, removedMeta + removedTop));
      ReportsKnown(parsed, disc.State(), allowedMetaAnnotations, allowedMetaLabels,
                   cleaned, removedSpec, removedMeta, removedTop);
    }

    /** The three steps of pruneImpl on a known document: the spec walk when
        there is an allow-list, the metadata step, then the top-level step. */
    method PruneSteps(m: Object, a: Option<set<string>>, top: set<string>)
      returns (cleaned: Object, removedSpec: seq<string>, removedMeta: seq<string>, removedTop: seq<string>)
      ensures cleaned == PruneTop(PruneMeta(Walked(m, a), allowedMetaAnnotations, allowedMetaLabels), top)
      ensures multiset(removedSpec) == WalkRemoved(m, a)
      ensures multiset(removedMeta) == MetaRemoved(Walked(m, a), allowedMetaAnnotations, allowedMetaLabels)
      ensures multiset(removedTop) ==
        TopRemoved(PruneMeta(Walked(m, a), allowedMetaAnnotations, allowedMetaLabels), top)
    {
      cleaned, removedSpec := m, [];
      if a.Some? {
        cleaned, removedSpec := WalkMap(m, "", a.value);
      }
      cleaned, removedMeta := PruneMetadata(cleaned);
      cleaned, removedTop := DeleteUnkept(cleaned, top + Always, "");
    }

    /** Prune: the cleaned document when nothing had to be removed, otherwise
        every removed path as an UnsupportedRemoved error. */
    method Prune(parsed: Result<Value, string>) returns (r: Result<PruneResp, ServiceError>)
      requires disc.Valid()
      ensures var d := PruneDoc(parsed, disc.State(), allowedMetaAnnotations, allowedMetaLabels);
        && (d.Err? ==> r == Err(Failure(d.error)))
        && (d.Ok? ==> (r.Ok? <==> AllRemoved(d.value) == multiset{}))
        && (r.Ok? ==> r.value == PruneResp(d.value.cleaned, []))
        && (d.Ok? && r.Err? ==> r.error.UnsupportedRemoved? && InGroups(r.error.removed, d.value))
    {
      var out := PruneImpl(parsed);
      if out.Err? {
        return Err(Failure(out.error));
      }
      var removed := out.value.removedSpec + out.value.removedMetaOrTop;
      ReportsAll(out, PruneDoc(parsed, disc.State(), allowedMetaAnnotations, allowedMetaLabels));
      if |removed| > 0 {
        return Err(UnsupportedRemoved(removed));
      }
      return Ok(PruneResp(out.value.cleaned, []));
    }

    /** Validate: valid exactly when a prune would succeed without removing anything. */
    method Validate(parsed: Result<Value, string>) returns (r: ValResp)
      requires disc.Valid()
      ensures Verdict(r, PruneDoc(parsed, disc.State(), allowedMetaAnnotations, allowedMetaLabels))
    {
      ghost var d := PruneDoc(parsed, disc.State(), allowedMetaAnnotations, allowedMetaLabels);
      if parsed.Err? {
        PruneDocParseError(parsed, disc.State(), allowedMetaAnnotations, allowedMetaLabels);
        return ValResp(false, "Invalid YAML: " + parsed.error);
      }
      var out := PruneImpl(parsed);
      ReportsAll(out, d);
      if out.Err? {
        return ValResp(false, out.error);
      }
      var removed := out.value.removedSpec + out.value.removedMetaOrTop;
      if |removed| > 0 {
        r := ValResp(false, "Unsupported fields (local schema): " + Join(removed, ", "));
        VerdictRemoved(r, d, removed);
        return;
      }
      return ValResp(true, "Local schema check passed (no cluster dry-run).");
    }

    /** RefreshDiscovery: the cache refreshed; on success the number of
        registered (apiVersion, kind) keys, on failure the refresh error and
        a zero count. */
    method RefreshDiscovery(openAPI: Option<Object>, listing: Result<seq<Object>, string>,
                            download: string -> Result<Payload, string>)
      returns (ok: bool, count: nat, err: Option<string>)
      requires disc.Valid()
      modifies disc
      ensures disc.Valid()
      ensures ok <==> err.None?
      ensures ok ==> count == |disc.fullSchema|
      ensures !ok ==> count == 0
      ensures listing.Err? ==> err == Some("fetch GitHub dir: " + listing.error)
      ensures disc.Config() == old(disc.Config())
    {
      var e, first, files := disc.Refresh(openAPI, listing, download);
      if e.Some? {
        return false, 0, e;
      }
      return true, |disc.fullSchema|, None;
    }

    /** ListCRDs: the cache's sorted (apiVersion, kind) pairs. */
    method ListCRDs() returns (out: seq<(string, string)>)
      requires disc.Valid()
      ensures Sorting.SortedBy(out, Sorting.PairLess)
      ensures forall p :: p in out <==> exists key :: key in disc.State().fullSchema && SplitKey(key) == p
    {
      out := disc.ListCRDs();
    }

    /** Skeleton: an unknown api/kind is refused before the cache builds one. */
    method Skeleton(api: string, kind: string) returns (r: Result<Object, string>)
      ensures !Known(disc.State(), api, kind) ==> r == Err("Unknown apiVersion/kind")
      ensures Known(disc.State(), api, kind) ==>
        r == Ok(SkeletonBody(disc.State().fullSchema[JoinKey(api, kind)], api, kind))
    {
      if !disc.Has(api, kind) {
        return Err("Unknown apiVersion/kind");
      }
      r := disc.Skeleton(api, kind);
    }

    /** ListSupported: the supported paths in ascending order. */
    method ListSupported(api: string, kind: string) returns (r: Result<seq<string>, string>)
      requires disc.Valid()
      ensures !Known(disc.State(), api, kind) ==> r == Err("Unknown apiVersion/kind")
      ensures Known(disc.State(), api, kind) ==> r.Ok?
      ensures r.Ok? ==>
        && Sorting.SortedBy(r.value, LexLess)
        && |r.value| == |SupportedPaths(disc.State(), api, kind)|
        && forall p :: p in r.value <==> p in SupportedPaths(disc.State(), api, kind)
    {
      if !disc.Has(api, kind) {
        return Err("Unknown apiVersion/kind");
      }
      Sorting.StringOrder();
      var a := disc.AllowedSpec(api, kind);
      if a.Some? {
        var paths := Sorting.SortSet(a.value, LexLess);
        return Ok(paths);
      }
      var tl := disc.TopAllowed(api, kind).GetOr({});
      tl := tl - {"apiVersion"} - {"kind"} - {"metadata"};
      assert tl == SupportedPaths(disc.State(), api, kind);
      var paths := Sorting.SortSet(tl, LexLess);
      return Ok(paths);
    }
  }

  /** A new service keeps no annotation and no label. */
  lemma NewServiceDropsAllMeta(m: Object)
    requires MapAt(m, "metadata").Some?
    ensures var meta := MapAt(m, "metadata").value;
      MetaRemoved(m, {}, {}) ==
        Unkept(MapOrEmpty(meta, "annotations"), {}, "metadata.annotations.")
        + Unkept(MapOrEmpty(meta, "labels"), {}, "metadata.labels.")
    ensures var done := MapAt(PruneMeta(m, {}, {}), "metadata");
      done.Some? ==> "annotations" !in done.value || !done.value["annotations"].Obj?
  {
  }
}
