# datum-mcp core, modelled in Dafny

datum-mcp is a Model Context Protocol server for the Datum Cloud control plane.
It keeps a discovery cache of resource schemas. The cache is filled from the CRD
YAML files of a GitHub directory and, optionally, from the control plane's
OpenAPI v3 document. The server's tools work from that cache:

- list the known (apiVersion, kind) pairs;
- emit a minimal skeleton document;
- list the supported `spec.` paths;
- prune a document of fields the schema does not allow;
- validate a document locally.

The project models that core twice, once for each implementation:

- the Go service (`internal/discovery`, `internal/mcp/service.go`) together
  with its helpers: the pure parts of the API client (`internal/api/client.go`),
  the base-path round tripper (`internal/api/transport.go`), hostname
  derivation (`internal/authutil`), and the login and token-precedence
  decisions (`internal/auth`);
- the Python service (`discovery.py` and `server.py`).

Decoded YAML and JSON documents are the `Json.Value` tree. The discovery cache
is a class whose four tables (`allowed`, `topAllowed`, `kind2api`,
`fullSchema`) its methods reassign. Each table update is proved equal to a fold
of `Register` over the log of registrations the ingestion performs. The cache
invariant is stated on that value and kept by every registration:

- every key is an `api`/`kind` pair with its schema;
- allow-list entries lie under `spec.`;
- the apiVersions listed for a kind are registered and never repeat.

Loops over Go maps and Python dicts visit keys in an order the model leaves
open (`:|` choice). Their specifications are order-independent: the removed
paths of one map walk are a multiset, and OpenAPI registrations form a
multiset. The order of the groups is stated: the spec paths come before the
metadata paths, which come before the top-level keys. The prune walks are
methods proved equal to the functions `Pruning.PruneTree` and
`PyPrune.Pruned`, and the lemmas about the prune are stated on those functions.
The lemmas show that:

- both walks are idempotent (Pruning.PruneIdempotent, PyPrune.PrunedIdempotent);
- both walks only delete map members (Pruning.PruneIsSubTree, PyPrune.PrunedIsSubTree);
- every recorded path is a disallowed `spec.` path;
- the Python prune equals the Go one when the allow-list has no wildcard
  entries.

Python exceptions are modelled as `None` or `Err` outcomes. The Python code
crashes on malformed shapes where the Go code skips them, and the model follows
each.

Files, one module each:

- `wrappers`: Option and Result.
- `strings`: prefix, suffix, trim, split, join and string order.
- `json`: the value tree and its accessors.
- `paths`: index stripping and allow-list membership.
- `collect` (module `SpecPaths`): `collectPaths`.
- `registry`: the cache tables and their registration.
- `skeleton` (module `Skeletons`).
- `sorting`.
- `discovery`: class `Cache`.
- `prune_spec` (module `Pruning`).
- `service` (module `McpService`): class `Service`.
- The `py_*` modules: the Python side.
- `api_client` (module `ApiClient`).
- `authutil` (module `AuthUtil`).
- `auth` (module `Auth`).
- `transport` (module `Transport`).

## Model

| member | source | states |
|---|---|---|
| Strings.TrimPrefix | internal/authutil/authutil.go:116-117 | with the prefix present, prefix plus result is the input; otherwise the input is unchanged |
| Strings.TrimLeftChar | internal/api/transport.go:21 | the result is the longest suffix of the input that does not start with the cut character, and only that character was removed |
| Strings.TrimRightChar | internal/api/transport.go:21 | the result is the longest prefix of the input that does not end with the cut character, and only that character was removed |
| Strings.Split | internal/api/client.go:210 | at least one piece, and no piece holds the separator |
| Strings.SplitJoin | internal/api/client.go:210 | joining the pieces of a split with the separator gives the string back |
| Strings.JoinSplit | internal/api/client.go:210 | splitting a join of separator-free pieces gives the pieces back |
| Strings.TrimSpace | internal/api/client.go:156 | the result neither starts nor ends with white space |
| Strings.TrimSpaceCuts | internal/api/client.go:156 | the result is a slice of the input with only white space before and after it; with TrimSpace's own contract, it is the input without its outer white space |
| Strings.LexLessTransitive | internal/mcp/service.go:90 | the string order used by sort.Strings and sorted() is transitive |
| Strings.LexLessTotal | internal/mcp/service.go:90 | two different strings are always ordered one way or the other |
| Json.ListToSet | internal/discovery/discovery.go:534-545 | exactly the non-empty strings of a list; the empty set for anything that is not a list |
| Paths.StripIndices | internal/discovery/discovery.go:547-551 | never longer than the input |
| Paths.StripNoBracket | internal/discovery/discovery.go:547-551 | a path without `[` is unchanged by index stripping |
| Paths.StripConcat | internal/discovery/discovery.go:547-551 | stripping distributes over a concatenation whose second part cannot continue an index token |
| Paths.StripIndexed | internal/mcp/service.go:197 | an array index `[i]` inserted in a path vanishes after stripping, so `spec.rules[0].host` compares as `spec.rules.host` |
| Paths.StripHere | internal/mcp/service.go:182-187 | stripping a member path keeps the separating dot and strips both parts |
| Paths.StripRulesExample | internal/discovery/discovery.go:547-551 | `spec.rules[i].host` strips to `spec.rules.host` for every index i |
| Paths.WildcardEntry | internal/discovery/discovery.go:554-570 | a single entry `b.*` allows exactly `b` and the paths below `b.` |
| Paths.WildcardExample | internal/discovery/discovery.go:554-570 | `spec.foo.*` allows `spec.foo` and `spec.foo.bar.baz` but not `spec.fooz` |
| Paths.IsAllowedMonotone | internal/discovery/discovery.go:554-570 | a larger allow-list allows at least as much |
| SpecPaths.PreserveRule | internal/discovery/discovery.go:329-331 | `x-kubernetes-preserve-unknown-fields: true` allows the wildcard of the base |
| SpecPaths.MemberRule | internal/discovery/discovery.go:332-340 | every map member of `allOf`, `anyOf`, `oneOf` is collected at the same base |
| SpecPaths.PropertyRule | internal/discovery/discovery.go:343-355 | an object node allows each property path and everything its sub-schema allows below that path |
| SpecPaths.AdditionalRule | internal/discovery/discovery.go:356-364 | a map or `true` `additionalProperties` allows the wildcard, and a map also contributes what it allows at the base |
| SpecPaths.ItemsRule | internal/discovery/discovery.go:365-368 | the `items` of an array node are collected at the same base |
| SpecPaths.CollectUnderBase | internal/discovery/discovery.go:324-370 | every collected entry lies under `base.`, so every spec allow-list entry starts with `spec.` |
| Registry.JoinKey | internal/discovery/discovery.go:64 | the key always holds the separator |
| Registry.SplitJoinKey | internal/discovery/discovery.go:64 | a key splits back into the apiVersion and kind when the apiVersion holds no separator |
| Registry.EmptyInv | internal/discovery/discovery.go:66-73 | the empty tables satisfy the cache invariant |
| Registry.RegisterInv | internal/discovery/discovery.go:288-322 | registerSchema keeps the cache invariant |
| Registry.RegisterEffect | internal/discovery/discovery.go:288-322 | the key's schema and top-level names are overwritten; the api is listed once under its kind; the allow-list is rewritten exactly when the schema has a `spec` map; no other key or kind changes |
| Registry.StaleAllowList | internal/discovery/discovery.go:316-321 | re-registering a key with a schema that has no `spec` map leaves the earlier allow-list in place, although the schema is replaced |
| Registry.FoldInv | internal/discovery/discovery.go:288-322 | any sequence of registrations keeps the invariant |
| Registry.FoldAppend | internal/discovery/discovery.go:288-322 | registering two logs one after the other is registering their concatenation |
| Registry.LastWriterWins | internal/discovery/discovery.go:293 | after a log, a key holds the schema of its last registration, or its earlier schema when there was none |
| Registry.FoldApis | internal/discovery/discovery.go:295-305 | a kind's apiVersions only grow, never repeat, and are the earlier ones plus those registered for it |
| Registry.ApiVersionInjective | internal/discovery/discovery.go:239-242 | the apiVersion determines the group and version when neither holds `/` |
| Registry.GvkRegsSpec | internal/discovery/discovery.go:231-244 | a GVK entry is registered exactly when it has a version and a non-List kind, under its apiVersion |
| Registry.OpenAPIRegsPick | internal/discovery/discovery.go:222-245 | the registrations of ingestOpenAPI do not depend on the order the schemas are visited |
| Registry.WithDefaults | internal/discovery/discovery.go:276-281 | `type` and `properties` are present, every original member is kept, and nothing else is added |
| Registry.VersionRegsShape | internal/discovery/discovery.go:249-286 | every CRD registration is under `group/name` for the CRD's kind, with the defaults filled in |
| Registry.VersionRegsComplete | internal/discovery/discovery.go:258-284 | every served, named version entry is registered |
| Skeletons.BuildShape | internal/discovery/discovery.go:453-482 | an object keeps exactly its required properties; an array becomes a one-element list of its built items; anything else is null |
| Skeletons.Skeleton | internal/discovery/discovery.go:444-448 | the error is returned exactly when no schema is registered |
| Skeletons.SkeletonBody | internal/discovery/discovery.go:484-488 | the skeleton carries the requested apiVersion and kind |
| Skeletons.SkeletonMetadata | internal/discovery/discovery.go:489-501 | `metadata` holds only `name` and `namespace` as "", each only when required, and is left out when empty |
| Skeletons.SkeletonSpec | internal/discovery/discovery.go:503-512 | with a `spec` map the skeleton has at most apiVersion, kind, metadata and spec, and spec is `{}` exactly when nothing was built |
| Skeletons.SkeletonNoSpec | internal/discovery/discovery.go:513-525 | without a `spec` map the skeleton carries the required top-level properties |
| Sorting.SortSet | internal/mcp/service.go:86-90 | the elements of a set, sorted, each exactly once |
| Sorting.StringOrder | internal/mcp/service.go:90 | string order is a strict total order |
| Sorting.PairOrder | internal/discovery/discovery.go:380-386 | the (apiVersion, kind) order is a strict total order |
| Discovery.FirstSignificant | internal/discovery/discovery.go:174-181 | the first byte above the space, or NUL when there is none |
| Discovery.DocLogsSpec | internal/discovery/discovery.go:188-215 | the per-document logs of a payload correspond one to one with its documents |
| Discovery.DownloadURL | internal/discovery/discovery.go:100-104 | a non-empty `download_url` is used as it is |
| Discovery.Cache.constructor | internal/discovery/discovery.go:50-62 | the default GitHub source, no OpenAPI base and empty valid tables |
| Discovery.Cache.Reset | internal/discovery/discovery.go:66-73 | the tables are empty and the configuration unchanged |
| Discovery.Cache.RegisterSchema | internal/discovery/discovery.go:288-322 | the tables become Register of the old tables |
| Discovery.Cache.IngestOpenAPI | internal/discovery/discovery.go:219-247 | the tables are the fold of a log equal, as a multiset, to every GVK registration of every schema |
| Discovery.Cache.IngestCRD | internal/discovery/discovery.go:249-286 | the tables are the fold of the served, named versions in list order |
| Discovery.Cache.IngestDocs | internal/discovery/discovery.go:172-217 | a JSON payload is one OpenAPI document; YAML documents are dispatched in order, and a decoder error is returned after the earlier ones were ingested |
| Discovery.Cache.IngestDoc | internal/discovery/discovery.go:197-214 | CRDs go to ingestCRD, documents with components.schemas to ingestOpenAPI, and anything else is ignored |
| Discovery.Cache.Refresh | internal/discovery/discovery.go:75-114 | the tables are reset, then hold the optional OpenAPI registrations and those of the YAML files ingested, in order; a failed listing gives `fetch GitHub dir: ` plus its error; otherwise no error exactly when no YAML file fails, and else the error of the first file that fails, `fetch <url>: ` for its download or `ingest <url>: ` for its ingestion, with the files before it ingested (and it too when its download succeeded); the invariant holds |
| Discovery.Cache.IngestListing | internal/discovery/discovery.go:92-112 | each YAML entry of the listing is downloaded and ingested in order; no error exactly when no file fails, otherwise the first failing file's error, after the files before it |
| Discovery.Cache.IngestEntry | internal/discovery/discovery.go:93-111 | a non-YAML entry is skipped without error; a YAML file's error is `fetch <url>: ` plus the download error, or `ingest <url>: ` plus ingestDocs' error, or none, and its registrations follow the earlier files' when it was downloaded |
| Discovery.Cache.Has | internal/discovery/discovery.go:396-401 | true exactly when GetSchema finds a schema |
| Discovery.Cache.GetSchema | internal/discovery/discovery.go:403-407 | the stored schema exactly when the key is registered |
| Discovery.Cache.TopAllowed | internal/discovery/discovery.go:409-413 | present exactly when registered, and then the property names of the schema |
| Discovery.Cache.AllowedSpec | internal/discovery/discovery.go:415-419 | only for registered keys; every entry is a `spec.` path; with a `spec` map it is the collected allow-list of that map |
| Discovery.Cache.ListCRDs | internal/discovery/discovery.go:372-388 | every registered pair exactly once in the output, sorted by apiVersion and then kind |
| Discovery.Cache.Skeleton | internal/discovery/discovery.go:444-532 | succeeds exactly when the pair is registered, with the skeleton of its schema |
| Discovery.YamlEntriesPrefix | internal/discovery/discovery.go:92-99 | the YAML entries of a prefix of the listing are a prefix of its YAML entries |
| Pruning.RemovedKeysPick | internal/mcp/service.go:181-194 | the removals of a map walk do not depend on the order the keys are visited |
| Pruning.PruneIsClean | internal/mcp/service.go:176-202 | after the walk nothing it would delete is left |
| Pruning.CleanUnchanged | internal/mcp/service.go:176-202 | the walk changes nothing in a clean document |
| Pruning.PruneIdempotent | internal/mcp/service.go:176-202 | walking twice is walking once |
| Pruning.PruneIsSubTree | internal/mcp/service.go:176-202 | the walk only deletes map members |
| Pruning.RemovedNone | internal/mcp/service.go:188-192 | the walk records nothing exactly when it deletes nothing |
| Pruning.RemovedSound | internal/mcp/service.go:188-192 | every recorded path starts with `spec.` and is not admitted by the allow-list |
| Pruning.RootKeyKept | internal/mcp/service.go:182-188 | a top-level key that is not under `spec.` is never deleted by the walk |
| Pruning.PruneMetaSettles | internal/mcp/service.go:205-231 | after the metadata step every annotations or labels map is absent, not a map, or non-empty with kept keys only |
| Pruning.SettledFixed | internal/mcp/service.go:205-231 | the metadata step changes and records nothing in a settled document |
| Pruning.PruneTopFixed | internal/mcp/service.go:234-245 | the top-level step changes and records nothing the second time |
| Pruning.PruneMetaSubTree | internal/mcp/service.go:205-231 | the metadata step only deletes map members |
| Pruning.PruneDocSubTree | internal/mcp/service.go:159-252 | the cleaned document is the input with some map members deleted |
| Pruning.PruneDocSpecSound | internal/mcp/service.go:176-202 | every spec path pruneImpl records lies under `spec.` and is not admitted |
| Pruning.PruneDocKnown | internal/mcp/service.go:164-173 | for a known pair, pruneImpl is the three steps in order |
| Pruning.PruneDocIdempotent | internal/mcp/service.go:159-252 | pruning the cleaned document again succeeds, changes nothing and records nothing |
| McpService.ErrorTextLines | internal/mcp/service.go:120-126 | the error text is the header line and then one `- path` line per removed path, in order |
| McpService.IsUnsupportedRemoved | internal/mcp/service.go:255-261 | true together with the paths exactly for an UnsupportedRemoved error |
| McpService.SupportedSurvivesWalk | internal/mcp/service.go:85-92 | a path ListSupported reports from an allow-list is never deleted by the walk |
| McpService.SupportedSurvivesTop | internal/mcp/service.go:93-103 | a top-level key ListSupported reports survives the top-level step |
| McpService.Walk | internal/mcp/service.go:177-200 | the walk leaves PruneTree of the node and records, as a multiset, the Removed paths |
| McpService.WalkMap | internal/mcp/service.go:180-194 | a map is left as PruneMap, with the removals of all its keys |
| McpService.WalkItems | internal/mcp/service.go:195-198 | an array is left as PruneItems, with the removals of all its elements |
| McpService.DeleteUnkept | internal/mcp/service.go:207-212 | only the kept keys stay, and each other key is recorded with its prefix |
| McpService.PruneMetaField | internal/mcp/service.go:206-216 | one annotations or labels map is pruned and removed when emptied |
| McpService.ReportsAll | internal/mcp/service.go:159-252 | pruneImpl fails exactly when the specification fails, with its message; otherwise it gives the same cleaned document and the same removals, spec paths before metadata paths before top-level keys |
| McpService.VerdictRemoved | internal/mcp/service.go:140-146 | a non-empty removal list in spec, metadata, top-level order gives the invalid verdict listing the paths in that order |
| McpService.InGroupsAll | internal/mcp/service.go:111 | a list with the spec paths first, then the metadata paths, then the top-level keys holds every removal, and is empty exactly when nothing is removed |
| McpService.PruneDocParseError | internal/mcp/service.go:160-163 | a parse error becomes `Invalid YAML: ` and the error |
| McpService.Service.constructor | internal/mcp/service.go:22-28 | the given cache and empty annotation and label keep-lists |
| McpService.Service.PruneMetadata | internal/mcp/service.go:204-231 | the metadata step with the service's keep-lists, and its recorded paths |
| McpService.Service.PruneImpl | internal/mcp/service.go:159-252 | the result reports PruneDoc on the cache's tables |
| McpService.Service.PruneSteps | internal/mcp/service.go:175-245 | the three steps' documents and removals, as PruneTop, PruneMeta and Walked |
| McpService.Service.Prune | internal/mcp/service.go:106-116 | a prune error is passed on; success exactly when nothing would be removed; otherwise an UnsupportedRemoved error listing the spec paths first, then the metadata paths and the top-level keys |
| McpService.Service.Validate | internal/mcp/service.go:128-148 | valid exactly when pruning succeeds and removes nothing; otherwise the prune error, or the paths joined with ", " with the spec paths first, then the metadata paths and the top-level keys |
| McpService.Service.RefreshDiscovery | internal/mcp/service.go:150-155 | ok exactly without an error; then the count of registered pairs, otherwise zero |
| McpService.Service.ListCRDs | internal/mcp/service.go:66-68 | every registered pair exactly once, sorted |
| McpService.Service.Skeleton | internal/mcp/service.go:70-79 | an unknown pair is refused with `Unknown apiVersion/kind`; a known one gets its skeleton |
| McpService.Service.ListSupported | internal/mcp/service.go:81-104 | an unknown pair is refused; otherwise the allow-list, or the top-level names other than apiVersion, kind and metadata, each once and sorted |
| McpService.NewServiceDropsAllMeta | internal/mcp/service.go:22-28 | a new service records every annotation and label and leaves no annotations map |
| PyCollect.DictOr | discovery.py:210 | `v or {}` gives a dict exactly for a dict or a falsy value |
| PyCollect.Agrees | discovery.py:203-226 | where the Python walk does not raise, it collects exactly what the Go collectPaths collects |
| PyCollect.UnderSpec | discovery.py:198-201 | every collected spec allow-list entry starts with `spec.` |
| PyRegistry.EmptyInv | discovery.py:120-123 | the cleared tables satisfy the invariant |
| PyRegistry.SpecPathsUnder | discovery.py:198-201 | every path of a spec allow-list starts with `spec.` |
| PyRegistry.RegisterInv | discovery.py:189-201 | `_register_schema` keeps the invariant |
| PyRegistry.RegisterEffect | discovery.py:189-201 | the schema and top-level names are overwritten; the api is listed once; the allow-list is replaced only with a `spec` property; other keys and kinds are unchanged |
| PyRegistry.StaleAllowList | discovery.py:198-201 | an earlier allow-list survives re-registration with a schema without `spec` |
| PyRegistry.RegisterAgrees | discovery.py:189-201 | a normal registration derives the same top-level names and allow-list as the Go registerSchema |
| PyRegistry.FoldInv | discovery.py:189-201 | any run of registrations keeps the invariant |
| PyRegistry.LastWriterWins | discovery.py:190 | a key holds the schema of its last registration, or its earlier one |
| PyIngest.SameKeyRule | discovery.py:155-161 | the GVK key rule is the Go one |
| PyIngest.OpenAPIRegsSchemas | discovery.py:149-162 | every OpenAPI registration is of a schema of components.schemas |
| PyIngest.ServedDefault | discovery.py:173-187 | a version without `served` registers like `served: true`, under `group/name`, with defaults |
| PyIngest.VersionRegsShape | discovery.py:164-187 | every CRD registration is under `group/name` with `type` and `properties` present |
| PyIngest.Dispatch | discovery.py:138-142 | CRD exactly for an apiextensions CRD; a document with components.schemas that is not a CRD goes to the OpenAPI path |
| PyIngest.LStrip | discovery.py:100 | the longest suffix not starting with white space, only white space removed |
| PyIngest.Dicts | discovery.py:108-111 | exactly the dict documents, in order |
| PyIngest.Docs | discovery.py:98-114 | never empty on success; a JSON document when the text starts with a brace or bracket and parses; otherwise the dict YAML documents, and an error exactly when there are none |
| PyDiscovery.DiscoveryCache.constructor | discovery.py:66-70 | empty valid tables |
| PyDiscovery.DiscoveryCache.Clear | discovery.py:120-123 | the tables are empty |
| PyDiscovery.DiscoveryCache.RegisterSchema | discovery.py:189-201 | normal return exactly for a schema that registers; then Register of the old tables; on a raise the schema and api list are written, the top-level names are written when `properties` was a dict, and the allow-list is unchanged |
| PyDiscovery.DiscoveryCache.IngestOpenAPI | discovery.py:149-162 | raises exactly for a malformed schema or GVK; otherwise every GVK registration of every schema, in some order |
| PyDiscovery.DiscoveryCache.IngestCRD | discovery.py:164-187 | raises exactly when CRDRegs does; otherwise its registrations in list order |
| PyDiscovery.DiscoveryCache.IngestDoc | discovery.py:139-142 | the dispatch of one document |
| PyDiscovery.DiscoveryCache.IngestFile | discovery.py:98-114 | the documents of one download, dispatched in order |
| PyDiscovery.DiscoveryCache.IngestEntry | discovery.py:130-142 | a YAML file entry is downloaded and ingested; other entries are skipped |
| PyDiscovery.DiscoveryCache.Refresh | discovery.py:118-145 | the tables are cleared; a failed or non-list listing leaves them empty with its error; on success they are every document's registrations in order, and valid |
| PyServer.Walk | server.py:49-55 | adds exactly WalkPaths to the set, and raises exactly when it does |
| PyServer.WalkProps | server.py:50-53 | the loop over `properties` adds each property path and its walk, and raises exactly when PropsWalk does |
| PyServer.WalkUnderBase | server.py:49-56 | every collected path lies under the base, so under `spec.` |
| PyServer.WalkReadsPropertiesAndItems | server.py:49-55 | no member other than `properties` and `items` changes what the walk collects |
| PyServer.WalkHasProperties | server.py:50-53 | every property of a walked node is collected |
| PyServer.WalkNoWildcards | server.py:49-55 | when no property name below the node is `*` or ends in `.*`, no collected path ends in `.*` |
| PyServer.StarPropertyGivesWildcard | server.py:50-52 | a property named `*` under `spec` yields the entry `spec.*` |
| PyServer.AllRowsWalked | server.py:41-57 | every row the files produce holds the walk of its own spec schema |
| PyServer.TablesNoWildcards | server.py:41-57 | with plain property names in every row, no allow-list of the tables holds an entry ending in `.*` |
| PyServer.RowOf | server.py:41-57 | a version row's paths are what the walk collects from its spec schema |
| PyServer.BuildMaps | server.py:30-58 | fails exactly when reading some file raises; otherwise the tables of all rows in order |
| PyServer.AddVersions | server.py:41-57 | the loop over a file's versions fails exactly when some version row does, otherwise adds the version rows in order |
| PyServer.TabulateTables | server.py:41-57 | kind2api lists one apiVersion per version row of the kind, repeats included; every other entry is from the last row of its key |
| PyServer.RepeatedVersionListedTwice | server.py:43 | the same version in two files is listed twice |
| PyPrune.DropsWhereGoDrops | server.py:98 | whatever the Go walk deletes, the Python walk deletes too |
| PyPrune.DropsAsGo | server.py:98 | without wildcard entries both walks delete the same members |
| PyPrune.WildcardIsLiteral | server.py:98 | an entry `b.*` admits only its own text, unlike the Go walk |
| PyPrune.PrunedWithinGo | server.py:93-107 | the Python walk's tree is the Go walk's tree with possibly more members deleted |
| PyPrune.AgreesWithGo | server.py:93-107 | without wildcard entries the walks leave and record exactly the same |
| PyPrune.BuiltListsAgree | server.py:41-57 | an allow-list `_build_maps` derives from schemas with plain property names has no wildcard entry, so the Python walk leaves and records what the Go walk does |
| PyPrune.PrunedIsClean | server.py:93-105 | nothing the walk would delete is left after it |
| PyPrune.CleanUnchanged | server.py:93-105 | a document with nothing to delete is left unchanged |
| PyPrune.PrunedIsSubTree | server.py:93-105 | the walk only deletes map members |
| PyPrune.PrunedIdempotent | server.py:93-105 | walking twice is walking once, for any allow-list |
| PyPrune.StrippedClean | server.py:93-105 | nothing is recorded exactly when nothing below the node is deletable |
| PyPrune.StrippedNone | server.py:93-105 | nothing is recorded exactly when the walk leaves the node unchanged |
| PyPrune.Walk | server.py:93-105 | the walk leaves Pruned of the node and records, as a multiset, the Stripped paths |
| PyPrune.WalkMap | server.py:94-102 | a dict is left as PrunedMap, with the removals of all its keys |
| PyPrune.WalkItems | server.py:103-105 | a list is left as PrunedItems, with the removals of all its elements |
| PyPrune.PruneMetadata | server.py:110-132 | the metadata block as the Go metadata step with empty keep-lists |
| PyPrune.Show | server.py:87 | strings, None, booleans and integers rendered as `str()` renders them |
| PyPrune.Prune | server.py:77-141 | the result reports PruneSpec: the same failure, or the cleaned document and its removals |
| PyPrune.StrippedSound | server.py:98-100 | every recorded path starts with `spec.` and is missing from the allow-list |
| PyPrune.OutsideSpec | server.py:93-105 | nothing below a path not starting with `s`, such as `metadata`, is touched or recorded |
| PyPrune.RefusedWith400 | server.py:85-87 | an unknown pair of strings is refused with 400 and `api/kind is not an allowed CRD` |
| PyPrune.MissingApiVersion | server.py:85-87 | a missing apiVersion shows as `None` in the message |
| PyPrune.PruneSpecKeys | server.py:134-138 | only apiVersion, kind, metadata and spec remain at the top, and spec removals are sound |
| PyPrune.PruneSpecMeta | server.py:109-132 | every annotation and label is recorded, and no annotations or labels map is left |
| PyPrune.MessageAsGo | server.py:212-214 | the 422 detail is the text of the Go UnsupportedRemoved error |
| PyPrune.PruneEndpoint | server.py:208-215 | the failure of the prune; the cleaned document exactly when nothing was removed; otherwise 422 listing `bad_spec + bad_meta`: the spec paths, then the metadata paths and the top-level keys |
| PyPrune.ReportsAll | server.py:77-141 | a prune fails exactly as its specification does, otherwise with the same document and the same removals, spec paths first |
| PySkeleton.BuildShape | server.py:158-167 | an object keeps exactly its required properties; an array gives a one-element list; anything else gives None |
| PySkeleton.BuildAsGo | server.py:158-167 | where the build does not raise and every `required` is a plain list, it builds what the Go builder builds |
| PySkeleton.MakeSkeleton | server.py:155-174 | exactly apiVersion, kind and spec; spec is the build, or `{}` when the build is falsy |
| PySkeleton.SkeletonSpecCases | server.py:169-173 | an object schema without required members or a scalar schema gives `spec: {}`; an array gives a one-element list |
| PySkeleton.SkeletonCrd | server.py:194-199 | 400 exactly for an unknown key; otherwise the skeleton |
| PySkeleton.ListCrds | server.py:190-192 | every key of the table exactly once, sorted |
| PySkeleton.ListSupported | server.py:201-206 | 400 exactly for an unknown key; otherwise its allow-list, each path once, sorted |
| ApiClient.TrimShape | internal/api/client.go:300-347 | a trimmed map holds only structural keys, with `type` and `required` unchanged and a map `properties` kept with the same names; a list is trimmed element-wise; a scalar is unchanged |
| ApiClient.TrimIdempotent | internal/api/client.go:300-347 | trimming twice is trimming once |
| ApiClient.TrimToStructure | internal/api/client.go:300-347 | the method computes Trimmed of its input |
| ApiClient.TrimMap | internal/api/client.go:302-340 | a map becomes its kept members, trimmed |
| ApiClient.CompositionKept | internal/api/client.go:333-339 | a composition keyword is kept exactly when it holds a list, and is then trimmed element-wise |
| ApiClient.TrimElements | internal/api/client.go:341-346 | a list is trimmed element by element, in order |
| ApiClient.GetIndexComponentRel | internal/api/client.go:371-389 | found exactly when IndexRel finds a URL, which is then non-empty; "" otherwise |
| ApiClient.IndexRelCases | internal/api/client.go:371-389 | the entry under the key is tried before the one under `/key`, and `serverRelativeURL` before `url` |
| ApiClient.GroupVersions | internal/api/client.go:200-240 | the map holds exactly the group and version pairs the index keys contribute |
| ApiClient.KeyGVParts | internal/api/client.go:206-215 | an `apis/g/v` key with `/`-free parts parses to (g, v) |
| ApiClient.ComponentKeyParses | internal/api/client.go:140 | the component key of a group and version parses back to the dot-trimmed group and version |
| ApiClient.FilterResources | internal/api/client.go:252-263 | the kept resources of the list, in order |
| ApiClient.KeptResourcesExactly | internal/api/client.go:254-262 | exactly the resources with a name without `/` and a kind are kept, in order |
| ApiClient.FilterByKind | internal/api/client.go:155-177 | a blank kind or no matching schema gives the whole document; otherwise some matching schema of components.schemas |
| ApiClient.FirstMatch | internal/api/client.go:162-171 | true exactly when some GVK entry of the schema matches |
| ApiClient.ListGVK | internal/api/client.go:26-27 | same group and version; the kind is the object kind with `List` appended |
| ApiClient.ListKindNotRegistered | internal/api/client.go:27 | the list GVK is never registered by the schema cache |
| AuthUtil.DeriveAPIHostname | internal/authutil/authutil.go:111-119 | success exactly for an `auth.` hostname, giving `api.` and the same rest; the two error messages otherwise |
| AuthUtil.DeriveRoundTrip | internal/authutil/authutil.go:111-119 | `auth.x` derives `api.x`, and the auth hostname is recovered from it |
| AuthUtil.APIHostname | internal/authutil/authutil.go:100-109 | a stored API hostname wins, otherwise it is derived; a successful result is non-empty |
| AuthUtil.APIHostnameCases | internal/authutil/authutil.go:100-109 | a successful result is the stored hostname or `api.` followed by the rest of the auth hostname |
| Auth.GetenvDefault | internal/auth/login.go:74-79 | the variable's value when it is set and non-empty, and the default exactly when it is unset or empty |
| Auth.DefaultHostnames | internal/auth/login.go:55-59 | a never-empty auth hostname, `auth.datum.net` by default, and the API hostname as set |
| Auth.ResolveClientID | internal/auth/login.go:61-72 | an explicit client ID, then the staging ID, then the production ID, else the error; success is non-empty |
| Auth.StagingIsDatum | internal/auth/login.go:65-69 | every staging hostname also ends in `.datum.net`, so the staging test must come first |
| Auth.LoginTargetOf | internal/auth/login.go:82-102 | the auth hostname, its client ID, and DATUM_API_HOSTNAME when set or else the hostname derived from the auth hostname; Ok exactly when the client ID resolves and an API hostname is set or derivable; a client ID error is returned as it is, a derive error with the prefix `failed to derive API hostname: ` |
| Auth.DefaultLoginTarget | internal/auth/login.go:82-102 | with nothing set, login targets `auth.datum.net`, the production ID and `api.datum.net` |
| Auth.DerivedLoginTarget | internal/auth/login.go:82-102 | with only an `auth.X` hostname under `datum.net` set, login uses the staging or production ID by suffix and `api.X` |
| Auth.GetenvBool | internal/auth/ensure.go:68-78 | the two spelling lists give true and false; anything else gives the default |
| Auth.GetenvBoolDefaults | internal/auth/ensure.go:68-78 | an unset variable or `True` leaves the default |
| Auth.EnsureAuthSpec | internal/auth/ensure.go:22-66 | a successful reply is non-empty; an error leaves the cache unchanged; a changed cache holds the returned token, which is a non-empty token from the keyring or from after login, with that token's own expiry, or five minutes after the stamp when it has none |
| Auth.KeyringTokenCached | internal/auth/ensure.go:31-45 | without DATUM_TOKEN and a valid cache, a non-empty keyring token is returned and cached with its own expiry, or five minutes after the stamp, whatever the login flow would do |
| Auth.LoginFallback | internal/auth/ensure.go:46-64 | without DATUM_TOKEN, a valid cache or a keyring token: the login error is returned as it is; after a successful login a non-empty token is returned and cached with its expiry or five minutes after the stamp; a missing token source or token gives the two `after login` errors with the cache unchanged |
| Auth.Precedence | internal/auth/ensure.go:22-45 | DATUM_TOKEN wins without touching the cache; a valid cached token comes next; only then is a token source asked |
| Auth.FetchedTokenIsReused | internal/auth/ensure.go:28-43 | a fetched token is returned again by a later call within its lifetime |
| Auth.ZeroExpiryFiveMinutes | internal/auth/ensure.go:40-41 | a fetched token without expiry, from the keyring or after login, is cached valid until five minutes after the stamp, exclusive |
| Auth.TokenCache.constructor | internal/auth/ensure.go:12-13 | an empty token and the zero expiry |
| Auth.TokenCache.EnsureAuth | internal/auth/ensure.go:22-66 | the reply and the new cache are those of EnsureAuthSpec on the old cache |
| Transport.Prefixed | internal/api/transport.go:19-22 | a path with the base is unchanged; otherwise the trimmed base, one `/`, and the path without leading `/` |
| Transport.PrefixedIdempotent | internal/api/transport.go:19-22 | with at most one trailing `/` on the base, the result starts with the base and a second rewrite changes nothing |
| Transport.DoubleSlashBaseNotIdempotent | internal/api/transport.go:19-22 | with base `/a//`, `x` becomes `/a/x` and then `/a/a/x` |
| Transport.PrefixRoundTripper.RoundTrip | internal/api/transport.go:19-24 | the request's path is rewritten in place, nothing else of it changes, and the same request is forwarded |

## Left out

- Network and file I/O are parameters or are not modelled. This covers HTTP fetches, the GitHub listing, downloads, the control-plane OpenAPI fetch (fetchAndIngestOpenAPI), the kubeconform call (`_validate` and the validate_crd endpoint), `_load_examples` and list_examples, and reading the schema directory. `Refresh` receives what the fetches returned.
- YAML and JSON parsing and serialisation are not modelled. Tools receive the parse result, and return the cleaned or skeleton tree rather than its YAML text.
- Mutexes and concurrency are not modelled. Each cache method is one atomic step.
- The model lets Go maps and Python dicts iterate in any order; Python's insertion order is not modelled. Within each group of removed paths (spec, metadata, top level) the order is therefore left open, and so is the kept schema of FilterByKind; the order of the groups themselves is stated.
- Values are trees. YAML anchors and aliases that share one dict are not modelled, and neither is in-place mutation seen through such an alias. This includes the CRD defaults written into the schema by `_ingest_crd`.
- Numbers are integers; floats are not modelled, so PyPrune.Show does not render them.
- Strings.EqualFoldAscii: only ASCII case folding, whereas strings.EqualFold folds Unicode.
- Strings.TrimSpace: white space restricted to the Latin-1 range.
- PyIngest.LStrip: white space restricted to the Latin-1 range.
- Python GVK and CRD fields that are not strings, which Python would render with `str()` (a `version: 1` registers under `g/1`), are treated as if Python raised (PyIngest.GvkKeyOf, PyIngest.VersionRegOf, PyServer.RowOf).
- After a Python exception the model states whether it occurs. It gives the tables after one only where cheap: PyDiscovery.DiscoveryCache.RegisterSchema gives all four; the ingestion methods do not.
- The registerSchema allow-list is not removed when a key is re-registered with a schema lacking `spec`. The model follows the code (Registry.StaleAllowList): registerSchema writes the allow-list only when the new schema's `spec` property is a map.
- The deep copy of GetSchema is the identity on values.
- ApiClient: resolveGVKs' REST mapper, the HTTP parts of GetResourceDefinition and ListResourceDefinitions, the step 2 loop over group versions, and assignJSON are not modelled. CRUD helpers such as FetchObject and CreateObject call a Kubernetes client and are left out.
- Transport: the authRoundTripper (bearer header, and one retry after a new login on a 401 or 403 status or on a non-2xx body naming `Errors.OIDCSession.RefreshTokenInvalid`) wraps HTTP calls and is left out.
- Auth: RunLoginFlow's OIDC, PKCE, browser and keyring steps are left out. So are GetTokenSource and the keyring reads behind GetActiveCredentials; the credentials and the token fetches are parameters.
- Auth.EnsureAuthSpec: the two `time.Now()` reads are the `now` and `stamp` parameters.
- Auth.EnsureAuthSpec: the DATUM_VERBOSE flag passed to the login flow does not affect the decision.
- Auth.EnsureAuthSpec: a nil token source after a successful login would make Go panic. It is not modelled, because the source never returns one without an error.
- Python's `_IDX` pattern `\[\d+]` is a `re` pattern whose `\d` matches any Unicode decimal digit; the model strips only ASCII digits in brackets (Paths.StripIndices, as Go's RE2 does), so a path with a non-ASCII digit index is stripped differently.
- Python's prune walk compares with plain set membership (PyPrune.WildcardIsLiteral). Its allow-lists from `_build_maps` hold no `.*` entry as long as no property name in a version's spec schema is `*` or ends in `.*` (PyServer.TablesNoWildcards), and then PyPrune.AgreesWithGo applies to them (PyPrune.BuiltListsAgree). A property named `*` yields the entry `spec.*` (PyServer.StarPropertyGivesWildcard), which the Python walk takes literally where Go would read it as a wildcard.
