# Argo CD project restrictions and ApplicationSet listing, in Dafny

This project models two pieces of Argo CD.

**Project authorization with `restrictedBy`.** An AppProject may be restricted
by other projects, named in its `restrictedBy` list. Those projects may be
restricted in turn. A resource, destination or source repository is
permitted for a project only when the project itself and every project that
transitively restricts it permit it. The model has three layers.

- `Glob` is the pattern language of the project lists: `*` matches any run of
  characters, every other character matches itself, and the whole value must
  match.
- `Projects` holds the project record and the rules one project applies on its
  own:
  - namespace blacklist and whitelist;
  - cluster whitelist and blacklist;
  - destinations;
  - source repositories.
- `Restriction` is the walker `checkRestrictedBy`. It is a queue-and-visited-set
  loop over the projects reachable through `restrictedBy`. It never fetches the
  root, fetches every other project at most once (cycles included), ANDs a
  per-project check over them, and stops at the first denial or error.
  - Its contract is stated against `Reachable`: membership in every set of names
    closed under `restrictedBy`.
  - A ghost trace of the fetched names records the order the walk fetches and
    checks projects.
- `Authorization` holds the four composite decisions of `AppProject`:
  `IsGroupKindPermitted`, `IsDestinationPermitted`, `IsSourcePermitted` and
  `IsResourcePermitted`.
- `Scenarios` and `WalkerScenarios` replay the project hierarchies of
  `app_projects_types_test.go` and prove the answers those tests expect.

The project store is a map from project name to project. A lookup of a missing
name fails with `NotFound`. The per-project check of the walker is a function
parameter that answers a verdict or an error.

The implementation file `app_projects_types.go` is not part of this model. The
rules are modelled from the behaviour its tests fix, and where the tests leave a
rule open the model makes a choice, listed under "Left out". For source
repositories one test settles the order of the two checks: at
`app_projects_types_test.go:403-409` the root's own `dev-org/*` pattern rejects
the `other-org` URL, and its chain names a project that does not exist, yet the
test expects an error rather than a plain denial. So for sources the walk of the
restricting projects runs whatever the root's own verdict is, and its error wins
(`Scenarios.SourceBrokenChain`). The model gives the other three decisions the
same shape.

**ApplicationSet server** (`server/applicationset/applicationset.go`):
- `filterByName`: a linear search for the first item with a given name.
- The body of `List`: keep the items the RBAC enforcer lets the caller get,
  narrow them by name when a name is queried, and sort them in place by name.
- The guards of `validateAppSet`: a nil ApplicationSet, a templated project
  name, the project lookup and the generator check.

The enforcer, the project client and the generator check are parameters.

## Model

| member | source | states |
|---|---|---|
| Glob.Match | pkg/apis/application/v1alpha1/app_projects_types_test.go:222-235 | the anchored glob match used by every project list: `*` matches any run of characters, every other character itself, and the whole value must be consumed |
| Glob.StarMatchesAnything | pkg/apis/application/v1alpha1/app_projects_types_test.go:287-289 | the pattern `*` matches every value, the empty one included |
| Glob.LiteralMatchIsEquality | pkg/apis/application/v1alpha1/app_projects_types_test.go:223-225 | a pattern without `*` matches a value exactly when the two are equal |
| Glob.PrefixPatternMatchesPrefixes | pkg/apis/application/v1alpha1/app_projects_types_test.go:298-309 | `prefix*` (literal prefix) matches exactly the values that start with the prefix |
| Glob.PatternMatchesItself | pkg/apis/application/v1alpha1/app_projects_types_test.go:223-235 | every pattern, wildcards included, matches its own text |
| Glob.LiteralPrefixConsumed | pkg/apis/application/v1alpha1/app_projects_types_test.go:354-377 | a shared literal prefix can be stripped from pattern and value without changing the verdict |
| Glob.WildcardSkips | pkg/apis/application/v1alpha1/app_projects_types_test.go:365-367 | a leading `*` can absorb any prefix of the value before the rest of the pattern matches |
| Projects.GetProject | pkg/apis/application/v1alpha1/app_projects_types_test.go:240-247 | the project lookup: the stored project of that name, or NotFound naming it |
| Projects.ResourceInList | pkg/apis/application/v1alpha1/app_projects_types_test.go:222-235 | a group/kind is listed when one entry matches both its group and its kind |
| Projects.LocalGroupKindPermitted | pkg/apis/application/v1alpha1/app_projects_types_test.go:222-235 | a blacklist hit denies in either scope; a namespaced kind is allowed exactly when it is off the namespace blacklist and, when a namespace whitelist is set, on it; a cluster-scoped kind is allowed exactly when it is on the cluster whitelist and off the cluster blacklist, so an empty cluster whitelist denies everything; the tests exercise neither whitelist being set for a namespaced kind, nor the cluster blacklist, nor an empty cluster whitelist |
| Projects.DestinationMatches | pkg/apis/application/v1alpha1/app_projects_types_test.go:286-309 | one destination entry admits a destination whose namespace matches and whose cluster is named by a matching non-empty server or name; a destination naming no cluster is never admitted, a case the tests do not exercise |
| Projects.LocalDestinationPermitted | pkg/apis/application/v1alpha1/app_projects_types_test.go:286-309 | a project with no destinations admits none; an admitted destination names a server or a cluster, a requirement the tests do not exercise |
| Projects.LocalSourcePermitted | pkg/apis/application/v1alpha1/app_projects_types_test.go:354-377 | a project with no source repositories admits none; one listing `*` admits every URL |
| Projects.WildcardDestinationAdmitsAll | pkg/apis/application/v1alpha1/app_projects_types_test.go:287-289 | the all-`*` destination entry admits every destination that names a server or a cluster |
| Restriction.CheckRestrictedBy | pkg/apis/application/v1alpha1/app_projects_types_test.go:13-203 | permitted exactly when every project restricting the root is found and passes the check; permitted implies no error; an error is the outcome of some restricting project, and none arises when every restricting project resolves; the root is never fetched and no name twice; every fetched project but the last passed; a denial stops at the failing project; on success every restricting project was fetched; the root's first listed name is fetched first, unless it is the root's own name |
| Restriction.RootIsNotReachable | pkg/apis/application/v1alpha1/app_projects_types_test.go:78-112 | the root never counts among the projects restricting it, even when a cycle or its own list leads back to it |
| Restriction.ListedByRootIsReachable | pkg/apis/application/v1alpha1/app_projects_types_test.go:29-49 | every other name the root lists restricts it |
| Restriction.ListedByReachableAreReachable | pkg/apis/application/v1alpha1/app_projects_types_test.go:113-140 | restriction is transitive: names listed by a stored restricting project restrict the root too, the root excepted |
| Authorization.CheckChain | pkg/apis/application/v1alpha1/app_projects_types_test.go:267-273 | permitted exactly when the rule holds for the root and for every restricting project, all of which exist; an error names a missing restricting project; no error when every restricting project exists; a missing first-listed parent, or a missing restricting project with no refusal elsewhere, gives a denial with an error |
| Authorization.IsGroupKindPermitted | pkg/apis/application/v1alpha1/app_projects_types_test.go:206-275 | permitted exactly when the root and every restricting project admit the group/kind in the given scope; the error contract of the chain walk |
| Authorization.IsDestinationPermitted | pkg/apis/application/v1alpha1/app_projects_types_test.go:277-343 | permitted exactly when the root and every restricting project admit the destination; the error contract of the chain walk |
| Authorization.IsSourcePermitted | pkg/apis/application/v1alpha1/app_projects_types_test.go:345-411 | permitted exactly when the root and every restricting project admit the repository URL; the error contract of the chain walk |
| Authorization.IsResourcePermitted | pkg/apis/application/v1alpha1/app_projects_types_test.go:478-502 | with an empty namespace, equal to the cluster-scoped group/kind decision, whatever the destination; otherwise the AND of the namespaced group/kind decision and the destination decision with the resource's namespace substituted; lookup errors as for the chain walk |
| Scenarios.ThreeLevelChain | pkg/apis/application/v1alpha1/app_projects_types_test.go:208-238 | with root restricted by `b` and `b` by `c`, exactly `b` and `c` restrict the root, and both resolve |
| Scenarios.ConfigMapBlockedByParent | pkg/apis/application/v1alpha1/app_projects_types_test.go:249-253 | `b`'s blacklist makes ConfigMap fail for the chain |
| Scenarios.ServiceAccountBlockedByGrandparent | pkg/apis/application/v1alpha1/app_projects_types_test.go:255-259 | `c`'s blacklist makes ServiceAccount fail for the chain |
| Scenarios.PodNotBlocked | pkg/apis/application/v1alpha1/app_projects_types_test.go:261-265 | Pod passes every project of the chain |
| Scenarios.GroupKindTable | pkg/apis/application/v1alpha1/app_projects_types_test.go:249-265 | among ConfigMap, ServiceAccount and Pod, only Pod is permitted, and no error arises |
| Scenarios.GroupKindBrokenChain | pkg/apis/application/v1alpha1/app_projects_types_test.go:267-273 | a root restricted by a missing project gets a denial with the NotFound error |
| Scenarios.DevPatterns | pkg/apis/application/v1alpha1/app_projects_types_test.go:298-309 | `dev-usw2-*` admits exactly the names starting with `dev-usw2-`, and `dev-*` exactly those starting with `dev-` |
| Scenarios.Usw2AllowedByWholeChain | pkg/apis/application/v1alpha1/app_projects_types_test.go:329-333 | the usw2 cluster and namespace pass the root, `b` and `c` |
| Scenarios.Use2BlockedByParent | pkg/apis/application/v1alpha1/app_projects_types_test.go:323-327 | `b` rejects the use2 cluster and namespace |
| Scenarios.DestinationTable | pkg/apis/application/v1alpha1/app_projects_types_test.go:323-333 | of the two destinations only the usw2 one is permitted, without error |
| Scenarios.DestinationBrokenChain | pkg/apis/application/v1alpha1/app_projects_types_test.go:335-341 | a missing restricting project gives a denial with an error |
| Scenarios.DevOrgPatternAdmits | pkg/apis/application/v1alpha1/app_projects_types_test.go:354-356 | the root's `dev-org/*` admits the dev-org deployment repository |
| Scenarios.DeploymentPatternAdmits | pkg/apis/application/v1alpha1/app_projects_types_test.go:365-367 | `b`'s `dev-org/*-deployment.git` admits it |
| Scenarios.AnyOrgPatternAdmits | pkg/apis/application/v1alpha1/app_projects_types_test.go:375-377 | `c`'s `*/*` admits it |
| Scenarios.OtherOrgRejectedByDevOrgPattern | pkg/apis/application/v1alpha1/app_projects_types_test.go:397-401 | the root's own pattern rejects the other-org repository |
| Scenarios.SourceTable | pkg/apis/application/v1alpha1/app_projects_types_test.go:391-401 | the dev-org repository is permitted and the other-org one denied, both without error |
| Scenarios.SourceBrokenChain | pkg/apis/application/v1alpha1/app_projects_types_test.go:403-409 | even though the root itself rejects the URL, a missing restricting project makes the answer an error |
| Scenarios.NamespacedKindsByChain | pkg/apis/application/v1alpha1/app_projects_types_test.go:430-445 | as a namespaced kind Pod passes the chain and ConfigMap does not |
| Scenarios.ClusterKindsByChain | pkg/apis/application/v1alpha1/app_projects_types_test.go:423-458 | as a cluster-scoped kind Pod passes every cluster whitelist of the chain and ConfigMap fails `b`'s |
| Scenarios.AnyWhitelistAdmits | pkg/apis/application/v1alpha1/app_projects_types_test.go:423-425 | a `*`/`*` cluster whitelist without blacklist admits every kind |
| Scenarios.PodWhitelistDecides | pkg/apis/application/v1alpha1/app_projects_types_test.go:442-444 | a cluster whitelist holding only Pod admits Pod and refuses ConfigMap |
| Scenarios.ResourceDestinationsByChain | pkg/apis/application/v1alpha1/app_projects_types_test.go:420-455 | among the usw2/use2 clusters and namespaces only the usw2 pair passes the chain |
| Scenarios.NamespacedResourceTable | pkg/apis/application/v1alpha1/app_projects_types_test.go:488-493 | a namespaced resource is permitted exactly when kind, namespace and cluster are all the allowed ones, without error |
| Scenarios.ClusterResourceTable | pkg/apis/application/v1alpha1/app_projects_types_test.go:495-502 | a cluster-scoped resource is decided by its kind alone, whatever the cluster |
| Scenarios.ResourceBrokenChain | pkg/apis/application/v1alpha1/app_projects_types_test.go:505-513 | a missing restricting project gives a denial with an error |
| Scenarios.FlatChain | pkg/apis/application/v1alpha1/app_projects_types_test.go:564-570 | a root restricted by three unrestricted projects has exactly those three as ancestors |
| Scenarios.ComposedKindsByChain | pkg/apis/application/v1alpha1/app_projects_types_test.go:523-528 | `no-configmaps` denies ConfigMap and lets Pod through |
| Scenarios.DevClusterEntryDecides | pkg/apis/application/v1alpha1/app_projects_types_test.go:538-540 | `dev-clusters-only` admits the dev cluster and refuses the prod one |
| Scenarios.DevNamespaceEntryDecides | pkg/apis/application/v1alpha1/app_projects_types_test.go:548-550 | `dev-namespaces-only` admits the dev namespace and refuses the prod one |
| Scenarios.ComposedDestinationsByChain | pkg/apis/application/v1alpha1/app_projects_types_test.go:516-571 | only the dev destination passes all four projects |
| Scenarios.ComposedTable | pkg/apis/application/v1alpha1/app_projects_types_test.go:586-597 | a resource passes exactly when its kind is Pod and its destination is the dev one, without error |
| WalkerScenarios.DistinctCoversSet | pkg/apis/application/v1alpha1/app_projects_types_test.go:156 | a duplicate-free trace holding exactly the elements of a set is as long as the set is large |
| WalkerScenarios.NoParents | pkg/apis/application/v1alpha1/app_projects_types_test.go:14-28 | with no restrictions, or only the root's own name, the walk permits and fetches nothing, whatever the store and check |
| WalkerScenarios.OneParent | pkg/apis/application/v1alpha1/app_projects_types_test.go:29-49 | with a single parent the answer is that parent's verdict, without error, after fetching only the parent |
| WalkerScenarios.MissingParent | pkg/apis/application/v1alpha1/app_projects_types_test.go:50-63 | a parent that cannot be fetched gives a denial carrying the lookup error |
| WalkerScenarios.FailingCheck | pkg/apis/application/v1alpha1/app_projects_types_test.go:64-77 | a parent whose check fails gives a denial carrying that error |
| WalkerScenarios.Loop | pkg/apis/application/v1alpha1/app_projects_types_test.go:78-97 | on `a` → `b` → `a` the walk permits after fetching `b` alone |
| WalkerScenarios.TreeAncestors | pkg/apis/application/v1alpha1/app_projects_types_test.go:113-140 | the projects restricting `a` in the tree are exactly `b` to `g`, with or without the `g` → `c` edge |
| WalkerScenarios.WholeTree | pkg/apis/application/v1alpha1/app_projects_types_test.go:141-202 | the walk permits after fetching exactly the projects other than the root, each once, even when `c` is reachable twice; the number of fetches is the number of projects minus one |
| ApplicationSets.FilterByName | server/applicationset/applicationset.go:113-125 | an empty name returns the input untouched; otherwise no error exactly when some item has the name, and then the answer is the first such item alone; failing, an empty list and NotFound |
| ApplicationSets.Permitted | server/applicationset/applicationset.go:85-90 | the enforcer filter as a function: no longer than its input, and every item it keeps is an input item the enforcer accepts |
| ApplicationSets.KeepPermitted | server/applicationset/applicationset.go:85-90 | the enforcer loop yields the accepted items in their original order |
| ApplicationSets.PermittedKeepsAccepted | server/applicationset/applicationset.go:85-90 | the kept items are exactly the accepted ones, each as often as in the input, and nothing the enforcer refuses |
| ApplicationSets.Less | server/applicationset/applicationset.go:100-102 | the `<` on names that the sort compares with: lexicographic, a proper prefix first |
| ApplicationSets.LessAsymmetric | server/applicationset/applicationset.go:99-102 | the name order never puts two names before each other |
| ApplicationSets.LessTransitive | server/applicationset/applicationset.go:99-102 | the name order is transitive |
| ApplicationSets.LessTotal | server/applicationset/applicationset.go:99-102 | any two different names are ordered one way or the other |
| ApplicationSets.InOrderTransitive | server/applicationset/applicationset.go:99-102 | "sorts no later than" is transitive |
| ApplicationSets.SortByName | server/applicationset/applicationset.go:99-102 | afterwards the array is sorted by name and holds the same items as before |
| ApplicationSets.InsertLast | server/applicationset/applicationset.go:99-102 | inserting the next item keeps the sorted prefix sorted, the items unchanged as a multiset, and the rest of the array untouched |
| ApplicationSets.FirstNamed | server/applicationset/applicationset.go:117-124 | the name lookup of the list: a success is a single input item carrying the name |
| ApplicationSets.FirstNamedIsFirst | server/applicationset/applicationset.go:117-124 | the name lookup succeeds exactly when some item has the name, returns the first such item, and otherwise fails with the wrapped NotFound |
| ApplicationSets.List | server/applicationset/applicationset.go:85-108 | fails exactly when a name is queried and no permitted item has it, with the wrapped NotFound; otherwise the answer is sorted by name and a permutation of the selected items |
| ApplicationSets.ListedItemsArePermitted | server/applicationset/applicationset.go:85-108 | a successful answer holds only input items the enforcer accepts; without a name it holds all of them; with a name, exactly one item of that name |
| ApplicationSets.ValidateAppSetAsWritten | server/applicationset/applicationset.go:182-203 | as written: a nil ApplicationSet is refused; every other one, templated project names included, succeeds exactly when its project is stored and its generators pass, and then the stored project is returned |
| ApplicationSets.AsWrittenGuardNeverFires | server/applicationset/applicationset.go:189-191 | no project name starts with both `{{` and `}}`, so the written template guard never fires |
| ApplicationSets.TemplatedProjectPassesAsWritten | server/applicationset/applicationset.go:189-191 | the templated name `{{project}}` passes the written guard and is validated like any other |
| ApplicationSets.ValidateAppSet | server/applicationset/applicationset.go:182-203 | a nil ApplicationSet and a templated project are refused; success exactly when the project is not templated, exists and its generators pass, and then the stored project is returned |
| ApplicationSets.ValidationDiffersOnlyOnTemplates | server/applicationset/applicationset.go:189-191 | the corrected and the written validation agree on every ApplicationSet whose project is not templated |

## Left out

- `app_projects_types.go`, which implements the authorization rules, is not part of this model. The rules follow its tests where they fix them.
- Authorization.IsGroupKindPermitted, Authorization.IsDestinationPermitted and Authorization.IsResourcePermitted: no test has a root that refuses on its own while its chain is broken (in the broken-chain tests at `app_projects_types_test.go:267-273`, `335-341` and `509-513` the root admits the value). The model applies to them the order test 403-409 fixes for sources: the walk runs first, and a lookup error beats the root's own refusal.
- Four local rules are exercised by no test in `app_projects_types_test.go`, so each is a modelling choice:
  - a set namespace whitelist must be matched by a namespaced kind (the tests never set `NamespaceResourceWhitelist`);
  - a cluster blacklist hit denies a cluster-scoped kind (the tests never set `ClusterResourceBlacklist`);
  - an empty cluster whitelist denies every cluster-scoped kind (every fixture checked with a cluster-scoped kind sets a whitelist);
  - a destination that names neither a server nor a cluster is refused by every entry (every destination the tests pass names a cluster).
- Project lookups fail only because a name is absent. The test at `app_projects_types_test.go:50-63` makes the lookup return an arbitrary error; the model stands for it with a missing project and its NotFound error.
- Error texts and `%w` wrapping are not modelled. Errors are datatype values, with `Filtering` standing for the wrap in `List`.
- Glob syntax beyond `*` and literal characters (`?`, character classes, path separators) is not modelled; the tests use nothing else.
- A nil namespace whitelist and an empty one are the same here: both mean "no whitelist".
- Project records are values. Pointer aliasing in the test fixtures is not modelled. The tests later set a project's `RestrictedBy` to a missing name; the model passes an updated copy of that project instead.
- `List` reads its ApplicationSets from a list pointer that is never assigned, because the fetch and the label selector are commented out. The model takes the fetched items as a parameter.
- The RBAC enforcer (`Enforce`, `EnforceErr`) is a predicate parameter of `List`. `checkCreatePermissions` is not modelled.
- `Create` is not modelled: it runs a `kubectl apply` subprocess, unmarshals JSON and dereferences a nil command. `Get`, `Update` and `Delete` are empty stubs.
- The AppProject client `Get` is a map parameter of the validation. `CheckInvalidGenerators` is a function parameter.
- `projectLock` is a concurrency primitive and is not modelled.
- ApplicationSets.SortByName: `sort.Slice` is not stable. The model sorts by insertion, and its contract fixes only sortedness and the multiset of items, not the order of items with equal names.
- Go compares strings byte by byte. The model compares code points, which gives the same order on well-formed UTF-8.
- The CLI commands, the web UI request layer, the plugin service client and the ApplicationSet manifest reader are outside this model. They are command wiring, printing, HTTP and file I/O.

## Findings

| source | as written | input that shows it | evidently intended | confidence | as-written member | corrected member |
|---|---|---|---|---|---|---|
| server/applicationset/applicationset.go:189-191 | the template guard tests `HasPrefix(name, "{{") && HasPrefix(name, "}}")`, which no name satisfies | an ApplicationSet whose project is `{{project}}` passes the guard and goes on to the project lookup | refuse a project name that starts with `{{` and ends with `}}` (`HasSuffix` for the second test) | high, not executed | ApplicationSets.ValidateAppSetAsWritten (shown by ApplicationSets.TemplatedProjectPassesAsWritten) | ApplicationSets.ValidateAppSet |
