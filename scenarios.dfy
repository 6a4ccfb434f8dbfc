/**
 * The project hierarchies of the authorization tests
 * (pkg/apis/application/v1alpha1/app_projects_types_test.go) and what the
 * model decides for them.
 */
module Scenarios {
  import opened Wrappers
  import opened Glob
  import opened Projects
  import opened Restriction
  import opened Authorization

  /** A project with the given name and restrictions and empty rule lists. */
  function Bare(name: string, restrictedBy: seq<string>): Project {
    Project(name, restrictedBy, [], [], [], [], [], [])
  }

  /** With `root` restricted by `b` and `b` by `c`, exactly `b` and `c` restrict `root`. */
  lemma ThreeLevelChain(root: Project, store: Store)
    requires root.name == "root" && root.restrictedBy == ["b"]
    requires "b" in store && store["b"].restrictedBy == ["c"]
    requires "c" in store && store["c"].restrictedBy == []
    ensures forall n :: Reachable(root, store, n) <==> n == "b" || n == "c"
    ensures ChainResolves(root, store)
  {
    ListedByRootIsReachable(root, store, "b");
    ListedByReachableAreReachable(root, store, "b");
    assert Closed(root, store, {"b", "c"});
  }

  // ---------------------------------------------------------------------------
  // Group/kind: `b` blacklists ConfigMap, `c` blacklists ServiceAccount.

  const ConfigMap := GroupKind("v1", "ConfigMap")
  const ServiceAccount := GroupKind("v1", "ServiceAccount")
  const Pod := GroupKind("v1", "Pod")

  function GroupKindStore(): Store {
    map[
      "root" := Bare("root", ["b"]),
      "b" := Bare("b", ["c"]).(namespaceResourceBlacklist := [ConfigMap]),
      "c" := Bare("c", []).(namespaceResourceBlacklist := [ServiceAccount])]
  }

  lemma ConfigMapBlockedByParent()
    ensures !GroupKindPermittedByChain(GroupKindStore()["root"], GroupKindStore(), ConfigMap, true)
  {
    var store := GroupKindStore();
    ThreeLevelChain(store["root"], store);
    PatternMatchesItself("v1");
    PatternMatchesItself("ConfigMap");
    assert store["b"].namespaceResourceBlacklist[0] == ConfigMap;
  }

  lemma ServiceAccountBlockedByGrandparent()
    ensures !GroupKindPermittedByChain(GroupKindStore()["root"], GroupKindStore(), ServiceAccount, true)
  {
    var store := GroupKindStore();
    ThreeLevelChain(store["root"], store);
    PatternMatchesItself("v1");
    PatternMatchesItself("ServiceAccount");
    assert store["c"].namespaceResourceBlacklist[0] == ServiceAccount;
  }

  lemma PodNotBlocked()
    ensures GroupKindPermittedByChain(GroupKindStore()["root"], GroupKindStore(), Pod, true)
  {
    var store := GroupKindStore();
    ThreeLevelChain(store["root"], store);
    assert !Match("ConfigMap", "Pod") && !Match("ServiceAccount", "Pod");
  }

  /**
   * A kind blacklisted by a direct or a transitive ancestor is denied, and Pod,
   * blacklisted nowhere, is permitted; no lookup fails.
   */
  method GroupKindTable(gk: GroupKind) returns (permitted: bool, err: Option<Error>)
    requires gk == ConfigMap || gk == ServiceAccount || gk == Pod
    ensures err == None
    ensures permitted <==> gk == Pod
  {
    var store := GroupKindStore();
    ThreeLevelChain(store["root"], store);
    ConfigMapBlockedByParent();
    ServiceAccountBlockedByGrandparent();
    PodNotBlocked();
    permitted, err := IsGroupKindPermitted(store["root"], gk, true, store);
  }

  /** With a missing project in the chain the answer is an error, not a plain denial. */
  method GroupKindBrokenChain() returns (permitted: bool, err: Option<Error>)
    ensures !permitted && err == Some(NotFound("does-not-exist"))
  {
    var store := GroupKindStore();
    permitted, err := IsGroupKindPermitted(store["root"].(restrictedBy := ["does-not-exist"]), Pod, true, store);
  }

  // ---------------------------------------------------------------------------
  // Destinations: `b` admits only dev-usw2-*, `c` only dev-*.

  const Usw2Destination := Destination("", "dev-usw2-cluster", "dev-usw2-namespace")
  const Use2Destination := Destination("", "dev-use2-cluster", "dev-use2-namespace")

  function DestinationStore(): Store {
    map[
      "root" := Bare("root", ["b"]).(destinations := [Destination("*", "*", "*")]),
      "b" := Bare("b", ["c"]).(destinations := [Destination("", "dev-usw2-*", "dev-usw2-*")]),
      "c" := Bare("c", []).(destinations := [Destination("", "dev-*", "dev-*")])]
  }

  /** `dev-usw2-*` and `dev-*` admit exactly the names that start with `dev-usw2-` and `dev-` respectively. */
  lemma DevPatterns(value: string)
    ensures Match("dev-usw2-*", value) <==> "dev-usw2-" <= value
    ensures Match("dev-*", value) <==> "dev-" <= value
  {
    assert "dev-usw2-*" == "dev-usw2-" + "*";
    PrefixPatternMatchesPrefixes("dev-usw2-", value);
    assert "dev-*" == "dev-" + "*";
    PrefixPatternMatchesPrefixes("dev-", value);
  }

  lemma DevNames()
    ensures "dev-usw2-" <= "dev-usw2-cluster" && "dev-usw2-" <= "dev-usw2-namespace"
    ensures !("dev-usw2-" <= "dev-use2-cluster") && !("dev-usw2-" <= "dev-use2-namespace")
    ensures "dev-" <= "dev-usw2-cluster" && "dev-" <= "dev-usw2-namespace"
  {
    assert "dev-usw2-"[6] != "dev-use2-cluster"[6] && "dev-usw2-"[6] != "dev-use2-namespace"[6];
  }

  lemma Usw2AllowedByWholeChain()
    ensures DestinationPermittedByChain(DestinationStore()["root"], DestinationStore(), Usw2Destination)
  {
    var store := DestinationStore();
    ThreeLevelChain(store["root"], store);
    PrefixEntryAdmitsUsw2(store["b"], "dev-usw2-*");
    PrefixEntryAdmitsUsw2(store["c"], "dev-*");
    WildcardEntryAdmits(store["root"], Usw2Destination);
  }

  /** A project listing the all-wildcard destination admits any destination that names a server or a cluster. */
  lemma WildcardEntryAdmits(p: Project, dst: Destination)
    requires Destination("*", "*", "*") in p.destinations
    requires dst.server != "" || dst.name != ""
    ensures LocalDestinationPermitted(p, dst)
  {
    WildcardDestinationAdmitsAll(dst);
  }

  /** A project whose only destination is `dev-*` or `dev-usw2-*` on name and namespace admits the usw2 destination. */
  lemma PrefixEntryAdmitsUsw2(p: Project, pattern: string)
    requires pattern == "dev-usw2-*" || pattern == "dev-*"
    requires p.destinations == [Destination("", pattern, pattern)]
    ensures LocalDestinationPermitted(p, Usw2Destination)
  {
    DevPatterns(Usw2Destination.name);
    DevPatterns(Usw2Destination.namespace);
    assert DestinationMatches(p.destinations[0], Usw2Destination);
  }

  lemma Use2BlockedByParent()
    ensures !DestinationPermittedByChain(DestinationStore()["root"], DestinationStore(), Use2Destination)
  {
    var store := DestinationStore();
    ThreeLevelChain(store["root"], store);
    DevNames();
    DevPatterns("dev-use2-cluster");
    assert !LocalDestinationPermitted(store["b"], Use2Destination);
  }

  /** The usw2 destination passes the whole chain; `b` blocks the use2 one; no lookup fails. */
  method DestinationTable(dst: Destination) returns (permitted: bool, err: Option<Error>)
    requires dst == Usw2Destination || dst == Use2Destination
    ensures err == None
    ensures permitted <==> dst == Usw2Destination
  {
    var store := DestinationStore();
    ThreeLevelChain(store["root"], store);
    Usw2AllowedByWholeChain();
    Use2BlockedByParent();
    permitted, err := IsDestinationPermitted(store["root"], dst, store);
  }

  method DestinationBrokenChain() returns (permitted: bool, err: Option<Error>)
    ensures !permitted && err == Some(NotFound("does-not-exist"))
  {
    var store := DestinationStore();
    permitted, err := IsDestinationPermitted(store["root"].(restrictedBy := ["does-not-exist"]), Usw2Destination, store);
  }

  // ---------------------------------------------------------------------------
  // Source repositories: the root admits dev-org/*, `b` dev-org/*-deployment.git,
  // `c` any org.

  const Host := "https://github.company.com/"
  const DevOrg := Host + "dev-org/"
  const Deployment := "-deployment.git"
  const DevOrgRepo := DevOrg + ("app1" + Deployment)
  const OtherOrgRepo := Host + "other-org/app1-deployment.git"

  const DevOrgPattern := DevOrg + "*"
  const DeploymentPattern := DevOrg + ("*" + Deployment)
  const AnyOrgPattern := Host + ("*" + ("/" + "*"))

  function SourceStore(): Store {
    map[
      "root" := Bare("root", ["b"]).(sourceRepos := [DevOrgPattern]),
      "b" := Bare("b", ["c"]).(sourceRepos := [DeploymentPattern]),
      "c" := Bare("c", []).(sourceRepos := [AnyOrgPattern])]
  }

  lemma DevOrgPatternAdmits(url: string)
    requires url == DevOrgRepo
    ensures Match(DevOrgPattern, url)
  {
    LiteralPrefixes();
    PrefixPatternMatchesPrefixes(DevOrg, url);
  }

  lemma LiteralPrefixes()
    ensures NoWildcard(Host) && NoWildcard(DevOrg)
  {
    assert NoWildcard("dev-org/");
  }

  lemma DeploymentPatternAdmits(url: string)
    requires url == DevOrgRepo
    ensures Match(DeploymentPattern, url)
  {
    LiteralPrefixes();
    PatternMatchesItself(Deployment);
    WildcardSkips(Deployment, "app1", Deployment);
    LiteralPrefixConsumed(DevOrg, "*" + Deployment, "app1" + Deployment);
  }

  lemma AnyOrgPatternAdmits(url: string)
    requires url == DevOrgRepo
    ensures Match(AnyOrgPattern, url)
  {
    LiteralPrefixes();
    var repo := "app1" + Deployment;
    assert url == Host + ("dev-org" + ("/" + repo)) by {
      assert "dev-org/" == "dev-org" + "/";
      assert (Host + ("dev-org" + "/")) + repo == Host + ("dev-org" + ("/" + repo));
    }
    StarMatchesAnything(repo);
    LiteralPrefixConsumed("/", "*", repo);
    WildcardSkips("/" + "*", "dev-org", "/" + repo);
    LiteralPrefixConsumed(Host, "*" + ("/" + "*"), "dev-org" + ("/" + repo));
  }

  lemma OtherOrgRejectedByDevOrgPattern(url: string)
    requires url == OtherOrgRepo
    ensures !Match(DevOrgPattern, url)
  {
    LiteralPrefixes();
    PrefixPatternMatchesPrefixes(DevOrg, url);
    assert DevOrg[27] != url[27];
  }

  /** The dev-org deployment repository passes the whole chain; the root itself rejects other-org. */
  method SourceTable(repoURL: string) returns (permitted: bool, err: Option<Error>)
    requires repoURL == DevOrgRepo || repoURL == OtherOrgRepo
    ensures err == None
    ensures permitted <==> repoURL == DevOrgRepo
  {
    var store := SourceStore();
    ThreeLevelChain(store["root"], store);
    if repoURL == DevOrgRepo {
      DevOrgPatternAdmits(repoURL);
      DeploymentPatternAdmits(repoURL);
      AnyOrgPatternAdmits(repoURL);
      assert store["root"].sourceRepos[0] == DevOrgPattern && LocalSourcePermitted(store["root"], repoURL);
      assert store["b"].sourceRepos[0] == DeploymentPattern && LocalSourcePermitted(store["b"], repoURL);
      assert store["c"].sourceRepos[0] == AnyOrgPattern && LocalSourcePermitted(store["c"], repoURL);
    } else {
      OtherOrgRejectedByDevOrgPattern(repoURL);
      assert !LocalSourcePermitted(store["root"], repoURL);
    }
    permitted, err := IsSourcePermitted(store["root"], repoURL, store);
  }

  /**
   * The root rejects other-org on its own, yet a missing project in its chain
   * still makes the answer an error rather than a plain denial.
   */
  method SourceBrokenChain() returns (permitted: bool, err: Option<Error>)
    ensures !permitted && err == Some(NotFound("does-not-exist"))
  {
    var store := SourceStore();
    permitted, err := IsSourcePermitted(store["root"].(restrictedBy := ["does-not-exist"]), OtherOrgRepo, store);
  }

  // ---------------------------------------------------------------------------
  // Resources: namespaced kinds need the group/kind and the destination (with
  // the resource's namespace) to pass; cluster-scoped kinds only the group/kind.

  const Any := GroupKind("*", "*")

  function ResourceStore(): Store {
    map[
      "root" := Bare("root", ["b"]).(destinations := [Destination("", "*", "*")], clusterResourceWhitelist := [Any]),
      "b" := Bare("b", ["c"]).(destinations := [Destination("", "*", "*")],
                               namespaceResourceBlacklist := [ConfigMap], clusterResourceWhitelist := [Pod]),
      "c" := Bare("c", []).(destinations := [Destination("", "dev-usw2-*", "dev-usw2-*")], clusterResourceWhitelist := [Any])]
  }

  /** A project listing the name-and-namespace wildcard admits any destination that names a cluster. */
  lemma NameWildcardEntryAdmits(p: Project, dst: Destination)
    requires Destination("", "*", "*") in p.destinations
    requires dst.name != ""
    ensures LocalDestinationPermitted(p, dst)
  {
    StarMatchesAnything(dst.name);
    StarMatchesAnything(dst.namespace);
    assert DestinationMatches(Destination("", "*", "*"), dst);
  }

  /** A project whose only destination is `dev-usw2-*` admits exactly the usw2 names among the test's names. */
  lemma Usw2EntryDecides(p: Project, dst: Destination)
    requires p.destinations == [Destination("", "dev-usw2-*", "dev-usw2-*")]
    requires dst.server == ""
    requires dst.name == "dev-usw2-cluster" || dst.name == "dev-use2-cluster"
    requires dst.namespace == "dev-usw2-namespace" || dst.namespace == "dev-use2-namespace"
    ensures LocalDestinationPermitted(p, dst) <==> dst.name == "dev-usw2-cluster" && dst.namespace == "dev-usw2-namespace"
  {
    DevPatterns(dst.name);
    DevPatterns(dst.namespace);
    Usw2Prefix(dst.name);
    Usw2Prefix(dst.namespace);
    assert LocalDestinationPermitted(p, dst) <==> DestinationMatches(p.destinations[0], dst);
  }

  lemma Usw2Prefix(value: string)
    requires value in {"dev-usw2-cluster", "dev-use2-cluster", "dev-usw2-namespace", "dev-use2-namespace"}
    ensures "dev-usw2-" <= value <==> value == "dev-usw2-cluster" || value == "dev-usw2-namespace"
  {
    if value == "dev-use2-cluster" || value == "dev-use2-namespace" {
      assert "dev-usw2-"[6] != value[6];
    }
  }

  lemma NamespacedKindsByChain(gk: GroupKind)
    requires gk == Pod || gk == ConfigMap
    ensures GroupKindPermittedByChain(ResourceStore()["root"], ResourceStore(), gk, true) <==> gk == Pod
  {
    var store := ResourceStore();
    ThreeLevelChain(store["root"], store);
    PatternMatchesItself("v1");
    PatternMatchesItself("ConfigMap");
    assert store["b"].namespaceResourceBlacklist[0] == ConfigMap;
    assert !Match("ConfigMap", "Pod");
  }

  lemma ClusterKindsByChain(gk: GroupKind)
    requires gk == Pod || gk == ConfigMap
    ensures GroupKindPermittedByChain(ResourceStore()["root"], ResourceStore(), gk, false) <==> gk == Pod
  {
    var store := ResourceStore();
    ThreeLevelChain(store["root"], store);
    AnyWhitelistAdmits(store["root"], gk);
    PodWhitelistDecides(store["b"], gk);
    AnyWhitelistAdmits(store["c"], gk);
  }

  /** Whitelisting `*`/`*` with no blacklist admits every cluster-scoped kind. */
  lemma AnyWhitelistAdmits(p: Project, gk: GroupKind)
    requires p.clusterResourceWhitelist == [Any] && p.clusterResourceBlacklist == []
    ensures LocalGroupKindPermitted(p, gk, false)
  {
    StarMatchesAnything(gk.group);
    StarMatchesAnything(gk.kind);
    assert p.clusterResourceWhitelist[0] == Any;
  }

  /** Whitelisting only Pod admits Pod and refuses ConfigMap. */
  lemma PodWhitelistDecides(p: Project, gk: GroupKind)
    requires p.clusterResourceWhitelist == [Pod] && p.clusterResourceBlacklist == []
    requires gk == Pod || gk == ConfigMap
    ensures LocalGroupKindPermitted(p, gk, false) <==> gk == Pod
  {
    PatternMatchesItself("v1");
    PatternMatchesItself("Pod");
    assert p.clusterResourceWhitelist[0] == Pod;
    assert !Match("Pod", "ConfigMap");
  }

  lemma ResourceDestinationsByChain(dst: Destination)
    requires dst.server == ""
    requires dst.name == "dev-usw2-cluster" || dst.name == "dev-use2-cluster"
    requires dst.namespace == "dev-usw2-namespace" || dst.namespace == "dev-use2-namespace"
    ensures DestinationPermittedByChain(ResourceStore()["root"], ResourceStore(), dst) <==>
              dst.name == "dev-usw2-cluster" && dst.namespace == "dev-usw2-namespace"
  {
    var store := ResourceStore();
    ThreeLevelChain(store["root"], store);
    NameWildcardEntryAdmits(store["root"], dst);
    NameWildcardEntryAdmits(store["b"], dst);
    Usw2EntryDecides(store["c"], dst);
  }

  /**
   * A namespaced resource is permitted exactly when its kind (Pod), its
   * namespace and its cluster (both usw2) are; no lookup fails.
   */
  method NamespacedResourceTable(gk: GroupKind, namespace: string, clusterName: string)
    returns (permitted: bool, err: Option<Error>)
    requires gk == Pod || gk == ConfigMap
    requires namespace == "dev-usw2-namespace" || namespace == "dev-use2-namespace"
    requires clusterName == "dev-usw2-cluster" || clusterName == "dev-use2-cluster"
    ensures err == None
    ensures permitted <==> gk == Pod && namespace == "dev-usw2-namespace" && clusterName == "dev-usw2-cluster"
  {
    var store := ResourceStore();
    var dst := Destination("", clusterName, namespace);
    ThreeLevelChain(store["root"], store);
    NamespacedKindsByChain(gk);
    ResourceDestinationsByChain(dst);
    permitted, err := IsResourcePermitted(store["root"], gk, namespace, dst, store);
  }

  /** A cluster-scoped resource (empty namespace) is decided by its kind alone, whatever the cluster. */
  method ClusterResourceTable(gk: GroupKind, clusterName: string) returns (permitted: bool, err: Option<Error>)
    requires gk == Pod || gk == ConfigMap
    requires clusterName == "dev-usw2-cluster" || clusterName == "dev-use2-cluster"
    ensures err == None
    ensures permitted <==> gk == Pod
  {
    var store := ResourceStore();
    ThreeLevelChain(store["root"], store);
    ClusterKindsByChain(gk);
    permitted, err := IsResourcePermitted(store["root"], gk, "", Destination("", clusterName, ""), store);
  }

  method ResourceBrokenChain() returns (permitted: bool, err: Option<Error>)
    ensures !permitted && err == Some(NotFound("does-not-exist"))
  {
    var store := ResourceStore();
    permitted, err := IsResourcePermitted(store["root"].(restrictedBy := ["does-not-exist"]), Pod,
                                          "dev-usw2-namespace", Usw2Destination, store);
  }

  // ---------------------------------------------------------------------------
  // Composition: one project restricted by three independent ones, each
  // contributing one rule.

  const ProdDestination := Destination("", "prod-usw2-cluster", "prod-usw2-namespace")

  function ComposedStore(): Store {
    map[
      "no-configmaps" := Bare("no-configmaps", []).(destinations := [Destination("", "*", "*")],
                           namespaceResourceBlacklist := [ConfigMap], clusterResourceWhitelist := [Pod]),
      "dev-clusters-only" := Bare("dev-clusters-only", []).(destinations := [Destination("", "dev-*", "*")]),
      "dev-namespaces-only" := Bare("dev-namespaces-only", []).(destinations := [Destination("", "*", "dev-*")]),
      "no-configmaps-dev-only" := Bare("no-configmaps-dev-only", ["no-configmaps", "dev-clusters-only", "dev-namespaces-only"])
                                  .(destinations := [Destination("", "*", "*")])]
  }

  /** A root restricted by three projects that are themselves unrestricted has exactly those three as ancestors. */
  lemma FlatChain(root: Project, store: Store, x: string, y: string, z: string)
    requires root.restrictedBy == [x, y, z] && root.name !in {x, y, z}
    requires x in store && store[x].restrictedBy == []
    requires y in store && store[y].restrictedBy == []
    requires z in store && store[z].restrictedBy == []
    ensures forall n :: Reachable(root, store, n) <==> n == x || n == y || n == z
    ensures ChainResolves(root, store)
  {
    ListedByRootIsReachable(root, store, x);
    ListedByRootIsReachable(root, store, y);
    ListedByRootIsReachable(root, store, z);
    assert Closed(root, store, {x, y, z});
  }

  lemma DevPrefixes(value: string)
    requires value in {"dev-usw2-cluster", "dev-usw2-namespace", "prod-usw2-cluster", "prod-usw2-namespace"}
    ensures "dev-" <= value <==> value == "dev-usw2-cluster" || value == "dev-usw2-namespace"
  {
    if value == "prod-usw2-cluster" || value == "prod-usw2-namespace" {
      assert "dev-"[0] != value[0];
    }
  }

  lemma ComposedDestinationsByChain(dst: Destination)
    requires dst == Usw2Destination || dst == ProdDestination
    ensures DestinationPermittedByChain(ComposedStore()["no-configmaps-dev-only"], ComposedStore(), dst) <==>
              dst == Usw2Destination
  {
    var store := ComposedStore();
    var root := store["no-configmaps-dev-only"];
    FlatChain(root, store, "no-configmaps", "dev-clusters-only", "dev-namespaces-only");
    NameWildcardEntryAdmits(root, dst);
    NameWildcardEntryAdmits(store["no-configmaps"], dst);
    DevClusterEntryDecides(store["dev-clusters-only"], dst);
    DevNamespaceEntryDecides(store["dev-namespaces-only"], dst);
  }

  lemma DevClusterEntryDecides(p: Project, dst: Destination)
    requires p.destinations == [Destination("", "dev-*", "*")]
    requires dst == Usw2Destination || dst == ProdDestination
    ensures LocalDestinationPermitted(p, dst) <==> dst == Usw2Destination
  {
    DevPatterns(dst.name);
    DevPrefixes(dst.name);
    StarMatchesAnything(dst.namespace);
    assert LocalDestinationPermitted(p, dst) <==> DestinationMatches(p.destinations[0], dst);
  }

  lemma DevNamespaceEntryDecides(p: Project, dst: Destination)
    requires p.destinations == [Destination("", "*", "dev-*")]
    requires dst == Usw2Destination || dst == ProdDestination
    ensures LocalDestinationPermitted(p, dst) <==> dst == Usw2Destination
  {
    DevPatterns(dst.namespace);
    DevPrefixes(dst.namespace);
    StarMatchesAnything(dst.name);
    assert LocalDestinationPermitted(p, dst) <==> DestinationMatches(p.destinations[0], dst);
  }

  lemma ComposedKindsByChain(gk: GroupKind)
    requires gk == Pod || gk == ConfigMap
    ensures GroupKindPermittedByChain(ComposedStore()["no-configmaps-dev-only"], ComposedStore(), gk, true) <==> gk == Pod
  {
    var store := ComposedStore();
    FlatChain(store["no-configmaps-dev-only"], store, "no-configmaps", "dev-clusters-only", "dev-namespaces-only");
    PatternMatchesItself("v1");
    PatternMatchesItself("ConfigMap");
    assert store["no-configmaps"].namespaceResourceBlacklist[0] == ConfigMap;
    assert !Match("ConfigMap", "Pod");
  }

  /** Each of the three restricting projects contributes its own rule: the resource passes only when all do. */
  method ComposedTable(gk: GroupKind, dst: Destination) returns (permitted: bool, err: Option<Error>)
    requires gk == Pod || gk == ConfigMap
    requires dst == Usw2Destination || dst == ProdDestination
    ensures err == None
    ensures permitted <==> gk == Pod && dst == Usw2Destination
  {
    var store := ComposedStore();
    var root := store["no-configmaps-dev-only"];
    FlatChain(root, store, "no-configmaps", "dev-clusters-only", "dev-namespaces-only");
    ComposedKindsByChain(gk);
    ComposedDestinationsByChain(dst);
    permitted, err := IsResourcePermitted(root, gk, dst.namespace, dst, store);
  }
}
