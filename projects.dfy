/**
 * Projects (AppProject) and the rules each project applies on its own, without
 * looking at the projects that restrict it.
 */
module Projects {
  import opened Wrappers
  import opened Glob

  /** An API group and kind; either may be the pattern `*` in a project's lists. */
  datatype GroupKind = GroupKind(group: string, kind: string)

  /**
   * A placement: cluster server URL, cluster name and namespace. In a project's
   * destination list each field is a glob pattern.
   */
  datatype Destination = Destination(server: string, name: string, namespace: string)

  /** The project fields the authorization rules read. */
  datatype Project = Project(
    name: string,
    restrictedBy: seq<string>,
    sourceRepos: seq<string>,
    destinations: seq<Destination>,
    namespaceResourceBlacklist: seq<GroupKind>,
    namespaceResourceWhitelist: seq<GroupKind>,
    clusterResourceWhitelist: seq<GroupKind>,
    clusterResourceBlacklist: seq<GroupKind>)

  /** Why an authorization could not be decided. */
  datatype Error =
    | NotFound(name: string)   // no project of that name in the store
    | Failure(message: string) // a per-project check itself failed

  /** The project store, keyed by project name. */
  type Store = map<string, Project>

  /** The `getProject` lookup: the stored project, or NotFound. */
  function GetProject(store: Store, name: string): Result<Project, Error> {
    if name in store then Ok(store[name]) else Err(NotFound(name))
  }

  /** Some entry of `list` matches both the group and the kind of `gk`. */
  predicate ResourceInList(gk: GroupKind, list: seq<GroupKind>) {
    exists i :: 0 <= i < |list| && Match(list[i].group, gk.group) && Match(list[i].kind, gk.kind)
  }

  /**
   * The project's own verdict on a group/kind. A blacklist hit always denies.
   * Namespaced kinds are allowed by default when no whitelist is set;
   * cluster-scoped kinds need an explicit whitelist entry.
   */
  function LocalGroupKindPermitted(p: Project, gk: GroupKind, namespaced: bool): (ok: bool)
    ensures namespaced && ResourceInList(gk, p.namespaceResourceBlacklist) ==> !ok
    ensures !namespaced && ResourceInList(gk, p.clusterResourceBlacklist) ==> !ok
    ensures namespaced && p.namespaceResourceWhitelist == [] ==>
              (ok <==> !ResourceInList(gk, p.namespaceResourceBlacklist))
    ensures namespaced && p.namespaceResourceWhitelist != [] ==>
              (ok <==> ResourceInList(gk, p.namespaceResourceWhitelist) && !ResourceInList(gk, p.namespaceResourceBlacklist))
    ensures !namespaced ==> (ok ==> ResourceInList(gk, p.clusterResourceWhitelist))
    ensures !namespaced && ResourceInList(gk, p.clusterResourceWhitelist) && !ResourceInList(gk, p.clusterResourceBlacklist) ==> ok
    ensures !namespaced && p.clusterResourceWhitelist == [] ==> !ok
  {
    if namespaced then
      var whitelisted := p.namespaceResourceWhitelist == [] || ResourceInList(gk, p.namespaceResourceWhitelist);
      whitelisted && !ResourceInList(gk, p.namespaceResourceBlacklist)
    else
      ResourceInList(gk, p.clusterResourceWhitelist) && !ResourceInList(gk, p.clusterResourceBlacklist)
  }

  /**
   * One destination entry admits `dst` when the namespace matches and the
   * cluster is identified by a matching (non-empty) server or name.
   */
  predicate DestinationMatches(entry: Destination, dst: Destination)
    ensures DestinationMatches(entry, dst) ==> dst.server != "" || dst.name != ""
  {
    && ((dst.server != "" && Match(entry.server, dst.server)) || (dst.name != "" && Match(entry.name, dst.name)))
    && Match(entry.namespace, dst.namespace)
  }

  /** The project's own verdict on a destination: some entry admits it. */
  function LocalDestinationPermitted(p: Project, dst: Destination): (ok: bool)
    ensures p.destinations == [] ==> !ok
    ensures ok ==> dst.server != "" || dst.name != ""
  {
    exists i :: 0 <= i < |p.destinations| && DestinationMatches(p.destinations[i], dst)
  }

  /** The project's own verdict on a source repository URL: some pattern matches it. */
  function LocalSourcePermitted(p: Project, repoURL: string): (ok: bool)
    ensures p.sourceRepos == [] ==> !ok
    ensures "*" in p.sourceRepos ==> ok
  {
    StarMatchesAnything(repoURL);
    exists i :: 0 <= i < |p.sourceRepos| && Match(p.sourceRepos[i], repoURL)
  }

  /** An all-wildcard destination entry admits every destination that names its cluster. */
  lemma WildcardDestinationAdmitsAll(dst: Destination)
    requires dst.server != "" || dst.name != ""
    ensures DestinationMatches(Destination("*", "*", "*"), dst)
  {
    StarMatchesAnything(dst.server);
    StarMatchesAnything(dst.name);
    StarMatchesAnything(dst.namespace);
  }
}
