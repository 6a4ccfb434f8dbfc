/**
 * The four composite decisions of AppProject: each applies one local rule to
 * the project itself and, through the restriction walker, to every project
 * that restricts it.
 */
module Authorization {
  import opened Wrappers
  import opened Projects
  import opened Restriction

  /** `rule` holds for `root` and for every project restricting it, all of which exist. */
  ghost predicate ChainSatisfies(root: Project, store: Store, rule: Project -> bool) {
    && rule(root)
    && forall n :: Reachable(root, store, n) ==> n in store && rule(store[n])
  }

  /** The root's first listed restriction (other than itself) is not in the store. */
  predicate FirstListedMissing(root: Project, store: Store) {
    root.restrictedBy != [] && root.restrictedBy[0] != root.name && root.restrictedBy[0] !in store
  }

  /** Every project restricting `root` is in the store. */
  ghost predicate ChainResolves(root: Project, store: Store) {
    forall n :: Reachable(root, store, n) ==> n in store
  }

  /**
   * A project restricting `root` is missing from the store, and no stored one
   * refuses: the walk is bound to run into the missing one.
   */
  ghost predicate BrokenButUnrefused(root: Project, store: Store, rule: Project -> bool) {
    && (exists n :: Reachable(root, store, n) && n !in store)
    && forall n :: Reachable(root, store, n) && n in store ==> rule(store[n])
  }

  /**
   * The shape shared by the composite decisions: walk the restriction chain
   * with `rule` as the per-project check, surface a lookup error as is, and
   * otherwise AND the root's own verdict with the chain's.
   */
  method CheckChain(root: Project, store: Store, rule: Project -> bool)
    returns (permitted: bool, err: Option<Error>)
    ensures permitted ==> err == None
    ensures permitted <==> ChainSatisfies(root, store, rule)
    ensures err.Some? ==> exists n :: Reachable(root, store, n) && n !in store && err.value == NotFound(n)
    ensures ChainResolves(root, store) ==> err == None
    ensures FirstListedMissing(root, store) ==> !permitted && err == Some(NotFound(root.restrictedBy[0]))
    ensures BrokenButUnrefused(root, store, rule) ==> !permitted && err.Some?
  {
    var check := (p: Project) => Ok(rule(p));
    var restricted, walkErr, fetched := CheckRestrictedBy(root, store, check);
    if walkErr.Some? {
      return false, walkErr;
    }
    permitted, err := rule(root) && restricted, None;
  }

  /** The root and every project restricting it admit the group/kind. */
  ghost predicate GroupKindPermittedByChain(root: Project, store: Store, gk: GroupKind, namespaced: bool) {
    && LocalGroupKindPermitted(root, gk, namespaced)
    && forall n :: Reachable(root, store, n) ==> n in store && LocalGroupKindPermitted(store[n], gk, namespaced)
  }

  /** The root and every project restricting it admit the destination. */
  ghost predicate DestinationPermittedByChain(root: Project, store: Store, dst: Destination) {
    && LocalDestinationPermitted(root, dst)
    && forall n :: Reachable(root, store, n) ==> n in store && LocalDestinationPermitted(store[n], dst)
  }

  /** The root and every project restricting it admit the repository URL. */
  ghost predicate SourcePermittedByChain(root: Project, store: Store, repoURL: string) {
    && LocalSourcePermitted(root, repoURL)
    && forall n :: Reachable(root, store, n) ==> n in store && LocalSourcePermitted(store[n], repoURL)
  }

  /** `AppProject.IsGroupKindPermitted`. */
  method IsGroupKindPermitted(root: Project, gk: GroupKind, namespaced: bool, store: Store)
    returns (permitted: bool, err: Option<Error>)
    ensures permitted ==> err == None
    ensures permitted <==> GroupKindPermittedByChain(root, store, gk, namespaced)
    ensures err.Some? ==> exists n :: Reachable(root, store, n) && n !in store && err.value == NotFound(n)
    ensures ChainResolves(root, store) ==> err == None
    ensures FirstListedMissing(root, store) ==> !permitted && err == Some(NotFound(root.restrictedBy[0]))
    ensures BrokenButUnrefused(root, store, p => LocalGroupKindPermitted(p, gk, namespaced)) ==> !permitted && err.Some?
  {
    permitted, err := CheckChain(root, store, p => LocalGroupKindPermitted(p, gk, namespaced));
  }

  /** `AppProject.IsDestinationPermitted`. */
  method IsDestinationPermitted(root: Project, dst: Destination, store: Store)
    returns (permitted: bool, err: Option<Error>)
    ensures permitted ==> err == None
    ensures permitted <==> DestinationPermittedByChain(root, store, dst)
    ensures err.Some? ==> exists n :: Reachable(root, store, n) && n !in store && err.value == NotFound(n)
    ensures ChainResolves(root, store) ==> err == None
    ensures FirstListedMissing(root, store) ==> !permitted && err == Some(NotFound(root.restrictedBy[0]))
    ensures BrokenButUnrefused(root, store, p => LocalDestinationPermitted(p, dst)) ==> !permitted && err.Some?
  {
    permitted, err := CheckChain(root, store, p => LocalDestinationPermitted(p, dst));
  }

  /** `AppProject.IsSourcePermitted`, on the source's repository URL. */
  method IsSourcePermitted(root: Project, repoURL: string, store: Store)
    returns (permitted: bool, err: Option<Error>)
    ensures permitted ==> err == None
    ensures permitted <==> SourcePermittedByChain(root, store, repoURL)
    ensures err.Some? ==> exists n :: Reachable(root, store, n) && n !in store && err.value == NotFound(n)
    ensures ChainResolves(root, store) ==> err == None
    ensures FirstListedMissing(root, store) ==> !permitted && err == Some(NotFound(root.restrictedBy[0]))
    ensures BrokenButUnrefused(root, store, p => LocalSourcePermitted(p, repoURL)) ==> !permitted && err.Some?
  {
    permitted, err := CheckChain(root, store, p => LocalSourcePermitted(p, repoURL));
  }

  /**
   * `AppProject.IsResourcePermitted`. A cluster-scoped resource (empty
   * namespace) is judged on its group/kind alone; a namespaced one needs its
   * group/kind and the destination carrying the resource's own namespace.
   */
  method IsResourcePermitted(root: Project, gk: GroupKind, namespace: string, dst: Destination, store: Store)
    returns (permitted: bool, err: Option<Error>)
    ensures permitted ==> err == None
    ensures namespace == "" ==> (permitted <==> GroupKindPermittedByChain(root, store, gk, false))
    ensures namespace != "" ==>
              (permitted <==> GroupKindPermittedByChain(root, store, gk, true) &&
                              DestinationPermittedByChain(root, store, dst.(namespace := namespace)))
    ensures err.Some? ==> exists n :: Reachable(root, store, n) && n !in store && err.value == NotFound(n)
    ensures ChainResolves(root, store) ==> err == None
    ensures FirstListedMissing(root, store) ==> !permitted && err == Some(NotFound(root.restrictedBy[0]))
    ensures BrokenButUnrefused(root, store, p => LocalGroupKindPermitted(p, gk, namespace != "")) ==> !permitted && err.Some?
  {
    if namespace == "" {
      permitted, err := IsGroupKindPermitted(root, gk, false, store);
      return;
    }
    var kindPermitted, kindErr := IsGroupKindPermitted(root, gk, true, store);
    if kindErr.Some? {
      return false, kindErr;
    }
    var dstPermitted, dstErr := IsDestinationPermitted(root, dst.(namespace := namespace), store);
    if dstErr.Some? {
      return false, dstErr;
    }
    permitted, err := kindPermitted && dstPermitted, None;
  }
}
