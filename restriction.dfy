/**
 * The restriction walker (`checkRestrictedBy`): visits every project reachable
 * from a root through `restrictedBy`, never the root itself, each at most once,
 * and ANDs a per-project check over them, stopping at the first denial or error.
 */
module Restriction {
  import opened Wrappers
  import opened Projects

  /**
   * A set of names closed under `restrictedBy` starting from `root`: it holds
   * every name the root lists and every name listed by a stored project in it,
   * the root's own name excepted.
   */
  ghost predicate Closed(root: Project, store: Store, names: set<string>) {
    && root.name !in names
    && (forall m :: m in root.restrictedBy && m != root.name ==> m in names)
    && (forall n, m :: n in names && n in store && m in store[n].restrictedBy && m != root.name ==> m in names)
  }

  /** `n` restricts `root`, directly or transitively: it lies in every closed set. */
  ghost predicate Reachable(root: Project, store: Store, n: string) {
    forall names :: Closed(root, store, names) ==> n in names
  }

  /** What fetching and then checking the project called `n` yields. */
  function Outcome(store: Store, check: Project -> Result<bool, Error>, n: string): Result<bool, Error> {
    match GetProject(store, n)
    case Err(e) => Err(e)
    case Ok(p) => check(p)
  }

  /** Every project restricting `root` exists and passes `check`. */
  ghost predicate AllAncestorsPass(root: Project, store: Store, check: Project -> Result<bool, Error>) {
    forall n :: Reachable(root, store, n) ==> Outcome(store, check, n) == Ok(true)
  }

  lemma ListedByRootIsReachable(root: Project, store: Store, m: string)
    requires m in root.restrictedBy && m != root.name
    ensures Reachable(root, store, m)
  {
  }

  lemma ListedByReachableAreReachable(root: Project, store: Store, n: string)
    requires Reachable(root, store, n) && n in store
    ensures forall m :: m in store[n].restrictedBy && m != root.name ==> Reachable(root, store, m)
  {
    forall m, names | m in store[n].restrictedBy && m != root.name && Closed(root, store, names)
      ensures m in names
    {
      assert n in names;
    }
  }

  /** The root never restricts itself, whatever names it or its ancestors list. */
  lemma {:induction false} RootIsNotReachable(root: Project, store: Store)
    ensures !Reachable(root, store, root.name)
  {
    var listed := (set m | m in root.restrictedBy)
      + (set n, m | n in store && m in store[n].restrictedBy :: m);
    var names := listed - {root.name};
    assert Closed(root, store, names);
  }

  /**
   * The walker's loop invariant: `fetched` lists, without repeats and without
   * the root, the names taken off the queue so far; each is reachable and
   * passed; `visited` is those names plus the root's; every name listed by the
   * root or by a fetched project is visited or still queued.
   */
  ghost predicate Frontier(root: Project, store: Store, check: Project -> Result<bool, Error>,
                           visited: set<string>, queue: seq<string>, fetched: seq<string>)
  {
    && (forall n :: n in visited <==> n == root.name || n in fetched)
    && root.name !in fetched
    && (forall i, j :: 0 <= i < j < |fetched| ==> fetched[i] != fetched[j])
    && (forall i :: 0 <= i < |fetched| ==> Reachable(root, store, fetched[i]))
    && (forall i :: 0 <= i < |fetched| ==> Outcome(store, check, fetched[i]) == Ok(true))
    && (forall m :: m in queue && m != root.name ==> Reachable(root, store, m))
    && (forall m :: m in root.restrictedBy ==> m in visited || m in queue)
    && (forall i, m :: 0 <= i < |fetched| && fetched[i] in store && m in store[fetched[i]].restrictedBy ==>
          m in visited || m in queue)
    // the first name the root lists is taken first
    && (root.restrictedBy != [] && root.restrictedBy[0] != root.name ==>
          (fetched == [] ==> queue == root.restrictedBy) && (fetched != [] ==> fetched[0] == root.restrictedBy[0]))
  }

  lemma FrontierStart(root: Project, store: Store, check: Project -> Result<bool, Error>)
    ensures Frontier(root, store, check, {root.name}, root.restrictedBy, [])
  {
  }

  lemma FrontierSkip(root: Project, store: Store, check: Project -> Result<bool, Error>,
                     visited: set<string>, queue: seq<string>, fetched: seq<string>)
    requires Frontier(root, store, check, visited, queue, fetched)
    requires queue != [] && queue[0] in visited
    ensures Frontier(root, store, check, visited, queue[1..], fetched)
  {
    forall m | m in queue
      ensures m in visited || m in queue[1..]
    {
    }
  }

  /** Taking an unvisited name off the queue keeps the invariant for the extended trace. */
  lemma FrontierTake(root: Project, store: Store, check: Project -> Result<bool, Error>,
                     visited: set<string>, queue: seq<string>, fetched: seq<string>)
    requires Frontier(root, store, check, visited, queue, fetched)
    requires queue != [] && queue[0] !in visited
    ensures root.name !in fetched + [queue[0]]
    ensures forall i, j :: 0 <= i < j < |fetched + [queue[0]]| ==> (fetched + [queue[0]])[i] != (fetched + [queue[0]])[j]
    ensures forall i :: 0 <= i < |fetched + [queue[0]]| ==> Reachable(root, store, (fetched + [queue[0]])[i])
    ensures forall n :: n in visited + {queue[0]} <==> n == root.name || n in fetched + [queue[0]]
  {
  }

  /** Queueing the parents of a passing project keeps the invariant. */
  lemma FrontierPass(root: Project, store: Store, check: Project -> Result<bool, Error>,
                     visited: set<string>, queue: seq<string>, fetched: seq<string>)
    requires Frontier(root, store, check, visited, queue, fetched)
    requires queue != [] && queue[0] !in visited && Outcome(store, check, queue[0]) == Ok(true)
    ensures queue[0] in store
    ensures Frontier(root, store, check, visited + {queue[0]}, queue[1..] + store[queue[0]].restrictedBy, fetched + [queue[0]])
  {
    var name := queue[0];
    FrontierTake(root, store, check, visited, queue, fetched);
    ListedByReachableAreReachable(root, store, name);
    var visited', queue', fetched' := visited + {name}, queue[1..] + store[name].restrictedBy, fetched + [name];
    forall m | m in root.restrictedBy
      ensures m in visited' || m in queue'
    {
      if m !in visited' {
        assert m in queue[1..];
      }
    }
    forall i, m | 0 <= i < |fetched'| && fetched'[i] in store && m in store[fetched'[i]].restrictedBy
      ensures m in visited' || m in queue'
    {
      if i < |fetched| && m !in visited' {
        assert m in queue[1..];
      }
    }
  }

  /**
   * What the walker promises about its verdict (`permitted`, `err`) and about
   * `fetched`, the names it handed to `getProject`, in order.
   */
  ghost predicate WalkVerdict(root: Project, store: Store, check: Project -> Result<bool, Error>,
                              permitted: bool, err: Option<Error>, fetched: seq<string>)
  {
    Verdict(root, store, check, permitted, err) && Trace(root, store, check, permitted, err, fetched)
  }

  /** The verdict is the AND of the check over every restricting project; errors come from one of them. */
  ghost predicate Verdict(root: Project, store: Store, check: Project -> Result<bool, Error>,
                          permitted: bool, err: Option<Error>)
  {
    && (permitted ==> err == None)
    && (permitted <==> AllAncestorsPass(root, store, check))
    && (err.Some? ==> exists n :: Reachable(root, store, n) && Outcome(store, check, n) == Err(err.value))
    && (!permitted && err == None ==> exists n :: Reachable(root, store, n) && Outcome(store, check, n) == Ok(false))
    && ((forall n :: Reachable(root, store, n) ==> Outcome(store, check, n).Ok?) ==> err == None)
  }

  /** What the walk promises about `fetched`, the names it handed to `getProject`, in order. */
  ghost predicate Trace(root: Project, store: Store, check: Project -> Result<bool, Error>,
                        permitted: bool, err: Option<Error>, fetched: seq<string>)
  {
    // the root is never fetched, nor any name twice, nor a name that does not restrict the root
    && root.name !in fetched
    && (forall i, j :: 0 <= i < j < |fetched| ==> fetched[i] != fetched[j])
    && (forall i :: 0 <= i < |fetched| ==> Reachable(root, store, fetched[i]))
    // fail-fast: only the last fetched project may have failed, and the walk stopped there
    && (forall i :: 0 <= i < |fetched| - 1 ==> Outcome(store, check, fetched[i]) == Ok(true))
    && (!permitted ==> fetched != [] && Outcome(store, check, fetched[|fetched| - 1]) ==
                         (if err.Some? then Err(err.value) else Ok(false)))
    // on success every restricting project was fetched and checked
    && (permitted ==> forall n :: Reachable(root, store, n) ==> n in fetched)
    && FirstListedFetchedFirst(root, fetched)
  }

  /** The first name the root lists, unless it is the root's own, is the first one fetched. */
  ghost predicate FirstListedFetchedFirst(root: Project, fetched: seq<string>) {
    root.restrictedBy != [] && root.restrictedBy[0] != root.name ==>
      fetched != [] && fetched[0] == root.restrictedBy[0]
  }

  /** Stopping on the unvisited head of the queue, which failed, yields a denial. */
  lemma FailedWalk(root: Project, store: Store, check: Project -> Result<bool, Error>,
                   visited: set<string>, queue: seq<string>, fetched: seq<string>, err: Option<Error>)
    requires Frontier(root, store, check, visited, queue, fetched)
    requires queue != [] && queue[0] !in visited
    requires Outcome(store, check, queue[0]) == if err.Some? then Err(err.value) else Ok(false)
    ensures WalkVerdict(root, store, check, false, err, fetched + [queue[0]])
  {
    FrontierTake(root, store, check, visited, queue, fetched);
    StopsAtFailure(root, store, check, fetched + [queue[0]]);
  }

  /** An exhausted queue yields permission. */
  lemma CompletedWalk(root: Project, store: Store, check: Project -> Result<bool, Error>,
                      visited: set<string>, fetched: seq<string>)
    requires Frontier(root, store, check, visited, [], fetched)
    ensures WalkVerdict(root, store, check, true, None, fetched)
  {
    PassesWhenClosed(root, store, check, visited, fetched);
  }

  /**
   * `checkRestrictedBy`: walks the restriction closure of `root` breadth
   * first, with a queue of names and a set of visited names seeded with the
   * root's own, and ANDs `check` over the projects it fetches.
   */
  method CheckRestrictedBy(root: Project, store: Store, check: Project -> Result<bool, Error>)
    returns (permitted: bool, err: Option<Error>, ghost fetched: seq<string>)
    ensures Verdict(root, store, check, permitted, err)
    ensures Trace(root, store, check, permitted, err, fetched)
  {
    var visited := {root.name};
    var queue := root.restrictedBy;
    fetched := [];
    FrontierStart(root, store, check);
    while queue != []
      invariant Frontier(root, store, check, visited, queue, fetched)
      decreases |store.Keys - visited|, |queue|
    {
      var name := queue[0];
      if name in visited {
        FrontierSkip(root, store, check, visited, queue, fetched);
        queue := queue[1..];
      } else {
        var lookup := GetProject(store, name);
        if lookup.Err? {
          FailedWalk(root, store, check, visited, queue, fetched, Some(lookup.error));
          return false, Some(lookup.error), fetched + [name];
        }
        var verdict := check(lookup.value);
        if verdict.Err? || !verdict.value {
          err := if verdict.Err? then Some(verdict.error) else None;
          FailedWalk(root, store, check, visited, queue, fetched, err);
          return false, err, fetched + [name];
        }
        FrontierPass(root, store, check, visited, queue, fetched);
        FewerUnvisited(store.Keys, visited, name);
        visited := visited + {name};
        fetched := fetched + [name];
        queue := queue[1..] + lookup.value.restrictedBy;
      }
    }
    CompletedWalk(root, store, check, visited, fetched);
    permitted, err := true, None;
  }

  /** Visiting a stored name for the first time shrinks the stored names still unvisited. */
  lemma FewerUnvisited(keys: set<string>, visited: set<string>, name: string)
    requires name in keys && name !in visited
    ensures |keys - (visited + {name})| < |keys - visited|
  {
    assert keys - (visited + {name}) == (keys - visited) - {name};
  }

  /** A walk that ends on a reachable failing project denies the root. */
  lemma StopsAtFailure(root: Project, store: Store, check: Project -> Result<bool, Error>, fetched: seq<string>)
    requires fetched != [] && Reachable(root, store, fetched[|fetched| - 1])
    requires Outcome(store, check, fetched[|fetched| - 1]) != Ok(true)
    ensures !AllAncestorsPass(root, store, check)
    ensures Outcome(store, check, fetched[|fetched| - 1]).Err? ==>
              !(forall n :: Reachable(root, store, n) ==> Outcome(store, check, n).Ok?)
  {
    var last := fetched[|fetched| - 1];
    if forall n :: Reachable(root, store, n) ==> Outcome(store, check, n).Ok? {
      assert Outcome(store, check, last).Ok?;
    }
  }

  /**
   * A walk whose fetched names, all passing, are closed under `restrictedBy`
   * has covered every reachable project.
   */
  lemma PassesWhenClosed(root: Project, store: Store, check: Project -> Result<bool, Error>,
                          visited: set<string>, fetched: seq<string>)
    requires Frontier(root, store, check, visited, [], fetched)
    ensures forall n :: Reachable(root, store, n) ==> n in fetched
    ensures AllAncestorsPass(root, store, check)
  {
    var names := set n | n in fetched;
    assert Closed(root, store, names);
  }
}
