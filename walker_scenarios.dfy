/**
 * The walker tests of pkg/apis/application/v1alpha1/app_projects_types_test.go:
 * which projects the walk fetches and what it answers for small hierarchies.
 * The fetched trace stands for the test's record of the get/check callbacks.
 */
module WalkerScenarios {
  import opened Wrappers
  import opened Projects
  import opened Restriction
  import Scenarios

  function AlwaysPasses(p: Project): Result<bool, Error> { Ok(true) }

  /** A duplicate-free sequence that holds exactly the elements of `names` is as long as the set is large. */
  lemma {:induction false} DistinctCoversSet(s: seq<string>, names: set<string>)
    requires forall i, j :: 0 <= i < j < |s| ==> s[i] != s[j]
    requires forall i :: 0 <= i < |s| ==> s[i] in names
    requires forall n :: n in names ==> n in s
    ensures |s| == |names|
  {
    if s != [] {
      var rest := names - {s[0]};
      forall n | n in rest ensures n in s[1..] {
        var i :| 0 <= i < |s| && s[i] == n;
        assert i != 0;
        assert s[1..][i - 1] == n;
      }
      forall i | 0 <= i < |s[1..]| ensures s[1..][i] in rest {
        assert s[1..][i] == s[i + 1] != s[0];
      }
      DistinctCoversSet(s[1..], rest);
    }
  }

  /** Without restrictions, or restricted only by itself, the root is permitted and nothing is fetched. */
  method NoParents(self: bool, store: Store, check: Project -> Result<bool, Error>)
    returns (permitted: bool, err: Option<Error>, ghost fetched: seq<string>)
    ensures permitted && err == None && fetched == []
  {
    var root := if self then Scenarios.Bare("root", ["root"]) else Scenarios.Bare("", []);
    assert Closed(root, store, {});
    permitted, err, fetched := CheckRestrictedBy(root, store, check);
    DistinctCoversSet(fetched, {});
  }

  /** With a single parent the answer is the parent's own verdict, and only the parent is fetched. */
  method OneParent(verdict: bool) returns (permitted: bool, err: Option<Error>, ghost fetched: seq<string>)
    ensures err == None && permitted == verdict && fetched == ["parent"]
  {
    var root := Scenarios.Bare("", ["parent"]);
    var store := map["parent" := Scenarios.Bare("", [])];
    var check := (p: Project) => Ok(verdict);
    ListedByRootIsReachable(root, store, "parent");
    assert Closed(root, store, {"parent"});
    permitted, err, fetched := CheckRestrictedBy(root, store, check);
    DistinctCoversSet(fetched, {"parent"});
  }

  /** A parent that cannot be fetched denies with the lookup's error. */
  method MissingParent(check: Project -> Result<bool, Error>) returns (permitted: bool, err: Option<Error>)
    ensures !permitted && err == Some(NotFound("parent"))
  {
    var root := Scenarios.Bare("", ["parent"]);
    var store: Store := map[];
    ListedByRootIsReachable(root, store, "parent");
    assert Closed(root, store, {"parent"});
    ghost var fetched;
    permitted, err, fetched := CheckRestrictedBy(root, store, check);
  }

  /** A parent whose check fails denies with the check's error. */
  method FailingCheck(failure: Error) returns (permitted: bool, err: Option<Error>)
    ensures !permitted && err == Some(failure)
  {
    var root := Scenarios.Bare("", ["parent"]);
    var store := map["parent" := Scenarios.Bare("", [])];
    var check := (p: Project) => Err(failure);
    ListedByRootIsReachable(root, store, "parent");
    assert Closed(root, store, {"parent"});
    ghost var fetched;
    permitted, err, fetched := CheckRestrictedBy(root, store, check);
  }

  /** `a` restricted by `b` restricted by `a`: the walk fetches `b` only and never returns to the root. */
  method Loop() returns (permitted: bool, err: Option<Error>, ghost fetched: seq<string>)
    ensures permitted && err == None && fetched == ["b"]
  {
    var root := Scenarios.Bare("a", ["b"]);
    var store := map["b" := Scenarios.Bare("b", ["a"])];
    ListedByRootIsReachable(root, store, "b");
    assert Closed(root, store, {"b"});
    permitted, err, fetched := CheckRestrictedBy(root, store, AlwaysPasses);
    DistinctCoversSet(fetched, {"b"});
  }

  /**
   * `a` restricted by `b` and `e`, `b` by `c` and `d`, `e` by `f` and `g`,
   * and, when `loop` holds, `g` again by `c`.
   */
  function Tree(loop: bool): Store {
    map[
      "a" := Scenarios.Bare("a", ["b", "e"]),
      "b" := Scenarios.Bare("b", ["c", "d"]),
      "c" := Scenarios.Bare("c", []),
      "d" := Scenarios.Bare("d", []),
      "e" := Scenarios.Bare("e", ["f", "g"]),
      "f" := Scenarios.Bare("f", []),
      "g" := Scenarios.Bare("g", if loop then ["c"] else [])]
  }

  lemma TreeAncestors(root: Project, store: Store)
    requires root.name == "a" && root.restrictedBy == ["b", "e"]
    requires "b" in store && store["b"].restrictedBy == ["c", "d"]
    requires "e" in store && store["e"].restrictedBy == ["f", "g"]
    requires "c" in store && store["c"].restrictedBy == []
    requires "d" in store && store["d"].restrictedBy == []
    requires "f" in store && store["f"].restrictedBy == []
    requires "g" in store && (store["g"].restrictedBy == [] || store["g"].restrictedBy == ["c"])
    ensures forall n :: Reachable(root, store, n) <==> n in {"b", "c", "d", "e", "f", "g"}
  {
    ListedByRootIsReachable(root, store, "b");
    ListedByRootIsReachable(root, store, "e");
    ListedByReachableAreReachable(root, store, "b");
    ListedByReachableAreReachable(root, store, "e");
    assert Closed(root, store, {"b", "c", "d", "e", "f", "g"});
  }

  lemma TreeSizes(loop: bool)
    ensures |Tree(loop)| == 7 && |{"b", "c", "d", "e", "f", "g"}| == 6
  {
    assert Tree(loop).Keys == {"a"} + {"b", "c", "d", "e", "f", "g"};
  }

  /** Every project but the root is fetched, each exactly once, with or without the extra edge. */
  method WholeTree(loop: bool) returns (permitted: bool, err: Option<Error>, ghost fetched: seq<string>)
    ensures permitted && err == None
    ensures |fetched| == |Tree(loop)| - 1
    ensures forall i, j :: 0 <= i < j < |fetched| ==> fetched[i] != fetched[j]
    ensures forall n :: n in fetched <==> n in Tree(loop) && n != "a"
  {
    var store := Tree(loop);
    TreeAncestors(store["a"], store);
    permitted, err, fetched := CheckRestrictedBy(store["a"], store, AlwaysPasses);
    DistinctCoversSet(fetched, {"b", "c", "d", "e", "f", "g"});
    TreeSizes(loop);
  }
}
