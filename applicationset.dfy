/**
 * The ApplicationSet API server's listing and validation logic
 * (server/applicationset/applicationset.go): the RBAC filter, the lookup by
 * name, the sort by name, and the guards that run before an ApplicationSet is
 * created. The RBAC enforcer, the project client and the generator check are
 * parameters.
 */
module ApplicationSets {
  import opened Wrappers
  import Projects

  /** The fields of an ApplicationSet that the server logic reads: its name and its template's project. */
  datatype ApplicationSet = ApplicationSet(name: string, project: string)

  datatype Error =
    | NotFound(name: string)              // no ApplicationSet has the queried name
    | Filtering(cause: Error)             // List wraps the lookup's error
    | NilApplicationSet                   // nothing to validate
    | TemplatedProject(project: string)   // the project field is a template
    | ProjectNotFound(project: string)    // the project client has no such project
    | InvalidGenerators(reason: string)   // the generator check refused the generators

  // ---------------------------------------------------------------------------
  // Name order: Go compares strings byte by byte, which for well-formed UTF-8
  // is the lexicographic order of the code points modelled here.

  /** `a` sorts strictly before `b`. */
  predicate Less(a: string, b: string) {
    if a == [] then b != []
    else if b == [] then false
    else if a[0] != b[0] then a[0] < b[0]
    else Less(a[1..], b[1..])
  }

  lemma {:induction false} LessIrreflexive(a: string)
    ensures !Less(a, a)
  {
    if a != [] {
      LessIrreflexive(a[1..]);
    }
  }

  lemma {:induction false} LessAsymmetric(a: string, b: string)
    ensures Less(a, b) ==> !Less(b, a)
  {
    if a != [] && b != [] && a[0] == b[0] {
      LessAsymmetric(a[1..], b[1..]);
    }
  }

  lemma {:induction false} LessTransitive(a: string, b: string, c: string)
    ensures Less(a, b) && Less(b, c) ==> Less(a, c)
  {
    if a != [] && b != [] && c != [] && a[0] == b[0] == c[0] {
      LessTransitive(a[1..], b[1..], c[1..]);
    }
  }

  lemma {:induction false} LessTotal(a: string, b: string)
    ensures a == b || Less(a, b) || Less(b, a)
  {
    if a != [] && b != [] && a[0] == b[0] {
      LessTotal(a[1..], b[1..]);
      assert a == [a[0]] + a[1..] && b == [b[0]] + b[1..];
    }
  }

  /** `x` may come before `y` in a list sorted by name. */
  predicate InOrder(x: ApplicationSet, y: ApplicationSet) {
    !Less(y.name, x.name)
  }

  lemma InOrderTransitive(x: ApplicationSet, y: ApplicationSet, z: ApplicationSet)
    requires InOrder(x, y) && InOrder(y, z)
    ensures InOrder(x, z)
  {
    LessTotal(x.name, y.name);
    LessTransitive(z.name, x.name, y.name);
  }

  /** Names never decrease along the list. */
  ghost predicate SortedByName(s: seq<ApplicationSet>) {
    forall p, q :: 0 <= p < q < |s| ==> InOrder(s[p], s[q])
  }

  // ---------------------------------------------------------------------------
  // The RBAC filter

  /** The items the enforcer lets the caller get, in their original order. */
  function Permitted(items: seq<ApplicationSet>, canGet: ApplicationSet -> bool): (kept: seq<ApplicationSet>)
    ensures |kept| <= |items|
    ensures forall x :: x in kept ==> x in items && canGet(x)
  {
    if items == [] then []
    else (if canGet(items[0]) then [items[0]] else []) + Permitted(items[1..], canGet)
  }

  /** Permitted drops exactly the refused items and keeps every accepted one as often as it occurs. */
  lemma {:induction false} PermittedKeepsAccepted(items: seq<ApplicationSet>, canGet: ApplicationSet -> bool)
    ensures forall x :: multiset(Permitted(items, canGet))[x] == if canGet(x) then multiset(items)[x] else 0
    ensures forall i :: 0 <= i < |Permitted(items, canGet)| ==> canGet(Permitted(items, canGet)[i])
  {
    if items != [] {
      PermittedKeepsAccepted(items[1..], canGet);
      assert items == [items[0]] + items[1..];
    }
  }

  // ---------------------------------------------------------------------------
  // Lookup by name

  /**
   * filterByName: an empty name leaves the list alone; otherwise the result is
   * the first item carrying that name, or an empty list and NotFound.
   */
  method FilterByName(apps: seq<ApplicationSet>, name: string) returns (items: seq<ApplicationSet>, err: Option<Error>)
    ensures name == "" ==> items == apps && err == None
    ensures name != "" ==> (err == None <==> exists i :: 0 <= i < |apps| && apps[i].name == name)
    ensures name != "" && err == None ==>
              exists k :: 0 <= k < |apps| && items == [apps[k]] && apps[k].name == name &&
                          forall i :: 0 <= i < k ==> apps[i].name != name
    ensures err.Some? ==> items == [] && err == Some(NotFound(name))
  {
    if name == "" {
      return apps, None;
    }
    items := [];
    for i := 0 to |apps|
      invariant forall j :: 0 <= j < i ==> apps[j].name != name
    {
      if apps[i].name == name {
        items := items + [apps[i]];
        return items, None;
      }
    }
    return items, Some(NotFound(name));
  }

  // ---------------------------------------------------------------------------
  // Sorting in place

  /** sort.Slice by name, as an insertion sort: afterwards the array is sorted and holds the same items. */
  method SortByName(a: array<ApplicationSet>)
    modifies a
    ensures SortedByName(a[..])
    ensures multiset(a[..]) == multiset(old(a[..]))
  {
    for i := 0 to a.Length
      invariant SortedByName(a[..i])
      invariant multiset(a[..]) == multiset(old(a[..]))
    {
      InsertLast(a, i);
    }
  }

  /** Moves a[i] left past every item with a greater name, so that a[..i+1] becomes sorted. */
  method InsertLast(a: array<ApplicationSet>, i: nat)
    requires i < a.Length && SortedByName(a[..i])
    modifies a
    ensures SortedByName(a[..i + 1])
    ensures multiset(a[..]) == multiset(old(a[..]))
    ensures a[i + 1..] == old(a[i + 1..])
  {
    var j := i;
    SortedExceptStart(a[..], i);
    while j > 0 && Less(a[j].name, a[j - 1].name)
      invariant 0 <= j <= i
      invariant multiset(a[..]) == multiset(old(a[..]))
      invariant SortedExcept(a[..], i, j)
      invariant a[i + 1..] == old(a[i + 1..])
    {
      SortedExceptStep(a[..], i, j);
      a[j], a[j - 1] := a[j - 1], a[j];
      j := j - 1;
    }
    SortedExceptEnd(a[..], i, j);
  }

  /**
   * While a[i] travels left, sitting at j: a[..i+1] is sorted once position j
   * is left out, and the item at j sorts no later than everything after it.
   */
  ghost predicate SortedExcept(s: seq<ApplicationSet>, i: nat, j: nat)
    requires j <= i < |s|
  {
    && (forall p, q :: 0 <= p < q <= i && p != j && q != j ==> InOrder(s[p], s[q]))
    && (forall q :: j < q <= i ==> InOrder(s[j], s[q]))
  }

  lemma SortedExceptStart(s: seq<ApplicationSet>, i: nat)
    requires i < |s| && SortedByName(s[..i])
    ensures SortedExcept(s, i, i)
  {
    forall p, q | 0 <= p < q < i
      ensures InOrder(s[p], s[q])
    {
      assert s[p] == s[..i][p] && s[q] == s[..i][q];
    }
  }

  lemma SortedExceptStep(s: seq<ApplicationSet>, i: nat, j: nat)
    requires 0 < j <= i < |s| && SortedExcept(s, i, j) && Less(s[j].name, s[j - 1].name)
    ensures SortedExcept(s[j := s[j - 1]][j - 1 := s[j]], i, j - 1)
  {
    LessAsymmetric(s[j].name, s[j - 1].name);
  }

  lemma SortedExceptEnd(s: seq<ApplicationSet>, i: nat, j: nat)
    requires j <= i < |s| && SortedExcept(s, i, j)
    requires j > 0 ==> !Less(s[j].name, s[j - 1].name)
    ensures SortedByName(s[..i + 1])
  {
    forall p | 0 <= p < j
      ensures InOrder(s[p], s[j])
    {
      if p < j - 1 {
        InOrderTransitive(s[p], s[j - 1], s[j]);
      }
    }
  }

  // ---------------------------------------------------------------------------
  // List

  /**
   * The items List answers with, up to order: the permitted ones, narrowed to
   * the first one named `queryName` when a name is given; NotFound when no
   * permitted item has that name.
   */
  function Selection(items: seq<ApplicationSet>, canGet: ApplicationSet -> bool, queryName: string)
    : (r: Result<seq<ApplicationSet>, Error>)
  {
    var kept := Permitted(items, canGet);
    if queryName == "" then Ok(kept)
    else FirstNamed(kept, queryName)
  }

  /** The first item with the given name, as a one-element list. */
  function FirstNamed(items: seq<ApplicationSet>, name: string): (r: Result<seq<ApplicationSet>, Error>)
    ensures r.Ok? ==> |r.value| == 1 && r.value[0] in items && r.value[0].name == name
  {
    if items == [] then Err(Filtering(NotFound(name)))
    else if items[0].name == name then Ok([items[0]])
    else FirstNamed(items[1..], name)
  }

  /** FirstNamed finds an item exactly when one carries the name, and the one it finds is the first. */
  lemma {:induction false} FirstNamedIsFirst(items: seq<ApplicationSet>, name: string)
    ensures FirstNamed(items, name).Ok? <==> exists i :: 0 <= i < |items| && items[i].name == name
    ensures FirstNamed(items, name).Ok? ==>
              exists k :: 0 <= k < |items| && FirstNamed(items, name).value == [items[k]] &&
                          items[k].name == name && forall i :: 0 <= i < k ==> items[i].name != name
    ensures FirstNamed(items, name).Err? ==> FirstNamed(items, name).error == Filtering(NotFound(name))
  {
    if items != [] && items[0].name != name {
      FirstNamedIsFirst(items[1..], name);
      if FirstNamed(items, name).Ok? {
        var k :| 0 <= k < |items[1..]| && FirstNamed(items, name).value == [items[1..][k]] &&
                 items[1..][k].name == name && forall i :: 0 <= i < k ==> items[1..][i].name != name;
        assert forall i :: 0 < i <= k ==> items[i] == items[1..][i - 1];
      } else {
        forall i | 0 < i < |items|
          ensures items[i].name != name
        {
          assert items[i] == items[1..][i - 1];
        }
      }
    }
  }

  /**
   * List: keep what the enforcer accepts, narrow to the queried name if one is
   * given, and return the result sorted by name.
   */
  method List(items: seq<ApplicationSet>, canGet: ApplicationSet -> bool, queryName: string)
    returns (r: Result<seq<ApplicationSet>, Error>)
    ensures r.Err? <==> Selection(items, canGet, queryName).Err?
    ensures r.Err? ==> r.error == Filtering(NotFound(queryName))
    ensures r.Ok? ==> SortedByName(r.value) &&
                      multiset(r.value) == multiset(Selection(items, canGet, queryName).value)
  {
    var newItems := KeepPermitted(items, canGet);
    if queryName != "" {
      var err;
      newItems, err := FilterByName(newItems, queryName);
      FirstNamedIsFirst(Permitted(items, canGet), queryName);
      if err.Some? {
        return Err(Filtering(err.value));
      }
    }
    var a := new ApplicationSet[|newItems|](k requires 0 <= k < |newItems| => newItems[k]);
    assert a[..] == newItems;
    SortByName(a);
    r := Ok(a[..]);
  }

  /** The enforcer loop at the head of List: append each item the caller may get. */
  method KeepPermitted(items: seq<ApplicationSet>, canGet: ApplicationSet -> bool) returns (newItems: seq<ApplicationSet>)
    ensures newItems == Permitted(items, canGet)
  {
    newItems := [];
    for i := 0 to |items|
      invariant newItems == Permitted(items[..i], canGet)
    {
      PermittedAppend(items[..i], items[i], canGet);
      if canGet(items[i]) {
        newItems := newItems + [items[i]];
      }
      assert items[..i + 1] == items[..i] + [items[i]];
    }
    assert items[..|items|] == items;
  }

  /** Filtering a list extended by one item extends the filtered list by that item when it is accepted. */
  lemma {:induction false} PermittedAppend(items: seq<ApplicationSet>, x: ApplicationSet, canGet: ApplicationSet -> bool)
    ensures Permitted(items + [x], canGet) == Permitted(items, canGet) + (if canGet(x) then [x] else [])
  {
    if items != [] {
      assert (items + [x])[1..] == items[1..] + [x];
      PermittedAppend(items[1..], x, canGet);
    }
  }

  /**
   * List answers with the permitted items, no others: every item of a
   * successful answer was in the input and is accepted by the enforcer, and
   * without a query name every accepted item is in the answer.
   */
  lemma ListedItemsArePermitted(items: seq<ApplicationSet>, canGet: ApplicationSet -> bool, queryName: string,
                                answer: seq<ApplicationSet>)
    requires Selection(items, canGet, queryName).Ok?
    requires multiset(answer) == multiset(Selection(items, canGet, queryName).value)
    ensures forall x :: x in answer ==> x in items && canGet(x)
    ensures queryName == "" ==> forall x :: x in items && canGet(x) ==> x in answer
    ensures queryName != "" ==> |answer| == 1 && answer[0].name == queryName
  {
    var kept := Permitted(items, canGet);
    PermittedKeepsAccepted(items, canGet);
    var selected := Selection(items, canGet, queryName).value;
    assert multiset(answer) == multiset(selected);
    if queryName != "" {
      FirstNamedIsFirst(kept, queryName);
      var k :| 0 <= k < |kept| && selected == [kept[k]] && kept[k].name == queryName;
      assert kept[k] in multiset(kept);
      assert multiset(answer) == multiset{kept[k]};
      assert |answer| == |multiset(answer)| == 1;
      assert answer[0] in multiset(answer);
    }
    forall x | x in answer
      ensures x in items && canGet(x)
    {
      assert x in multiset(answer);
      assert x in multiset(kept) by {
        if queryName != "" {
          FirstNamedIsFirst(kept, queryName);
        }
      }
    }
  }

  // ---------------------------------------------------------------------------
  // Validation before create

  /** strings.HasPrefix */
  predicate HasPrefix(s: string, prefix: string) {
    prefix <= s
  }

  /** strings.HasSuffix */
  predicate HasSuffix(s: string, suffix: string) {
    |suffix| <= |s| && s[|s| - |suffix|..] == suffix
  }

  /** A project name written as a template, such as `{{project}}`. */
  predicate IsTemplated(project: string) {
    HasPrefix(project, "{{") && HasSuffix(project, "}}")
  }

  /**
   * validateAppSet as written: the template guard tests HasPrefix twice, so it
   * asks for a name starting with both `{{` and `}}`.
   */
  function ValidateAppSetAsWritten(appset: Option<ApplicationSet>, projects: map<string, Projects.Project>,
                                   checkGenerators: ApplicationSet -> Option<string>)
    : (r: Result<Projects.Project, Error>)
    ensures appset.None? ==> r == Err(NilApplicationSet)
    ensures r.Ok? <==> appset.Some? && appset.value.project in projects && checkGenerators(appset.value).None?
    ensures r.Ok? ==> r.value == projects[appset.value.project]
  {
    if appset.None? then Err(NilApplicationSet)
    else
      var name := appset.value.project;
      AsWrittenGuardNeverFires(name);
      if HasPrefix(name, "{{") && HasPrefix(name, "}}") then Err(TemplatedProject(name))
      else if name !in projects then Err(ProjectNotFound(name))
      else if checkGenerators(appset.value).Some? then Err(InvalidGenerators(checkGenerators(appset.value).value))
      else Ok(projects[name])
  }

  /** The guard as written never fires: no string starts with both `{{` and `}}`. */
  lemma AsWrittenGuardNeverFires(name: string)
    ensures !(HasPrefix(name, "{{") && HasPrefix(name, "}}"))
  {
    if HasPrefix(name, "{{") {
      assert name[0] == '{';
    }
  }

  /** So a templated project name gets past the guard and is looked up like any other. */
  lemma TemplatedProjectPassesAsWritten(projects: map<string, Projects.Project>,
                                        checkGenerators: ApplicationSet -> Option<string>)
    requires "{{project}}" in projects
    requires checkGenerators(ApplicationSet("guestbook", "{{project}}")) == None
    ensures IsTemplated("{{project}}")
    ensures ValidateAppSetAsWritten(Some(ApplicationSet("guestbook", "{{project}}")), projects, checkGenerators)
            == Ok(projects["{{project}}"])
  {
    AsWrittenGuardNeverFires("{{project}}");
    assert "{{project}}"[|"{{project}}"| - 2..] == "}}";
  }

  /**
   * validateAppSet with the guard it evidently means: a nil ApplicationSet and
   * a templated project are refused, then the project must exist and the
   * generators must pass; the project found is returned.
   */
  function ValidateAppSet(appset: Option<ApplicationSet>, projects: map<string, Projects.Project>,
                          checkGenerators: ApplicationSet -> Option<string>)
    : (r: Result<Projects.Project, Error>)
    ensures appset.None? ==> r == Err(NilApplicationSet)
    ensures appset.Some? && IsTemplated(appset.value.project) ==> r == Err(TemplatedProject(appset.value.project))
    ensures r.Ok? <==> appset.Some? && !IsTemplated(appset.value.project) && appset.value.project in projects &&
                       checkGenerators(appset.value).None?
    ensures r.Ok? ==> r.value == projects[appset.value.project]
  {
    if appset.None? then Err(NilApplicationSet)
    else
      var name := appset.value.project;
      if IsTemplated(name) then Err(TemplatedProject(name))
      else if name !in projects then Err(ProjectNotFound(name))
      else if checkGenerators(appset.value).Some? then Err(InvalidGenerators(checkGenerators(appset.value).value))
      else Ok(projects[name])
  }

  /** The two versions differ exactly on templated project names. */
  lemma ValidationDiffersOnlyOnTemplates(appset: Option<ApplicationSet>, projects: map<string, Projects.Project>,
                                         checkGenerators: ApplicationSet -> Option<string>)
    requires appset.Some? ==> !IsTemplated(appset.value.project)
    ensures ValidateAppSet(appset, projects, checkGenerators) == ValidateAppSetAsWritten(appset, projects, checkGenerators)
  {
    if appset.Some? {
      AsWrittenGuardNeverFires(appset.value.project);
    }
  }
}
