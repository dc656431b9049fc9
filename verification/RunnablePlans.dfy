// When every task of a resolved cluster can be carried out by the node.
module RunnablePlans {
  import opened Options
  import opened Resolver
  import opened ResolverProofs
  import opened ResolvedPlans

  predicate Supported(typ: string) {
    || typ == "install" || typ == "install_local" || typ == "install_external" || typ == "delete" || typ == "schedule"
    || typ in ["download", "link", "enable", "file_string", "file_bytes", "user", "command"]
  }

  // The first manager of a package that is declared at all, with what it requires.
  ghost predicate FirstKnownUsable(e: Env, ms: seq<string>)
    decreases |ms|
  {
    ms != [] &&
    if ms[0] in e.root.managers then e.root.managers[ms[0]].needs != [] else FirstKnownUsable(e, ms[1..])
  }

  ghost predicate Installable(e: Env, ms: seq<string>) {
    (exists m :: m in ms && m in e.builtin) || FirstKnownUsable(e, ms)
  }

  // What the features of v must satisfy besides being closed and ranked: their task types are
  // supported, and the package of each of their install tasks is global or made available by
  // something that the feature requires, and can be had.
  ghost predicate Sturdy(e: Env, v: set<string>)
    requires Ranked(e)
  {
    forall b, t :: b in v && b in e.root.features && t in TasksFor(e.root.features[b], e.os) ==>
      Supported(t.typ) && (t.typ == "install" ==> Reachable(e, b, t.package) && Obtainable(e, v, t.package))
  }

  ghost predicate Reachable(e: Env, b: string, package: string)
    requires Ranked(e) && b in e.root.features
  {
    package in e.root.packages || package in ProvidedBy(e, e.root.features[b].needs, e.rank(b))
  }

  // The package is not declared in two ways, and one of its managers is there or can be added.
  ghost predicate Obtainable(e: Env, v: set<string>, package: string) {
    && (forall ms, ms' :: PossibleIn(e, v, package, ms) && PossibleIn(e, v, package, ms') ==> ms == ms')
    && (forall ms :: PossibleIn(e, v, package, ms) ==> Installable(e, ms))
  }

  // The manager that a node installs a package with: its first one that the package names.
  function FirstManager(managers: seq<Manager>, ms: seq<string>): Option<Manager> {
    if managers == [] then None
    else if managers[0].name in ms then Some(managers[0])
    else FirstManager(managers[1..], ms)
  }

  lemma {:induction false} ManagedHasFirst(managers: seq<Manager>, ms: seq<string>)
    ensures FirstManager(managers, ms).Some? <==> Managed(managers, ms)
    ensures FirstManager(managers, ms).Some? ==>
              FirstManager(managers, ms).value in managers && FirstManager(managers, ms).value.name in ms
  {
    if managers != [] {
      ManagedHasFirst(managers[1..], ms);
      assert forall i :: 1 <= i < |managers| ==> managers[i] == managers[1..][i - 1];
      if Managed(managers[1..], ms) {
        var i :| 0 <= i < |managers[1..]| && managers[1..][i].name in ms;
        assert managers[i + 1].name in ms;
      }
    }
  }

  // Managers that come later do not change it.
  lemma {:induction false} FirstManagerStays(managers: seq<Manager>, managers': seq<Manager>, ms: seq<string>)
    requires managers <= managers' && FirstManager(managers, ms).Some?
    ensures FirstManager(managers', ms) == FirstManager(managers, ms)
  {
    if managers[0].name !in ms {
      FirstManagerStays(managers[1..], managers'[1..], ms);
    }
  }

  // The task is what its definition says, and if it installs a package, the cluster has a manager
  // for it, and what the one that will be used requires is in the list.
  ghost predicate TaskFit(e: Env, managers: seq<Manager>, system: seq<Feature>, d: TaskDef, t: Task) {
    && t != BLANK && t.typ == d.typ
    && (d.typ == "install" ==>
          && t.package.Some? && t.package.value.name == d.package
          && FirstManager(managers, t.package.value.managers).Some?
          && ManagerOk(e, system, FirstManager(managers, t.package.value.managers).value))
  }

  // The part of the system list that is worked off before the feature at position i.
  function SystemBefore(s: State, service: bool, i: nat): seq<Feature>
    requires i < |ListOf(s, service)|
  {
    if service then s.system else s.system[..i]
  }

  ghost predicate FeatureFit(e: Env, s: State, service: bool, i: nat)
    requires i < |ListOf(s, service)|
  {
    var f := ListOf(s, service)[i];
    Base(f.name) in e.root.features
      && TasksFit(e, s.managers, SystemBefore(s, service, i), TasksFor(e.root.features[Base(f.name)], e.os), f.tasks)
  }

  ghost predicate TasksFit(e: Env, managers: seq<Manager>, system: seq<Feature>, defs: seq<TaskDef>, tasks: seq<Task>) {
    |tasks| == |defs| && forall j :: 0 <= j < |tasks| ==> TaskFit(e, managers, system, defs[j], tasks[j])
  }

  // Everything listed so far can be carried out.
  ghost predicate Fit(e: Env, s: State) {
    && (forall service: bool, i :: 0 <= i < |ListOf(s, service)| ==> FeatureFit(e, s, service, i))
    && e.root.packages.Keys <= s.packages.Keys
  }

  // ----- which manager is added -----

  // Where none of the wanted managers is there, the first one that is declared at all is added after
  // everything that it requires, if it requires anything; otherwise nothing changes.
  lemma {:induction false} AddsFirstKnown(e: Env, ms: seq<string>, s: State, bound: nat, i: nat)
    requires Ranked(e) && TableOk(e, s.packages) && ManagersBelow(e, ms, bound) && i <= |ms|
    requires forall k :: 0 <= k < i ==> ms[k] !in e.root.managers
    requires i < |ms| ==> ms[i] in e.root.managers && Below(e, e.root.managers[ms[i]].needs, bound)
    ensures i == |ms| || e.root.managers[ms[i]].needs == [] ==> AddFirstKnown(e, ms, s, bound) == Resolved(s)
    ensures i < |ms| && e.root.managers[ms[i]].needs != [] ==>
              AddFirstKnown(e, ms, s, bound) == match Resolve(e, e.root.managers[ms[i]].needs, s, bound)
                                                case Crashed => Crashed
                                                case Resolved(s1) =>
                                                  Resolved(s1.(managers := s1.managers + [Manager(ms[i], false)]))
    decreases i
  {
    hide Ranked;
    hide TableOk;
    hide Resolve;
    hide Below;
    if i > 0 {
      AddsFirstKnown(e, ms[1..], s, bound, i - 1);
    }
  }

  lemma EnsureAddsFirstKnown(e: Env, ms: seq<string>, s: State, bound: nat, i: nat)
    requires Ranked(e) && TableOk(e, s.packages) && ManagersBelow(e, ms, bound) && i <= |ms|
    requires forall k :: 0 <= k < i ==> ms[k] !in e.root.managers
    requires i < |ms| ==> ms[i] in e.root.managers && Below(e, e.root.managers[ms[i]].needs, bound)
    ensures (exists m :: m in s.managers && m.name in ms) || i == |ms| || e.root.managers[ms[i]].needs == [] ==>
              EnsureManager(e, ms, s, bound) == Resolved(s)
    ensures !(exists m :: m in s.managers && m.name in ms) && i < |ms| && e.root.managers[ms[i]].needs != [] ==>
              EnsureManager(e, ms, s, bound) == match Resolve(e, e.root.managers[ms[i]].needs, s, bound)
                                                case Crashed => Crashed
                                                case Resolved(s1) =>
                                                  Resolved(s1.(managers := s1.managers + [Manager(ms[i], false)]))
  {
    hide Ranked;
    hide TableOk;
    hide Resolve;
    hide Below;
    hide ManagersBelow;
    hide AddFirstKnown;
    AddsFirstKnown(e, ms, s, bound, i);
    if m :| m in s.managers && m.name in ms {
      var k :| 0 <= k < |s.managers| && s.managers[k] == m;
      assert s.managers[k].name in ms;
    }
    if Managed(s.managers, ms) {
      var k :| 0 <= k < |s.managers| && s.managers[k].name in ms;
      assert s.managers[k] in s.managers;
    }
  }

  lemma LocalManagerIsThere(e: Env, v: set<string>, m: string, s: State, bound: nat)
    requires Ranked(e) && ClosedOver(e, v, bound) && Good(e, v, s) && TableOk(e, s.packages)
    requires ManagersBelow(e, [m], bound) && ManagersIn(e, v, [m])
    requires m in e.root.managers && e.root.managers[m].needs != []
    ensures var r := EnsureManager(e, [m], s, bound); r.Resolved? && exists x :: x in r.s.managers && x.name == m
  {
    hide Ranked;
    hide ClosedOver;
    hide Good;
    hide TableOk;
    hide Below;
    hide EnsureManager;
    hide Resolve;
    EnsureAchieves(e, v, [m], s, bound);
    assert Below(e, e.root.managers[m].needs, bound) by { assert m in [m]; }
    EnsureAddsFirstKnown(e, [m], s, bound, 0);
    var r := EnsureManager(e, [m], s, bound).s;
    if x :| x in s.managers && x.name in [m] {
      assert x in r.managers && x.name == m;
    } else {
      assert r.managers[|r.managers| - 1].name == m;
    }
  }

  // A task of type installLocal brings its package manager into the cluster.
  lemma {:induction false} LocalManagerComes(e: Env, v: set<string>, defs: seq<TaskDef>, s: State, bound: nat, k: nat)
    requires Ranked(e) && ClosedOver(e, v, bound) && Good(e, v, s) && TableOk(e, s.packages)
    requires TasksBelow(e, defs, bound) && TasksIn(e, v, defs) && k < |defs| && defs[k].typ == "installLocal"
    requires defs[k].manager in e.root.managers && e.root.managers[defs[k].manager].needs != []
    ensures var b := AddTasks(e, defs, s, bound);
      b.Built? && exists m :: m in b.s.managers && m.name == defs[k].manager
    decreases k
  {
    hide Ranked;
    hide ClosedOver;
    hide Good;
    hide TableOk;
    hide EnsureManager;
    hide ConfTask;
    hide Possible;
    hide PossibleIn;
    hide ManagersBelow;
    hide ManagersIn;
    var t, s1 := defs[0], s;
    assert t in defs && "install" != "installLocal" && forall d :: d in defs[1..] ==> d in defs;
    AddTasksAchieves(e, v, defs, s, bound);
    if t.typ == "install" && t.package in s.packages {
      assert Possible(e, t.package, s.packages[t.package]) by { TableNames(e, s.packages, t.package); }
      assert PossibleIn(e, v, t.package, s.packages[t.package]) by { TableNamesIn(e, v, s, t.package); }
      EnsureAchieves(e, v, s.packages[t.package], s, bound);
      s1 := EnsureManager(e, s.packages[t.package], s, bound).s;
      GoodTable(e, v, s1);
    } else if t.typ == "installLocal" {
      EnsureAchieves(e, v, [t.manager], s, bound);
      s1 := EnsureManager(e, [t.manager], s, bound).s;
      GoodTable(e, v, s1);
    }
    AddTasksAchieves(e, v, defs[1..], s1, bound);
    if k > 0 {
      LocalManagerComes(e, v, defs[1..], s1, bound, k - 1);
    } else {
      LocalManagerIsThere(e, v, t.manager, s, bound);
      var m :| m in s1.managers && m.name == t.manager;
      assert m in AddTasks(e, defs[1..], s1, bound).s.managers;
    }
  }

  // ----- fitness stays -----

  lemma TasksStayFit(e: Env, managers: seq<Manager>, managers': seq<Manager>, system: seq<Feature>,
                     system': seq<Feature>, defs: seq<TaskDef>, tasks: seq<Task>)
    requires TasksFit(e, managers, system, defs, tasks) && managers <= managers' && system <= system'
    ensures TasksFit(e, managers', system', defs, tasks)
  {
    hide ManagerOk;
    forall j | 0 <= j < |tasks| ensures TaskFit(e, managers', system', defs[j], tasks[j]) {
      if defs[j].typ == "install" {
        assert TaskFit(e, managers, system, defs[j], tasks[j]);
        var ms := tasks[j].package.value.managers;
        FirstManagerStays(managers, managers', ms);
        ManagerStaysOk(e, system, system', FirstManager(managers, ms).value);
      }
    }
  }

  lemma FeaturesStayFit(e: Env, s: State, s': State)
    requires Fit(e, s) && Extends(s, s')
    ensures forall service: bool, i :: 0 <= i < |ListOf(s, service)| ==> FeatureFit(e, s', service, i)
    ensures e.root.packages.Keys <= s'.packages.Keys
  {
    hide TasksFit;
    hide TasksFor;
    forall service: bool, i | 0 <= i < |ListOf(s, service)| ensures FeatureFit(e, s', service, i) {
      assert FeatureFit(e, s, service, i);
      assert ListOf(s', service)[i] == ListOf(s, service)[i];
      var f := ListOf(s, service)[i];
      assert SystemBefore(s, service, i) <= SystemBefore(s', service, i);
      TasksStayFit(e, s.managers, s'.managers, SystemBefore(s, service, i), SystemBefore(s', service, i),
                   TasksFor(e.root.features[Base(f.name)], e.os), f.tasks);
    }
  }

  lemma SameListsStayFit(e: Env, s: State, s': State)
    requires Fit(e, s) && Extends(s, s') && s'.system == s.system && s'.service == s.service
    ensures Fit(e, s')
  {
    hide FeatureFit;
    FeaturesStayFit(e, s, s');
  }

  // ----- the induction -----

  lemma {:induction false} ResolveFits(e: Env, v: set<string>, names: seq<string>, s: State, bound: nat)
    requires Ranked(e) && ClosedOver(e, v, bound) && Sturdy(e, v) && In(v, names) && Below(e, names, bound)
    requires Good(e, v, s) && TableOk(e, s.packages) && Fit(e, s)
    ensures Resolve(e, names, s, bound).Resolved? && Fit(e, Resolve(e, names, s, bound).s)
    decreases bound, 0, |names|
  {
    hide Ranked;
    hide ClosedOver;
    hide Sturdy;
    hide Good;
    hide Fit;
    hide TableOk;
    hide ResolveOne;
    if names != [] {
      assert names[0] in names;
      InScope(e, v, names, bound);
      ResolveOneAchieves(e, v, names[0], s);
      ResolveOneFits(e, v, names[0], s);
      var s1 := ResolveOne(e, names[0], s).s;
      ResolveFits(e, v, names[1..], s1, bound);
    }
  }

  lemma InScope(e: Env, v: set<string>, names: seq<string>, bound: nat)
    requires ClosedOver(e, v, bound) && In(v, names) && Below(e, names, bound) && names != []
    ensures Base(names[0]) in e.root.features && ClosedOver(e, v, e.rank(Base(names[0])) + 1)
  {
    assert names[0] in names;
    ClosedLess(e, v, bound, e.rank(Base(names[0])) + 1);
  }

  lemma {:induction false} ResolveOneFits(e: Env, v: set<string>, name: string, s: State)
    requires Ranked(e) && ClosedOver(e, v, e.rank(Base(name)) + 1) && Sturdy(e, v) && Base(name) in v
    requires Good(e, v, s) && TableOk(e, s.packages) && Fit(e, s)
    ensures ResolveOne(e, name, s).Resolved? && Fit(e, ResolveOne(e, name, s).s)
    decreases e.rank(Base(name)), 4
  {
    hide Ranked;
    hide ClosedOver;
    hide Sturdy;
    hide Good;
    hide Fit;
    hide TableOk;
    hide Resolve;
    hide AddTasks;
    hide TasksFor;
    hide IsServiceLevel;
    hide Has;
    assert Base(name) in e.root.features by { ScopeIsDeclared(e, v, s, Base(name)); }
    DefKeepsRank(e, name);
    var d, rank := DefOf(e, name), e.rank(Base(name));
    var service := IsServiceLevel(d, e.os);
    if !Has(ListOf(s, service), FullName(name)) {
      ClosedAt(e, v, name, rank + 1);
      ClosedLess(e, v, rank + 1, rank);
      ResolveAchieves(e, v, d.needs, s, rank);
      ResolveFits(e, v, d.needs, s, rank);
      var s1 := Resolve(e, d.needs, s, rank).s;
      StillMissing(e, s, s1, service, name, rank);
      GoodTable(e, v, s1);
      InstallsReachable(e, v, name, s1);
      var defs := TasksFor(d, e.os);
      AddTasksAchieves(e, v, defs, s1, rank);
      AddTasksFits(e, v, defs, s1, rank);
      var b := AddTasks(e, defs, s1, rank);
      AppendFits(e, name, b.s, b.tasks);
    }
  }

  // By the time a feature's tasks are looked at, all their packages are in the table.
  lemma InstallsReachable(e: Env, v: set<string>, name: string, s: State)
    requires Ranked(e) && Sturdy(e, v) && Good(e, v, s) && Base(name) in v
    requires Fit(e, s) && forall n :: n in e.root.features[Base(name)].needs ==> Listed(e, s, n)
    ensures InstallsKnown(e, v, TasksFor(DefOf(e, name), e.os), s.packages)
  {
    hide Ranked;
    hide ClosedOver;
    hide TasksFor;
    hide DefOf;
    hide Provided;
    hide ProvidedBy;
    hide Listed;
    hide Named;
    hide Ordered;
    hide Stocked;
    hide ManagersOk;
    hide TableIn;
    hide FeatureFit;
    hide PossibleIn;
    hide Obtainable;
    var b := e.root.features[Base(name)];
    DefKeepsRank(e, name);
    forall n | n in b.needs ensures Supplied(e, s, n) {
      ListedIsSupplied(e, s, n);
    }
    NeedsSupplied(e, s, b.needs, e.rank(Base(name)));
    var defs, was := TasksFor(DefOf(e, name), e.os), TasksFor(b, e.os);
    forall t | t in defs
      ensures Supported(t.typ) && (t.typ == "install" ==> t.package in s.packages && Obtainable(e, v, t.package))
    {
      var i :| 0 <= i < |defs| && defs[i] == t;
      assert was[i] in was;
      assert Supported(was[i].typ) && (was[i].typ == "install" ==> Reachable(e, Base(name), was[i].package));
    }
  }

  ghost predicate InstallsKnown(e: Env, v: set<string>, defs: seq<TaskDef>, packages: map<string, seq<string>>) {
    forall t :: t in defs ==>
      Supported(t.typ) && (t.typ == "install" ==> t.package in packages && Obtainable(e, v, t.package))
  }

  lemma {:induction false} AddTasksFits(e: Env, v: set<string>, defs: seq<TaskDef>, s: State, bound: nat)
    requires Ranked(e) && ClosedOver(e, v, bound) && Sturdy(e, v) && TasksBelow(e, defs, bound) && TasksIn(e, v, defs)
    requires Good(e, v, s) && TableOk(e, s.packages) && Fit(e, s) && InstallsKnown(e, v, defs, s.packages)
    ensures var b := AddTasks(e, defs, s, bound);
      b.Built? && Fit(e, b.s) && TasksFit(e, b.s.managers, b.s.system, defs, b.tasks)
    decreases bound, 3, |defs|
  {
    hide Ranked;
    hide ClosedOver;
    hide Sturdy;
    hide Good;
    hide Fit;
    hide TableOk;
    hide EnsureManager;
    hide ConfTask;
    hide Supported;
    hide TaskFit;
    hide Possible;
    hide PossibleIn;
    hide ManagersBelow;
    hide ManagersIn;
    hide Installable;
    if defs != [] {
      var t := defs[0];
      assert t in defs;
      var s1 := s;
      NotLocal(t.typ);
      if t.typ == "install" {
        assert Possible(e, t.package, s.packages[t.package]) by { TableNames(e, s.packages, t.package); }
        assert PossibleIn(e, v, t.package, s.packages[t.package]) by { TableNamesIn(e, v, s, t.package); }
        EnsureAchieves(e, v, s.packages[t.package], s, bound);
        EnsureFits(e, v, s.packages[t.package], s, bound);
        s1 := EnsureManager(e, s.packages[t.package], s, bound).s;
        GoodTable(e, v, s1);
        SamePackage(e, v, s, s1, t.package);
      }
      TaskIsFit(e, v, s1, t);
      AddTasksAchieves(e, v, defs[1..], s1, bound);
      AddTasksFits(e, v, defs[1..], s1, bound);
      var b := AddTasks(e, defs[1..], s1, bound);
      TasksStayFit(e, s1.managers, b.s.managers, s1.system, b.s.system, [t], [ConfTask(s1.packages, t)]);
      assert TaskFit(e, b.s.managers, b.s.system, [t][0], [ConfTask(s1.packages, t)][0]);
    }
  }

  lemma TableNames(e: Env, packages: map<string, seq<string>>, k: string)
    requires TableOk(e, packages) && k in packages
    ensures Possible(e, k, packages[k])
  {
  }

  lemma NotLocal(typ: string)
    requires Supported(typ)
    ensures typ != "installLocal"
  {
    assert "installLocal"[7] != "install_local"[7] && "installLocal"[7] != "install_external"[7];
  }

  lemma SamePackage(e: Env, v: set<string>, s: State, s': State, k: string)
    requires Ranked(e) && Good(e, v, s) && Good(e, v, s') && Obtainable(e, v, k)
    requires k in s.packages && k in s'.packages
    ensures s'.packages[k] == s.packages[k]
  {
    hide Ranked;
    hide Good;
    hide PossibleIn;
    TableNamesIn(e, v, s, k);
    TableNamesIn(e, v, s', k);
  }

  // A task whose package is in the table and managed is fit.
  lemma TaskIsFit(e: Env, v: set<string>, s: State, t: TaskDef)
    requires Ranked(e) && Good(e, v, s) && Supported(t.typ)
    requires t.typ == "install" ==> t.package in s.packages && Managed(s.managers, s.packages[t.package])
    ensures TasksFit(e, s.managers, s.system, [t], [ConfTask(s.packages, t)])
  {
    hide Ranked;
    hide ClosedOver;
    hide InService;
    hide Named;
    hide Ordered;
    hide Stocked;
    hide TableIn;
    ConfTaskKeepsType(s.packages, t);
    if t.typ == "install" {
      ManagedHasFirst(s.managers, s.packages[t.package]);
    }
  }

  lemma ConfTaskKeepsType(packages: map<string, seq<string>>, t: TaskDef)
    requires Supported(t.typ) && (t.typ == "install" ==> t.package in packages)
    ensures ConfTask(packages, t) != BLANK && ConfTask(packages, t).typ == t.typ
    ensures t.typ == "install" ==> ConfTask(packages, t).package == Some(Package(t.package, packages[t.package]))
  {
  }

  lemma EnsureFits(e: Env, v: set<string>, ms: seq<string>, s: State, bound: nat)
    requires Ranked(e) && ClosedOver(e, v, bound) && Sturdy(e, v) && ManagersBelow(e, ms, bound) && ManagersIn(e, v, ms)
    requires Good(e, v, s) && TableOk(e, s.packages) && Fit(e, s) && Installable(e, ms)
    ensures var r := EnsureManager(e, ms, s, bound); r.Resolved? && Fit(e, r.s) && Managed(r.s.managers, ms)
    decreases bound, 2
  {
    hide Ranked;
    hide ClosedOver;
    hide Sturdy;
    hide Good;
    hide Fit;
    hide AddFirstKnown;
    hide ManagersBelow;
    if !Managed(s.managers, ms) {
      if m :| m in ms && m in e.builtin {
        BuiltinManages(e, v, s, ms, m);
      }
      AddFirstFits(e, v, ms, s, bound);
    }
  }

  lemma {:induction false} AddFirstFits(e: Env, v: set<string>, ms: seq<string>, s: State, bound: nat)
    requires Ranked(e) && ClosedOver(e, v, bound) && Sturdy(e, v)
    requires ManagersBelow(e, ms, bound) && FirstKnownIn(e, v, ms)
    requires Good(e, v, s) && TableOk(e, s.packages) && Fit(e, s) && FirstKnownUsable(e, ms)
    ensures var r := AddFirstKnown(e, ms, s, bound); r.Resolved? && Fit(e, r.s) && Managed(r.s.managers, ms)
    decreases bound, 1, |ms|
  {
    hide Ranked;
    hide ClosedOver;
    hide Sturdy;
    hide Good;
    hide Fit;
    hide Resolve;
    hide Below;
    assert ms[0] in ms;
    if ms[0] !in e.root.managers {
      AddFirstFits(e, v, ms[1..], s, bound);
      ManagedByMore(AddFirstKnown(e, ms[1..], s, bound).s.managers, ms);
    } else {
      ResolveAchieves(e, v, e.root.managers[ms[0]].needs, s, bound);
      ResolveFits(e, v, e.root.managers[ms[0]].needs, s, bound);
      var s1 := Resolve(e, e.root.managers[ms[0]].needs, s, bound).s;
      var s2 := s1.(managers := s1.managers + [Manager(ms[0], false)]);
      SameListsStayFit(e, s1, s2);
      assert s2.managers[|s1.managers|].name in ms;
    }
  }

  lemma ManagedByMore(managers: seq<Manager>, ms: seq<string>)
    requires ms != [] && Managed(managers, ms[1..])
    ensures Managed(managers, ms)
  {
    var i :| 0 <= i < |managers| && managers[i].name in ms[1..];
    assert managers[i].name in ms;
  }

  lemma AppendFits(e: Env, name: string, s: State, tasks: seq<Task>)
    requires Ranked(e) && Base(name) in e.root.features && Fit(e, s)
    requires TasksFit(e, s.managers, s.system, TasksFor(DefOf(e, name), e.os), tasks)
    ensures Fit(e, Appended(e, name, s, DefOf(e, name).friendly, tasks))
  {
    hide Ranked;
    hide ClosedOver;
    hide DefOf;
    hide TasksFor;
    hide IsServiceLevel;
    hide FeatureFit;
    var friendly := DefOf(e, name).friendly;
    var s' := Appended(e, name, s, friendly, tasks);
    assert Extends(s, s');
    FeaturesStayFit(e, s, s');
    Grew(e, s, name, friendly, tasks);
    DefKeepsRank(e, name);
    NewIsFit(e, name, s, s', tasks);
  }

  lemma NewIsFit(e: Env, name: string, s: State, s': State, tasks: seq<Task>)
    requires Ranked(e) && Base(name) in e.root.features && s' == Appended(e, name, s, DefOf(e, name).friendly, tasks)
    requires TasksFit(e, s.managers, s.system, TasksFor(DefOf(e, name), e.os), tasks)
    ensures var service := InService(e, name);
      |ListOf(s, service)| < |ListOf(s', service)| && FeatureFit(e, s', service, |ListOf(s, service)|)
  {
    hide Ranked;
    hide DefOf;
    hide TasksFor;
    hide IsServiceLevel;
    hide ManagerOk;
    FullNameKeepsBase(name);
    DefKeepsRank(e, name);
    Grew(e, s, name, DefOf(e, name).friendly, tasks);
    var service := InService(e, name);
    var i := |ListOf(s, service)|;
    assert s.system == SystemBefore(s', service, i);
    var defs, was := TasksFor(DefOf(e, name), e.os), TasksFor(e.root.features[Base(name)], e.os);
    forall j | 0 <= j < |tasks| ensures TaskFit(e, s'.managers, s.system, was[j], tasks[j]) {
      assert TaskFit(e, s.managers, s.system, defs[j], tasks[j]);
    }
  }

  // ----- a whole cluster -----

  // A cluster as ParseSystem sets it up: no features yet, the declared packages, and the package
  // managers of its operating system.
  ghost predicate Initial(e: Env, s: State) {
    && s.system == [] && s.service == [] && s.packages == e.root.packages
    && (forall m :: m in s.managers ==> m.name in e.builtin)
    && (forall b :: b in e.builtin ==> exists m :: m in s.managers && m.name == b)
  }

  lemma InitialIsGood(e: Env, v: set<string>, s: State)
    requires Ranked(e) && v <= e.root.features.Keys && Initial(e, s)
    ensures Good(e, v, s) && Fit(e, s)
  {
    hide Ranked;
    hide ClosedOver;
  }

  // Another service's list, fit in an earlier state of the cluster, with the final system list.
  lemma RestaffedFits(e: Env, s: State, s': State, service: seq<Feature>)
    requires Fit(e, s') && s.system <= s'.system && s.managers <= s'.managers && s.packages.Keys <= s'.packages.Keys
    requires service == [] || (service == s.service && Fit(e, s))
    ensures Fit(e, s'.(service := service))
  {
    hide FeatureFit;
    var r := s'.(service := service);
    forall i | 0 <= i < |r.system| ensures FeatureFit(e, r, false, i) {
      assert FeatureFit(e, s', false, i) by { assert i < |ListOf(s', false)|; }
      SystemFeatureSame(e, s', r, i);
    }
    if service != [] {
      FeaturesStayFit(e, s, r);
      forall i | 0 <= i < |r.service| ensures FeatureFit(e, r, true, i) {
        assert i < |ListOf(s, true)|;
      }
    }
    forall level: bool, i | 0 <= i < |ListOf(r, level)| ensures FeatureFit(e, r, level, i) {
    }
  }

  lemma SystemFeatureSame(e: Env, s: State, s': State, i: nat)
    requires i < |s.system| && s'.system == s.system && s'.managers == s.managers && FeatureFit(e, s, false, i)
    ensures FeatureFit(e, s', false, i)
  {
    hide TasksFit;
    hide TasksFor;
  }

  // On every node of the cluster, whichever service it runs, every task of the plan is one that
  // the configuration declares, none is blank, and each package to install has a manager among
  // the cluster's final ones whose system-level requirements come earlier in the plan.
  lemma {:induction false} ServicesFit(e: Env, v: set<string>, servs: seq<ServiceDef>, s: State, bound: nat)
    requires Ranked(e) && ClosedOver(e, v, bound) && Sturdy(e, v)
    requires Requestable(e, servs, bound) && RequestedIn(v, servs)
    requires Good(e, v, s) && TableOk(e, s.packages) && Fit(e, s)
    ensures var r := ResolveServices(e, servs, s, bound);
      r.Some? && Fit(e, r.value.0) && forall j :: 0 <= j < |servs| ==> Fit(e, r.value.0.(service := r.value.1[j]))
    decreases |servs|
  {
    hide Ranked;
    hide ClosedOver;
    hide Sturdy;
    hide Good;
    hide Fit;
    hide Resolve;
    hide TableOk;
    hide Below;
    hide In;
    hide AlwaysFor;
    hide Listed;
    hide AddsBelow;
    if servs != [] {
      assert servs[0] in servs;
      var bare := s.(service := []);
      FreshServiceGood(e, v, s);
      RestaffedFits(e, s, s, []);
      ResolveAchieves(e, v, servs[0].features, bare, bound);
      ResolveFits(e, v, servs[0].features, bare, bound);
      var s1 := Resolve(e, servs[0].features, bare, bound).s;
      GoodTable(e, v, s1);
      ResolveAchieves(e, v, AlwaysFor(servs[0]), s1, bound);
      ResolveFits(e, v, AlwaysFor(servs[0]), s1, bound);
      var s2 := Resolve(e, AlwaysFor(servs[0]), s1, bound).s;
      GoodTable(e, v, s2);
      ServicesResolve(e, v, servs[1..], s2, bound);
      ServicesFit(e, v, servs[1..], s2, bound);
      var r := ResolveServices(e, servs[1..], s2, bound).value;
      RestaffedFits(e, s2, r.0, s2.service);
      var all := ResolveServices(e, servs, s, bound).value.1;
      forall j | 0 <= j < |servs| ensures Fit(e, r.0.(service := all[j])) {
        if j > 0 {
          assert all[j] == r.1[j - 1];
        }
      }
    }
  }

  lemma ScopeDeclared(e: Env, v: set<string>, bound: nat)
    requires ClosedOver(e, v, bound)
    ensures v <= e.root.features.Keys
  {
  }

  // What every service gets beside what it asks for.
  function GivenTo(machineName: string): seq<string> {
    ["tools", "utf8", "cron", "buri", "nerthus", "service " + machineName]
  }

  lemma GivenIsAlways(serv: ServiceDef)
    ensures forall n :: n in GivenTo(serv.machineName) ==> n in AlwaysFor(serv)
  {
    assert GivenTo(serv.machineName) == AlwaysFor(serv);
  }

  // From a cluster as it is set up, for any services: resolution comes to an end without a crash,
  // and leaves every service a plan that is in order, complete, and fit.
  lemma ClustersResolve(e: Env, v: set<string>, servs: seq<ServiceDef>, s: State, bound: nat)
    requires Ranked(e) && ClosedOver(e, v, bound) && Initial(e, s) && TableOk(e, s.packages)
    requires Requestable(e, servs, bound) && RequestedIn(v, servs)
    ensures var r := ResolveServices(e, servs, s, bound);
      r.Some? && forall j :: 0 <= j < |servs| ==>
        var done := r.value.0.(service := r.value.1[j]);
        && Good(e, v, done)
        && (forall n :: n in servs[j].features || n in GivenTo(servs[j].machineName) ==> Listed(e, done, n))
        && (Sturdy(e, v) ==> Fit(e, done))
  {
    assert v <= e.root.features.Keys by { ScopeDeclared(e, v, bound); }
    hide *;
    InitialIsGood(e, v, s);
    ServicesResolve(e, v, servs, s, bound);
    forall j | 0 <= j < |servs| ensures forall n :: n in GivenTo(servs[j].machineName) ==> n in AlwaysFor(servs[j]) {
      GivenIsAlways(servs[j]);
    }
    if Sturdy(e, v) {
      ServicesFit(e, v, servs, s, bound);
    }
  }
}
