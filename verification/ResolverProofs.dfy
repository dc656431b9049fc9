// What resolution does to the lists: one joint induction over the mutual recursion of features
// and package managers.
module ResolverProofs {
  import opened Resolver

  // ----- the setting -----

  ghost predicate Declared(e: Env, names: seq<string>) {
    forall n :: n in names ==> Base(n) in e.root.features
  }

  // v is a set of declared features: those that resolution is to stay among.
  ghost predicate In(v: set<string>, names: seq<string>) {
    forall n :: n in names ==> Base(n) in v
  }

  // The managers that features of v, and the configuration itself, name for a package.
  ghost predicate PossibleIn(e: Env, v: set<string>, package: string, ms: seq<string>) {
    || (package in e.root.packages && e.root.packages[package] == ms)
    || exists b :: b in v && b in e.root.features && package in e.root.features[b].packages
         && e.root.features[b].packages[package] == ms
  }

  // One of these managers comes with the system, or the first that is declared at all requires
  // features of v only.
  ghost predicate ManagersIn(e: Env, v: set<string>, ms: seq<string>) {
    (exists m :: m in ms && m in e.builtin) || FirstKnownIn(e, v, ms)
  }

  ghost predicate FirstKnownIn(e: Env, v: set<string>, ms: seq<string>)
    decreases |ms|
  {
    if ms == [] then true
    else if ms[0] in e.root.managers then In(v, e.root.managers[ms[0]].needs)
    else FirstKnownIn(e, v, ms[1..])
  }

  ghost predicate TasksIn(e: Env, v: set<string>, defs: seq<TaskDef>) {
    forall t :: t in defs ==>
      && (t.typ == "install" ==> forall ms :: PossibleIn(e, v, t.package, ms) ==> ManagersIn(e, v, ms))
      && (t.typ == "installLocal" ==> ManagersIn(e, v, [t.manager]))
  }

  // Below the bound, nothing leads out of v: neither what a feature requires nor what a package
  // manager requires that one of its tasks may pull in.
  ghost predicate ClosedOver(e: Env, v: set<string>, bound: nat) {
    && v <= e.root.features.Keys
    && forall b :: b in v && e.rank(b) < bound ==>
         In(v, e.root.features[b].needs) && TasksIn(e, v, TasksFor(e.root.features[b], e.os))
  }

  lemma ClosedLess(e: Env, v: set<string>, bound: nat, less: nat)
    requires ClosedOver(e, v, bound) && less <= bound
    ensures ClosedOver(e, v, less)
  {
    hide In;
    hide TasksIn;
  }

  // What the closure says of one feature, whatever service it is made out to.
  lemma ClosedAt(e: Env, v: set<string>, name: string, bound: nat)
    requires Ranked(e) && ClosedOver(e, v, bound) && Base(name) in v && e.rank(Base(name)) < bound
    ensures In(v, DefOf(e, name).needs) && TasksIn(e, v, TasksFor(DefOf(e, name), e.os))
  {
    hide Ranked;
    hide In;
    hide PossibleIn;
    hide ManagersIn;
    DefKeepsRank(e, name);
    var now, was := TasksFor(DefOf(e, name), e.os), TasksFor(e.root.features[Base(name)], e.os);
    SameTasksIn(e, v, was, now);
  }

  lemma SameTasksIn(e: Env, v: set<string>, was: seq<TaskDef>, now: seq<TaskDef>)
    requires TasksIn(e, v, was) && |now| == |was|
    requires forall i :: 0 <= i < |now| ==> now[i] == was[i].(body := now[i].body)
    ensures TasksIn(e, v, now)
  {
    hide PossibleIn;
    hide ManagersIn;
    forall t | t in now
      ensures t.typ == "install" ==> forall ms :: PossibleIn(e, v, t.package, ms) ==> ManagersIn(e, v, ms)
      ensures t.typ == "installLocal" ==> ManagersIn(e, v, [t.manager])
    {
      var i :| 0 <= i < |now| && now[i] == t;
      assert was[i] in was;
    }
  }

  ghost predicate TableIn(e: Env, v: set<string>, packages: map<string, seq<string>>) {
    forall k :: k in packages ==> PossibleIn(e, v, k, packages[k])
  }

  // The list that a feature of this name goes to.
  ghost predicate InService(e: Env, name: string)
    requires Base(name) in e.root.features
  {
    IsServiceLevel(e.root.features[Base(name)], e.os)
  }

  // ----- the invariant -----

  // The feature is listed where it belongs.
  ghost predicate Listed(e: Env, s: State, name: string) {
    Base(name) in e.root.features && Has(ListOf(s, InService(e, name)), FullName(name))
  }

  ghost predicate Named(e: Env, features: seq<Feature>, service: bool) {
    && (forall i :: 0 <= i < |features| ==>
          && features[i].name == FullName(features[i].name)
          && Base(features[i].name) in e.root.features
          && InService(e, features[i].name) == service)
    && (forall i, j :: 0 <= i < j < |features| ==> features[i].name != features[j].name)
  }

  // What a feature at position i of its list requires: listed before it if it is of the same
  // level, and listed if it is of system level.
  ghost predicate Served(e: Env, s: State, service: bool, i: nat, n: string) {
    && Base(n) in e.root.features
    && (InService(e, n) == service ==> i <= |ListOf(s, service)| && Has(ListOf(s, service)[..i], FullName(n)))
    && (!InService(e, n) ==> Has(s.system, FullName(n)))
  }

  ghost predicate Ordered(e: Env, s: State, service: bool) {
    forall i, n :: 0 <= i < |ListOf(s, service)| && Needs(e, ListOf(s, service)[i].name, n) ==>
      Served(e, s, service, i, n)
  }

  ghost predicate Needs(e: Env, name: string, n: string) {
    Base(name) in e.root.features && n in e.root.features[Base(name)].needs
  }

  // The packages that a feature and everything that it requires make available.
  ghost function Provided(e: Env, b: string): set<string>
    requires Ranked(e) && b in e.root.features
    decreases e.rank(b)
  {
    var d := e.root.features[b];
    d.packages.Keys + ProvidedBy(e, d.needs, e.rank(b))
  }

  ghost function ProvidedBy(e: Env, names: seq<string>, bound: nat): set<string>
    requires Ranked(e) && Below(e, names, bound)
    decreases bound, |names|
  {
    if names == [] then {}
    else
      assert names[0] in names;
      (if Base(names[0]) in e.root.features then Provided(e, Base(names[0])) else {}) + ProvidedBy(e, names[1..], bound)
  }

  // Whatever a listed feature provides, directly or not, is in the package table.
  ghost predicate Stocked(e: Env, s: State, service: bool)
    requires Ranked(e)
  {
    forall i :: 0 <= i < |ListOf(s, service)| ==> Supplied(e, s, ListOf(s, service)[i].name)
  }

  ghost predicate Supplied(e: Env, s: State, name: string)
    requires Ranked(e)
  {
    Base(name) in e.root.features ==> Provided(e, Base(name)) <= s.packages.Keys
  }

  // The package managers came with the system, or with the system-level features they require.
  ghost predicate ManagerOk(e: Env, system: seq<Feature>, m: Manager) {
    m.name in e.builtin || (m.name in e.root.managers && SystemListed(e, system, e.root.managers[m.name].needs))
  }

  ghost predicate SystemListed(e: Env, system: seq<Feature>, names: seq<string>) {
    forall n :: n in names && Base(n) in e.root.features && !InService(e, n) ==> Has(system, FullName(n))
  }

  ghost predicate ManagersOk(e: Env, s: State) {
    forall m :: m in s.managers ==> ManagerOk(e, s.system, m)
  }

  ghost predicate Among(v: set<string>, features: seq<Feature>) {
    forall f :: f in features ==> Base(f.name) in v
  }

  ghost predicate BuiltinsThere(e: Env, s: State) {
    forall b :: b in e.builtin ==> exists m :: m in s.managers && m.name == b
  }

  ghost predicate Good(e: Env, v: set<string>, s: State)
    requires Ranked(e)
  {
    && v <= e.root.features.Keys && Among(v, s.system) && Among(v, s.service)
    && Named(e, s.system, false) && Named(e, s.service, true)
    && Ordered(e, s, false) && Ordered(e, s, true)
    && Stocked(e, s, false) && Stocked(e, s, true)
    && ManagersOk(e, s) && BuiltinsThere(e, s) && TableIn(e, v, s.packages)
  }

  // ----- growing -----

  ghost predicate Extends(s: State, s': State) {
    && s.system <= s'.system && s.service <= s'.service && s.managers <= s'.managers
    && s.packages.Keys <= s'.packages.Keys
  }

  // Only features below the bound were added.
  ghost predicate AddsBelow(e: Env, s: State, s': State, bound: nat) {
    && (forall i :: |s.system| <= i < |s'.system| ==> e.rank(Base(s'.system[i].name)) < bound)
    && (forall i :: |s.service| <= i < |s'.service| ==> e.rank(Base(s'.service[i].name)) < bound)
  }

  lemma ExtendsOn(s: State, s': State, s'': State)
    requires Extends(s, s') && Extends(s', s'')
    ensures Extends(s, s'')
  {
  }

  lemma AddsBelowOn(e: Env, s: State, s': State, s'': State, bound: nat)
    requires Extends(s, s') && Extends(s', s'') && AddsBelow(e, s, s', bound) && AddsBelow(e, s', s'', bound)
    ensures AddsBelow(e, s, s'', bound)
  {
    forall i | |s.system| <= i < |s''.system| ensures e.rank(Base(s''.system[i].name)) < bound {
      if i < |s'.system| { assert s''.system[i] == s'.system[i]; }
    }
    forall i | |s.service| <= i < |s''.service| ensures e.rank(Base(s''.service[i].name)) < bound {
      if i < |s'.service| { assert s''.service[i] == s'.service[i]; }
    }
  }

  lemma ListedStays(e: Env, s: State, s': State, name: string)
    requires Extends(s, s') && Listed(e, s, name)
    ensures Listed(e, s', name)
  {
    var l, l' := ListOf(s, InService(e, name)), ListOf(s', InService(e, name));
    var i :| 0 <= i < |l| && l[i].name == FullName(name);
    assert l'[i] == l[i];
  }

  // ----- what each operation achieves -----

  ghost predicate Achieved(e: Env, v: set<string>, names: seq<string>, s: State, r: Result, bound: nat)
    requires Ranked(e)
  {
    && r.Resolved? && Good(e, v, r.s) && Extends(s, r.s) && AddsBelow(e, s, r.s, bound)
    && forall n :: n in names ==> Listed(e, r.s, n)
  }

  lemma {:induction false} ResolveAchieves(e: Env, v: set<string>, names: seq<string>, s: State, bound: nat)
    requires Ranked(e) && ClosedOver(e, v, bound) && In(v, names) && Good(e, v, s) && Below(e, names, bound)
    ensures Achieved(e, v, names, s, Resolve(e, names, s, bound), bound)
    decreases bound, 0, |names|
  {
    hide Ranked;
    hide Good;
    hide ResolveOne;
    hide Extends;
    hide AddsBelow;
    hide Listed;
    GoodTable(e, v, s);
    if names == [] {
      Stands(e, s, bound);
    } else {
      assert names[0] in names;
      ResolveOneAchieves(e, v, names[0], s);
      var s1 := ResolveOne(e, names[0], s).s;
      GoodTable(e, v, s1);
      BelowMore(e, s, s1, e.rank(Base(names[0])) + 1, bound);
      ResolveAchieves(e, v, names[1..], s1, bound);
      var s2 := Resolve(e, names[1..], s1, bound).s;
      ExtendsOn(s, s1, s2);
      AddsBelowOn(e, s, s1, s2, bound);
      forall n | n in names ensures Listed(e, s2, n) {
        if n == names[0] {
          assert n in [names[0]];
          ListedStays(e, s1, s2, n);
        } else {
          assert n in names[1..];
        }
      }
    }
  }

  lemma GoodTable(e: Env, v: set<string>, s: State)
    requires Ranked(e) && Good(e, v, s)
    ensures TableOk(e, s.packages)
  {
  }

  lemma Stands(e: Env, s: State, bound: nat)
    ensures Extends(s, s) && AddsBelow(e, s, s, bound)
  {
  }

  lemma BelowMore(e: Env, s: State, s': State, bound: nat, bound': nat)
    requires AddsBelow(e, s, s', bound) && bound <= bound'
    ensures AddsBelow(e, s, s', bound')
  {
  }

  lemma {:induction false} ResolveOneAchieves(e: Env, v: set<string>, name: string, s: State)
    requires Ranked(e) && ClosedOver(e, v, e.rank(Base(name)) + 1)
    requires Good(e, v, s) && TableOk(e, s.packages) && Base(name) in v
    ensures Achieved(e, v, [name], s, ResolveOne(e, name, s), e.rank(Base(name)) + 1)
    decreases e.rank(Base(name)), 4
  {
    hide Ranked;
    hide Good;
    hide Resolve;
    hide AddTasks;
    hide TasksFor;
    hide IsServiceLevel;
    hide Has;
    DefKeepsRank(e, name);
    var b, d, rank := Base(name), DefOf(e, name), e.rank(Base(name));
    var service := IsServiceLevel(d, e.os);
    if Has(ListOf(s, service), FullName(name)) {
      Stands(e, s, rank + 1);
    } else {
      ClosedAt(e, v, name, rank + 1);
      ClosedLess(e, v, rank + 1, rank);
      ResolveAchieves(e, v, d.needs, s, rank);
      var s1 := Resolve(e, d.needs, s, rank).s;
      StillMissing(e, s, s1, service, name, rank);
      GoodTable(e, v, s1);
      AddTasksAchieves(e, v, TasksFor(d, e.os), s1, rank);
      var b2 := AddTasks(e, TasksFor(d, e.os), s1, rank);
      StillMissing(e, s1, b2.s, service, name, rank);
      forall n | n in d.needs ensures Listed(e, b2.s, n) {
        ListedStays(e, s1, b2.s, n);
      }
      ExtendsOn(s, s1, b2.s);
      AddsBelowOn(e, s, s1, b2.s, rank);
      AppendAchieves(e, v, name, s, b2.s, d.friendly, b2.tasks);
    }
  }

  // Nothing below the feature's rank is the feature: resolving what it requires never adds it.
  lemma StillMissing(e: Env, s: State, s': State, service: bool, name: string, bound: nat)
    requires Extends(s, s') && AddsBelow(e, s, s', bound) && e.rank(Base(name)) >= bound
    requires !Has(ListOf(s, service), FullName(name))
    ensures !Has(ListOf(s', service), FullName(name))
    ensures |ListOf(s, service)| <= |ListOf(s', service)|
    ensures !Has(ListOf(s', service)[|ListOf(s, service)|..], FullName(name))
  {
    var l, l' := ListOf(s, service), ListOf(s', service);
    FullNameKeepsBase(name);
    forall i | 0 <= i < |l'| ensures l'[i].name != FullName(name) {
      if i < |l| {
        assert l'[i] == l[i];
      }
    }
    forall i | 0 <= i < |l'[|l|..]| ensures l'[|l|..][i].name != FullName(name) {
      assert l'[|l|..][i] == l'[|l| + i];
    }
  }

  // ----- appending the feature -----

  function Appended(e: Env, name: string, s: State, friendly: string, tasks: seq<Task>): State
    requires Base(name) in e.root.features
  {
    var d := DefOf(e, name);
    var s' := Append(s, IsServiceLevel(d, e.os), Feature(FullName(name), friendly, tasks));
    s'.(packages := s'.packages + d.packages)
  }

  lemma AppendAchieves(e: Env, v: set<string>, name: string, s0: State, s: State, friendly: string, tasks: seq<Task>)
    requires Ranked(e) && Good(e, v, s) && Base(name) in v
    requires Extends(s0, s) && AddsBelow(e, s0, s, e.rank(Base(name)))
    requires !Has(ListOf(s, InService(e, name)), FullName(name))
    requires forall n :: n in e.root.features[Base(name)].needs ==> Listed(e, s, n)
    ensures var s' := Appended(e, name, s, friendly, tasks);
      Good(e, v, s') && Extends(s0, s') && AddsBelow(e, s0, s', e.rank(Base(name)) + 1) && Listed(e, s', name)
  {
    hide Ranked;
    hide TableIn;
    hide DefOf;
    hide IsServiceLevel;
    hide Named;
    hide Among;
    hide Ordered;
    hide Stocked;
    hide ManagersOk;
    var s' := Appended(e, name, s, friendly, tasks);
    DefKeepsRank(e, name);
    FullNameKeepsBase(name);
    AppendExtends(e, name, s0, s, friendly, tasks);
    assert Extends(s, s');
    TableMergesIn(e, v, s.packages, Base(name));
    AmongStays(e, v, s, s', name, friendly, tasks);
    NamedStays(e, s, s', name, friendly, tasks);
    OrderedStays(e, s, s', name, friendly, tasks);
    StockedStays(e, s, s', name, friendly, tasks);
    ManagersStay(e, s, s');
  }

  lemma TableMergesIn(e: Env, v: set<string>, packages: map<string, seq<string>>, b: string)
    requires TableIn(e, v, packages) && b in v && b in e.root.features
    ensures TableIn(e, v, packages + e.root.features[b].packages)
  {
  }

  lemma AppendExtends(e: Env, name: string, s0: State, s: State, friendly: string, tasks: seq<Task>)
    requires Base(name) in e.root.features && Extends(s0, s) && AddsBelow(e, s0, s, e.rank(Base(name)))
    ensures var s' := Appended(e, name, s, friendly, tasks);
      Extends(s, s') && Extends(s0, s') && AddsBelow(e, s0, s', e.rank(Base(name)) + 1)
      && Has(ListOf(s', IsServiceLevel(DefOf(e, name), e.os)), FullName(name))
  {
    hide DefOf;
    hide IsServiceLevel;
    FullNameKeepsBase(name);
    var service := IsServiceLevel(DefOf(e, name), e.os);
    var s' := Appended(e, name, s, friendly, tasks);
    assert ListOf(s', service)[|ListOf(s, service)|].name == FullName(name);
  }

  // The state after an append, in terms of the list that grew.
  ghost predicate GrewBy(e: Env, s: State, s': State, name: string, friendly: string, tasks: seq<Task>) {
    && Base(name) in e.root.features
    && var service := InService(e, name);
       ListOf(s', service) == ListOf(s, service) + [Feature(FullName(name), friendly, tasks)]
       && ListOf(s', !service) == ListOf(s, !service)
  }

  lemma Grew(e: Env, s: State, name: string, friendly: string, tasks: seq<Task>)
    requires Ranked(e) && Base(name) in e.root.features
    ensures GrewBy(e, s, Appended(e, name, s, friendly, tasks), name, friendly, tasks)
  {
    hide Ranked;
    hide DefOf;
    hide IsServiceLevel;
    DefKeepsRank(e, name);
  }

  lemma AmongStays(e: Env, v: set<string>, s: State, s': State, name: string, friendly: string, tasks: seq<Task>)
    requires Base(name) in e.root.features && s' == Appended(e, name, s, friendly, tasks)
    requires Among(v, s.system) && Among(v, s.service) && Base(name) in v
    ensures Among(v, s'.system) && Among(v, s'.service)
  {
    hide DefOf;
    hide IsServiceLevel;
    FullNameKeepsBase(name);
  }

  lemma NamedStays(e: Env, s: State, s': State, name: string, friendly: string, tasks: seq<Task>)
    requires Ranked(e) && Base(name) in e.root.features && s' == Appended(e, name, s, friendly, tasks)
    requires Named(e, s.system, false) && Named(e, s.service, true)
    requires !Has(ListOf(s, InService(e, name)), FullName(name))
    ensures Named(e, s'.system, false) && Named(e, s'.service, true)
  {
    hide Ranked;
    hide Appended;
    hide IsServiceLevel;
    FullNameKeepsBase(name);
    Grew(e, s, name, friendly, tasks);
  }

  lemma {:induction false} ServedStays(e: Env, s: State, s': State, service: bool, i: nat, n: string)
    requires Extends(s, s') && Served(e, s, service, i, n)
    ensures Served(e, s', service, i, n)
  {
    hide IsServiceLevel;
    if InService(e, n) == service {
      var j :| 0 <= j < |ListOf(s, service)[..i]| && ListOf(s, service)[..i][j].name == FullName(n);
      assert ListOf(s', service)[..i][j] == ListOf(s, service)[..i][j];
    }
    if !InService(e, n) {
      var j :| 0 <= j < |s.system| && s.system[j].name == FullName(n);
      assert s'.system[j] == s.system[j];
    }
  }

  lemma OrderedStays(e: Env, s: State, s': State, name: string, friendly: string, tasks: seq<Task>)
    requires Ranked(e) && Base(name) in e.root.features && s' == Appended(e, name, s, friendly, tasks) && Extends(s, s')
    requires Ordered(e, s, false) && Ordered(e, s, true)
    requires forall n :: n in e.root.features[Base(name)].needs ==> Listed(e, s, n)
    ensures Ordered(e, s', false) && Ordered(e, s', true)
  {
    hide Ranked;
    hide Appended;
    hide InService;
    hide Extends;
    hide Served;
    FullNameKeepsBase(name);
    Grew(e, s, name, friendly, tasks);
    forall service: bool, i, n | 0 <= i < |ListOf(s', service)| && Needs(e, ListOf(s', service)[i].name, n)
      ensures Served(e, s', service, i, n)
    {
      var l, l' := ListOf(s, service), ListOf(s', service);
      if i < |l| {
        assert l'[i] == l[i];
        assert Served(e, s, service, i, n) by { assert Ordered(e, s, service); }
      } else {
        NewIsServed(e, s, service, i, n);
      }
      ServedStays(e, s, s', service, i, n);
    }
  }

  lemma NewIsServed(e: Env, s: State, service: bool, i: nat, n: string)
    requires i == |ListOf(s, service)| && Listed(e, s, n)
    ensures Served(e, s, service, i, n)
  {
    assert ListOf(s, service)[..i] == ListOf(s, service);
  }

  lemma {:induction false} NeedsSupplied(e: Env, s: State, names: seq<string>, bound: nat)
    requires Ranked(e) && Below(e, names, bound)
    requires forall n :: n in names ==> Supplied(e, s, n)
    ensures ProvidedBy(e, names, bound) <= s.packages.Keys
    decreases |names|
  {
    hide Ranked;
    hide Provided;
    if names != [] {
      assert names[0] in names;
      NeedsSupplied(e, s, names[1..], bound);
    }
  }

  lemma ListedIsSupplied(e: Env, s: State, n: string)
    requires Ranked(e) && Listed(e, s, n) && Stocked(e, s, false) && Stocked(e, s, true)
    ensures Supplied(e, s, n)
  {
    hide Ranked;
    hide Provided;
    hide InService;
    FullNameKeepsBase(n);
    var service := InService(e, n);
    var i :| 0 <= i < |ListOf(s, service)| && ListOf(s, service)[i].name == FullName(n);
    assert Stocked(e, s, service);
    assert Supplied(e, s, ListOf(s, service)[i].name);
  }

  lemma StockedStays(e: Env, s: State, s': State, name: string, friendly: string, tasks: seq<Task>)
    requires Ranked(e) && Base(name) in e.root.features && s' == Appended(e, name, s, friendly, tasks) && Extends(s, s')
    requires Stocked(e, s, false) && Stocked(e, s, true)
    requires forall n :: n in e.root.features[Base(name)].needs ==> Listed(e, s, n)
    ensures Stocked(e, s', false) && Stocked(e, s', true)
  {
    hide Ranked;
    hide Provided;
    hide InService;
    hide Listed;
    var d := e.root.features[Base(name)];
    assert s'.packages.Keys == s.packages.Keys + d.packages.Keys by { DefKeepsRank(e, name); }
    forall n | n in d.needs ensures Supplied(e, s, n) {
      ListedIsSupplied(e, s, n);
    }
    assert Below(e, d.needs, e.rank(Base(name))) by { DefKeepsRank(e, name); }
    NeedsSupplied(e, s, d.needs, e.rank(Base(name)));
    assert Provided(e, Base(name)) <= s'.packages.Keys by { ProvidedIs(e, Base(name)); }
    FullNameKeepsBase(name);
    NewIsStocked(e, s, s', name, friendly, tasks);
  }

  lemma ProvidedIs(e: Env, b: string)
    requires Ranked(e) && b in e.root.features
    ensures var d := e.root.features[b];
      && Below(e, d.needs, e.rank(b))
      && Provided(e, b) == d.packages.Keys + ProvidedBy(e, d.needs, e.rank(b))
  {
  }

  lemma NewIsStocked(e: Env, s: State, s': State, name: string, friendly: string, tasks: seq<Task>)
    requires Ranked(e) && Base(name) in e.root.features && s' == Appended(e, name, s, friendly, tasks) && Extends(s, s')
    requires Stocked(e, s, false) && Stocked(e, s, true) && Supplied(e, s', FullName(name))
    ensures Stocked(e, s', false) && Stocked(e, s', true)
  {
    hide Ranked;
    hide Provided;
    hide InService;
    hide Appended;
    Grew(e, s, name, friendly, tasks);
    forall service: bool, i | 0 <= i < |ListOf(s', service)| ensures Supplied(e, s', ListOf(s', service)[i].name) {
      if i < |ListOf(s, service)| {
        assert Stocked(e, s, service);
        assert ListOf(s', service)[i] == ListOf(s, service)[i];
        assert Supplied(e, s, ListOf(s, service)[i].name);
      }
    }
  }

  lemma ManagersStay(e: Env, s: State, s': State)
    requires ManagersOk(e, s) && Extends(s, s') && s'.managers == s.managers
    ensures ManagersOk(e, s')
  {
    hide InService;
    forall m | m in s'.managers ensures ManagerOk(e, s'.system, m) {
      ManagerStaysOk(e, s.system, s'.system, m);
    }
  }

  lemma ManagerStaysOk(e: Env, system: seq<Feature>, system': seq<Feature>, m: Manager)
    requires ManagerOk(e, system, m) && system <= system'
    ensures ManagerOk(e, system', m)
  {
    hide InService;
    if m.name !in e.builtin {
      forall n | n in e.root.managers[m.name].needs && Base(n) in e.root.features && !InService(e, n)
        ensures Has(system', FullName(n))
      {
        var i :| 0 <= i < |system| && system[i].name == FullName(n);
        assert system'[i] == system[i];
      }
    }
  }

  // ----- the tasks and their package managers -----

  lemma {:induction false} AddTasksAchieves(e: Env, v: set<string>, defs: seq<TaskDef>, s: State, bound: nat)
    requires Ranked(e) && ClosedOver(e, v, bound) && Good(e, v, s) && TableOk(e, s.packages)
    requires TasksBelow(e, defs, bound) && TasksIn(e, v, defs)
    ensures var b := AddTasks(e, defs, s, bound);
      b.Built? && Good(e, v, b.s) && Extends(s, b.s) && AddsBelow(e, s, b.s, bound)
    decreases bound, 3, |defs|
  {
    hide Ranked;
    hide Good;
    hide EnsureManager;
    hide Extends;
    hide AddsBelow;
    hide ConfTask;
    if defs == [] {
      Stands(e, s, bound);
    } else {
      var t := defs[0];
      assert t in defs;
      var s1 := s;
      if t.typ == "install" && t.package in s.packages {
        assert PossibleIn(e, v, t.package, s.packages[t.package]) by { TableNamesIn(e, v, s, t.package); }
        EnsureAchieves(e, v, s.packages[t.package], s, bound);
        s1 := EnsureManager(e, s.packages[t.package], s, bound).s;
      } else if t.typ == "installLocal" {
        EnsureAchieves(e, v, [t.manager], s, bound);
        s1 := EnsureManager(e, [t.manager], s, bound).s;
      } else {
        Stands(e, s, bound);
      }
      GoodTable(e, v, s1);
      AddTasksAchieves(e, v, defs[1..], s1, bound);
      var b := AddTasks(e, defs[1..], s1, bound);
      ExtendsOn(s, s1, b.s);
      AddsBelowOn(e, s, s1, b.s, bound);
    }
  }

  ghost predicate AchievedManager(e: Env, v: set<string>, s: State, r: Result, bound: nat)
    requires Ranked(e)
  {
    r.Resolved? && Good(e, v, r.s) && Extends(s, r.s) && AddsBelow(e, s, r.s, bound)
  }

  lemma EnsureAchieves(e: Env, v: set<string>, ms: seq<string>, s: State, bound: nat)
    requires Ranked(e) && ClosedOver(e, v, bound) && Good(e, v, s) && TableOk(e, s.packages)
    requires ManagersBelow(e, ms, bound) && ManagersIn(e, v, ms)
    ensures AchievedManager(e, v, s, EnsureManager(e, ms, s, bound), bound)
    decreases bound, 2
  {
    hide Ranked;
    hide Good;
    hide AddFirstKnown;
    if Managed(s.managers, ms) {
      Stands(e, s, bound);
    } else {
      if m :| m in ms && m in e.builtin {
        BuiltinManages(e, v, s, ms, m);
      }
      AddFirstAchieves(e, v, ms, s, bound);
    }
  }

  lemma BuiltinManages(e: Env, v: set<string>, s: State, ms: seq<string>, m: string)
    requires Ranked(e) && Good(e, v, s) && m in ms && m in e.builtin
    ensures Managed(s.managers, ms)
  {
    var pm :| pm in s.managers && pm.name == m;
    var i :| 0 <= i < |s.managers| && s.managers[i] == pm;
  }

  lemma TableNamesIn(e: Env, v: set<string>, s: State, k: string)
    requires Ranked(e) && Good(e, v, s) && k in s.packages
    ensures PossibleIn(e, v, k, s.packages[k])
  {
  }

  lemma {:induction false} AddFirstAchieves(e: Env, v: set<string>, ms: seq<string>, s: State, bound: nat)
    requires Ranked(e) && ClosedOver(e, v, bound) && Good(e, v, s) && TableOk(e, s.packages)
    requires ManagersBelow(e, ms, bound) && FirstKnownIn(e, v, ms)
    ensures AchievedManager(e, v, s, AddFirstKnown(e, ms, s, bound), bound)
    decreases bound, 1, |ms|
  {
    hide Ranked;
    hide Good;
    hide Resolve;
    hide Below;
    Stands(e, s, bound);
    if ms != [] {
      assert ms[0] in ms;
      if ms[0] !in e.root.managers {
        AddFirstAchieves(e, v, ms[1..], s, bound);
      } else if e.root.managers[ms[0]].needs != [] {
        ResolveAchieves(e, v, e.root.managers[ms[0]].needs, s, bound);
        ManagerAdded(e, v, Resolve(e, e.root.managers[ms[0]].needs, s, bound).s, ms[0]);
      }
    }
  }

  lemma ManagerAdded(e: Env, v: set<string>, s: State, m: string)
    requires Ranked(e) && Good(e, v, s) && m in e.root.managers
    requires forall n :: n in e.root.managers[m].needs ==> Listed(e, s, n)
    ensures Good(e, v, s.(managers := s.managers + [Manager(m, false)]))
  {
    hide Ranked;
    hide TableIn;
    hide Named;
    hide InService;
    hide Provided;
    var s' := s.(managers := s.managers + [Manager(m, false)]);
    assert ManagersOk(e, s') by {
      forall k | k in s'.managers ensures ManagerOk(e, s'.system, k) {
        if k in s.managers {
          assert ManagerOk(e, s.system, k);
        } else {
          assert SystemListed(e, s'.system, e.root.managers[m].needs);
        }
      }
    }
    SameLists(e, s, s');
  }

  lemma SameLists(e: Env, s: State, s': State)
    requires Ranked(e) && s'.system == s.system && s'.service == s.service && s'.packages == s.packages
    ensures forall service: bool :: Ordered(e, s, service) ==> Ordered(e, s', service)
    ensures forall service: bool :: Stocked(e, s, service) ==> Stocked(e, s', service)
  {
    hide Ranked;
    hide InService;
    hide Provided;
    assert forall service: bool, i, n :: Served(e, s, service, i, n) == Served(e, s', service, i, n);
    forall service: bool | Stocked(e, s, service) ensures Stocked(e, s', service) {
      forall i | 0 <= i < |ListOf(s', service)| ensures Supplied(e, s', ListOf(s', service)[i].name) {
        assert Supplied(e, s, ListOf(s, service)[i].name);
      }
    }
  }
}
