// What a resolved cluster holds: nothing but what was asked for and what that requires, directly
// or through the package managers of its packages; and every service only its own.
module Footprint {
  import opened Resolver
  import opened ResolverProofs
  import opened ResolvedPlans
  import opened RunnablePlans

  // Nothing leads out of w: neither what a feature of it requires, nor what any manager requires
  // that any feature of the configuration names for a package that it installs.
  ghost predicate SelfContained(e: Env, w: set<string>) {
    forall b :: b in w && b in e.root.features ==>
      && In(w, e.root.features[b].needs)
      && TasksWithin(e, w, TasksFor(e.root.features[b], e.os))
  }

  ghost predicate ManagersWithin(e: Env, w: set<string>, ms: seq<string>) {
    forall m :: m in ms && m in e.root.managers ==> In(w, e.root.managers[m].needs)
  }

  ghost predicate TasksWithin(e: Env, w: set<string>, defs: seq<TaskDef>) {
    forall t :: t in defs ==>
      && (t.typ == "install" ==> forall ms :: Possible(e, t.package, ms) ==> ManagersWithin(e, w, ms))
      && (t.typ == "installLocal" ==> ManagersWithin(e, w, [t.manager]))
  }

  // The system list grew by features of w only, and the service's list holds no others unless it did.
  ghost predicate AddsOnly(w: set<string>, s: State, s': State) {
    && s.system <= s'.system
    && (forall i :: |s.system| <= i < |s'.system| ==> Base(s'.system[i].name) in w)
    && (Among(w, s.service) ==> Among(w, s'.service))
  }

  lemma AddsNothing(w: set<string>, s: State, s': State)
    requires s'.system == s.system && (s'.service == s.service || s'.service == [])
    ensures AddsOnly(w, s, s')
  {
  }

  lemma AddsOn(w: set<string>, s: State, s': State, s'': State)
    requires AddsOnly(w, s, s') && AddsOnly(w, s', s'')
    ensures AddsOnly(w, s, s'')
  {
    hide Among;
    forall i | |s.system| <= i < |s''.system| ensures Base(s''.system[i].name) in w {
      if i < |s'.system| { assert s''.system[i] == s'.system[i]; }
    }
  }

  lemma AddsOne(e: Env, w: set<string>, s: State, service: bool, f: Feature, packages: map<string, seq<string>>)
    requires Base(f.name) in w
    ensures AddsOnly(w, s, Append(s, service, f).(packages := packages))
  {
  }

  // What a service's name is put into does not matter for that.
  lemma DefWithin(e: Env, w: set<string>, name: string)
    requires Ranked(e) && SelfContained(e, w) && Base(name) in w && Base(name) in e.root.features
    ensures In(w, DefOf(e, name).needs) && TasksWithin(e, w, TasksFor(DefOf(e, name), e.os))
  {
    hide Ranked;
    hide Possible;
    hide ManagersWithin;
    hide In;
    DefKeepsRank(e, name);
    var now, was := TasksFor(DefOf(e, name), e.os), TasksFor(e.root.features[Base(name)], e.os);
    forall t | t in now
      ensures t.typ == "install" ==> forall ms :: Possible(e, t.package, ms) ==> ManagersWithin(e, w, ms)
      ensures t.typ == "installLocal" ==> ManagersWithin(e, w, [t.manager])
    {
      var i :| 0 <= i < |now| && now[i] == t;
      assert was[i] in was;
    }
  }

  lemma {:induction false} ResolveAddsOnly(e: Env, w: set<string>, names: seq<string>, s: State, bound: nat)
    requires Ranked(e) && TableOk(e, s.packages) && Below(e, names, bound) && SelfContained(e, w) && In(w, names)
    ensures var r := Resolve(e, names, s, bound); r.Resolved? ==> AddsOnly(w, s, r.s)
    decreases bound, 0, |names|
  {
    hide Ranked;
    hide TableOk;
    hide SelfContained;
    hide AddsOnly;
    hide ResolveOne;
    if names == [] {
      AddsNothing(w, s, s);
    } else {
      assert names[0] in names;
      if Base(names[0]) !in e.root.features {
        AddsNothing(w, s, s.(service := []));
      } else {
        ResolveOneAddsOnly(e, w, names[0], s);
        var r := ResolveOne(e, names[0], s);
        if r.Resolved? {
          ResolveAddsOnly(e, w, names[1..], r.s, bound);
          var r2 := Resolve(e, names[1..], r.s, bound);
          if r2.Resolved? { AddsOn(w, s, r.s, r2.s); }
        }
      }
    }
  }

  lemma {:induction false} ResolveOneAddsOnly(e: Env, w: set<string>, name: string, s: State)
    requires Ranked(e) && TableOk(e, s.packages) && Base(name) in e.root.features
    requires SelfContained(e, w) && Base(name) in w
    ensures var r := ResolveOne(e, name, s); r.Resolved? ==> AddsOnly(w, s, r.s)
    decreases e.rank(Base(name)), 4
  {
    hide Ranked;
    hide TableOk;
    hide SelfContained;
    hide AddsOnly;
    hide Resolve;
    hide AddTasks;
    hide TasksFor;
    hide IsServiceLevel;
    hide Has;
    DefKeepsRank(e, name);
    FullNameKeepsBase(name);
    DefWithin(e, w, name);
    var d, rank := DefOf(e, name), e.rank(Base(name));
    var service := IsServiceLevel(d, e.os);
    if Has(ListOf(s, service), FullName(name)) {
      AddsNothing(w, s, s);
    } else {
      ResolveAddsOnly(e, w, d.needs, s, rank);
      var r1 := Resolve(e, d.needs, s, rank);
      if r1.Resolved? {
        AddTasksAddsOnly(e, w, TasksFor(d, e.os), r1.s, rank);
        var b := AddTasks(e, TasksFor(d, e.os), r1.s, rank);
        if b.Built? {
          AddsOn(w, s, r1.s, b.s);
          var f := Feature(FullName(name), d.friendly, b.tasks);
          AddsOne(e, w, b.s, service, f, b.s.packages + d.packages);
          AddsOn(w, s, b.s, Append(b.s, service, f).(packages := b.s.packages + d.packages));
        }
      }
    }
  }

  lemma {:induction false} AddTasksAddsOnly(e: Env, w: set<string>, defs: seq<TaskDef>, s: State, bound: nat)
    requires Ranked(e) && TableOk(e, s.packages) && TasksBelow(e, defs, bound)
    requires SelfContained(e, w) && TasksWithin(e, w, defs)
    ensures var b := AddTasks(e, defs, s, bound); b.Built? ==> AddsOnly(w, s, b.s)
    decreases bound, 3, |defs|
  {
    hide Ranked;
    hide TableOk;
    hide SelfContained;
    hide AddsOnly;
    hide EnsureManager;
    hide ConfTask;
    hide Possible;
    hide ManagersBelow;
    hide ManagersWithin;
    AddsNothing(w, s, s);
    if defs != [] {
      var t, s1 := defs[0], s;
      assert t in defs;
      if (t.typ == "install" && t.package in s.packages) || t.typ == "installLocal" {
        var ms := if t.typ == "install" then s.packages[t.package] else [t.manager];
        if t.typ == "install" { TableNames(e, s.packages, t.package); }
        EnsureAddsOnly(e, w, ms, s, bound);
        var r := EnsureManager(e, ms, s, bound);
        if r.Resolved? { s1 := r.s; }
      }
      AddTasksAddsOnly(e, w, defs[1..], s1, bound);
      var b := AddTasks(e, defs[1..], s1, bound);
      if b.Built? { AddsOn(w, s, s1, b.s); }
    }
  }

  lemma {:induction false} EnsureAddsOnly(e: Env, w: set<string>, ms: seq<string>, s: State, bound: nat)
    requires Ranked(e) && TableOk(e, s.packages) && ManagersBelow(e, ms, bound)
    requires SelfContained(e, w) && ManagersWithin(e, w, ms)
    ensures var r := EnsureManager(e, ms, s, bound); r.Resolved? ==> AddsOnly(w, s, r.s)
    decreases bound, 2
  {
    hide Ranked;
    hide TableOk;
    hide SelfContained;
    hide AddsOnly;
    hide AddFirstKnown;
    hide ManagersBelow;
    hide ManagersWithin;
    AddsNothing(w, s, s);
    AddFirstAddsOnly(e, w, ms, s, bound);
  }

  lemma {:induction false} AddFirstAddsOnly(e: Env, w: set<string>, ms: seq<string>, s: State, bound: nat)
    requires Ranked(e) && TableOk(e, s.packages) && ManagersBelow(e, ms, bound)
    requires SelfContained(e, w) && ManagersWithin(e, w, ms)
    ensures var r := AddFirstKnown(e, ms, s, bound); r.Resolved? ==> AddsOnly(w, s, r.s)
    decreases bound, 1, |ms|
  {
    hide Ranked;
    hide TableOk;
    hide SelfContained;
    hide AddsOnly;
    hide Resolve;
    hide Below;
    AddsNothing(w, s, s);
    if ms != [] {
      assert ms[0] in ms;
      if ms[0] !in e.root.managers {
        AddFirstAddsOnly(e, w, ms[1..], s, bound);
      } else if e.root.managers[ms[0]].needs != [] {
        ResolveAddsOnly(e, w, e.root.managers[ms[0]].needs, s, bound);
        var r := Resolve(e, e.root.managers[ms[0]].needs, s, bound);
        if r.Resolved? {
          var s2 := r.s.(managers := r.s.managers + [Manager(ms[0], false)]);
          AddsNothing(w, r.s, s2);
          AddsOn(w, s, r.s, s2);
        }
      }
    }
  }

  // Whatever the other services ask for: the list of a service holds nothing but what it asks for
  // itself and what that requires.
  lemma {:induction false} ServicesHoldTheirOwn(e: Env, w: set<string>, servs: seq<ServiceDef>, s: State, bound: nat,
                                                j: nat)
    requires Ranked(e) && TableOk(e, s.packages) && Requestable(e, servs, bound) && j < |servs|
    requires SelfContained(e, w) && In(w, servs[j].features) && In(w, AlwaysFor(servs[j]))
    ensures var r := ResolveServices(e, servs, s, bound); r.Some? ==> Among(w, r.value.1[j])
    decreases |servs|
  {
    hide Ranked;
    hide TableOk;
    hide SelfContained;
    hide Resolve;
    hide Below;
    hide AlwaysFor;
    hide In;
    hide Among;
    assert servs[0] in servs;
    var bare := s.(service := []);
    var r1 := Resolve(e, servs[0].features, bare, bound);
    if r1.Resolved? {
      var r2 := Resolve(e, AlwaysFor(servs[0]), r1.s, bound);
      if r2.Resolved? {
        if j == 0 {
          ResolveAddsOnly(e, w, servs[0].features, bare, bound);
          ResolveAddsOnly(e, w, AlwaysFor(servs[0]), r1.s, bound);
          assert Among(w, []) by { NoneAmong(w); }
        } else {
          ServicesHoldTheirOwn(e, w, servs[1..], r2.s, bound, j - 1);
        }
      }
    }
  }

  lemma NoneAmong(w: set<string>)
    ensures Among(w, [])
  {
  }

  // The cluster's system list grows by nothing but what the services ask for and what that requires.
  lemma {:induction false} SystemHoldsRequired(e: Env, w: set<string>, servs: seq<ServiceDef>, s: State, bound: nat)
    requires Ranked(e) && TableOk(e, s.packages) && Requestable(e, servs, bound)
    requires SelfContained(e, w) && RequestedIn(w, servs)
    ensures var r := ResolveServices(e, servs, s, bound);
      && (r.Some? ==> s.system <= r.value.0.system)
      && (r.Some? ==> forall i :: |s.system| <= i < |r.value.0.system| ==> Base(r.value.0.system[i].name) in w)
    decreases |servs|
  {
    hide Ranked;
    hide TableOk;
    hide SelfContained;
    hide Resolve;
    hide Below;
    hide AlwaysFor;
    hide In;
    hide Among;
    if servs != [] {
      assert servs[0] in servs;
      var bare := s.(service := []);
      ResolveAddsOnly(e, w, servs[0].features, bare, bound);
      var r1 := Resolve(e, servs[0].features, bare, bound);
      if r1.Resolved? {
        ResolveAddsOnly(e, w, AlwaysFor(servs[0]), r1.s, bound);
        var r2 := Resolve(e, AlwaysFor(servs[0]), r1.s, bound);
        if r2.Resolved? {
          AddsOn(w, bare, r1.s, r2.s);
          SystemHoldsRequired(e, w, servs[1..], r2.s, bound);
          var r := ResolveServices(e, servs[1..], r2.s, bound);
          if r.Some? {
            forall i | |s.system| <= i < |r.value.0.system| ensures Base(r.value.0.system[i].name) in w {
              if i < |r2.s.system| { assert r.value.0.system[i] == r2.s.system[i]; }
            }
          }
        }
      }
    }
  }
}
