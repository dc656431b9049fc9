// Where the tasks of a resolved cluster come from: every one of them says what a declared
// definition says, for the service that its feature is made out to.
module Provenance {
  import opened Resolver
  import opened ResolvedPlans
  import opened RunnablePlans

  // The text that definition d gives a feature made out to service x, if it is made out to one.
  function TextFor(e: Env, x: string, d: TaskDef): string {
    if d.typ in ["install", "schedule"] then ""
    else if x != "" && d.typ in ["download", "link", "delete", "file_string", "file_bytes", "user", "command"] then
      e.replace(x, d.body)
    else d.body
  }

  // The task says what its definition says. It is blank only if its type is not supported, or its
  // package was not known.
  ghost predicate TaskFrom(e: Env, x: string, d: TaskDef, t: Task) {
    if t == BLANK then !Supported(d.typ) || d.typ == "install"
    else
      && Supported(d.typ) && t.typ == d.typ
      && (t.root <==> d.privilege == "root" && d.typ != "delete")
      && t.manager == (if d.typ in ["install", "install_local", "install_external"] then d.manager else "")
      && (t.package.Some? <==> d.typ == "install")
      && (d.typ == "install" ==>
            t.package.value.name == d.package && Possible(e, d.package, t.package.value.managers))
      && t.body == TextFor(e, x, d)
  }

  // What a feature becomes that is declared under b and made out to service x, if to one: its
  // tasks are those for the operating system where there are any, and it is a service's feature
  // exactly if all of them are run as the service.
  ghost predicate FeatureFrom(e: Env, service: bool, b: string, x: string, f: Feature) {
    && b in e.root.features
    && var d := e.root.features[b];
       var defs := if e.os in d.custom then d.custom[e.os] else d.tasks;
       && f.friendly == (if x == "" then d.friendly else e.replace(x, d.friendly))
       && (service <==> forall t :: t in defs ==> t.privilege == "service")
       && |f.tasks| == |defs|
       && forall j :: 0 <= j < |defs| ==> TaskFrom(e, x, defs[j], f.tasks[j])
  }

  // "service x" is the feature "service" made out to x; every other name stands for itself.
  ghost predicate Sourced(e: Env, service: bool, f: Feature) {
    && (forall x: string :: x != "" && f.name == "service " + x ==> FeatureFrom(e, service, "service", x, f))
    && ((forall x: string :: x != "" ==> f.name != "service " + x) ==> FeatureFrom(e, service, f.name, "", f))
  }

  ghost predicate AllSourced(e: Env, s: State) {
    forall service: bool, i :: 0 <= i < |ListOf(s, service)| ==> Sourced(e, service, ListOf(s, service)[i])
  }

  // ----- names -----

  lemma NamesMean(name: string)
    ensures forall x: string :: name == "service " + x ==> Base(name) == "service" && ServiceOf(name) == x
    ensures (forall x: string :: x != "" ==> name != "service " + x) ==>
              FullName(name) == Base(name) && ServiceOf(name) == ""
    ensures ServiceOf(name) != "" ==> FullName(name) == name == "service " + ServiceOf(name)
  {
    assert SERVICE == "service" + " ";
    if SERVICE <= name {
      assert name == SERVICE + name[|SERVICE|..];
    }
  }

  // ----- one task -----

  lemma ConfTaskSays(e: Env, packages: map<string, seq<string>>, t: TaskDef)
    requires TableOk(e, packages)
    ensures TaskFrom(e, "", t, ConfTask(packages, t))
  {
    hide Possible;
    if t.typ == "install" && t.package in packages {
      assert Possible(e, t.package, packages[t.package]);
    }
  }

  lemma BlankSays(e: Env, t: TaskDef)
    requires t.typ == "install"
    ensures TaskFrom(e, "", t, BLANK)
  {
  }

  // Putting in the service's name beforehand comes to the same.
  lemma MadeOut(e: Env, x: string, d: TaskDef, t: Task)
    requires x != "" && TaskFrom(e, "", if TakesService(d.typ) then d.(body := e.replace(x, d.body)) else d, t)
    ensures TaskFrom(e, x, d, t)
  {
    hide Possible;
    hide Supported;
    assert !TakesService("install") && !TakesService("schedule") by { NeitherTakes(); }
  }

  lemma NeitherTakes()
    ensures !TakesService("install") && !TakesService("schedule")
  {
    assert "install"[0] == 'i' && "schedule"[0] == 's';
    assert "download"[0] == 'd' && "link"[0] == 'l' && "delete"[0] == 'd' && "file_string"[0] == 'f';
    assert "file_bytes"[0] == 'f' && "user"[0] == 'u' && "command"[0] == 'c';
  }

  // ----- one feature -----

  ghost predicate TasksSay(e: Env, defs: seq<TaskDef>, tasks: seq<Task>) {
    |tasks| == |defs| && forall j :: 0 <= j < |defs| ==> TaskFrom(e, "", defs[j], tasks[j])
  }

  lemma BuiltIsSourced(e: Env, name: string, tasks: seq<Task>)
    requires Base(name) in e.root.features && TasksSay(e, TasksFor(DefOf(e, name), e.os), tasks)
    ensures var d := DefOf(e, name);
      Sourced(e, IsServiceLevel(d, e.os), Feature(FullName(name), d.friendly, tasks))
  {
    hide TaskFrom;
    NamesMean(name);
    FullNameKeepsBase(name);
    NamesMean(FullName(name));
    var d, b, x := DefOf(e, name), Base(name), ServiceOf(name);
    var f := Feature(FullName(name), d.friendly, tasks);
    var was := e.root.features[b];
    var defs := if e.os in was.custom then was.custom[e.os] else was.tasks;
    var now := TasksFor(d, e.os);
    forall j | 0 <= j < |defs| ensures j < |now| && TaskFrom(e, x, defs[j], tasks[j]) {
      if x != "" { MadeOut(e, x, defs[j], tasks[j]); }
    }
    LevelOf(e, name);
    assert FeatureFrom(e, IsServiceLevel(d, e.os), b, x, f);
  }

  lemma LevelOf(e: Env, name: string)
    requires Base(name) in e.root.features
    ensures var was := e.root.features[Base(name)];
      IsServiceLevel(DefOf(e, name), e.os) <==>
        forall t :: t in (if e.os in was.custom then was.custom[e.os] else was.tasks) ==> t.privilege == "service"
  {
    var was, d := e.root.features[Base(name)], DefOf(e, name);
    var defs, now := if e.os in was.custom then was.custom[e.os] else was.tasks, TasksFor(d, e.os);
    assert |now| == |defs| && forall j :: 0 <= j < |defs| ==> now[j].privilege == defs[j].privilege;
    if forall t :: t in defs ==> t.privilege == "service" {
      forall t | t in now ensures t.privilege == "service" {
        var j :| 0 <= j < |now| && now[j] == t;
        assert defs[j] in defs;
      }
    }
    if forall t :: t in now ==> t.privilege == "service" {
      forall t | t in defs ensures t.privilege == "service" {
        var j :| 0 <= j < |defs| && defs[j] == t;
        assert now[j] in now;
      }
    }
  }

  // ----- the induction -----

  lemma SameLists(e: Env, s: State, s': State)
    requires AllSourced(e, s) && s'.system == s.system && (s'.service == s.service || s'.service == [])
    ensures AllSourced(e, s')
  {
    hide Sourced;
    forall service: bool, i | 0 <= i < |ListOf(s', service)| ensures Sourced(e, service, ListOf(s', service)[i]) {
      assert ListOf(s', service)[i] == ListOf(s, service)[i];
    }
  }

  lemma AppendSourced(e: Env, s: State, service: bool, f: Feature)
    requires AllSourced(e, s) && Sourced(e, service, f)
    ensures AllSourced(e, Append(s, service, f))
  {
    hide Sourced;
    var s' := Append(s, service, f);
    forall level: bool, i | 0 <= i < |ListOf(s', level)| ensures Sourced(e, level, ListOf(s', level)[i]) {
      assert i < |ListOf(s, level)| ==> ListOf(s', level)[i] == ListOf(s, level)[i];
    }
  }

  // Whatever is asked for, declared or not: resolution lists features as they are declared.
  lemma {:induction false} ResolveIsSourced(e: Env, names: seq<string>, s: State, bound: nat)
    requires Ranked(e) && TableOk(e, s.packages) && Below(e, names, bound) && AllSourced(e, s)
    ensures var r := Resolve(e, names, s, bound); r.Resolved? ==> AllSourced(e, r.s)
    decreases bound, 0, |names|
  {
    hide Ranked;
    hide TableOk;
    hide AllSourced;
    hide ResolveOne;
    if names != [] {
      assert names[0] in names;
      if Base(names[0]) !in e.root.features {
        SameLists(e, s, s.(service := []));
      } else {
        ResolveOneIsSourced(e, names[0], s);
        var r := ResolveOne(e, names[0], s);
        if r.Resolved? { ResolveIsSourced(e, names[1..], r.s, bound); }
      }
    }
  }

  lemma {:induction false} ResolveOneIsSourced(e: Env, name: string, s: State)
    requires Ranked(e) && TableOk(e, s.packages) && Base(name) in e.root.features && AllSourced(e, s)
    ensures var r := ResolveOne(e, name, s); r.Resolved? ==> AllSourced(e, r.s)
    decreases e.rank(Base(name)), 4
  {
    hide Ranked;
    hide TableOk;
    hide AllSourced;
    hide Resolve;
    hide AddTasks;
    hide TasksFor;
    hide IsServiceLevel;
    hide Has;
    hide Sourced;
    DefKeepsRank(e, name);
    var d, rank := DefOf(e, name), e.rank(Base(name));
    var service := IsServiceLevel(d, e.os);
    if !Has(ListOf(s, service), FullName(name)) {
      ResolveIsSourced(e, d.needs, s, rank);
      var r1 := Resolve(e, d.needs, s, rank);
      if r1.Resolved? {
        var s1 := r1.s;
        AddTasksIsSourced(e, TasksFor(d, e.os), s1, rank);
        var b := AddTasks(e, TasksFor(d, e.os), s1, rank);
        if b.Built? {
          BuiltIsSourced(e, name, b.tasks);
          var f := Feature(FullName(name), d.friendly, b.tasks);
          AppendSourced(e, b.s, service, f);
          var s3 := Append(b.s, service, f);
          SameLists(e, s3, s3.(packages := s3.packages + d.packages));
        }
      }
    }
  }

  lemma {:induction false} AddTasksIsSourced(e: Env, defs: seq<TaskDef>, s: State, bound: nat)
    requires Ranked(e) && TableOk(e, s.packages) && TasksBelow(e, defs, bound) && AllSourced(e, s)
    ensures var b := AddTasks(e, defs, s, bound); b.Built? ==> AllSourced(e, b.s) && TasksSay(e, defs, b.tasks)
    decreases bound, 3, |defs|
  {
    hide Ranked;
    hide TableOk;
    hide AllSourced;
    hide EnsureManager;
    hide ConfTask;
    hide TaskFrom;
    hide Possible;
    hide ManagersBelow;
    if defs != [] {
      var t, s1, first := defs[0], s, BLANK;
      assert t in defs;
      if t.typ == "install" && t.package !in s.packages {
        BlankSays(e, t);
      } else {
        if t.typ == "install" {
          assert ManagersBelow(e, s.packages[t.package], bound) by { TableNames(e, s.packages, t.package); }
        }
        var r := if t.typ == "install" then EnsureManager(e, s.packages[t.package], s, bound)
                 else if t.typ == "installLocal" then EnsureManager(e, [t.manager], s, bound)
                 else Resolved(s);
        if t.typ == "install" {
          EnsureIsSourced(e, s.packages[t.package], s, bound);
        } else if t.typ == "installLocal" {
          EnsureIsSourced(e, [t.manager], s, bound);
        }
        if r.Resolved? {
          s1 := r.s;
          first := ConfTask(s1.packages, t);
          ConfTaskSays(e, s1.packages, t);
        }
      }
      AddTasksIsSourced(e, defs[1..], s1, bound);
    }
  }

  lemma {:induction false} EnsureIsSourced(e: Env, ms: seq<string>, s: State, bound: nat)
    requires Ranked(e) && TableOk(e, s.packages) && ManagersBelow(e, ms, bound) && AllSourced(e, s)
    ensures var r := EnsureManager(e, ms, s, bound); r.Resolved? ==> AllSourced(e, r.s)
    decreases bound, 2
  {
    hide Ranked;
    hide TableOk;
    hide AllSourced;
    hide AddFirstKnown;
    hide ManagersBelow;
    AddFirstIsSourced(e, ms, s, bound);
  }

  lemma {:induction false} AddFirstIsSourced(e: Env, ms: seq<string>, s: State, bound: nat)
    requires Ranked(e) && TableOk(e, s.packages) && ManagersBelow(e, ms, bound) && AllSourced(e, s)
    ensures var r := AddFirstKnown(e, ms, s, bound); r.Resolved? ==> AllSourced(e, r.s)
    decreases bound, 1, |ms|
  {
    hide Ranked;
    hide TableOk;
    hide AllSourced;
    hide Resolve;
    hide Below;
    if ms != [] {
      assert ms[0] in ms;
      if ms[0] !in e.root.managers {
        AddFirstIsSourced(e, ms[1..], s, bound);
      } else if e.root.managers[ms[0]].needs != [] {
        ResolveIsSourced(e, e.root.managers[ms[0]].needs, s, bound);
        var r := Resolve(e, e.root.managers[ms[0]].needs, s, bound);
        if r.Resolved? { SameLists(e, r.s, r.s.(managers := r.s.managers + [Manager(ms[0], false)])); }
      }
    }
  }

  // ----- a whole cluster -----

  // Every service's plan holds features as they are declared, whatever the services ask for.
  lemma {:induction false} ServicesAreSourced(e: Env, servs: seq<ServiceDef>, s: State, bound: nat)
    requires Ranked(e) && TableOk(e, s.packages) && Requestable(e, servs, bound) && AllSourced(e, s.(service := []))
    ensures var r := ResolveServices(e, servs, s, bound);
      r.Some? ==> AllSourced(e, r.value.0.(service := []))
                  && forall j :: 0 <= j < |servs| ==> AllSourced(e, r.value.0.(service := r.value.1[j]))
    decreases |servs|
  {
    hide Ranked;
    hide TableOk;
    hide AllSourced;
    hide Resolve;
    hide Below;
    hide AlwaysFor;
    if servs != [] {
      assert servs[0] in servs;
      var bare := s.(service := []);
      ResolveIsSourced(e, servs[0].features, bare, bound);
      var r1 := Resolve(e, servs[0].features, bare, bound);
      if r1.Resolved? {
        ResolveIsSourced(e, AlwaysFor(servs[0]), r1.s, bound);
        var r2 := Resolve(e, AlwaysFor(servs[0]), r1.s, bound);
        if r2.Resolved? {
          SameLists(e, r2.s, r2.s.(service := []));
          ServicesAreSourced(e, servs[1..], r2.s, bound);
          var rest := ResolveServices(e, servs[1..], r2.s, bound);
          if rest.Some? {
            WithList(e, r2.s, rest.value.0);
            var all := ResolveServices(e, servs, s, bound).value.1;
            forall j | 0 <= j < |servs| ensures AllSourced(e, rest.value.0.(service := all[j])) {
              assert j > 0 ==> all[j] == rest.value.1[j - 1];
            }
          }
        }
      }
    }
  }

  // The final system list with the list of one service.
  lemma WithList(e: Env, s: State, s': State)
    requires AllSourced(e, s) && AllSourced(e, s'.(service := []))
    ensures AllSourced(e, s'.(service := s.service))
  {
    hide Sourced;
    var r := s'.(service := s.service);
    forall level: bool, i | 0 <= i < |ListOf(r, level)| ensures Sourced(e, level, ListOf(r, level)[i]) {
      if level {
        assert i < |ListOf(s, true)|;
      } else {
        assert i < |ListOf(s'.(service := []), false)|;
      }
    }
  }

  // From a cluster as it is set up.
  lemma ClustersAreSourced(e: Env, servs: seq<ServiceDef>, s: State, bound: nat)
    requires Ranked(e) && Initial(e, s) && TableOk(e, s.packages) && Requestable(e, servs, bound)
    ensures var r := ResolveServices(e, servs, s, bound);
      r.Some? ==> forall j :: 0 <= j < |servs| ==> AllSourced(e, r.value.0.(service := r.value.1[j]))
  {
    hide Ranked;
    hide TableOk;
    ServicesAreSourced(e, servs, s, bound);
  }
}
