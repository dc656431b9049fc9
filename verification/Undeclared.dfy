// What an undeclared requirement does to resolution, exactly: the service's list is forgotten,
// and a service-level feature that requires it crashes if there was anything to forget.
module Undeclared {
  import opened Resolver
  import opened ResolverProofs
  import opened ResolvedPlans

  // The declared ones among these names are in v.
  ghost predicate DeclaredIn(e: Env, v: set<string>, names: seq<string>) {
    forall n :: n in names && Base(n) in e.root.features ==> Base(n) in v
  }

  function Forgotten(s: State): State {
    s.(service := [])
  }

  // What resolving these names comes to: with all of them declared the lists only grow; otherwise
  // the service's list ends up empty, and only the rest of the state has grown.
  ghost predicate KeptOrForgotten(e: Env, v: set<string>, names: seq<string>, s: State, r: Result, bound: nat)
    requires Ranked(e)
  {
    && r.Resolved? && Good(e, v, r.s)
    && (Declared(e, names) ==> Achieved(e, v, names, s, r, bound))
    && (!Declared(e, names) ==>
          r.s.service == [] && Extends(Forgotten(s), r.s) && AddsBelow(e, Forgotten(s), r.s, bound))
  }

  // Where everything below the bound is declared, resolution does not crash, and it forgets the
  // service's list exactly when one of the requested names is undeclared, at whatever position.
  lemma {:induction false} UndeclaredForgets(e: Env, v: set<string>, names: seq<string>, s: State, bound: nat)
    requires Ranked(e) && ClosedOver(e, v, bound) && Good(e, v, s) && TableOk(e, s.packages)
    requires Below(e, names, bound) && DeclaredIn(e, v, names)
    ensures KeptOrForgotten(e, v, names, s, Resolve(e, names, s, bound), bound)
    ensures s.service <= Resolve(e, names, s, bound).s.service <==> Declared(e, names) || s.service == []
    decreases |names|
  {
    hide Ranked;
    hide ClosedOver;
    hide Good;
    hide Below;
    hide TableOk;
    hide ResolveOne;
    if Declared(e, names) {
      ResolveAchieves(e, v, names, s, bound);
    } else if Base(names[0]) !in e.root.features {
      FreshServiceGood(e, v, s);
      Stands(e, Forgotten(s), bound);
    } else {
      assert names[0] in names;
      FirstIsClosed(e, v, names, bound);
      ResolveOneAchieves(e, v, names[0], s);
      var s1 := ResolveOne(e, names[0], s).s;
      GoodTable(e, v, s1);
      assert Below(e, names[1..], bound) by { RestBelow(e, names, bound); }
      assert !Declared(e, names[1..]);
      UndeclaredForgets(e, v, names[1..], s1, bound);
      var s2 := Resolve(e, names[1..], s1, bound).s;
      ForgottenOn(e, s, s1, s2, e.rank(Base(names[0])) + 1, bound);
    }
  }

  lemma FirstIsClosed(e: Env, v: set<string>, names: seq<string>, bound: nat)
    requires ClosedOver(e, v, bound) && Below(e, names, bound) && names != [] && Base(names[0]) in e.root.features
    ensures ClosedOver(e, v, e.rank(Base(names[0])) + 1) && e.rank(Base(names[0])) < bound
  {
    hide ClosedOver;
    assert names[0] in names;
    ClosedLess(e, v, bound, e.rank(Base(names[0])) + 1);
  }

  lemma RestBelow(e: Env, names: seq<string>, bound: nat)
    requires Below(e, names, bound) && names != []
    ensures Below(e, names[1..], bound)
  {
  }

  lemma ForgottenOn(e: Env, s: State, s1: State, s2: State, less: nat, bound: nat)
    requires Extends(s, s1) && AddsBelow(e, s, s1, less) && less <= bound
    requires s2.service == [] && Extends(Forgotten(s1), s2) && AddsBelow(e, Forgotten(s1), s2, bound)
    ensures Extends(Forgotten(s), s2) && AddsBelow(e, Forgotten(s), s2, bound)
  {
    forall i | |s.system| <= i < |s2.system| ensures e.rank(Base(s2.system[i].name)) < bound {
      if i < |s1.system| {
        assert s2.system[i] == s1.system[i];
      }
    }
  }

  // One feature that is not listed yet, with everything of lower rank declared. It crashes
  // exactly when it is of service level, something that it requires is undeclared, and the
  // service's list is not empty. Otherwise it is listed; where all its requirements are declared
  // the lists have only grown, and else what the service had before is gone.
  lemma UndeclaredCrashes(e: Env, v: set<string>, name: string, s: State)
    requires Ranked(e) && ClosedOver(e, v, e.rank(Base(name))) && Good(e, v, s)
    requires TableOk(e, s.packages) && Base(name) in v
    requires var d := e.root.features[Base(name)]; DeclaredIn(e, v, d.needs) && TasksIn(e, v, TasksFor(d, e.os))
    requires !Has(ListOf(s, InService(e, name)), FullName(name))
    ensures var r, needs := ResolveOne(e, name, s), e.root.features[Base(name)].needs;
      && (r.Crashed? <==> !Declared(e, needs) && InService(e, name) && s.service != [])
      && (r.Resolved? ==>
            && Listed(e, r.s, name)
            && Extends(if Declared(e, needs) then s else Forgotten(s), r.s)
            && AddsBelow(e, if Declared(e, needs) then s else Forgotten(s), r.s, e.rank(Base(name)) + 1))
  {
    hide Ranked;
    hide ClosedOver;
    hide Good;
    hide TableOk;
    hide Below;
    hide Resolve;
    hide AddTasks;
    hide TasksFor;
    hide TasksIn;
    hide IsServiceLevel;
    hide Has;
    assert Base(name) in e.root.features by { ScopeIsDeclared(e, v, s, Base(name)); }
    DefKeepsRank(e, name);
    var d, rank := DefOf(e, name), e.rank(Base(name));
    var service := IsServiceLevel(d, e.os);
    UndeclaredForgets(e, v, d.needs, s, rank);
    var s1 := Resolve(e, d.needs, s, rank).s;
    var from := if Declared(e, d.needs) then s else Forgotten(s);
    if Declared(e, d.needs) || !service || s.service == [] {
      assert ListOf(from, service) == ListOf(s, service);
      StillMissing(e, from, s1, service, name, rank);
      GoodTable(e, v, s1);
      SameTasksIn(e, v, TasksFor(e.root.features[Base(name)], e.os), TasksFor(d, e.os));
      AddTasksAchieves(e, v, TasksFor(d, e.os), s1, rank);
      var b := AddTasks(e, TasksFor(d, e.os), s1, rank);
      ExtendsOn(from, s1, b.s);
      AddsBelowOn(e, from, s1, b.s, rank);
      AppendExtends(e, name, from, b.s, d.friendly, b.tasks);
      var s' := Appended(e, name, b.s, d.friendly, b.tasks);
      assert ResolveOne(e, name, s) == Resolved(s');
    }
  }

  // ----- a concrete configuration -----

  // "x" requires nothing; "y" requires "z", which nobody declares. Both are of service level.
  const GAPPED := Root(
    map["x" := FeatureDef("", [], [], map[], map[]), "y" := FeatureDef("", ["z"], [], map[], map[])],
    map[], map[])

  const GAP_HOST := Env(GAPPED, "linux", {}, (service, text) => text, name => if name == "y" then 1 else 0)

  const NOTHING := State([], [], map[], [])

  lemma GapNames()
    ensures Base("x") == "x" == FullName("x") && Base("y") == "y" == FullName("y") && Base("z") == "z"
  {
    assert !(SERVICE <= "x") && !(SERVICE <= "y") && !(SERVICE <= "z");
  }

  lemma GapIsRanked()
    ensures Ranked(GAP_HOST) && Below(GAP_HOST, ["x", "y"], 2)
  {
    GapNames();
  }

  lemma GapIsSound()
    ensures Ranked(GAP_HOST) && ClosedOver(GAP_HOST, {"x", "y"}, 1) && Good(GAP_HOST, {"x", "y"}, NOTHING)
    ensures Below(GAP_HOST, ["x", "y"], 2)
  {
    GapIsRanked();
    hide Ranked;
    GapNames();
  }

  // Asked for "y" alone, "y" is listed though its requirement is missing; asked for "x" and then
  // "y", resolution crashes.
  lemma UndeclaredExample()
    ensures Ranked(GAP_HOST) && Below(GAP_HOST, ["y"], 2) && Below(GAP_HOST, ["x", "y"], 2)
    ensures Resolve(GAP_HOST, ["y"], NOTHING, 2).Resolved?
    ensures Listed(GAP_HOST, Resolve(GAP_HOST, ["y"], NOTHING, 2).s, "y")
    ensures Resolve(GAP_HOST, ["x", "y"], NOTHING, 2) == Crashed
  {
    GapIsSound();
    GapNames();
    var v := {"x", "y"};
    hide Ranked;
    hide ClosedOver;
    hide Good;
    hide ResolveOne;
    ClosedLess(GAP_HOST, v, 1, 0);
    assert ["y"][1..] == [] && ["x", "y"][1..] == ["y"];
    UndeclaredCrashes(GAP_HOST, v, "y", NOTHING);
    UndeclaredCrashes(GAP_HOST, v, "x", NOTHING);
    ResolveOneAchieves(GAP_HOST, v, "x", NOTHING);
    var s1 := ResolveOne(GAP_HOST, "x", NOTHING).s;
    GoodTable(GAP_HOST, v, s1);
    UndeclaredCrashes(GAP_HOST, v, "y", s1);
  }

  // ----- further down -----

  // "w" requires "y" only, which is declared, at system level, and requires the undeclared "z".
  const DEEP := Root(
    map["x" := FeatureDef("", [], [], map[], map[]),
        "w" := FeatureDef("", ["y"], [], map[], map[]),
        "y" := FeatureDef("", ["z"], [TaskDef("command", "root", "", "", "")], map[], map[])],
    map[], map[])

  const DEEP_HOST := Env(DEEP, "linux", {}, (service, text) => text,
                         name => if name == "w" then 2 else if name == "y" then 1 else 0)

  lemma DeepNames()
    ensures Base("x") == "x" == FullName("x") && Base("y") == "y" == FullName("y")
    ensures Base("w") == "w" == FullName("w") && Base("z") == "z"
    ensures ServiceOf("x") == ServiceOf("y") == ServiceOf("w") == ""
  {
    assert !(SERVICE <= "x") && !(SERVICE <= "y") && !(SERVICE <= "z") && !(SERVICE <= "w");
  }

  lemma DeepIsRanked()
    ensures Ranked(DEEP_HOST) && Below(DEEP_HOST, ["x", "w"], 3) && Below(DEEP_HOST, ["w"], 3)
    ensures Below(DEEP_HOST, ["y"], 2) && Below(DEEP_HOST, ["z"], 1)
  {
    DeepNames();
    hide Base;
    hide ManagersBelow;
    hide Possible;
    var e := DEEP_HOST;
    assert e.rank("y") == 1 && e.rank("w") == 2 && e.rank("x") == e.rank("z") == 0;
    forall b | b in e.root.features
      ensures Below(e, e.root.features[b].needs, e.rank(b))
      ensures TasksBelow(e, TasksFor(e.root.features[b], e.os), e.rank(b))
    {
      hide Below;
      if b == "y" {
        assert Below(e, ["z"], 1);
        CommandsAreBelow(e, e.root.features[b].tasks, 1);
      } else if b == "w" {
        assert Below(e, ["y"], 2);
      } else {
        assert Below(e, [], 0);
      }
    }
  }

  lemma CommandsAreBelow(e: Env, defs: seq<TaskDef>, bound: nat)
    requires forall t :: t in defs ==> t.typ == "command"
    ensures TasksBelow(e, defs, bound)
  {
    assert "command"[0] != "install"[0] && "command"[0] != "installLocal"[0];
  }

  // "y" costs the service its list, but is listed itself.
  lemma DeepForgets(s: State)
    requires Ranked(DEEP_HOST) && TableOk(DEEP_HOST, s.packages) && !Has(s.system, "y")
    ensures ResolveOne(DEEP_HOST, "y", s).Resolved? && ResolveOne(DEEP_HOST, "y", s).s.service == []
  {
    DeepNames();
    hide Ranked;
    var d := DEEP_HOST.root.features["y"];
    assert d.tasks[0].privilege[0] != "service"[0];
    assert !IsServiceLevel(d, "linux") by { assert d.tasks[0] in TasksFor(d, "linux"); }
    DefKeepsRank(DEEP_HOST, "y");
    assert Resolve(DEEP_HOST, ["z"], s, 1) == Resolved(s.(service := []));
    assert d.tasks[1..] == [];
    assert "command"[0] != "install"[0] && "command"[0] != "installLocal"[0];
  }

  // Asked for "x" and then "w", resolution crashes, though all that "w" requires is declared.
  lemma UndeclaredBelowExample()
    ensures Ranked(DEEP_HOST) && Below(DEEP_HOST, ["x", "w"], 3)
    ensures Declared(DEEP_HOST, DEEP_HOST.root.features["w"].needs)
    ensures Resolve(DEEP_HOST, ["x", "w"], NOTHING, 3) == Crashed
  {
    DeepNames();
    DeepIsRanked();
    hide Ranked;
    hide Below;
    hide Base;
    hide FullName;
    hide ServiceOf;
    var s1 := NOTHING.(service := [Feature("x", "", [])]);
    assert ResolveOne(DEEP_HOST, "x", NOTHING) == Resolved(s1);
    assert ["x", "w"][1..] == ["w"];
    DeepForgets(s1);
    assert ["y"][1..] == [];
    assert Resolve(DEEP_HOST, ["y"], s1, 2).s.service == [];
    assert !Has(s1.service, "w");
    assert ResolveOne(DEEP_HOST, "w", s1) == Crashed;
  }
}
