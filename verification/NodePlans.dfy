// From a resolved cluster to the probe on a node: what is resolved is what gets executed. And
// what goes wrong where a system-level feature requires a service-level one.
module NodePlans {
  import opened Options
  import opened Resolver
  import opened ResolverProofs
  import opened ResolvedPlans
  import opened RunnablePlans
  import opened Provenance
  import Probe
  import ProbeMachine

  function NodeTasks(tasks: seq<Task>): seq<Probe.Task> {
    seq(|tasks|, i requires 0 <= i < |tasks| => Probe.Task(tasks[i].typ, tasks[i].body))
  }

  function NodeFeatures(features: seq<Feature>): seq<Probe.Feature> {
    seq(|features|, i requires 0 <= i < |features| => Probe.Feature(features[i].name, NodeTasks(features[i].tasks)))
  }

  // What a node that runs one service is sent.
  function NodeConfig(s: State, machineName: string): Probe.Config {
    Probe.Config(NodeFeatures(s.system), [Probe.Service(machineName, NodeFeatures(s.service))])
  }

  // A task that some feature of the plan declares for this operating system.
  ghost predicate Planned(e: Env, s: State, t: TaskDef) {
    exists f :: f in Plan(s) && Base(f.name) in e.root.features && t in TasksFor(e.root.features[Base(f.name)], e.os)
  }

  // Every task of the plan has a type with an action.
  ghost predicate Actionable(e: Env, s: State, funcs: map<string, Probe.Handler>) {
    forall t :: Planned(e, s, t) ==> t.typ in funcs && t.typ != Probe.START && t.typ != ""
  }

  lemma {:induction false} ItemsComeFromTasks(owner: Probe.Owner, features: seq<Probe.Feature>, item: Probe.Item)
    requires item in Probe.FeatureItems(owner, features)
    ensures item.owner == owner && exists i :: 0 <= i < |features| && item.task in features[i].tasks
    decreases |features|
  {
    if item in Probe.Tagged(owner, features[0].tasks) {
      assert item.task in features[0].tasks;
    } else {
      ItemsComeFromTasks(owner, features[1..], item);
      var i :| 0 <= i < |features[1..]| && item.task in features[1..][i].tasks;
      assert item.task in features[i + 1].tasks;
    }
  }

  // A task of a fit list has a type with an action.
  lemma FitTaskIsActionable(e: Env, s: State, service: bool, task: Probe.Task, funcs: map<string, Probe.Handler>)
    requires Fit(e, s) && Actionable(e, s, funcs)
    requires exists i :: 0 <= i < |ListOf(s, service)| && task in NodeFeatures(ListOf(s, service))[i].tasks
    ensures task.typ in funcs && task.typ != Probe.START && task.typ != ""
  {
    hide TasksFor;
    hide ManagerOk;
    var i :| 0 <= i < |ListOf(s, service)| && task in NodeFeatures(ListOf(s, service))[i].tasks;
    var f := ListOf(s, service)[i];
    assert FeatureFit(e, s, service, i);
    var defs := TasksFor(e.root.features[Base(f.name)], e.os);
    var j :| 0 <= j < |f.tasks| && NodeTasks(f.tasks)[j] == task;
    assert TaskFit(e, s.managers, SystemBefore(s, service, i), defs[j], f.tasks[j]);
    assert defs[j] in defs;
    assert f in Plan(s) by { ListedIsPlanned(s, service, i); }
    assert Planned(e, s, defs[j]);
  }

  lemma ListedIsPlanned(s: State, service: bool, i: nat)
    requires i < |ListOf(s, service)|
    ensures ListOf(s, service)[i] in Plan(s)
  {
    assert Plan(s)[if service then |s.system| + i else i] == ListOf(s, service)[i];
  }

  lemma ItemsAreRunnable(e: Env, s: State, machineName: string, funcs: map<string, Probe.Handler>, item: Probe.Item)
    requires Fit(e, s) && Actionable(e, s, funcs) && machineName != ""
    requires item in Probe.Flatten(NodeConfig(s, machineName))
    ensures ProbeMachine.Runnable(funcs, item)
  {
    hide Fit;
    hide Actionable;
    hide Probe.FeatureItems;
    var cfg := NodeConfig(s, machineName);
    var serv := cfg.services[0];
    var mine := Probe.FeatureItems(Probe.Of(machineName), serv.features);
    assert Probe.Flatten(cfg) == Probe.FeatureItems(Probe.System, cfg.system) + mine by {
      OneService(serv);
    }
    if item in Probe.FeatureItems(Probe.System, cfg.system) {
      ItemsComeFromTasks(Probe.System, cfg.system, item);
      var i :| 0 <= i < |cfg.system| && item.task in cfg.system[i].tasks;
      assert item.task in NodeFeatures(ListOf(s, false))[i].tasks;
      FitTaskIsActionable(e, s, false, item.task, funcs);
    } else {
      ItemsComeFromTasks(Probe.Of(machineName), serv.features, item);
      var i :| 0 <= i < |serv.features| && item.task in serv.features[i].tasks;
      assert item.task in NodeFeatures(ListOf(s, true))[i].tasks;
      FitTaskIsActionable(e, s, true, item.task, funcs);
    }
  }

  lemma OneService(serv: Probe.Service)
    ensures Probe.ServiceItems([serv]) == Probe.FeatureItems(Probe.Of(serv.name), serv.features)
  {
    hide Probe.FeatureItems;
    assert [serv][1..] == [];
    assert Probe.ServiceItems([]) == [];
  }

  // A fit plan whose task types all have actions is executed in full by the node's machine, each
  // task once, the system list before the service's, if the actions succeed.
  lemma FitPlansAreExecuted(e: Env, s: State, machineName: string, funcs: map<string, Probe.Handler>,
                            oracle: ProbeMachine.Oracle, m: ProbeMachine.Machine, n: nat)
    requires Fit(e, s) && Actionable(e, s, funcs) && machineName != "" && ProbeMachine.Registered(funcs)
    requires !m.down && m.cursor == |m.store.stream| && ProbeMachine.AcksRead(m) && forall i :: oracle(i)
    requires n > |Probe.Flatten(NodeConfig(s, machineName))| + 1
    ensures var cfg := NodeConfig(s, machineName);
      var r := ProbeMachine.Turns(funcs, oracle, m.(store := ProbeMachine.AfterStart(m.store, cfg)), n);
      && m.store.log <= r.store.log && !r.down
      && ProbeMachine.CallsFrom(r.store.log, |m.store.log|) == ProbeMachine.Succeeded(Probe.Flatten(cfg))
      && ProbeMachine.Settled(r, m.cursor, true)
  {
    hide Fit;
    hide Actionable;
    var cfg := NodeConfig(s, machineName);
    forall item | item in Probe.Flatten(cfg) ensures ProbeMachine.Runnable(funcs, item) {
      ItemsAreRunnable(e, s, machineName, funcs, item);
    }
    ProbeMachine.FullTrace(funcs, oracle, m, cfg, n);
  }

  // With what the probe registers, that holds of every plan whose tasks are of its eight types.
  lemma FitPlansRunOnTheProbe(e: Env, s: State, machineName: string, funcs: map<string, Probe.Handler>,
                              oracle: ProbeMachine.Oracle, m: ProbeMachine.Machine, n: nat)
    requires Fit(e, s) && machineName != "" && ProbeMachine.ProbeFuncs(funcs)
    requires forall t :: Planned(e, s, t) ==> ProbeMachine.ActionType(t.typ)
    requires !m.down && m.cursor == |m.store.stream| && ProbeMachine.AcksRead(m) && forall i :: oracle(i)
    requires n > |Probe.Flatten(NodeConfig(s, machineName))| + 1
    ensures var cfg := NodeConfig(s, machineName);
      var r := ProbeMachine.Turns(funcs, oracle, m.(store := ProbeMachine.AfterStart(m.store, cfg)), n);
      && m.store.log <= r.store.log && !r.down
      && ProbeMachine.CallsFrom(r.store.log, |m.store.log|) == ProbeMachine.Succeeded(Probe.Flatten(cfg))
      && ProbeMachine.Settled(r, m.cursor, true)
  {
    hide *;
    assert ProbeMachine.Registered(funcs) && Actionable(e, s, funcs) by { ProbeTypesAct(e, s, funcs); }
    FitPlansAreExecuted(e, s, machineName, funcs, oracle, m, n);
  }

  lemma ProbeTypesAct(e: Env, s: State, funcs: map<string, Probe.Handler>)
    requires ProbeMachine.ProbeFuncs(funcs) && forall t :: Planned(e, s, t) ==> ProbeMachine.ActionType(t.typ)
    ensures ProbeMachine.Registered(funcs) && Actionable(e, s, funcs)
  {
    hide Planned;
    forall t | Planned(e, s, t) ensures t.typ in funcs && t.typ != Probe.START && t.typ != "" {
      ProbeMachine.ActionTypeActs(funcs, t.typ);
    }
  }

  // ----- what is executed, as it is declared -----

  // How many tasks the first i features have.
  function TasksBefore(features: seq<Feature>, i: nat): nat
    requires i <= |features|
  {
    if i == 0 then 0 else TasksBefore(features, i - 1) + |features[i - 1].tasks|
  }

  lemma {:induction false} TasksBeforeGrow(features: seq<Feature>, i: nat, j: nat)
    requires i <= j <= |features|
    ensures TasksBefore(features, i) <= TasksBefore(features, j)
  {
    if i < j {
      TasksBeforeGrow(features, i, j - 1);
    }
  }

  lemma {:induction false} FrontOfPlan(features: seq<Feature>, more: seq<Feature>, i: nat)
    requires i <= |features|
    ensures TasksBefore(features + more, i) == TasksBefore(features, i)
  {
    if i > 0 {
      FrontOfPlan(features, more, i - 1);
    }
  }

  lemma {:induction false} RestOfPlan(features: seq<Feature>, more: seq<Feature>, i: nat)
    requires i <= |more|
    ensures TasksBefore(features + more, |features| + i) == TasksBefore(features, |features|) + TasksBefore(more, i)
  {
    if i > 0 {
      RestOfPlan(features, more, i - 1);
      assert (features + more)[|features| + i - 1] == more[i - 1];
    } else {
      FrontOfPlan(features, more, |features|);
    }
  }

  lemma {:induction false} FirstAndRest(features: seq<Feature>, i: nat)
    requires features != [] && i < |features|
    ensures TasksBefore(features, i + 1) == |features[0].tasks| + TasksBefore(features[1..], i)
  {
    if i > 0 {
      FirstAndRest(features, i - 1);
    }
  }

  lemma {:induction false} ItemsOfFeatures(owner: Probe.Owner, features: seq<Feature>)
    ensures |Probe.FeatureItems(owner, NodeFeatures(features))| == TasksBefore(features, |features|)
    decreases |features|
  {
    if features != [] {
      assert NodeFeatures(features)[1..] == NodeFeatures(features[1..]);
      ItemsOfFeatures(owner, features[1..]);
      FirstAndRest(features, |features| - 1);
    }
  }

  lemma {:induction false} ItemAt(owner: Probe.Owner, features: seq<Feature>, i: nat, j: nat)
    requires i < |features| && j < |features[i].tasks|
    ensures var items, k := Probe.FeatureItems(owner, NodeFeatures(features)), TasksBefore(features, i) + j;
      k < |items| && items[k] == Probe.Item(owner, Probe.Task(features[i].tasks[j].typ, features[i].tasks[j].body))
    decreases |features|
  {
    var first, rest := features[0], features[1..];
    assert NodeFeatures(features)[1..] == NodeFeatures(rest);
    FirstItems(owner, first);
    if i > 0 {
      ItemAt(owner, rest, i - 1, j);
      FirstAndRest(features, i - 1);
    }
  }

  lemma FirstItems(owner: Probe.Owner, f: Feature)
    ensures var items := Probe.Tagged(owner, NodeTasks(f.tasks));
      && |items| == |f.tasks|
      && forall j :: 0 <= j < |items| ==>
        items[j] == Probe.Item(owner, Probe.Task(f.tasks[j].typ, f.tasks[j].body))
  {
  }

  function OwnerAt(s: State, machineName: string, i: nat): Probe.Owner {
    if i < |s.system| then Probe.System else Probe.Of(machineName)
  }

  lemma PlanSize(s: State, machineName: string)
    ensures |Probe.Flatten(NodeConfig(s, machineName))| == TasksBefore(Plan(s), |Plan(s)|)
    ensures Probe.Flatten(NodeConfig(s, machineName)) ==
            Probe.FeatureItems(Probe.System, NodeFeatures(s.system))
            + Probe.FeatureItems(Probe.Of(machineName), NodeFeatures(s.service))
    ensures |Probe.FeatureItems(Probe.System, NodeFeatures(s.system))| == TasksBefore(s.system, |s.system|)
  {
    hide Probe.FeatureItems;
    OneService(NodeConfig(s, machineName).services[0]);
    ItemsOfFeatures(Probe.System, s.system);
    ItemsOfFeatures(Probe.Of(machineName), s.service);
    RestOfPlan(s.system, s.service, |s.service|);
  }

  // The node gets exactly the tasks of the plan, in order, each with the service it is run for.
  lemma PlanItem(s: State, machineName: string, i: nat, j: nat)
    requires i < |Plan(s)| && j < |Plan(s)[i].tasks|
    ensures var items, t := Probe.Flatten(NodeConfig(s, machineName)), Plan(s)[i].tasks[j];
      && TasksBefore(Plan(s), i) + j < |items|
      && items[TasksBefore(Plan(s), i) + j] == Probe.Item(OwnerAt(s, machineName, i), Probe.Task(t.typ, t.body))
  {
    hide Probe.FeatureItems;
    hide Probe.Flatten;
    hide TasksBefore;
    PlanSize(s, machineName);
    if i < |s.system| {
      FrontOfPlan(s.system, s.service, i);
      ItemAt(Probe.System, s.system, i, j);
    } else {
      RestOfPlan(s.system, s.service, i - |s.system|);
      ItemAt(Probe.Of(machineName), s.service, i - |s.system|, j);
    }
  }

  // These are the calls, all successful, that a feature declared under b and made out to service x
  // stands for on a node that runs it for this owner.
  ghost predicate CallsOf(e: Env, b: string, x: string, owner: string, calls: seq<(Probe.Call, bool)>) {
    && b in e.root.features
    && var d := e.root.features[b];
       var defs := if e.os in d.custom then d.custom[e.os] else d.tasks;
       && |calls| == |defs|
       && forall j :: 0 <= j < |defs| ==>
            calls[j] == (Probe.Call(owner, Probe.Task(defs[j].typ, TextFor(e, x, defs[j]))), true)
  }

  ghost predicate CallsFor(e: Env, name: string, owner: string, calls: seq<(Probe.Call, bool)>) {
    && (forall x: string :: x != "" && name == "service " + x ==> CallsOf(e, "service", x, owner, calls))
    && ((forall x: string :: x != "" ==> name != "service " + x) ==> CallsOf(e, name, "", owner, calls))
  }

  lemma TasksAreCalls(e: Env, service: bool, f: Feature, owner: string, calls: seq<(Probe.Call, bool)>)
    requires Sourced(e, service, f) && |calls| == |f.tasks|
    requires forall j :: 0 <= j < |f.tasks| ==>
        f.tasks[j] != BLANK && calls[j] == (Probe.Call(owner, Probe.Task(f.tasks[j].typ, f.tasks[j].body)), true)
    ensures CallsFor(e, f.name, owner, calls)
  {
    hide Possible;
    hide Supported;
    hide TextFor;
    if x: string :| x != "" && f.name == "service " + x {
      assert FeatureFrom(e, service, "service", x, f);
      forall y: string | f.name == "service " + y ensures y == x {
        assert y == f.name[|"service "|..] == x;
      }
    }
  }

  lemma FitHasNoBlank(e: Env, s: State, service: bool, i: nat)
    requires Fit(e, s) && i < |ListOf(s, service)|
    ensures forall j :: 0 <= j < |ListOf(s, service)[i].tasks| ==> ListOf(s, service)[i].tasks[j] != BLANK
  {
    hide TasksFor;
    hide ManagerOk;
    assert FeatureFit(e, s, service, i);
  }

  // The calls that the i-th feature of the plan has to itself.
  function Share(calls: seq<(Probe.Call, bool)>, plan: seq<Feature>, i: nat): (r: seq<(Probe.Call, bool)>)
    requires i < |plan|
    ensures |calls| == TasksBefore(plan, |plan|) ==> |r| == |plan[i].tasks|
  {
    TasksBeforeGrow(plan, i + 1, |plan|);
    if TasksBefore(plan, i + 1) <= |calls| then calls[TasksBefore(plan, i)..TasksBefore(plan, i + 1)] else []
  }

  function OwnerName(s: State, machineName: string, i: nat): string {
    if i < |s.system| then "" else machineName
  }

  // Feature after feature, in the plan's order, these are the calls that its declaration stands for.
  ghost predicate CallsAsDeclared(e: Env, s: State, machineName: string, calls: seq<(Probe.Call, bool)>) {
    && |calls| == TasksBefore(Plan(s), |Plan(s)|)
    && forall i :: 0 <= i < |Plan(s)| ==>
         CallsFor(e, Plan(s)[i].name, OwnerName(s, machineName, i), Share(calls, Plan(s), i))
  }

  lemma ShareIsSlice(calls: seq<(Probe.Call, bool)>, plan: seq<Feature>, i: nat, j: nat)
    requires i < |plan| && j < |plan[i].tasks| && |calls| == TasksBefore(plan, |plan|)
    ensures |Share(calls, plan, i)| == |plan[i].tasks| && TasksBefore(plan, i) + j < |calls|
    ensures Share(calls, plan, i)[j] == calls[TasksBefore(plan, i) + j]
  {
    TasksBeforeGrow(plan, i + 1, |plan|);
  }

  lemma ShareAt(s: State, machineName: string, i: nat, j: nat)
    requires i < |Plan(s)| && j < |Plan(s)[i].tasks|
    ensures var calls := ProbeMachine.Succeeded(Probe.Flatten(NodeConfig(s, machineName)));
      var share, t := Share(calls, Plan(s), i), Plan(s)[i].tasks[j];
      && |share| == |Plan(s)[i].tasks|
      && share[j] == (Probe.Call(OwnerName(s, machineName, i), Probe.Task(t.typ, t.body)), true)
  {
    hide Probe.Flatten;
    hide NodeConfig;
    hide Share;
    hide TasksBefore;
    hide Plan;
    PlanSize(s, machineName);
    PlanItem(s, machineName, i, j);
    ShareIsSlice(ProbeMachine.Succeeded(Probe.Flatten(NodeConfig(s, machineName))), Plan(s), i, j);
  }

  lemma PlanCalls(e: Env, s: State, machineName: string)
    requires Fit(e, s) && AllSourced(e, s)
    ensures CallsAsDeclared(e, s, machineName, ProbeMachine.Succeeded(Probe.Flatten(NodeConfig(s, machineName))))
  {
    hide Fit;
    hide Sourced;
    hide CallsFor;
    hide Probe.Flatten;
    hide NodeConfig;
    hide Share;
    hide TasksBefore;
    hide OwnerName;
    PlanSize(s, machineName);
    var calls, plan := ProbeMachine.Succeeded(Probe.Flatten(NodeConfig(s, machineName))), Plan(s);
    forall i | 0 <= i < |plan|
      ensures CallsFor(e, plan[i].name, OwnerName(s, machineName, i), Share(calls, plan, i))
    {
      var service := i >= |s.system|;
      var k := if service then i - |s.system| else i;
      assert plan[i] == ListOf(s, service)[k];
      FitHasNoBlank(e, s, service, k);
      forall j | 0 <= j < |plan[i].tasks|
        ensures j < |Share(calls, plan, i)| == |plan[i].tasks|
        ensures Share(calls, plan, i)[j] == (Probe.Call(OwnerName(s, machineName, i),
                                                        Probe.Task(plan[i].tasks[j].typ, plan[i].tasks[j].body)), true)
      {
        ShareAt(s, machineName, i, j);
      }
      TasksAreCalls(e, service, plan[i], OwnerName(s, machineName, i), Share(calls, plan, i));
    }
  }

  // What the node's machine executes of a fit plan whose features are as declared: for each feature
  // in its place, the tasks that its declaration lists for the operating system, in their order,
  // with the declared types and texts.
  lemma ExecutedAsDeclared(e: Env, s: State, machineName: string, funcs: map<string, Probe.Handler>,
                           oracle: ProbeMachine.Oracle, m: ProbeMachine.Machine, n: nat)
    requires Fit(e, s) && Actionable(e, s, funcs) && machineName != "" && ProbeMachine.Registered(funcs)
    requires !m.down && m.cursor == |m.store.stream| && ProbeMachine.AcksRead(m) && forall i :: oracle(i)
    requires AllSourced(e, s) && n > |Probe.Flatten(NodeConfig(s, machineName))| + 1
    ensures var start := m.(store := ProbeMachine.AfterStart(m.store, NodeConfig(s, machineName)));
      var log := ProbeMachine.Turns(funcs, oracle, start, n).store.log;
      && |m.store.log| <= |log|
      && CallsAsDeclared(e, s, machineName, ProbeMachine.CallsFrom(log, |m.store.log|))
  {
    hide Fit;
    hide Actionable;
    hide AllSourced;
    hide CallsAsDeclared;
    hide ProbeMachine.Turns;
    hide Probe.Flatten;
    hide NodeConfig;
    PlanCalls(e, s, machineName);
    FitPlansAreExecuted(e, s, machineName, funcs, oracle, m, n);
  }

  // ----- the package manager of an install task -----

  // actions.Install: the node's first package manager that the package names, or an error.
  method InstallManager(managers: seq<Manager>, package: Package) returns (r: Option<Manager>)
    ensures r == FirstManager(managers, package.managers)
  {
    assert managers[0..] == managers;
    for i := 0 to |managers|
      invariant FirstManager(managers, package.managers) == FirstManager(managers[i..], package.managers)
    {
      assert managers[i..][0] == managers[i] && managers[i..][1..] == managers[i + 1..];
      if managers[i].name !in package.managers {
        continue;
      }
      return Some(managers[i]);
    }
    return None;
  }

  // On a node with the cluster's final managers no install task of a fit plan lacks one, and the
  // system-level features that the manager requires are worked off before the task's feature.
  lemma InstallsFindTheirManager(e: Env, s: State, i: nat, j: nat)
    requires Fit(e, s) && i < |Plan(s)| && j < |Plan(s)[i].tasks| && Plan(s)[i].tasks[j].typ == "install"
    ensures Plan(s)[i].tasks[j].package.Some?
    ensures var r := FirstManager(s.managers, Plan(s)[i].tasks[j].package.value.managers);
      r.Some? && ManagerOk(e, Plan(s)[..i], r.value)
  {
    hide TasksFor;
    hide ManagerOk;
    hide FirstManager;
    var service := i >= |s.system|;
    var k := if service then i - |s.system| else i;
    var f := ListOf(s, service)[k];
    assert f == Plan(s)[i];
    assert FeatureFit(e, s, service, k);
    var before := SystemBefore(s, service, k);
    assert TaskFit(e, s.managers, before, TasksFor(e.root.features[Base(f.name)], e.os)[j], f.tasks[j]);
    assert before <= Plan(s)[..i];
    ManagerStaysOk(e, before, Plan(s)[..i], FirstManager(s.managers, f.tasks[j].package.value.managers).value);
  }

  // ----- a system-level feature that requires a service-level one -----

  const INVERTED := Root(
    map["a" := FeatureDef("", ["b"], [TaskDef("command", "root", "", "", "")], map[], map[]),
        "b" := FeatureDef("", [], [TaskDef("command", "service", "", "", "")], map[], map[])],
    map[], map[])

  const HOST := Env(INVERTED, "linux", {}, (service, text) => text, name => if name == "a" then 1 else 0)

  const BOTH: set<string> := {"a", "b"}

  lemma HostNames()
    ensures Base("a") == "a" == FullName("a") && Base("b") == "b" == FullName("b")
  {
    assert !(SERVICE <= "a") && !(SERVICE <= "b");
  }

  lemma HostLevels()
    ensures Base("a") in HOST.root.features && Base("b") in HOST.root.features
    ensures !InService(HOST, "a") && InService(HOST, "b")
  {
    HostNames();
    var a := HOST.root.features["a"];
    assert a.tasks[0].privilege[0] != "service"[0];
    assert a.tasks[0] in TasksFor(a, HOST.os);
  }

  lemma CommandsOnly(e: Env, v: set<string>, defs: seq<TaskDef>, bound: nat)
    requires forall t :: t in defs ==> t.typ == "command"
    ensures TasksBelow(e, defs, bound) && TasksIn(e, v, defs)
  {
    hide Possible;
    hide PossibleIn;
    hide ManagersBelow;
    hide ManagersIn;
    assert "command"[0] != "install"[0] && "command"[0] != "installLocal"[0];
  }

  lemma HostTasks(b: string, bound: nat)
    requires b in BOTH
    ensures b in HOST.root.features
    ensures TasksBelow(HOST, TasksFor(HOST.root.features[b], HOST.os), bound)
    ensures TasksIn(HOST, BOTH, TasksFor(HOST.root.features[b], HOST.os))
    ensures Below(HOST, HOST.root.features[b].needs, HOST.rank(b)) && In(BOTH, HOST.root.features[b].needs)
  {
    HostNames();
    hide Base;
    CommandsOnly(HOST, BOTH, TasksFor(HOST.root.features[b], HOST.os), bound);
  }

  lemma HostIsSound()
    ensures Ranked(HOST) && ClosedOver(HOST, BOTH, 2) && "a" in HOST.root.features && "b" in HOST.root.features
    ensures Base("a") == "a" == FullName("a") && Base("b") == "b" == FullName("b")
    ensures !InService(HOST, "a") && InService(HOST, "b")
  {
    HostNames();
    HostLevels();
    hide InService;
    hide Base;
    hide FullName;
    hide TasksFor;
    hide TasksBelow;
    hide TasksIn;
    hide Below;
    hide In;
    forall b | b in HOST.root.features ensures b in BOTH {
    }
    forall b | b in BOTH
      ensures b in HOST.root.features
      ensures Below(HOST, HOST.root.features[b].needs, HOST.rank(b))
      ensures TasksBelow(HOST, TasksFor(HOST.root.features[b], HOST.os), HOST.rank(b))
      ensures In(BOTH, HOST.root.features[b].needs)
      ensures TasksIn(HOST, BOTH, TasksFor(HOST.root.features[b], HOST.os))
    {
      HostTasks(b, HOST.rank(b));
    }
  }

  const BARE := State([], [], map[], [])

  lemma BareIsGood()
    ensures Ranked(HOST) && ClosedOver(HOST, BOTH, 2) && Good(HOST, BOTH, BARE) && TableOk(HOST, BARE.packages)
  {
    HostIsSound();
    hide Ranked;
    hide ClosedOver;
    InitialIsGood(HOST, BOTH, BARE);
  }

  // "a" is worked off before "b", which it requires; and a second service of the cluster that
  // asks for "a" does not get "b" at all.
  lemma InvertedRequirement()
    ensures Ranked(HOST) && Good(HOST, BOTH, BARE) && TableOk(HOST, BARE.packages) && Below(HOST, ["a"], 2)
    ensures var r := Resolve(HOST, ["a"], BARE, 2);
      && r.Resolved? && TableOk(HOST, r.s.packages)
      && Has(Plan(r.s), "a") && Has(Plan(r.s), "b")
      && (forall i :: 0 <= i < |Plan(r.s)| && Plan(r.s)[i].name == "a" ==> !Has(Plan(r.s)[..i], "b"))
      && Resolve(HOST, ["a"], r.s.(service := []), 2) == Resolved(r.s.(service := []))
      && !Has(Plan(r.s.(service := [])), "b")
  {
    HostIsSound();
    BareIsGood();
    assert Below(HOST, ["a"], 2) && In(BOTH, ["a"]);
    assert Needs(HOST, "a", "b") by { assert HOST.root.features["a"].needs[0] == "b"; }
    hide Ranked;
    hide ClosedOver;
    hide Good;
    hide TableOk;
    hide InService;
    hide ResolveOne;
    hide Base;
    hide FullName;
    ResolveAchieves(HOST, BOTH, ["a"], BARE, 2);
    var r := Resolve(HOST, ["a"], BARE, 2);
    assert [r][1..] == [] && ["a"][1..] == [] && "a" in ["a"];
    GoodTable(HOST, BOTH, r.s);
    assert r == ResolveOne(HOST, "a", BARE);
    assert ClosedOver(HOST, BOTH, HOST.rank(Base("a")) + 1);
    AddedIsClosed(HOST, BOTH, "a", BARE);
    assert Listed(HOST, r.s, "a") && Listed(HOST, r.s, "b");
    InvertedOrder(r.s);
  }

  // What follows for a state with "a" in the system list and "b" in the service list.
  lemma InvertedOrder(s: State)
    requires Ranked(HOST) && Good(HOST, BOTH, s) && TableOk(HOST, s.packages) && Below(HOST, ["a"], 2)
    requires "a" in HOST.root.features && "b" in HOST.root.features && !InService(HOST, "a") && InService(HOST, "b")
    requires Base("a") == "a" == FullName("a") && Base("b") == "b" == FullName("b") && Needs(HOST, "a", "b")
    requires Listed(HOST, s, "a") && Listed(HOST, s, "b")
    ensures Has(Plan(s), "a") && Has(Plan(s), "b")
    ensures forall i :: 0 <= i < |Plan(s)| && Plan(s)[i].name == "a" ==> !Has(Plan(s)[..i], "b")
    ensures Resolve(HOST, ["a"], s.(service := []), 2) == Resolved(s.(service := []))
    ensures !Has(Plan(s.(service := [])), "b")
  {
    hide Ranked;
    hide ClosedOver;
    hide Stocked;
    hide ManagersOk;
    hide Ordered;
    hide TableOk;
    hide InService;
    hide Base;
    hide FullName;
    hide Needs;
    var i :| 0 <= i < |s.system| && s.system[i].name == "a";
    var j :| 0 <= j < |s.service| && s.service[j].name == "b";
    assert Plan(s)[i] == s.system[i] && Plan(s)[|s.system| + j] == s.service[j];
    NotInSystem(HOST, s, "b");
    assert forall k :: 0 <= k < |s.system| ==> Plan(s)[k] == s.system[k];
    forall k | 0 <= k < |Plan(s)| && Plan(s)[k].name == "a" ensures !Has(Plan(s)[..k], "b") {
      PlannedAt(s, i, k);
    }
    AskedAgain(s.(service := []));
  }

  lemma PlannedAt(s: State, i: nat, k: nat)
    requires Ranked(HOST) && Good(HOST, BOTH, s) && i < |s.system|
    requires k < |Plan(s)| && s.system[i].name == Plan(s)[k].name
    ensures i == k
  {
    hide Ranked;
    hide ClosedOver;
    hide Good;
    assert Plan(s)[i] == s.system[i];
    if i < k {
      PlannedOnce(HOST, BOTH, s, i, k);
    } else if k < i {
      PlannedOnce(HOST, BOTH, s, k, i);
    }
  }

  lemma AskedAgain(s: State)
    requires Ranked(HOST) && TableOk(HOST, s.packages) && Below(HOST, ["a"], 2)
    requires "a" in HOST.root.features && !InService(HOST, "a") && Base("a") == "a" == FullName("a")
    requires Has(s.system, "a")
    ensures Resolve(HOST, ["a"], s, 2) == Resolved(s)
  {
    hide Ranked;
    hide TableOk;
    hide Has;
    hide IsServiceLevel;
    DefKeepsRank(HOST, "a");
    assert ["a"][1..] == [];
    assert ResolveOne(HOST, "a", s) == Resolved(s);
  }
}
