// The resolver as code, on a cluster whose lists and tables it updates in place.
module ResolverCluster {
  import opened Options
  import opened Resolver
  import opened ResolverProofs
  import opened ResolvedPlans

  // containsCompare, for a feature's name: the first position, or -1.
  method IndexOf(features: seq<Feature>, name: string) returns (i: int)
    ensures i >= 0 <==> Has(features, name)
    ensures i >= 0 ==> i < |features| && features[i].name == name && !Has(features[..i], name)
    ensures i < 0 ==> i == -1
  {
    for k := 0 to |features|
      invariant forall j :: 0 <= j < k ==> features[j].name != name
    {
      if features[k].name == name {
        return k;
      }
    }
    return -1;
  }

  // The same for a package manager with one of these names.
  method AnyManager(managers: seq<Manager>, ms: seq<string>) returns (i: int)
    ensures i >= 0 <==> Managed(managers, ms)
    ensures i >= 0 ==> i < |managers| && managers[i].name in ms && !Managed(managers[..i], ms)
  {
    for k := 0 to |managers|
      invariant forall j :: 0 <= j < k ==> managers[j].name !in ms
    {
      for l := 0 to |ms|
        invariant forall j :: 0 <= j < l ==> managers[k].name != ms[j]
      {
        if managers[k].name == ms[l] {
          return k;
        }
      }
    }
    return -1;
  }

  // The result of AddTasks when these tasks were built before.
  function After(done: seq<Task>, b: Building): Building {
    match b
    case Broken => Broken
    case Built(s, tasks) => Built(s, done + tasks)
  }

  class Cluster {
    const e: Env
    var system: seq<Feature>
    var packages: map<string, seq<string>>
    var managers: seq<Manager>

    constructor (e: Env, managers: seq<Manager>)
      ensures this.e == e && View([]) == State([], [], e.root.packages, managers)
    {
      this.e := e;
      this.system, this.packages, this.managers := [], e.root.packages, managers;
    }

    ghost function View(service: seq<Feature>): State
      reads this
    {
      State(system, service, packages, managers)
    }

    // featureToFeature; it crashes where the code would slice beyond the end of a list.
    method FeatureToFeature(names: seq<string>, service0: seq<Feature>, ghost bound: nat)
      returns (crashed: bool, service: seq<Feature>)
      requires Ranked(e) && TableOk(e, packages) && Below(e, names, bound)
      modifies this
      ensures (if crashed then Crashed else Resolved(View(service))) == Resolve(e, names, old(View(service0)), bound)
      decreases bound, 1
    {
      hide Ranked;
      hide TableOk;
      hide ResolveOne;
      service := service0;
      assert names[0..] == names;
      for k := 0 to |names|
        invariant TableOk(e, packages) && Below(e, names[k..], bound)
        invariant Resolve(e, names[k..], View(service), bound) == Resolve(e, names, old(View(service0)), bound)
      {
        var name := names[k];
        assert names[k..][0] == name && names[k..][1..] == names[k + 1..];
        assert name in names[k..];
        if Base(name) !in e.root.features {
          return false, [];
        }
        crashed, service := OneFeature(name, service);
        if crashed {
          return;
        }
      }
      crashed := false;
    }

    // The loop body of featureToFeature for a declared feature.
    method OneFeature(name: string, service0: seq<Feature>) returns (crashed: bool, service: seq<Feature>)
      requires Ranked(e) && TableOk(e, packages) && Base(name) in e.root.features
      modifies this
      ensures !crashed ==> TableOk(e, packages)
      ensures (if crashed then Crashed else Resolved(View(service))) == ResolveOne(e, name, old(View(service0)))
      decreases e.rank(Base(name)), 4
    {
      hide Ranked;
      hide TableOk;
      hide Resolve;
      hide AddTasks;
      hide Has;
      service := service0;
      DefKeepsRank(e, name);
      var feat := DefOf(e, name);
      var level := IsServiceLevel(feat, e.os);
      var at := IndexOf(if level then service else system, FullName(name));
      if at >= 0 {
        return false, service;
      }
      var org := |if level then service else system|;
      crashed, service := FeatureToFeature(feat.needs, service, e.rank(Base(name)));
      if crashed {
        return;
      }
      if org > |if level then service else system| {
        return true, service;
      }
      at := IndexOf((if level then service else system)[org..], FullName(name));
      if at >= 0 {
        return false, service;
      }
      var tasks;
      crashed, service, tasks := BuildTasks(TasksFor(feat, e.os), service, e.rank(Base(name)));
      if crashed {
        return;
      }
      var done := Feature(FullName(name), feat.friendly, tasks);
      if level {
        service := service + [done];
      } else {
        system := system + [done];
      }
      TableMerges(e, packages, Base(name));
      packages := packages + feat.packages;
    }

    // The tasks of one feature: a blank task stays where a package is unknown.
    method BuildTasks(defs: seq<TaskDef>, service0: seq<Feature>, ghost bound: nat)
      returns (crashed: bool, service: seq<Feature>, built: seq<Task>)
      requires Ranked(e) && TableOk(e, packages) && TasksBelow(e, defs, bound)
      modifies this
      ensures !crashed ==> TableOk(e, packages)
      ensures (if crashed then Broken else Built(View(service), built)) == AddTasks(e, defs, old(View(service0)), bound)
      decreases bound, 3
    {
      hide Ranked;
      hide TableOk;
      hide EnsureManager;
      hide ConfTask;
      hide AddTasks;
      service := service0;
      built := [];
      var tasks := new Task[|defs|](_ => BLANK);
      assert defs[0..] == defs;
      for tn := 0 to |defs|
        invariant TableOk(e, packages) && TasksBelow(e, defs[tn..], bound)
        invariant forall k :: tn <= k < |defs| ==> tasks[k] == BLANK
        invariant After(tasks[..tn], AddTasks(e, defs[tn..], View(service), bound)) ==
                  AddTasks(e, defs, old(View(service0)), bound)
      {
        var task := defs[tn];
        assert defs[tn..][0] == task && defs[tn..][1..] == defs[tn + 1..];
        assert task in defs[tn..];
        ghost var before, s := tasks[..tn], View(service);
        if task.typ == "install" {
          if task.package !in packages {
            assert tasks[..tn + 1] == before + [BLANK];
            BlankStep(e, defs[tn..], View(service), bound);
            AfterMore(before, BLANK, AddTasks(e, defs[tn + 1..], View(service), bound));
            continue;
          }
          PackageBelow(e, packages, task, bound);
          TaskStep(e, defs[tn..], s, bound);
          crashed, service := ValidateOrAddPackageManager(packages[task.package], service, bound);
          if crashed {
            return;
          }
        } else if task.typ == "installLocal" {
          TaskStep(e, defs[tn..], s, bound);
          crashed, service := ValidateOrAddPackageManager([task.manager], service, bound);
          if crashed {
            return;
          }
        } else {
          TaskStep(e, defs[tn..], s, bound);
        }
        tasks[tn] := ConfTask(packages, task);
        assert tasks[..tn + 1] == before + [ConfTask(packages, task)];
        AfterMore(before, ConfTask(packages, task), AddTasks(e, defs[tn + 1..], View(service), bound));
      }
      NoTasks(e, View(service), bound);
      crashed, built := false, tasks[..];
    }

    // validateOrAddPackageManager
    method ValidateOrAddPackageManager(ms: seq<string>, service0: seq<Feature>, ghost bound: nat)
      returns (crashed: bool, service: seq<Feature>)
      requires Ranked(e) && TableOk(e, packages) && ManagersBelow(e, ms, bound)
      modifies this
      ensures !crashed ==> TableOk(e, packages)
      ensures (if crashed then Crashed else Resolved(View(service))) == EnsureManager(e, ms, old(View(service0)), bound)
      decreases bound, 2
    {
      hide Ranked;
      hide TableOk;
      hide Resolve;
      service := service0;
      var at := AnyManager(managers, ms);
      if at >= 0 {
        return false, service;
      }
      var i, ok := 0, false;
      assert ms[0..] == ms;
      while i < |ms| && !ok
        invariant i <= |ms| && TableOk(e, packages) && ManagersBelow(e, ms[i..], bound)
        invariant (if ok then Resolved(View(service)) else AddFirstKnown(e, ms[i..], View(service), bound))
               == AddFirstKnown(e, ms, old(View(service0)), bound)
        decreases |ms| - i
      {
        assert ms[i..][0] == ms[i] && ms[i..][1..] == ms[i + 1..];
        assert ms[i] in ms[i..];
        ok := ms[i] in e.root.managers;
        if ok {
          var pm := e.root.managers[ms[i]];
          if |pm.needs| > 0 {
            crashed, service := FeatureToFeature(pm.needs, service, bound);
            if crashed {
              return;
            }
            managers := managers + [Manager(ms[i], false)];
          }
        }
        i := i + 1;
      }
      crashed := false;
    }
  }

  // The services of a cluster, one after the other, as ParseSystem goes through them.
  method ResolveAll(c: Cluster, servs: seq<ServiceDef>, ghost bound: nat)
    returns (crashed: bool, lists: seq<seq<Feature>>)
    requires Ranked(c.e) && TableOk(c.e, c.packages) && Requestable(c.e, servs, bound)
    modifies c
    ensures match ResolveServices(c.e, servs, old(c.View([])), bound)
            case None => crashed
            case Some(r) => !crashed && lists == r.1 && c.View(r.0.service) == r.0
  {
    hide Ranked;
    hide TableOk;
    hide Resolve;
    hide Below;
    hide Declared;
    lists := [];
    var e := c.e;
    assert servs[0..] == servs;
    ghost var service: seq<Feature> := [];
    ghost var all := ResolveServices(e, servs, c.View([]), bound);
    assert More([], all) == all by {
      if all.Some? {
        assert [] + all.value.1 == all.value.1;
      }
    }
    for j := 0 to |servs|
      invariant TableOk(e, c.packages) && Requestable(e, servs[j..], bound)
      invariant More(lists, ResolveServices(e, servs[j..], c.View(service), bound)) ==
                ResolveServices(e, servs, old(c.View([])), bound)
    {
      assert servs[j..][0] == servs[j] && servs[j..][1..] == servs[j + 1..];
      assert servs[j] in servs[j..];
      var f;
      crashed, f := c.FeatureToFeature(servs[j].features, [], bound);
      if crashed {
        return;
      }
      crashed, f := c.FeatureToFeature(AlwaysFor(servs[j]), f, bound);
      if crashed {
        return;
      }
      MoreOn(lists, f, ResolveServices(e, servs[j + 1..], c.View(f), bound));
      lists := lists + [f];
      service := f;
    }
    crashed := false;
  }

  // The lists of the services seen so far, before those of the rest.
  ghost function More(lists: seq<seq<Feature>>, r: Option<(State, seq<seq<Feature>>)>)
    : Option<(State, seq<seq<Feature>>)>
  {
    match r
    case None => None
    case Some(v) => Some((v.0, lists + v.1))
  }

  lemma MoreOn(lists: seq<seq<Feature>>, f: seq<Feature>, r: Option<(State, seq<seq<Feature>>)>)
    ensures More(lists + [f], r) == More(lists, match r case None => None case Some(v) => Some((v.0, [f] + v.1)))
  {
    if r.Some? {
      assert (lists + [f]) + r.value.1 == lists + ([f] + r.value.1);
    }
  }

  lemma AfterMore(done: seq<Task>, t: Task, b: Building)
    ensures After(done + [t], b) == After(done, After([t], b))
  {
    if b.Built? {
      assert (done + [t]) + b.tasks == done + ([t] + b.tasks);
    }
  }

  lemma NoTasks(e: Env, s: State, bound: nat)
    requires Ranked(e) && TableOk(e, s.packages)
    ensures TasksBelow(e, [], bound) && AddTasks(e, [], s, bound) == Built(s, [])
  {
    hide Ranked;
    hide TableOk;
  }

  lemma BlankStep(e: Env, defs: seq<TaskDef>, s: State, bound: nat)
    requires Ranked(e) && TableOk(e, s.packages) && TasksBelow(e, defs, bound)
    requires defs != [] && defs[0].typ == "install" && defs[0].package !in s.packages
    ensures AddTasks(e, defs, s, bound) == After([BLANK], AddTasks(e, defs[1..], s, bound))
  {
    hide Ranked;
    hide TableOk;
  }

  lemma TaskStep(e: Env, defs: seq<TaskDef>, s: State, bound: nat)
    requires Ranked(e) && TableOk(e, s.packages) && TasksBelow(e, defs, bound) && defs != []
    requires defs[0].typ == "install" ==>
        defs[0].package in s.packages && ManagersBelow(e, s.packages[defs[0].package], bound)
    requires defs[0].typ == "installLocal" ==> ManagersBelow(e, [defs[0].manager], bound)
    ensures var t := defs[0];
      var r := if t.typ == "install" then EnsureManager(e, s.packages[t.package], s, bound)
               else if t.typ == "installLocal" then EnsureManager(e, [t.manager], s, bound)
               else Resolved(s);
      AddTasks(e, defs, s, bound) ==
        if r.Crashed? then Broken else After([ConfTask(r.s.packages, t)], AddTasks(e, defs[1..], r.s, bound))
  {
    hide Ranked;
    hide TableOk;
    hide EnsureManager;
    hide ConfTask;
  }

  lemma PackageBelow(e: Env, packages: map<string, seq<string>>, t: TaskDef, bound: nat)
    requires TableOk(e, packages) && t.package in packages && t.typ == "install" && TasksBelow(e, [t], bound)
    ensures ManagersBelow(e, packages[t.package], bound)
  {
    assert t in [t];
  }
}
