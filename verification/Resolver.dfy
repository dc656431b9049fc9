// Resolving the features that a service asks for into lists of tasks: a feature pulls in the
// features that it requires, and an install task pulls in the features that its package manager
// requires. System-level features go to a list that the whole cluster shares, service-level
// features to the list of the service.
module Resolver {
  import opened Options

  // ----- what a configuration declares -----

  datatype TaskDef = TaskDef(typ: string, privilege: string, package: string, manager: string, body: string)

  // custom holds the tasks for particular operating systems, packages the managers that install
  // each package that the feature makes available.
  datatype FeatureDef = FeatureDef(
    friendly: string,
    needs: seq<string>,
    tasks: seq<TaskDef>,
    custom: map<string, seq<TaskDef>>,
    packages: map<string, seq<string>>)

  datatype ManagerDef = ManagerDef(needs: seq<string>, root: bool)

  datatype Root = Root(
    features: map<string, FeatureDef>,
    managers: map<string, ManagerDef>,
    packages: map<string, seq<string>>)

  // ----- what comes out -----

  datatype Package = Package(name: string, managers: seq<string>)
  datatype Task = Task(typ: string, root: bool, manager: string, package: Option<Package>, body: string)
  datatype Feature = Feature(name: string, friendly: string, tasks: seq<Task>)
  datatype Manager = Manager(name: string, root: bool)

  const BLANK := Task("", false, "", None, "")

  // The cluster's system list, package table and package managers, and the service's list.
  datatype State = State(system: seq<Feature>, service: seq<Feature>, packages: map<string, seq<string>>,
                         managers: seq<Manager>)

  // Crashed: a slice of the service list starts beyond its end.
  datatype Result = Crashed | Resolved(s: State)
  datatype Building = Broken | Built(s: State, tasks: seq<Task>)

  // replace puts a service's name into a text; builtin names the managers that come with the
  // operating system; rank is there to prove termination.
  datatype Env = Env(root: Root, os: string, builtin: set<string>, replace: (string, string) -> string,
                     rank: string -> nat)

  // ----- names -----

  const SERVICE := "service "

  // "service X" is the feature "service", made out to the service X.
  function Base(name: string): string {
    if SERVICE <= name then "service" else name
  }

  function ServiceOf(name: string): string {
    if SERVICE <= name then name[|SERVICE|..] else ""
  }

  function FullName(name: string): string {
    if ServiceOf(name) != "" then Base(name) + " " + ServiceOf(name) else Base(name)
  }

  lemma FullNameKeepsBase(name: string)
    ensures Base(FullName(name)) == Base(name) && FullName(FullName(name)) == FullName(name)
  {
    assert SERVICE == "service" + " ";
    if ServiceOf(name) != "" {
      assert FullName(name) == name;
    }
  }

  // ----- one feature -----

  predicate TakesService(typ: string) {
    typ in ["download", "link", "delete", "file_string", "file_bytes", "user", "command"]
  }

  function ForService(e: Env, service: string, tasks: seq<TaskDef>): seq<TaskDef> {
    seq(|tasks|, i requires 0 <= i < |tasks| =>
      if TakesService(tasks[i].typ) then tasks[i].(body := e.replace(service, tasks[i].body)) else tasks[i])
  }

  // The definition that a name stands for.
  function DefOf(e: Env, name: string): FeatureDef
    requires Base(name) in e.root.features
  {
    var d := e.root.features[Base(name)];
    var service := ServiceOf(name);
    if service == "" then d
    else d.(friendly := e.replace(service, d.friendly),
            tasks := ForService(e, service, d.tasks),
            custom := map os | os in d.custom :: ForService(e, service, d.custom[os]))
  }

  function TasksFor(d: FeatureDef, os: string): seq<TaskDef> {
    if os in d.custom then d.custom[os] else d.tasks
  }

  // Feature.Service: are all its tasks run as the service?
  predicate IsServiceLevel(d: FeatureDef, os: string) {
    forall t :: t in TasksFor(d, os) ==> t.privilege == "service"
  }

  function ConfTask(packages: map<string, seq<string>>, t: TaskDef): Task {
    var root := t.privilege == "root";
    if t.typ == "install" then
      if t.package in packages then Task(t.typ, root, t.manager, Some(Package(t.package, packages[t.package])), "")
        else BLANK
    else if t.typ == "install_local" || t.typ == "install_external" then
      Task(t.typ, root, t.manager, None, t.body)
    else if t.typ in ["download", "link", "enable", "file_string", "file_bytes", "user", "command"] then
      Task(t.typ, root, "", None, t.body)
    else if t.typ == "delete" then
      Task(t.typ, false, "", None, t.body)
    else if t.typ == "schedule" then
      Task(t.typ, root, "", None, "")
    else
      BLANK
  }

  // ----- lists -----

  predicate Has(features: seq<Feature>, name: string) {
    exists i :: 0 <= i < |features| && features[i].name == name
  }

  function ListOf(s: State, service: bool): seq<Feature> {
    if service then s.service else s.system
  }

  function Append(s: State, service: bool, f: Feature): State {
    if service then s.(service := s.service + [f]) else s.(system := s.system + [f])
  }

  // ----- the rank that makes resolution end -----

  ghost predicate Below(e: Env, names: seq<string>, bound: nat) {
    forall n :: n in names && Base(n) in e.root.features ==> e.rank(Base(n)) < bound
  }

  // A known manager of these requires only features below the bound.
  ghost predicate ManagersBelow(e: Env, ms: seq<string>, bound: nat) {
    forall m :: m in ms && m in e.root.managers ==> Below(e, e.root.managers[m].needs, bound)
  }

  // The managers that the package table can name for a package at any time.
  ghost predicate Possible(e: Env, package: string, ms: seq<string>) {
    || (package in e.root.packages && e.root.packages[package] == ms)
    || exists b | b in e.root.features && package in e.root.features[b].packages ::
         e.root.features[b].packages[package] == ms
  }

  ghost predicate TableOk(e: Env, packages: map<string, seq<string>>) {
    forall k :: k in packages ==> Possible(e, k, packages[k])
  }

  ghost predicate TasksBelow(e: Env, defs: seq<TaskDef>, bound: nat) {
    forall t :: t in defs ==>
      && (t.typ == "install" ==> forall ms :: Possible(e, t.package, ms) ==> ManagersBelow(e, ms, bound))
      && (t.typ == "installLocal" ==> ManagersBelow(e, [t.manager], bound))
  }

  // The rank decreases along what a feature requires, and along what the package managers of
  // its install tasks require.
  ghost predicate Ranked(e: Env) {
    forall b :: b in e.root.features ==>
      && Below(e, e.root.features[b].needs, e.rank(b))
      && TasksBelow(e, TasksFor(e.root.features[b], e.os), e.rank(b))
  }

  // What a service's name is put into does not matter for that.
  lemma DefKeepsRank(e: Env, name: string)
    requires Ranked(e) && Base(name) in e.root.features
    ensures var d, b := DefOf(e, name), e.root.features[Base(name)];
      && d.needs == b.needs && d.packages == b.packages
      && IsServiceLevel(d, e.os) == IsServiceLevel(b, e.os)
      && |TasksFor(d, e.os)| == |TasksFor(b, e.os)|
      && (forall i :: 0 <= i < |TasksFor(d, e.os)| ==>
            TasksFor(d, e.os)[i] == TasksFor(b, e.os)[i].(body := TasksFor(d, e.os)[i].body))
      && Below(e, d.needs, e.rank(Base(name)))
      && TasksBelow(e, TasksFor(d, e.os), e.rank(Base(name)))
  {
    hide Possible;
    hide ManagersBelow;
    hide Below;
    var b, d := e.root.features[Base(name)], DefOf(e, name);
    var now, was := TasksFor(d, e.os), TasksFor(b, e.os);
    assert |now| == |was| && forall i :: 0 <= i < |now| ==> now[i] == was[i].(body := now[i].body);
    assert forall i :: 0 <= i < |was| ==> now[i].privilege == was[i].privilege;
    assert IsServiceLevel(d, e.os) == IsServiceLevel(b, e.os);
    forall t | t in now
      ensures t.typ == "install" ==> forall ms :: Possible(e, t.package, ms) ==>
          ManagersBelow(e, ms, e.rank(Base(name)))
      ensures t.typ == "installLocal" ==> ManagersBelow(e, [t.manager], e.rank(Base(name)))
    {
      var i :| 0 <= i < |now| && now[i] == t;
      assert was[i] in was;
    }
  }

  // ----- resolution -----

  ghost function Resolve(e: Env, names: seq<string>, s: State, bound: nat): (r: Result)
    requires Ranked(e) && TableOk(e, s.packages) && Below(e, names, bound)
    ensures r.Resolved? ==> TableOk(e, r.s.packages)
    decreases bound, 0, |names|
  {
    if names == [] then Resolved(s)
    else if Base(names[0]) !in e.root.features then Resolved(s.(service := []))
    else
      match ResolveOne(e, names[0], s)
      case Crashed => Crashed
      case Resolved(s1) => Resolve(e, names[1..], s1, bound)
  }

  ghost function ResolveOne(e: Env, name: string, s: State): (r: Result)
    requires Ranked(e) && TableOk(e, s.packages) && Base(name) in e.root.features
    ensures r.Resolved? ==> TableOk(e, r.s.packages)
    decreases e.rank(Base(name)), 4
  {
    DefKeepsRank(e, name);
    var d, rank := DefOf(e, name), e.rank(Base(name));
    var service := IsServiceLevel(d, e.os);
    var org := |ListOf(s, service)|;
    if Has(ListOf(s, service), FullName(name)) then Resolved(s)
    else
      match Resolve(e, d.needs, s, rank)
      case Crashed => Crashed
      case Resolved(s1) =>
        if org > |ListOf(s1, service)| then Crashed
        else if Has(ListOf(s1, service)[org..], FullName(name)) then Resolved(s1)
        else
          match AddTasks(e, TasksFor(d, e.os), s1, rank)
          case Broken => Crashed
          case Built(s2, tasks) =>
            var s3 := Append(s2, service, Feature(FullName(name), d.friendly, tasks));
            TableMerges(e, s3.packages, Base(name));
            Resolved(s3.(packages := s3.packages + d.packages))
  }

  lemma TableMerges(e: Env, packages: map<string, seq<string>>, b: string)
    requires TableOk(e, packages) && b in e.root.features
    ensures TableOk(e, packages + e.root.features[b].packages)
  {
  }

  ghost function AddTasks(e: Env, defs: seq<TaskDef>, s: State, bound: nat): (r: Building)
    requires Ranked(e) && TableOk(e, s.packages) && TasksBelow(e, defs, bound)
    ensures r.Built? ==> TableOk(e, r.s.packages) && |r.tasks| == |defs|
    decreases bound, 3, |defs|
  {
    if defs == [] then Built(s, [])
    else
      var t := defs[0];
      if t.typ == "install" && t.package !in s.packages then
        match AddTasks(e, defs[1..], s, bound)
        case Broken => Broken
        case Built(s', tasks) => Built(s', [BLANK] + tasks)
      else
        var r := if t.typ == "install" then EnsureManager(e, s.packages[t.package], s, bound)
                 else if t.typ == "installLocal" then EnsureManager(e, [t.manager], s, bound)
                 else Resolved(s);
        match r
        case Crashed => Broken
        case Resolved(s1) =>
          match AddTasks(e, defs[1..], s1, bound)
          case Broken => Broken
          case Built(s', tasks) => Built(s', [ConfTask(s1.packages, t)] + tasks)
  }

  predicate Managed(managers: seq<Manager>, ms: seq<string>) {
    exists i :: 0 <= i < |managers| && managers[i].name in ms
  }

  // validateOrAddPackageManager
  ghost function EnsureManager(e: Env, ms: seq<string>, s: State, bound: nat): (r: Result)
    requires Ranked(e) && TableOk(e, s.packages) && ManagersBelow(e, ms, bound)
    ensures r.Resolved? ==> TableOk(e, r.s.packages)
    decreases bound, 2
  {
    if Managed(s.managers, ms) then Resolved(s) else AddFirstKnown(e, ms, s, bound)
  }

  // Its loop ends at the first known manager, whether or not that one can be added.
  ghost function AddFirstKnown(e: Env, ms: seq<string>, s: State, bound: nat): (r: Result)
    requires Ranked(e) && TableOk(e, s.packages) && ManagersBelow(e, ms, bound)
    ensures r.Resolved? ==> TableOk(e, r.s.packages)
    decreases bound, 1, |ms|
  {
    if ms == [] then Resolved(s)
    else if ms[0] !in e.root.managers then AddFirstKnown(e, ms[1..], s, bound)
    else if e.root.managers[ms[0]].needs == [] then Resolved(s)
    else
      match Resolve(e, e.root.managers[ms[0]].needs, s, bound)
      case Crashed => Crashed
      case Resolved(s1) => Resolved(s1.(managers := s1.managers + [Manager(ms[0], false)]))
  }
}
