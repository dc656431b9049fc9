// What every service of the repository gets without asking, as the configuration declares it for
// two operating systems, beside features that cannot be carried out there and are not asked for:
// the theorems about resolved plans apply to it.
module Defaults {
  import opened Options
  import opened Resolver
  import opened ResolverProofs
  import opened ResolvedPlans
  import opened RunnablePlans
  import opened Provenance
  import opened NodePlans
  import ProbeMachine

  function Install(package: string): TaskDef {
    TaskDef("install", "system", package, "", "")
  }

  function Other(typ: string, privilege: string): TaskDef {
    TaskDef(typ, privilege, "", "", "")
  }

  function Plain(tasks: seq<TaskDef>): FeatureDef {
    FeatureDef("", [], tasks, map[], map[])
  }

  const DEBIAN := "Debian"
  const AMAZON := "Amazon Linux 2023"

  const TOOLS := Plain([Install("htop"), Install("jq")])
  const UTF8 := Plain([Other("file_string", "root")])
  const CRON := FeatureDef("", [], [],
    map[AMAZON := [Install("cronie"), Other("enable", "root")],
        DEBIAN := [Install("cron"), Other("enable", "root")]], map[])
  const BURI := Plain([Other("download", "root"), Other("command", "root"), Other("link", "root")])
  const NERTHUS := FeatureDef("", ["nerthus_manager", "nerthus_monitor"], [], map[], map[])
  const NERTHUS_MANAGER := Plain([Other("command", "system")])
  const NERTHUS_MONITOR := Plain([Other("command", "root")])
  const USER := Plain([Other("user", "root"), Other("file_string", "system"), Other("command", "system")])
  const ZULU := FeatureDef("", [], [TaskDef("install_external", "system", "", "yum", "")], map[],
    map["zulu17-sdk" := ["dnf", "yum"]])
  const JAVA17 := FeatureDef("", ["zulu"], [Install("zulu17-sdk")], map[], map[])

  function FeatureNamed(b: string): FeatureDef {
    if b == "tools" then TOOLS
    else if b == "utf8" then UTF8
    else if b == "cron" then CRON
    else if b == "buri" then BURI
    else if b == "nerthus" then NERTHUS
    else if b == "nerthus_manager" then NERTHUS_MANAGER
    else if b == "nerthus_monitor" then NERTHUS_MONITOR
    else if b == "service" then USER
    else if b == "zulu" then ZULU
    else JAVA17
  }

  const GIVEN: set<string> :=
    {"tools", "utf8", "cron", "buri", "nerthus", "nerthus_manager", "nerthus_monitor", "service"}

  const MANAGER := ManagerDef([], true)

  const REPOSITORY := Root(
    map b | b in GIVEN + {"zulu", "java17"} :: FeatureNamed(b),
    map["apt" := MANAGER, "dnf" := MANAGER, "yum" := MANAGER],
    map["htop" := ["apt", "dnf", "yum"], "jq" := ["apt", "dnf", "yum"], "cron" := ["apt"], "cronie" := ["dnf", "yum"]])

  function Rank(b: string): nat {
    if b == "nerthus" || b == "java17" then 1 else 0
  }

  function Host(debian: bool): Env {
    Env(REPOSITORY, if debian then DEBIAN else AMAZON, if debian then {"apt"} else {"dnf", "yum"},
        (service, text) => text, Rank)
  }

  lemma NoManagerRequires(e: Env, ms: seq<string>, v: set<string>, bound: nat)
    requires forall m :: m in e.root.managers ==> e.root.managers[m].needs == []
    ensures ManagersBelow(e, ms, bound) && FirstKnownIn(e, v, ms)
  {
    if ms != [] {
      NoManagerRequires(e, ms[1..], v, bound);
    }
  }

  lemma NerthusNames()
    ensures Base("nerthus_manager") == "nerthus_manager"
    ensures Base("nerthus_monitor") == "nerthus_monitor" && Base("zulu") == "zulu"
    ensures Rank("nerthus_manager") == Rank("nerthus_monitor") == Rank("zulu") == 0
  {
    assert SERVICE[0] != "nerthus_manager"[0] && SERVICE[0] != "nerthus_monitor"[0] && SERVICE[0] != "zulu"[0];
  }

  lemma HostIsRanked(debian: bool)
    ensures Ranked(Host(debian))
  {
    var e := Host(debian);
    NerthusNames();
    forall b | b in e.root.features
      ensures Below(e, e.root.features[b].needs, e.rank(b))
      ensures TasksBelow(e, TasksFor(e.root.features[b], e.os), e.rank(b))
    {
      NeedsRanked(b);
      forall ms ensures ManagersBelow(e, ms, e.rank(b)) {
        NoManagerRequires(e, ms, {}, e.rank(b));
      }
    }
  }

  lemma NeedsRanked(b: string)
    ensures forall n :: n in FeatureNamed(b).needs ==> Base(n) == n && Rank(n) == 0
    ensures FeatureNamed(b).needs != [] && b in REPOSITORY.features ==> Rank(b) == 1
  {
    NerthusNames();
    hide Base;
    if b != "nerthus" && FeatureNamed(b).needs != [] {
      assert FeatureNamed(b) == JAVA17;
    }
  }

  lemma NeedsGiven(b: string)
    requires b in GIVEN
    ensures b in REPOSITORY.features && forall n :: n in FeatureNamed(b).needs ==> Base(n) == n && n in GIVEN
  {
    NerthusNames();
    hide Base;
    hide Rank;
    if b == "nerthus" {
      assert FeatureNamed(b) == NERTHUS;
    } else {
      assert FeatureNamed(b).needs == [];
    }
  }

  lemma AnyManagers(e: Env, ms: seq<string>)
    requires forall m :: m in e.root.managers ==> e.root.managers[m].needs == []
    ensures ManagersIn(e, GIVEN, ms)
  {
    NoManagerRequires(e, ms, GIVEN, 0);
  }

  lemma AllIn(v: set<string>, names: seq<string>)
    requires forall n :: n in names ==> Base(n) == n && n in v
    ensures In(v, names)
  {
  }

  lemma HostIsClosed(debian: bool)
    ensures ClosedOver(Host(debian), GIVEN, 2)
  {
    hide FeatureNamed;
    hide TasksFor;
    hide ManagersIn;
    hide In;
    var e := Host(debian);
    forall ms ensures ManagersIn(e, GIVEN, ms) {
      AnyManagers(e, ms);
    }
    forall b | b in GIVEN ensures b in e.root.features && In(GIVEN, e.root.features[b].needs) {
      NeedsGiven(b);
      assert In(GIVEN, FeatureNamed(b).needs) by { AllIn(GIVEN, FeatureNamed(b).needs); }
    }
  }

  ghost predicate Expected(debian: bool, t: TaskDef) {
    && ProbeMachine.ActionType(t.typ)
    && (t.typ == "install" ==>
      t.package == "htop" || t.package == "jq" || t.package == (if debian then "cron" else "cronie"))
  }

  lemma CronTasks(debian: bool)
    ensures TasksFor(CRON, Host(debian).os) ==
            [Install(if debian then "cron" else "cronie"), Other("enable", "root")]
  {
    assert DEBIAN[0] != AMAZON[0];
  }

  lemma PlainTasks(d: FeatureDef, os: string)
    requires d.custom == map[]
    ensures TasksFor(d, os) == d.tasks
  {
  }

  lemma TasksExpected(debian: bool, b: string, t: TaskDef)
    requires b in GIVEN && t in TasksFor(FeatureNamed(b), Host(debian).os)
    ensures Expected(debian, t)
  {
    hide TasksFor;
    var os := Host(debian).os;
    if b == "cron" {
      CronTasks(debian);
    } else {
      PlainTasks(FeatureNamed(b), os);
      PlainTasksExpected(debian, b, t);
    }
  }

  lemma PlainTasksExpected(debian: bool, b: string, t: TaskDef)
    requires b in GIVEN && b != "cron" && t in FeatureNamed(b).tasks
    ensures Expected(debian, t)
  {
    var tasks := FeatureNamed(b).tasks;
    var i :| 0 <= i < |tasks| && tasks[i] == t;
    assert i == 0 || i == 1 || i == 2;
  }

  lemma PackageGiven(debian: bool, k: string)
    requires k == "htop" || k == "jq" || k == (if debian then "cron" else "cronie")
    ensures var e := Host(debian);
      k in e.root.packages && exists m :: m in e.root.packages[k] && m in e.builtin
  {
    if debian {
      assert REPOSITORY.packages[k][0] == "apt";
    } else if k == "cronie" {
      assert REPOSITORY.packages[k][0] == "dnf";
    } else {
      assert REPOSITORY.packages[k][1] == "dnf";
    }
  }

  // No feature that is given makes packages available, so there is one list of managers for each.
  lemma GivenIsObtainable(debian: bool, k: string)
    requires k == "htop" || k == "jq" || k == (if debian then "cron" else "cronie")
    ensures k in Host(debian).root.packages && Obtainable(Host(debian), GIVEN, k)
  {
    hide FeatureNamed;
    hide FirstKnownUsable;
    var e := Host(debian);
    PackageGiven(debian, k);
    forall b | b in GIVEN && b in e.root.features ensures k !in e.root.features[b].packages {
      NoPackages(b, k);
    }
    OnlyGlobal(e, GIVEN, k);
  }

  lemma OnlyGlobal(e: Env, v: set<string>, k: string)
    requires k in e.root.packages && (exists m :: m in e.root.packages[k] && m in e.builtin)
    requires forall b :: b in v && b in e.root.features ==> k !in e.root.features[b].packages
    ensures Obtainable(e, v, k)
  {
  }

  lemma NoPackages(b: string, k: string)
    requires b in GIVEN
    ensures k !in FeatureNamed(b).packages
  {
  }

  lemma HostIsSturdy(debian: bool)
    ensures Ranked(Host(debian)) && Sturdy(Host(debian), GIVEN)
  {
    HostIsRanked(debian);
    hide Ranked;
    hide TasksFor;
    hide FeatureNamed;
    hide Obtainable;
    hide ProvidedBy;
    var e := Host(debian);
    forall b, t | b in GIVEN && b in e.root.features && t in TasksFor(e.root.features[b], e.os)
      ensures TaskIsSturdy(debian, b, t)
    {
      TasksAreSturdy(debian, b, t);
    }
  }

  ghost predicate TaskIsSturdy(debian: bool, b: string, t: TaskDef)
    requires Ranked(Host(debian)) && b in Host(debian).root.features
  {
    var e := Host(debian);
    Supported(t.typ) && (t.typ == "install" ==> Reachable(e, b, t.package) && Obtainable(e, GIVEN, t.package))
  }

  lemma TasksAreSturdy(debian: bool, b: string, t: TaskDef)
    requires Ranked(Host(debian)) && b in GIVEN && b in Host(debian).root.features
    requires t in TasksFor(Host(debian).root.features[b], Host(debian).os)
    ensures TaskIsSturdy(debian, b, t)
  {
    hide Ranked;
    hide TasksFor;
    hide FeatureNamed;
    hide Obtainable;
    hide ProvidedBy;
    TasksExpected(debian, b, t);
    ActionsAreSupported(t.typ);
    if t.typ == "install" {
      GivenIsObtainable(debian, t.package);
    }
  }

  lemma ActionsAreSupported(typ: string)
    requires ProbeMachine.ActionType(typ)
    ensures Supported(typ)
  {
  }

  // Bases of the names that every service asks for.
  lemma AlwaysGiven(serv: ServiceDef)
    ensures forall n :: n in AlwaysFor(serv) ==> Base(n) in GIVEN
  {
    forall n | n in AlwaysFor(serv) ensures Base(n) in GIVEN {
      if n == SERVICE + serv.machineName {
        assert SERVICE <= n;
      } else {
        assert n in ALWAYS;
        assert SERVICE[0] != n[0];
      }
    }
  }

  lemma DefaultsRequestable(debian: bool, servs: seq<ServiceDef>)
    requires forall serv :: serv in servs ==> serv.features == []
    ensures Requestable(Host(debian), servs, 2) && RequestedIn(GIVEN, servs)
  {
    hide AlwaysFor;
    forall serv | serv in servs
      ensures Below(Host(debian), AlwaysFor(serv), 2) && In(GIVEN, AlwaysFor(serv))
    {
      AlwaysGiven(serv);
    }
  }

  // A cluster of either operating system as it is set up.
  function Fresh(debian: bool): State {
    State([], [], REPOSITORY.packages,
          if debian then [Manager("apt", true)] else [Manager("dnf", true), Manager("yum", true)])
  }

  lemma FreshIsInitial(debian: bool)
    ensures Initial(Host(debian), Fresh(debian)) && TableOk(Host(debian), Fresh(debian).packages)
  {
    var s := Fresh(debian);
    assert s.managers[0].name in Host(debian).builtin;
    if debian {
      assert Manager("apt", true) in s.managers;
    } else {
      assert s.managers[0] == Manager("dnf", true) && s.managers[1] == Manager("yum", true);
    }
  }

  // What resolution promises of a cluster in a scope whose features' tasks the probe can act on.
  ghost predicate RunsEverywhere(e: Env, servs: seq<ServiceDef>, r: Option<(State, seq<seq<Feature>>)>) {
    && r.Some? && |r.value.1| == |servs|
    && forall j :: 0 <= j < |servs| ==> RunsOn(e, servs[j], r.value.0.(service := r.value.1[j]))
  }

  // Every task of a feature in scope has a type that the probe registers an action for.
  ghost predicate TasksAct(e: Env, v: set<string>) {
    forall b, t :: b in v && b in e.root.features && t in TasksFor(e.root.features[b], e.os) ==>
      ProbeMachine.ActionType(t.typ)
  }

  ghost predicate RunsOn(e: Env, serv: ServiceDef, done: State) {
    && Fit(e, done)
    && AllSourced(e, done)
    && (forall n :: n in serv.features || n in GivenTo(serv.machineName) ==> Listed(e, done, n))
    && (forall t :: Planned(e, done, t) ==> ProbeMachine.ActionType(t.typ))
  }

  lemma ScopeRuns(e: Env, v: set<string>, servs: seq<ServiceDef>, s: State, bound: nat)
    requires Ranked(e) && ClosedOver(e, v, bound) && Sturdy(e, v) && Initial(e, s) && TableOk(e, s.packages)
    requires Requestable(e, servs, bound) && RequestedIn(v, servs)
    requires TasksAct(e, v)
    ensures RunsEverywhere(e, servs, ResolveServices(e, servs, s, bound))
  {
    hide Ranked;
    hide ClosedOver;
    hide Sturdy;
    hide Good;
    hide Fit;
    hide Listed;
    hide TableOk;
    hide Requestable;
    hide RequestedIn;
    hide AlwaysFor;
    hide ProbeMachine.ActionType;
    hide ResolveServices;
    hide Planned;
    hide AllSourced;
    hide GivenTo;
    ClustersResolve(e, v, servs, s, bound);
    ClustersAreSourced(e, servs, s, bound);
    var r := ResolveServices(e, servs, s, bound);
    forall j | 0 <= j < |servs| ensures RunsOn(e, servs[j], r.value.0.(service := r.value.1[j])) {
      var done := r.value.0.(service := r.value.1[j]);
      forall t | Planned(e, done, t) ensures ProbeMachine.ActionType(t.typ) {
        PlannedInScope(e, v, done, t);
      }
    }
  }

  lemma PlannedInScope(e: Env, v: set<string>, s: State, t: TaskDef)
    requires Ranked(e) && Good(e, v, s) && Planned(e, s, t)
    ensures exists b :: b in v && b in e.root.features && t in TasksFor(e.root.features[b], e.os)
  {
    hide Ranked;
    hide TasksFor;
    hide Named;
    hide Ordered;
    hide Stocked;
    hide ManagersOk;
    hide TableIn;
    var f :| f in Plan(s) && Base(f.name) in e.root.features && t in TasksFor(e.root.features[Base(f.name)], e.os);
    assert f in s.system || f in s.service;
  }

  lemma GivenTasksAct(debian: bool)
    ensures TasksAct(Host(debian), GIVEN)
  {
    hide TasksFor;
    hide FeatureNamed;
    var e := Host(debian);
    forall b, t | b in GIVEN && b in e.root.features && t in TasksFor(e.root.features[b], e.os)
      ensures ProbeMachine.ActionType(t.typ)
    {
      TasksExpected(debian, b, t);
    }
  }

  // Every node of every cluster that asks for no further features, on either operating system,
  // gets a plan that is complete and fit, and the probe has actions for all of its tasks.
  lemma DefaultsAreRunnable(debian: bool, servs: seq<ServiceDef>)
    requires forall serv :: serv in servs ==> serv.features == []
    ensures Ranked(Host(debian)) && TableOk(Host(debian), Fresh(debian).packages) && Requestable(Host(debian), servs, 2)
    ensures RunsEverywhere(Host(debian), servs, ResolveServices(Host(debian), servs, Fresh(debian), 2))
  {
    HostIsSturdy(debian);
    HostIsClosed(debian);
    FreshIsInitial(debian);
    DefaultsRequestable(debian, servs);
    GivenTasksAct(debian);
    hide *;
    ScopeRuns(Host(debian), GIVEN, servs, Fresh(debian), 2);
  }
}
