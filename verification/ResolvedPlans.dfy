// What a resolved cluster is good for: requirements come first, names are unique, and every
// task can be carried out.
module ResolvedPlans {
  import opened Options
  import opened Resolver
  import opened ResolverProofs

  // The order in which a node works the features off.
  function Plan(s: State): seq<Feature> {
    s.system + s.service
  }

  // A requirement of a planned feature comes before it, unless the feature is of system level and
  // the requirement of service level; then it never does.
  lemma RequirementsFirst(e: Env, v: set<string>, s: State, i: nat, n: string)
    requires Ranked(e) && Good(e, v, s) && i < |Plan(s)| && Needs(e, Plan(s)[i].name, n)
    ensures Base(n) in e.root.features
    ensures Has(Plan(s)[..i], FullName(n)) <==> !(i < |s.system| && InService(e, n))
  {
    hide Ranked;
    hide InService;
    hide Named;
    hide Stocked;
    hide ManagersOk;
    hide TableIn;
    FullNameKeepsBase(n);
    var service := i >= |s.system|;
    var k := if service then i - |s.system| else i;
    assert ListOf(s, service)[k] == Plan(s)[i];
    assert Ordered(e, s, service);
    assert Served(e, s, service, k, n);
    if i < |s.system| && InService(e, n) {
      NotInSystem(e, s, n);
      assert forall j :: 0 <= j < i ==> Plan(s)[..i][j] == s.system[j];
    } else if InService(e, n) == service {
      var j :| 0 <= j < k && ListOf(s, service)[..k][j].name == FullName(n);
      assert Plan(s)[..i][if service then |s.system| + j else j] == ListOf(s, service)[..k][j];
    } else {
      var j :| 0 <= j < |s.system| && s.system[j].name == FullName(n);
      assert Plan(s)[..i][j] == s.system[j];
    }
  }

  lemma NotInSystem(e: Env, s: State, n: string)
    requires Named(e, s.system, false) && Base(n) in e.root.features && InService(e, n)
    ensures forall j :: 0 <= j < |s.system| ==> s.system[j].name != FullName(n)
  {
    hide InService;
    forall j | 0 <= j < |s.system| ensures s.system[j].name != FullName(n) {
      if s.system[j].name == FullName(n) {
        SameLevel(e, s.system[j].name, n);
      }
    }
  }

  lemma SameLevel(e: Env, name: string, n: string)
    requires Base(name) in e.root.features && Base(n) in e.root.features && name == FullName(n)
    ensures InService(e, name) == InService(e, n)
  {
    FullNameKeepsBase(n);
  }

  lemma PlannedOnce(e: Env, v: set<string>, s: State, i: nat, j: nat)
    requires Ranked(e) && Good(e, v, s) && i < j < |Plan(s)|
    ensures Plan(s)[i].name != Plan(s)[j].name
  {
    hide Ranked;
    hide InService;
    hide Stocked;
    hide ManagersOk;
    hide TableOk;
    hide Ordered;
    if i < |s.system| <= j {
      assert InService(e, Plan(s)[i].name) != InService(e, Plan(s)[j].name) by {
        assert Plan(s)[j] == s.service[j - |s.system|];
      }
    }
  }

  // Resolving what a feature requires never comes back to the feature itself: the second look for
  // it, among what that added, finds nothing.
  lemma RequirementsNeverAddIt(e: Env, v: set<string>, name: string, s: State)
    requires Ranked(e) && ClosedOver(e, v, e.rank(Base(name))) && Good(e, v, s) && TableOk(e, s.packages)
    requires Base(name) in e.root.features && In(v, e.root.features[Base(name)].needs)
    requires !Has(ListOf(s, InService(e, name)), FullName(name))
    ensures var needs, bound, service := e.root.features[Base(name)].needs, e.rank(Base(name)), InService(e, name);
      && Below(e, needs, bound)
      && var r := Resolve(e, needs, s, bound);
      && r.Resolved? && |ListOf(s, service)| <= |ListOf(r.s, service)|
      && !Has(ListOf(r.s, service)[|ListOf(s, service)|..], FullName(name))
      && !Has(ListOf(r.s, service), FullName(name))
  {
    assert Below(e, e.root.features[Base(name)].needs, e.rank(Base(name)));
    hide Ranked;
    hide ClosedOver;
    hide Good;
    hide Has;
    hide InService;
    var needs, bound := e.root.features[Base(name)].needs, e.rank(Base(name));
    ResolveAchieves(e, v, needs, s, bound);
    StillMissing(e, s, Resolve(e, needs, s, bound).s, InService(e, name), name, bound);
  }

  // A feature that is added has everything that it requires listed by then, whatever its level.
  lemma AddedIsClosed(e: Env, v: set<string>, name: string, s: State)
    requires Ranked(e) && ClosedOver(e, v, e.rank(Base(name)) + 1)
    requires Good(e, v, s) && TableOk(e, s.packages) && Base(name) in v
    requires !Has(ListOf(s, InService(e, name)), FullName(name))
    ensures ResolveOne(e, name, s).Resolved?
    ensures forall n :: n in e.root.features[Base(name)].needs ==> Listed(e, ResolveOne(e, name, s).s, n)
  {
    hide Ranked;
    hide ClosedOver;
    hide Good;
    hide Resolve;
    hide AddTasks;
    hide TasksFor;
    hide IsServiceLevel;
    hide Has;
    assert Base(name) in e.root.features by { ScopeIsDeclared(e, v, s, Base(name)); }
    DefKeepsRank(e, name);
    ResolveOneAchieves(e, v, name, s);
    var d, rank := DefOf(e, name), e.rank(Base(name));
    var service := IsServiceLevel(d, e.os);
    ClosedAt(e, v, name, rank + 1);
    ClosedLess(e, v, rank + 1, rank);
    ResolveAchieves(e, v, d.needs, s, rank);
    var s1 := Resolve(e, d.needs, s, rank).s;
    StillMissing(e, s, s1, service, name, rank);
    GoodTable(e, v, s1);
    AddTasksAchieves(e, v, TasksFor(d, e.os), s1, rank);
    var b := AddTasks(e, TasksFor(d, e.os), s1, rank);
    AppendExtends(e, name, b.s, b.s, d.friendly, b.tasks);
    forall n | n in d.needs ensures Listed(e, ResolveOne(e, name, s).s, n) {
      ListedStays(e, s1, b.s, n);
      ListedStays(e, b.s, Appended(e, name, b.s, d.friendly, b.tasks), n);
    }
  }

  lemma ScopeIsDeclared(e: Env, v: set<string>, s: State, b: string)
    requires Ranked(e) && Good(e, v, s) && b in v
    ensures b in e.root.features
  {
  }

  // ----- a whole cluster -----

  const ALWAYS: seq<string> := ["tools", "utf8", "cron", "buri", "nerthus"]

  // What ParseSystem asks for: per service its own features, then those that every service gets.
  datatype ServiceDef = ServiceDef(machineName: string, features: seq<string>)

  function AlwaysFor(serv: ServiceDef): seq<string> {
    ALWAYS + [SERVICE + serv.machineName]
  }

  ghost predicate Requestable(e: Env, servs: seq<ServiceDef>, bound: nat) {
    forall serv :: serv in servs ==> Below(e, serv.features, bound) && Below(e, AlwaysFor(serv), bound)
  }

  ghost predicate RequestedIn(v: set<string>, servs: seq<ServiceDef>) {
    forall serv :: serv in servs ==> In(v, serv.features) && In(v, AlwaysFor(serv))
  }

  // The cluster's final state, and the feature list of each service; None if one crashes.
  ghost function ResolveServices(e: Env, servs: seq<ServiceDef>, s: State,
                                 bound: nat): (r: Option<(State, seq<seq<Feature>>)>)
    requires Ranked(e) && TableOk(e, s.packages) && Requestable(e, servs, bound)
    ensures r.Some? ==> |r.value.1| == |servs|
    decreases |servs|
  {
    if servs == [] then Some((s, []))
    else
      assert servs[0] in servs;
      match Resolve(e, servs[0].features, s.(service := []), bound)
      case Crashed => None
      case Resolved(s1) =>
        match Resolve(e, AlwaysFor(servs[0]), s1, bound)
        case Crashed => None
        case Resolved(s2) =>
          match ResolveServices(e, servs[1..], s2, bound)
          case None => None
          case Some(rest) => Some((rest.0, [s2.service] + rest.1))
  }

  lemma FreshServiceGood(e: Env, v: set<string>, s: State)
    requires Ranked(e) && Good(e, v, s)
    ensures Good(e, v, s.(service := []))
  {
    hide Ranked;
    hide InService;
    hide Provided;
    hide TableIn;
    Restaffed(e, v, s, s, []);
  }

  // The system list with another service list, good in an earlier state of the cluster.
  lemma Restaffed(e: Env, v: set<string>, s: State, s': State, service: seq<Feature>)
    requires Ranked(e) && Good(e, v, s')
    requires s.system <= s'.system && s.packages.Keys <= s'.packages.Keys
    requires service == [] || (service == s.service && Good(e, v, s))
    ensures Good(e, v, s'.(service := service))
  {
    hide Ranked;
    hide InService;
    hide Provided;
    hide TableIn;
    var r := s'.(service := service);
    assert forall i, n :: Served(e, s', false, i, n) ==> Served(e, r, false, i, n);
    if service != [] {
      forall i, n | Served(e, s, true, i, n) ensures Served(e, r, true, i, n) {
        if !InService(e, n) {
          var j :| 0 <= j < |s.system| && s.system[j].name == FullName(n);
          assert r.system[j] == s.system[j];
        }
      }
    }
    assert forall name :: Supplied(e, s', name) ==> Supplied(e, r, name);
    assert Stocked(e, r, false) by {
      forall i | 0 <= i < |r.system| ensures Supplied(e, r, r.system[i].name) {
        assert Supplied(e, s', ListOf(s', false)[i].name);
      }
    }
    assert Stocked(e, r, true) by {
      forall i | 0 <= i < |r.service| ensures Supplied(e, r, r.service[i].name) {
        assert Supplied(e, s, ListOf(s, true)[i].name);
      }
    }
  }

  // However many services share the cluster: each service's list, worked off after the cluster's
  // final system list, is in order, and holds or follows everything that was asked for.
  lemma {:induction false} ServicesResolve(e: Env, v: set<string>, servs: seq<ServiceDef>, s: State, bound: nat)
    requires Ranked(e) && ClosedOver(e, v, bound) && Good(e, v, s) && TableOk(e, s.packages)
    requires Requestable(e, servs, bound) && RequestedIn(v, servs)
    ensures var r := ResolveServices(e, servs, s, bound);
      && r.Some? && Good(e, v, r.value.0) && s.system <= r.value.0.system && s.packages.Keys <= r.value.0.packages.Keys
      && s.managers <= r.value.0.managers
      && forall j :: 0 <= j < |servs| ==>
           && Good(e, v, r.value.0.(service := r.value.1[j]))
           && forall n :: n in servs[j].features || n in AlwaysFor(servs[j]) ==>
             Listed(e, r.value.0.(service := r.value.1[j]), n)
    decreases |servs|
  {
    hide Ranked;
    hide ClosedOver;
    hide Good;
    hide Resolve;
    hide TableOk;
    hide Below;
    hide In;
    hide AlwaysFor;
    hide Listed;
    hide AddsBelow;
    if servs != [] {
      assert servs[0] in servs;
      var bare := s.(service := []);
      FreshServiceGood(e, v, s);
      ResolveAchieves(e, v, servs[0].features, bare, bound);
      var s1 := Resolve(e, servs[0].features, bare, bound).s;
      GoodTable(e, v, s1);
      ResolveAchieves(e, v, AlwaysFor(servs[0]), s1, bound);
      var s2 := Resolve(e, AlwaysFor(servs[0]), s1, bound).s;
      GoodTable(e, v, s2);
      ServicesResolve(e, v, servs[1..], s2, bound);
      var r := ResolveServices(e, servs[1..], s2, bound).value;
      Restaffed(e, v, s2, r.0, s2.service);
      forall n | n in servs[0].features || n in AlwaysFor(servs[0]) ensures Listed(e, r.0.(service := s2.service), n) {
        if n in servs[0].features {
          ListedStays(e, s1, s2, n);
        }
        ListedStays(e, s2, r.0.(service := s2.service), n);
      }
      var all := ResolveServices(e, servs, s, bound).value.1;
      forall j | 0 <= j < |servs|
        ensures Good(e, v, r.0.(service := all[j]))
        ensures forall n :: n in servs[j].features || n in AlwaysFor(servs[j]) ==> Listed(e, r.0.(service := all[j]), n)
      {
        if j > 0 {
          assert servs[j] == servs[1..][j - 1] && all[j] == r.1[j - 1];
        }
      }
    }
  }
}
