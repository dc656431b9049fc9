// The probe's task machine: a configuration is worked off one task at a time, and what is left
// of it is written to a persistent stream after every task.
module Probe {
  datatype Task = Task(typ: string, body: string)
  datatype Feature = Feature(name: string, tasks: seq<Task>)
  datatype Service = Service(name: string, features: seq<Feature>)

  // What of an Environment the machine looks at.
  datatype Config = Config(system: seq<Feature>, services: seq<Service>)

  datatype Event = Event(state: string, data: Config)

  const NOTHING := Config([], [])
  const START := "next"

  // ----- what a configuration means: its tasks in order -----

  datatype Owner = System | Of(service: string)
  datatype Item = Item(owner: Owner, task: Task)

  // The arguments that an action is called with; a system task has no service name.
  datatype Call = Call(service: string, task: Task)

  function CallOf(item: Item): Call {
    Call(match item.owner case System => "" case Of(service) => service, item.task)
  }

  function Tagged(owner: Owner, tasks: seq<Task>): seq<Item> {
    seq(|tasks|, i requires 0 <= i < |tasks| => Item(owner, tasks[i]))
  }

  function FeatureItems(owner: Owner, features: seq<Feature>): seq<Item> {
    if features == [] then [] else Tagged(owner, features[0].tasks) + FeatureItems(owner, features[1..])
  }

  function ServiceItems(services: seq<Service>): seq<Item> {
    if services == [] then []
      else FeatureItems(Of(services[0].name), services[0].features) + ServiceItems(services[1..])
  }

  function Flatten(cfg: Config): seq<Item> {
    FeatureItems(System, cfg.system) + ServiceItems(cfg.services)
  }

  // ----- Next and Execute -----

  function Next(cfg: Config): Event
    decreases |cfg.system|, |cfg.services|, if cfg.services == [] then 0 else |cfg.services[0].features|
  {
    if cfg.system == [] then
      if cfg.services == [] then
        Event("", NOTHING)
      else if cfg.services[0].features == [] then
        Next(cfg.(services := cfg.services[1..]))
      else if cfg.services[0].features[0].tasks == [] then
        Next(cfg.(services := cfg.services[0 := cfg.services[0].(features := cfg.services[0].features[1..])]))
      else
        Event(cfg.services[0].features[0].tasks[0].typ, cfg)
    else if cfg.system[0].tasks == [] then
      Next(cfg.(system := cfg.system[1..]))
    else
      Event(cfg.system[0].tasks[0].typ, cfg)
  }

  // What calling a state's function comes to. A failed action was attempted; a panic comes after
  // an action that succeeded.
  datatype Handled =
    | NotFound
    | NoTasksLeft
    | WrongType
    | ActionFailed(call: Call)
    | Panicked(call: Call)
    | Proceeds(calls: seq<Call>, next: Event)

  // The feature that Execute works on, and the service name that it passes on.
  function HeadFeature(cfg: Config): (Feature, string) {
    if cfg.system != [] then (cfg.system[0], "")
    else if cfg.services != [] && cfg.services[0].features != [] then
      (cfg.services[0].features[0], cfg.services[0].name)
    else (Feature("", []), "")
  }

  // Drop the task that was executed.
  function Popped(cfg: Config): Config
    requires if cfg.system != [] then cfg.system[0].tasks != []
             else cfg.services != [] && cfg.services[0].features != [] && cfg.services[0].features[0].tasks != []
  {
    if cfg.system != [] then
      cfg.(system := cfg.system[0 := cfg.system[0].(tasks := cfg.system[0].tasks[1..])])
    else
      var serv := cfg.services[0];
      var feat := serv.features[0];
      cfg.(services := cfg.services[0 := serv.(features := serv.features[0 := feat.(tasks := feat.tasks[1..])])])
  }

  // Execute's closure for type t; ok is how the action comes back. The update goes to the system
  // list when the service has no name, which panics if that list is empty.
  function ExecuteSpec(t: string, cfg: Config, ok: bool): Handled {
    var (feat, service) := HeadFeature(cfg);
    if feat.tasks == [] then NoTasksLeft
    else if feat.tasks[0].typ != t then WrongType
    else
      var call := Call(service, feat.tasks[0]);
      if !ok then ActionFailed(call)
      else if service == "" && cfg.system == [] then Panicked(call)
      else Proceeds([call], Next(Popped(cfg)))
  }

  // A registered state function: Next itself, or Execute's closure for a type.
  datatype Handler = Advance | Perform(typ: string)

  function Handle(funcs: map<string, Handler>, e: Event, ok: bool): Handled {
    if e.state !in funcs then NotFound
    else
      match funcs[e.state]
      case Advance => Proceeds([], Next(e.data))
      case Perform(t) => ExecuteSpec(t, e.data, ok)
  }

  // The closure, as it runs on its own copy of the configuration.
  method Execute(t: string, cfg0: Config, ok: bool) returns (r: Handled)
    ensures r == ExecuteSpec(t, cfg0, ok)
  {
    var cfg := cfg0;
    var feat, service := Feature("", []), "";
    if |cfg.system| > 0 {
      feat := cfg.system[0];
    } else if |cfg.services| > 0 && |cfg.services[0].features| > 0 {
      feat := cfg.services[0].features[0];
      service := cfg.services[0].name;
    }
    if |feat.tasks| == 0 {
      return NoTasksLeft;
    }
    var task := feat.tasks[0];
    if task.typ != t {
      return WrongType;
    }
    if !ok {
      return ActionFailed(Call(service, task));
    }
    if service == "" {
      if cfg.system == [] {
        return Panicked(Call(service, task));
      }
      cfg := cfg.(system := cfg.system[0 := feat.(tasks := feat.tasks[1..])]);
    } else {
      var serv := cfg.services[0];
      serv := serv.(features := serv.features[0 := feat.(tasks := feat.tasks[1..])]);
      cfg := cfg.(services := cfg.services[0 := serv]);
    }
    return Proceeds([Call(service, task)], Next(cfg));
  }

  // ----- Next and Execute keep the meaning -----

  // The head feature has a task left.
  predicate Positioned(cfg: Config) {
    HeadFeature(cfg).0.tasks != []
  }

  // Next only drops empty heads: the same tasks remain, the state is the type of the first of
  // them, and there is no state exactly when no task is left or the first has no type.
  lemma {:induction false} NextKeeps(cfg: Config)
    ensures Flatten(Next(cfg).data) == Flatten(cfg)
    ensures if Flatten(cfg) == [] then Next(cfg) == Event("", NOTHING)
            else Next(cfg).state == Flatten(cfg)[0].task.typ && Positioned(Next(cfg).data)
    decreases |cfg.system|, |cfg.services|, if cfg.services == [] then 0 else |cfg.services[0].features|
  {
    if cfg.system == [] {
      if cfg.services != [] {
        var serv := cfg.services[0];
        if serv.features == [] {
          NextKeeps(cfg.(services := cfg.services[1..]));
        } else if serv.features[0].tasks == [] {
          var less := cfg.services[0 := serv.(features := serv.features[1..])];
          assert less[1..] == cfg.services[1..];
          NextKeeps(cfg.(services := less));
        } else {
          assert Flatten(cfg)[0] == Item(Of(serv.name), serv.features[0].tasks[0]);
        }
      }
    } else if cfg.system[0].tasks == [] {
      NextKeeps(cfg.(system := cfg.system[1..]));
    } else {
      assert Flatten(cfg)[0] == Item(System, cfg.system[0].tasks[0]);
    }
  }

  lemma TaggedPops(owner: Owner, tasks: seq<Task>)
    requires tasks != []
    ensures Tagged(owner, tasks) == [Item(owner, tasks[0])] + Tagged(owner, tasks[1..])
  {
  }

  // The first feature's first task is the first item, and dropping it drops that item.
  lemma FeaturePops(owner: Owner, features: seq<Feature>)
    requires features != [] && features[0].tasks != []
    ensures var less := features[0 := features[0].(tasks := features[0].tasks[1..])];
      FeatureItems(owner, features) == [Item(owner, features[0].tasks[0])] + FeatureItems(owner, less)
  {
    hide Tagged;
    var less := features[0 := features[0].(tasks := features[0].tasks[1..])];
    TaggedPops(owner, features[0].tasks);
    assert less[1..] == features[1..];
    var first, rest, others :=
      Item(owner, features[0].tasks[0]), Tagged(owner, features[0].tasks[1..]), FeatureItems(owner, features[1..]);
    assert FeatureItems(owner, features) == ([first] + rest) + others;
    assert FeatureItems(owner, less) == rest + others;
    assert ([first] + rest) + others == [first] + (rest + others);
  }

  // Where the head feature has a task, Execute attempts exactly the first remaining item, and
  // its success leaves exactly the others.
  lemma PoppedIsRest(cfg: Config)
    requires Positioned(cfg)
    ensures Flatten(cfg) == [Flatten(cfg)[0]] + Flatten(Popped(cfg))
    ensures CallOf(Flatten(cfg)[0]) == Call(HeadFeature(cfg).1, HeadFeature(cfg).0.tasks[0])
    ensures Flatten(cfg)[0].owner == Of("") <==> cfg.system == [] && HeadFeature(cfg).1 == ""
  {
    if cfg.system != [] {
      FeaturePops(System, cfg.system);
    } else {
      var serv := cfg.services[0];
      FeaturePops(Of(serv.name), serv.features);
      assert Popped(cfg).services[1..] == cfg.services[1..];
    }
  }

  // For any configuration and type: Execute hits its first guard exactly if the head feature has no
  // task, its second exactly if the first remaining task is of another type; otherwise it attempts
  // exactly that task, and what is left to do after a success is exactly the others.
  lemma ExecuteMeans(t: string, cfg: Config, ok: bool)
    ensures var r := ExecuteSpec(t, cfg, ok);
      if !Positioned(cfg) then r == NoTasksLeft
      else
        && Flatten(cfg) != []
        && var item := Flatten(cfg)[0];
           if item.task.typ != t then r == WrongType
           else if !ok then r == ActionFailed(CallOf(item))
           else if item.owner == Of("") then r == Panicked(CallOf(item))
           else r.Proceeds? && r.calls == [CallOf(item)] && Flatten(r.next.data) == Flatten(cfg)[1..]
  {
    if Positioned(cfg) {
      PoppedIsRest(cfg);
      NextKeeps(Popped(cfg));
      assert Flatten(cfg)[1..] == Flatten(Popped(cfg));
    }
  }
}
