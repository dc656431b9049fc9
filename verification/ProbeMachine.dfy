// The state machine that drives Next and Execute: one event after the other from a persistent
// stream, and exactly what a run executes.
module ProbeMachine {
  import opened Probe

  // An event of the stream; origin tells which call of Start it stems from.
  datatype Entry = Entry(origin: nat, event: Event)

  // One call of an action, with the configuration it was given.
  datatype Attempt = Attempt(origin: nat, cfg: Config, call: Call, ok: bool)

  // starts is a history variable: the configurations that Start was called with.
  datatype Store = Store(starts: seq<Config>, stream: seq<Entry>, acked: set<nat>, log: seq<Attempt>)

  const EMPTY := Store([], [], {}, [])

  function Attempts(e: Entry, h: Handled): seq<Attempt> {
    match h
    case ActionFailed(call) => [Attempt(e.origin, e.event.data, call, false)]
    case Panicked(call) => [Attempt(e.origin, e.event.data, call, true)]
    case Proceeds(calls, _) =>
      seq(|calls|, i requires 0 <= i < |calls| => Attempt(e.origin, e.event.data, calls[i], true))
    case _ => []
  }

  // What handling event k leaves behind, if its write and its acknowledgement are carried out.
  function After(s: Store, k: nat, h: Handled, write: bool, ack: bool): Store
    requires k < |s.stream|
  {
    Store(s.starts,
          if write && h.Proceeds? && h.next.state != "" then s.stream + [Entry(s.stream[k].origin, h.next)]
          else s.stream,
          if ack && h.Proceeds? then s.acked + {k} else s.acked,
          s.log + Attempts(s.stream[k], h))
  }

  function AfterStart(s: Store, cfg: Config): Store {
    s.(starts := s.starts + [cfg], stream := s.stream + [Entry(|s.starts|, Event(START, cfg))])
  }

  // down: the process has panicked.
  datatype Machine = Machine(store: Store, cursor: nat, down: bool)

  // How the n-th attempt at an action comes back.
  type Oracle = nat -> bool

  predicate CanTurn(m: Machine) {
    !m.down && m.cursor < |m.store.stream|
  }

  function Turn(funcs: map<string, Handler>, oracle: Oracle, m: Machine): Machine
    requires CanTurn(m)
  {
    var h := Handle(funcs, m.store.stream[m.cursor].event, oracle(|m.store.log|));
    Machine(After(m.store, m.cursor, h, true, true), m.cursor + 1, h.Panicked?)
  }

  function Turns(funcs: map<string, Handler>, oracle: Oracle, m: Machine, n: nat): Machine
    decreases n
  {
    if n == 0 || !CanTurn(m) then m else Turns(funcs, oracle, Turn(funcs, oracle, m), n - 1)
  }

  // log stands for the node that the actions work on.
  class StateMachine {
    const oracle: Oracle
    var funcs: map<string, Handler>
    var stream: seq<Entry>
    var acked: set<nat>
    var cursor: nat
    var down: bool
    var log: seq<Attempt>
    var starts: seq<Config>

    constructor (oracle: Oracle)
      ensures this.oracle == oracle && funcs == map[]
      ensures View() == Machine(EMPTY, 0, false)
    {
      this.oracle := oracle;
      funcs, stream, acked, cursor, down, log, starts := map[], [], {}, 0, false, [], [];
    }

    ghost function View(): Machine
      reads this
    {
      Machine(Store(starts, stream, acked, log), cursor, down)
    }

    method Func(name: string, fn: Handler)
      modifies this`funcs
      ensures funcs == old(funcs)[name := fn]
    {
      funcs := funcs[name := fn];
    }

    method Start(cfg: Config)
      modifies this`stream, this`starts
      ensures View() == old(View()).(store := AfterStart(old(View()).store, cfg))
    {
      stream := stream + [Entry(|starts|, Event(START, cfg))];
      starts := starts + [cfg];
    }

    method Call(e: Event) returns (h: Handled)
      ensures h == Handle(funcs, e, oracle(|log|))
    {
      if e.state !in funcs {
        return NotFound;
      }
      match funcs[e.state] {
        case Advance => h := Proceeds([], Next(e.data));
        case Perform(t) => h := Execute(t, e.data, oracle(|log|));
      }
    }

    // One event: look up its function, call it, write what is next, acknowledge.
    method OnEvent()
      requires CanTurn(View())
      modifies this`stream, this`acked, this`cursor, this`down, this`log
      ensures View() == Turn(funcs, oracle, old(View()))
    {
      hide Handle;
      var k, e := cursor, stream[cursor];
      cursor := cursor + 1;
      var h := Call(e.event);
      log := log + Attempts(e, h);
      match h {
        case Panicked(_) => down := true;
        case Proceeds(_, next) =>
          if next.state != "" {
            stream := stream + [Entry(e.origin, next)];
          }
          acked := acked + {k};
        case _ =>
      }
    }

    // The event loop, until the context ends after a number of events, or no event is left.
    method Run(limit: nat)
      modifies this`stream, this`acked, this`cursor, this`down, this`log
      ensures View() == Turns(funcs, oracle, old(View()), limit)
    {
      hide Turn;
      for n := 0 to limit
        invariant Turns(funcs, oracle, View(), limit - n) == Turns(funcs, oracle, old(View()), limit)
      {
        if down || cursor >= |stream| {
          return;
        }
        OnEvent();
      }
    }
  }

  // ----- exactly what a run executes -----

  // Every type is handled by its own closure of Execute, and Next is registered to start with.
  ghost predicate Registered(funcs: map<string, Handler>) {
    && START in funcs && funcs[START] == Advance
    && forall t :: t in funcs && t != START ==> funcs[t] == Perform(t)
  }

  // The types that the probe has actions for, and the functions that it registers.
  predicate ActionType(typ: string) {
    || typ == "install" || typ == "download" || typ == "link" || typ == "enable"
    || typ == "file_string" || typ == "file_bytes" || typ == "user" || typ == "command"
  }

  ghost predicate ProbeFuncs(funcs: map<string, Handler>) {
    && Registered(funcs)
    && funcs.Keys == {START} + {"install"} + {"download"} + {"link"} + {"enable"}
                   + {"file_string"} + {"file_bytes"} + {"user"} + {"command"}
  }

  lemma ActionTypeActs(funcs: map<string, Handler>, typ: string)
    requires ProbeFuncs(funcs) && ActionType(typ)
    ensures typ in funcs && typ != START && typ != ""
  {
    hide Registered;
    assert typ in funcs.Keys;
    assert typ[0] != START[0];
  }

  // What the probe registers before it runs the machine.
  method RegisterAll(sm: StateMachine)
    requires sm.funcs == map[]
    modifies sm`funcs
    ensures ProbeFuncs(sm.funcs)
  {
    hide Registered;
    sm.Func(START, Advance);
    assert Registered(sm.funcs) && sm.funcs.Keys == {START} by { OnlyNext(sm.funcs); }
    RegisterAction(sm, "install");
    RegisterAction(sm, "download");
    RegisterAction(sm, "link");
    RegisterAction(sm, "enable");
    RegisterAction(sm, "file_string");
    RegisterAction(sm, "file_bytes");
    RegisterAction(sm, "user");
    RegisterAction(sm, "command");
  }

  lemma OnlyNext(funcs: map<string, Handler>)
    requires funcs == map[START := Advance]
    ensures Registered(funcs) && funcs.Keys == {START}
  {
  }

  // sm.Func(actions.Execute(typ, ...))
  method RegisterAction(sm: StateMachine, typ: string)
    requires Registered(sm.funcs) && typ != "" && typ[0] != START[0]
    modifies sm`funcs
    ensures Registered(sm.funcs) && sm.funcs.Keys == old(sm.funcs.Keys) + {typ}
  {
    sm.Func(typ, Perform(typ));
  }

  datatype Ending =
    | Done      // nothing left
    | Halted    // a task without a type: acknowledged as if nothing were left
    | Stalled   // a task of a type that no function is registered for
    | Spinning  // a task of the type of Next itself, which is written again and again
    | Failing   // an action that failed
    | Crashed   // a task of a service without a name

  // How many tasks succeed, and why no more do; n attempts have been made before.
  function EndingOf(funcs: map<string, Handler>, oracle: Oracle, items: seq<Item>, n: nat): (r: (nat, Ending))
    ensures r.0 <= |items|
    ensures r.1 == Done <==> r.0 == |items|
  {
    if items == [] then (0, Done)
    else
      var typ := items[0].task.typ;
      if typ == "" then (0, Halted)
      else if typ !in funcs then (0, Stalled)
      else if typ == START then (0, Spinning)
      else if !oracle(n) then (0, Failing)
      else if items[0].owner == Of("") then (0, Crashed)
      else
        var (k, ending) := EndingOf(funcs, oracle, items[1..], n + 1);
        (k + 1, ending)
  }

  // The calls of the log from n on, with their outcomes.
  function CallsFrom(log: seq<Attempt>, n: nat): seq<(Call, bool)>
    requires n <= |log|
  {
    seq(|log| - n, i requires 0 <= i < |log| - n => (log[n + i].call, log[n + i].ok))
  }

  function Succeeded(items: seq<Item>): seq<(Call, bool)> {
    seq(|items|, i requires 0 <= i < |items| => (CallOf(items[i]), true))
  }

  // The calls that a run with this ending makes.
  function Expected(items: seq<Item>, end: (nat, Ending)): seq<(Call, bool)>
    requires end.0 <= |items| && (end.1 != Done ==> end.0 < |items|)
  {
    Succeeded(items[..end.0]) +
      if end.1 == Failing then [(CallOf(items[end.0]), false)]
      else if end.1 == Crashed then [(CallOf(items[end.0]), true)]
      else []
  }

  // Only events that were read are acknowledged.
  ghost predicate AcksRead(m: Machine) {
    forall k :: k in m.store.acked ==> k < m.cursor
  }

  // The machine is about to read the one event that it has not read; it stands for these items.
  ghost predicate AtHead(m: Machine, items: seq<Item>) {
    && !m.down && m.cursor + 1 == |m.store.stream| && AcksRead(m)
    && items != [] && items[0].task.typ != ""
    && var e := m.store.stream[m.cursor].event;
       e.state == items[0].task.typ && Positioned(e.data) && Flatten(e.data) == items
  }

  // All events from first on are read; the last one is acknowledged or not.
  ghost predicate Settled(m: Machine, first: nat, lastAcked: bool) {
    && m.cursor == |m.store.stream| > first
    && (forall k :: first <= k < |m.store.stream| - 1 ==> k in m.store.acked)
    && (|m.store.stream| - 1 in m.store.acked <==> lastAcked)
  }

  ghost predicate Ended(m: Machine, first: nat, ending: Ending) {
    && m.down == (ending == Crashed)
    && if ending == Spinning then m.cursor + 1 == |m.store.stream|
      else Settled(m, first, ending == Done || ending == Halted)
  }

  ghost predicate ReadSoFar(m: Machine, first: nat) {
    first <= m.cursor && forall k :: first <= k < m.cursor ==> k in m.store.acked
  }

  // One turn at the head: the event's closure is found, neither of its guards is hit, and it
  // attempts exactly the first remaining item.
  lemma HeadTurn(funcs: map<string, Handler>, oracle: Oracle, m: Machine, items: seq<Item>)
    requires Registered(funcs) && AtHead(m, items)
    requires items[0].task.typ in funcs && items[0].task.typ != START
    ensures var h := Handle(funcs, m.store.stream[m.cursor].event, oracle(|m.store.log|));
      if !oracle(|m.store.log|) then h == ActionFailed(CallOf(items[0]))
      else if items[0].owner == Of("") then h == Panicked(CallOf(items[0]))
      else h.Proceeds? && h.calls == [CallOf(items[0])] && Follows(h.next, items[1..])
  {
    var e := m.store.stream[m.cursor].event;
    PoppedIsRest(e.data);
    assert items[1..] == Flatten(Popped(e.data));
    NextKeeps(Popped(e.data));
  }

  // The event that Next makes of what is left.
  ghost predicate Follows(next: Event, items: seq<Item>) {
    if items == [] then next.state == ""
    else next.state == items[0].task.typ && Positioned(next.data) && Flatten(next.data) == items
  }

  lemma StopsThere(funcs: map<string, Handler>, oracle: Oracle, m: Machine, n: nat)
    requires !CanTurn(m)
    ensures Turns(funcs, oracle, m, n) == m
  {
  }

  // A task of Next's own type comes back as it was.
  lemma {:induction false} Spins(funcs: map<string, Handler>, oracle: Oracle, m: Machine, items: seq<Item>, n: nat)
    requires Registered(funcs) && AtHead(m, items) && items[0].task.typ == START
    ensures AtHead(Turns(funcs, oracle, m, n), items) && Turns(funcs, oracle, m, n).store.log == m.store.log
    decreases n
  {
    if n > 0 {
      var m' := Turn(funcs, oracle, m);
      NextKeeps(m.store.stream[m.cursor].event.data);
      assert m'.store.log == m.store.log;
      assert m'.store.stream[m'.cursor].event == Next(m.store.stream[m.cursor].event.data);
      Spins(funcs, oracle, m', items, n - 1);
    }
  }

  lemma ExpectedFirst(items: seq<Item>, end: (nat, Ending))
    requires items != [] && end.0 <= |items| - 1 && (end.1 != Done ==> end.0 < |items| - 1)
    ensures Expected(items, (end.0 + 1, end.1)) == [(CallOf(items[0]), true)] + Expected(items[1..], end)
  {
    assert items[..end.0 + 1] == [items[0]] + items[1..][..end.0];
    assert Succeeded(items[..end.0 + 1]) == [(CallOf(items[0]), true)] + Succeeded(items[1..][..end.0]);
  }

  lemma CallsAfter(log: seq<Attempt>, log': seq<Attempt>, more: seq<Attempt>)
    requires |log + more| <= |log'| && log + more == log'[..|log + more|]
    ensures CallsFrom(log', |log|) == CallsFrom(log + more, |log|) + CallsFrom(log', |log + more|)
  {
  }

  ghost predicate Outcome(funcs: map<string, Handler>, oracle: Oracle, m: Machine, r: Machine, items: seq<Item>,
                          first: nat)
  {
    var end := EndingOf(funcs, oracle, items, |m.store.log|);
    && m.store.log <= r.store.log
    && CallsFrom(r.store.log, |m.store.log|) == Expected(items, end)
    && Ended(r, first, end.1)
  }

  // After an event that Next made of these items: stopped, or at their head.
  lemma AfterNext(funcs: map<string, Handler>, oracle: Oracle, m: Machine, next: Event, items: seq<Item>, first: nat)
    requires Registered(funcs) && !m.down && m.cursor + 1 == |m.store.stream| && AcksRead(m) && ReadSoFar(m, first)
    requires Follows(next, items) && (next.state == "" ==> items == [] || items[0].task.typ == "")
    ensures var m' := Machine(After(m.store, m.cursor, Proceeds([], next), true, true), m.cursor + 1, false);
      && ReadSoFar(m', first) && AcksRead(m')
      && (next.state != "" ==> AtHead(m', items))
      && (next.state == "" ==> !CanTurn(m') && Outcome(funcs, oracle, m', m', items, first))
  {
  }

  // A task that does not get done ends the run at once.
  lemma HeadStops(funcs: map<string, Handler>, oracle: Oracle, m: Machine, items: seq<Item>, first: nat, n: nat)
    requires Registered(funcs) && AtHead(m, items) && ReadSoFar(m, first) && n > 0
    requires EndingOf(funcs, oracle, items, |m.store.log|).0 == 0
    ensures Outcome(funcs, oracle, m, Turns(funcs, oracle, m, n), items, first)
  {
    hide Positioned;
    hide Flatten;
    var end := EndingOf(funcs, oracle, items, |m.store.log|);
    if end == (0, Spinning) {
      Spins(funcs, oracle, m, items, n);
    } else {
      if end != (0, Stalled) {
        HeadTurn(funcs, oracle, m, items);
      }
      StopsThere(funcs, oracle, Turn(funcs, oracle, m), n - 1);
    }
  }

  // A task that gets done leaves the machine at the next one, or stopped.
  lemma HeadGoesOn(funcs: map<string, Handler>, oracle: Oracle, m: Machine, items: seq<Item>, first: nat)
    requires Registered(funcs) && AtHead(m, items) && ReadSoFar(m, first)
    requires EndingOf(funcs, oracle, items, |m.store.log|).0 > 0
    ensures var m' := Turn(funcs, oracle, m);
      && m'.store.log == m.store.log + [Attempt(m.store.stream[m.cursor].origin, m.store.stream[m.cursor].event.data,
                                                CallOf(items[0]), true)]
      && ReadSoFar(m', first)
      && (AtHead(m', items[1..]) || (!CanTurn(m') && Outcome(funcs, oracle, m', m', items[1..], first)))
  {
    hide Positioned;
    hide Flatten;
    HeadTurn(funcs, oracle, m, items);
    var h := Handle(funcs, m.store.stream[m.cursor].event, oracle(|m.store.log|));
    AfterNext(funcs, oracle, m, h.next, items[1..], first);
    var silent := Machine(After(m.store, m.cursor, Proceeds([], h.next), true, true), m.cursor + 1, false);
    assert Turn(funcs, oracle, m) == silent.(store := silent.store.(log := Turn(funcs, oracle, m).store.log));
  }

  lemma OutcomeOver(funcs: map<string, Handler>, oracle: Oracle, m: Machine, m': Machine, r: Machine, items: seq<Item>,
                    first: nat)
    requires EndingOf(funcs, oracle, items, |m.store.log|).0 > 0
    requires exists j, cfg :: m'.store.log == m.store.log + [Attempt(j, cfg, CallOf(items[0]), true)]
    requires Outcome(funcs, oracle, m', r, items[1..], first)
    ensures Outcome(funcs, oracle, m, r, items, first)
  {
    hide Ended;
    hide Expected;
    hide CallsFrom;
    var end := EndingOf(funcs, oracle, items, |m.store.log|);
    var j, cfg :| m'.store.log == m.store.log + [Attempt(j, cfg, CallOf(items[0]), true)];
    ExpectedFirst(items, (end.0 - 1, end.1));
    CallsAfter(m.store.log, r.store.log, [Attempt(j, cfg, CallOf(items[0]), true)]);
    OneCall(m.store.log, Attempt(j, cfg, CallOf(items[0]), true));
  }

  lemma OneCall(log: seq<Attempt>, a: Attempt)
    ensures CallsFrom(log + [a], |log|) == [(a.call, a.ok)]
  {
  }

  lemma {:induction false} HeadRun(funcs: map<string, Handler>, oracle: Oracle, m: Machine, items: seq<Item>,
                                   first: nat, n: nat)
    requires Registered(funcs) && AtHead(m, items) && ReadSoFar(m, first)
    requires n > EndingOf(funcs, oracle, items, |m.store.log|).0
    ensures Outcome(funcs, oracle, m, Turns(funcs, oracle, m, n), items, first)
    decreases n
  {
    hide Outcome;
    hide Registered;
    hide ReadSoFar;
    hide Turn;
    if EndingOf(funcs, oracle, items, |m.store.log|).0 == 0 {
      HeadStops(funcs, oracle, m, items, first, n);
    } else {
      var m' := Turn(funcs, oracle, m);
      HeadGoesOn(funcs, oracle, m, items, first);
      if AtHead(m', items[1..]) {
        HeadRun(funcs, oracle, m', items[1..], first, n - 1);
      } else {
        StopsThere(funcs, oracle, m', n - 1);
      }
      OutcomeOver(funcs, oracle, m, m', Turns(funcs, oracle, m, n), items, first);
    }
  }

  // The whole run of a configuration, started where every event has been read: the calls made
  // are the tasks in order, each once, up to the first that does not get done, and the machine
  // ends as that task says. Any number of turns beyond that changes nothing but how often a task
  // of Next's own type has been written again.
  lemma RunExact(funcs: map<string, Handler>, oracle: Oracle, m: Machine, cfg: Config, n: nat)
    requires Registered(funcs) && !m.down && m.cursor == |m.store.stream| && AcksRead(m)
    requires n > EndingOf(funcs, oracle, Flatten(cfg), |m.store.log|).0 + 1
    ensures Outcome(funcs, oracle, m, Turns(funcs, oracle, m.(store := AfterStart(m.store, cfg)), n), Flatten(cfg),
                    m.cursor)
  {
    hide Flatten;
    hide Positioned;
    hide Next;
    hide Outcome;
    hide EndingOf;
    var m0 := m.(store := AfterStart(m.store, cfg));
    var m' := Turn(funcs, oracle, m0);
    NextKeeps(cfg);
    AfterNext(funcs, oracle, m0, Next(cfg), Flatten(cfg), m.cursor);
    assert m' == Machine(After(m0.store, m0.cursor, Proceeds([], Next(cfg)), true, true), m0.cursor + 1, false);
    if Next(cfg).state == "" {
      StopsThere(funcs, oracle, m', n - 1);
    } else {
      HeadRun(funcs, oracle, m', Flatten(cfg), m.cursor, n - 1);
    }
    OutcomeOfLog(funcs, oracle, m, m', Turns(funcs, oracle, m0, n), Flatten(cfg), m.cursor);
  }

  lemma OutcomeOfLog(funcs: map<string, Handler>, oracle: Oracle, m: Machine, m': Machine, r: Machine, items: seq<Item>,
                     first: nat)
    requires m'.store.log == m.store.log && Outcome(funcs, oracle, m', r, items, first)
    ensures Outcome(funcs, oracle, m, r, items, first)
  {
  }

  // A task that the machine gets done, if its action succeeds.
  predicate Runnable(funcs: map<string, Handler>, item: Item) {
    item.task.typ != "" && item.task.typ != START && item.task.typ in funcs && item.owner != Of("")
  }

  lemma {:induction false} DoneMeans(funcs: map<string, Handler>, oracle: Oracle, items: seq<Item>, n: nat)
    ensures EndingOf(funcs, oracle, items, n).1 == Done <==>
            (forall item :: item in items ==> Runnable(funcs, item)) && (forall i :: n <= i < n + |items| ==> oracle(i))
    decreases |items|
  {
    if items != [] {
      DoneMeans(funcs, oracle, items[1..], n + 1);
      assert items[0] in items;
      assert forall item :: item in items <==> item == items[0] || item in items[1..];
    }
  }

  // The whole configuration was called in order, and nothing was left behind.
  ghost predicate ExecutedInFull(m: Machine, r: Machine, cfg: Config)
    requires |m.store.log| <= |r.store.log|
  {
    CallsFrom(r.store.log, |m.store.log|) == Succeeded(Flatten(cfg)) && !r.down && Settled(r, m.cursor, true)
  }

  // A started configuration is executed in full, each task once and in order, and nothing is left
  // behind, exactly when every task has a type with an action of its own, every service with
  // tasks has a name, and the actions succeed.
  lemma FullTrace(funcs: map<string, Handler>, oracle: Oracle, m: Machine, cfg: Config, n: nat)
    requires Registered(funcs) && !m.down && m.cursor == |m.store.stream| && AcksRead(m)
    requires n > |Flatten(cfg)| + 1
    ensures var r := Turns(funcs, oracle, m.(store := AfterStart(m.store, cfg)), n);
      && m.store.log <= r.store.log
      && (ExecutedInFull(m, r, cfg) <==>
          (forall item :: item in Flatten(cfg) ==> Runnable(funcs, item))
          && (forall i :: |m.store.log| <= i < |m.store.log| + |Flatten(cfg)| ==> oracle(i)))
  {
    var items := Flatten(cfg);
    var end := EndingOf(funcs, oracle, items, |m.store.log|);
    RunExact(funcs, oracle, m, cfg, n);
    DoneMeans(funcs, oracle, items, |m.store.log|);
    assert items[..|items|] == items;
    if end.1 != Done {
      assert |Expected(items, end)| == |items| ==> end.1 == Crashed || end.1 == Failing;
    }
  }
}
