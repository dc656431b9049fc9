module Topics {
  import opened Bus

  // The stream and the consensus topic: a request may be refused at any time and is granted at
  // most once for an id; a write may fail.
  class Library {
    var bus: Ledger

    constructor ()
      ensures bus == EMPTY
    {
      bus := EMPTY;
    }

    method Request(id: string) returns (ok: bool)
      modifies this
      ensures ok ==> id !in old(bus).granted && bus == Grant(old(bus), id)
      ensures !ok ==> bus == old(bus)
    {
      var willing: bool := *;
      ok := willing && id !in bus.granted;
      if ok {
        bus := Grant(bus, id);
      }
    }

    method Write(e: Event) returns (ok: bool)
      modifies this
      ensures bus == if ok then Publish(old(bus), e) else old(bus)
    {
      ok := *;
      if ok {
        bus := Publish(bus, e);
      }
    }

    // The start event of a plain run; its run counts as started once the event is written.
    method WriteStart(e: Event) returns (ok: bool)
      requires e.run !in bus.runs
      modifies this
      ensures bus == if ok then Publish(old(bus).(runs := old(bus).runs + {e.run}), e) else old(bus)
    {
      ok := *;
      if ok {
        bus := Publish(bus.(runs := bus.runs + {e.run}), e);
      }
    }

    // A run id that no run has had, as a fresh uuid is.
    method Draw(run: Run)
      requires run !in bus.runs
      modifies this
      ensures bus == old(bus).(runs := old(bus).runs + {run})
    {
      bus := bus.(runs := bus.runs + {run});
    }

    // Acknowledging a pending event appends its completion.
    method Acc(c: Completion)
      requires c.src in bus.pending
      modifies this
      ensures bus == Acknowledge(old(bus), c)
    {
      bus := Acknowledge(bus, c);
    }
  }
}
