/** The gate server as an object (internal/gate/server.go). Its methods are the stretches of
code that run without giving way; each is a step of the step system, so every interleaving
of calls keeps the gate safe. */
module GateServer {
  import opened Types
  import opened GateSteps

  class Server {
    const deadline: nat
    var client: Option<nat>
    var clientPID: nat
    var clientDeadline: nat
    var nextID: nat
    /** Id to done-channel. */
    var pending: map<nat, nat>
    /** The goroutines: of connections, and of permission events. */
    var handlers: map<nat, Handler>
    var events: map<nat, Event>
    /** The done-channels that were closed, and whether one was closed twice. */
    var closed: set<nat>
    var panicked: bool
    var now: nat

    ghost function View(): Gate
      reads this
    {
      Gate(deadline, client, clientPID, clientDeadline, handlers, nextID, pending, events, closed, panicked, now)
    }

    constructor (wanted: int)
      ensures View() == Start(wanted) && Valid(View())
    {
      deadline := if wanted <= 0 || wanted > MAX_DEFAULT then DEFAULT_HOLD else wanted;
      client, clientPID, clientDeadline, nextID, pending := None, 0, 0, 0, map[];
      handlers, events, closed, panicked, now := map[], map[], {}, false, 0;
      new;
      RunValid(wanted, []);
    }

    // ----- handleClient

    /** The first message of a connection. */
    method Register(c: nat, authorized: bool, pid: nat, deadlineMS: int)
      requires Valid(View()) && c in handlers && handlers[c].Accepted?
      modifies this
      ensures View() == After(old(View()), GateSteps.Register(c, authorized, pid, deadlineMS)) && Valid(View())
    {
      StepValid(View(), GateSteps.Register(c, authorized, pid, deadlineMS));
      if !authorized || client.Some? {
        handlers := handlers[c := Over];
        return;
      }
      client := Some(c);
      clientPID := if pid == 0 then handlers[c].peer else pid;
      clientDeadline := deadline;
      if deadlineMS > 0 {
        clientDeadline := if deadlineMS > MAX_HOLD then MAX_HOLD else deadlineMS;
      }
      handlers := handlers[c := Receiving];
    }

    /** An acknowledgement: its channel is looked up, then closed, then its entry removed;
    other goroutines may run in between. */
    method LoadAck(c: nat, id: nat)
      requires Valid(View()) && c in handlers && handlers[c].Receiving?
      modifies this`handlers
      ensures View() == After(old(View()), GateSteps.LoadAck(c, id)) && Valid(View())
    {
      StepValid(View(), GateSteps.LoadAck(c, id));
      if id in pending {
        handlers := handlers[c := Loaded(id, pending[id])];
      }
    }

    method CloseDone(c: nat)
      requires Valid(View()) && c in handlers && handlers[c].Loaded?
      modifies this`handlers, this`closed, this`panicked
      ensures View() == After(old(View()), GateSteps.CloseDone(c)) && Valid(View()) && !panicked
    {
      StepValid(View(), GateSteps.CloseDone(c));
      var done := handlers[c].done;
      panicked := panicked || done in closed;
      closed := closed + {done};
      handlers := handlers[c := Closing(handlers[c].ack)];
    }

    method ForgetAcked(c: nat)
      requires Valid(View()) && c in handlers && handlers[c].Closing?
      modifies this`handlers, this`pending
      ensures View() == After(old(View()), GateSteps.ForgetAcked(c)) && Valid(View())
    {
      StepValid(View(), GateSteps.ForgetAcked(c));
      pending := pending - {handlers[c].ack};
      handlers := handlers[c := Receiving];
    }

    /** The deferred end of a session. */
    method Unregister(c: nat)
      requires Valid(View()) && c in handlers && handlers[c].Leaving?
      modifies this
      ensures View() == After(old(View()), GateSteps.Unregister(c)) && Valid(View()) && client.None?
    {
      StepValid(View(), GateSteps.Unregister(c));
      client, clientPID := None, 0;
      handlers := handlers[c := Over];
    }

    // ----- decide

    /** Look at who is registered, and decide whether to ask. */
    method Decide(e: nat)
      requires Valid(View()) && e in events && events[e].phase.Fresh?
      modifies this`events
      ensures View() == After(old(View()), GateSteps.Decide(e)) && Valid(View())
    {
      StepValid(View(), GateSteps.Decide(e));
      var hold := clientDeadline;
      if hold == 0 {
        hold := deadline;
      }
      var next := Asking(clientPID, hold);
      if client.None? || events[e].pid == clientPID || !events[e].inside {
        next := Released(None);
      }
      events := events[e := events[e].(phase := next)];
    }

    method Store(e: nat)
      requires Valid(View()) && e in events && events[e].phase.Asking?
      modifies this`events, this`nextID, this`pending
      ensures View() == After(old(View()), GateSteps.Store(e)) && Valid(View())
    {
      StepValid(View(), GateSteps.Store(e));
      nextID := nextID + 1;
      pending := pending[nextID := e];
      events := events[e := events[e].(phase := Stored(events[e].phase.asked, events[e].phase.hold, nextID))];
    }

    method Send(e: nat, delivered: bool)
      requires Valid(View()) && e in events && events[e].phase.Stored?
      modifies this`events
      ensures View() == After(old(View()), GateSteps.Send(e, delivered)) && Valid(View())
    {
      StepValid(View(), GateSteps.Send(e, delivered));
      var ph := events[e].phase;
      var next := Released(Some(ph.id));
      if delivered {
        next := Held(ph.asked, ph.hold, ph.id, now);
      }
      events := events[e := events[e].(phase := next)];
    }

    /** The channel is closed, or the timer fires. */
    method Release(e: nat)
      requires Valid(View()) && e in events && events[e].phase.Held?
      modifies this`events
      ensures View() == After(old(View()), GateSteps.Release(e)) && Valid(View())
    {
      StepValid(View(), GateSteps.Release(e));
      if e in closed || now >= events[e].phase.since + events[e].phase.hold {
        events := events[e := events[e].(phase := Released(Some(events[e].phase.id)))];
      }
    }

    /** The deferred removal of the pending entry. */
    method Forget(e: nat)
      requires Valid(View()) && e in events && events[e].phase.Released? && events[e].phase.entry.Some?
      modifies this`events, this`pending
      ensures View() == After(old(View()), GateSteps.Forget(e)) && Valid(View())
    {
      StepValid(View(), GateSteps.Forget(e));
      pending := pending - {events[e].phase.entry.value};
      events := events[e := events[e].(phase := Released(None))];
    }

    /** The deferred answer; there is no other. */
    method Allow(e: nat)
      requires Valid(View()) && e in events && events[e].phase == Released(None)
      modifies this`events
      ensures View() == After(old(View()), GateSteps.Allow(e)) && Valid(View())
      ensures old(events[e].answers) == 0 && events[e].answers == 1
    {
      StepValid(View(), GateSteps.Allow(e));
      assert EventOk(View(), e);
      events := events[e := events[e].(phase := Allowed, answers := events[e].answers + 1)];
    }
  }
}
