/** The listing gate (internal/gate/server.go): permission events are held until the daemon
acknowledges them. A step is what one goroutine does without giving way, under the lock or
atomically; a run is any interleaving of steps. A step whose turn it is not does nothing.
Time is counted in milliseconds, and the clock moves on only when no timer is due. */
module GateSteps {
  import opened Types

  const MAX_HOLD: nat := 3000
  const MAX_DEFAULT: nat := 1000
  const DEFAULT_HOLD: nat := 400

  /** One connection of a daemon, and where its goroutine is. `Loaded` and `Closing` are the
  two points inside the handling of one acknowledgement. */
  datatype Handler =
    | Accepted(peer: nat) | Receiving | Loaded(ack: nat, done: nat) | Closing(ack: nat) | Leaving | Over

  /** Where the goroutine of one permission event is. `asked` is the pid of the daemon that
  was registered when it looked. */
  datatype Phase =
    | Fresh
    | Asking(asked: nat, hold: nat)
    | Stored(asked: nat, hold: nat, id: nat)
    | Held(asked: nat, hold: nat, id: nat, since: nat)
    | Released(entry: Option<nat>)
    | Allowed

  /** One permission event; its done-channel goes by the event's own number. */
  datatype Event = Event(pid: nat, inside: bool, phase: Phase, answers: nat)

  datatype Gate = Gate(
    deadline: nat, client: Option<nat>, clientPID: nat, clientDeadline: nat,
    handlers: map<nat, Handler>, nextID: nat, pending: map<nat, nat>,
    events: map<nat, Event>, closed: set<nat>, panicked: bool, now: nat)

  datatype Step =
    | Accept(c: nat, peer: nat)
    | Register(c: nat, authorized: bool, pid: nat, deadlineMS: int)
    | LoadAck(c: nat, id: nat) | CloseDone(c: nat) | ForgetAcked(c: nat)
    | Disconnect(c: nat) | Unregister(c: nat)
    | Arrive(e: nat, pid: nat, inside: bool)
    | Decide(e: nat) | Store(e: nat) | Send(e: nat, delivered: bool)
    | Release(e: nat) | Forget(e: nat) | Allow(e: nat)
    | Tick

  function Start(wanted: int): Gate {
    Gate(if wanted <= 0 || wanted > MAX_DEFAULT then DEFAULT_HOLD else wanted,
         None, 0, 0, map[], 0, map[], map[], {}, false, 0)
  }

  function Hold(s: Gate): nat {
    if s.clientDeadline == 0 then s.deadline else s.clientDeadline
  }

  function Clamp(s: Gate, deadlineMS: int): nat {
    if deadlineMS <= 0 then s.deadline else if deadlineMS > MAX_HOLD then MAX_HOLD else deadlineMS
  }

  function WithHandler(s: Gate, c: nat, h: Handler): Gate { s.(handlers := s.handlers[c := h]) }

  function WithPhase(s: Gate, e: nat, phase: Phase): Gate
    requires e in s.events
  {
    s.(events := s.events[e := s.events[e].(phase := phase)])
  }

  predicate Is(s: Gate, c: nat, h: Handler) { c in s.handlers && s.handlers[c] == h }

  function WithoutEntry(s: Gate, id: nat): Gate { s.(pending := s.pending - {id}) }

  /** A connection's goroutine: it registers, or is refused while another daemon is
  registered; it handles one acknowledgement at a time; and it makes room when it ends. */
  function AfterHandler(s: Gate, step: Step): Gate {
    match step
    case Accept(c, peer) => if c in s.handlers then s else WithHandler(s, c, Accepted(peer))
    case Register(c, authorized, pid, deadlineMS) =>
      if c !in s.handlers || !s.handlers[c].Accepted? then s
      else if !authorized || s.client.Some? then WithHandler(s, c, Over)
      else WithHandler(s, c, Receiving).(client := Some(c), clientPID := if pid == 0 then s.handlers[c].peer else pid,
                                         clientDeadline := Clamp(s, deadlineMS))
    case LoadAck(c, id) =>
      if Is(s, c, Receiving) && id in s.pending then WithHandler(s, c, Loaded(id, s.pending[id])) else s
    case CloseDone(c) =>
      if c in s.handlers && s.handlers[c].Loaded? then
        var e := s.handlers[c].done;
        WithHandler(s, c, Closing(s.handlers[c].ack)).(closed := s.closed + {e},
            panicked := s.panicked || e in s.closed)
      else s
    case ForgetAcked(c) =>
      if c in s.handlers && s.handlers[c].Closing? then WithoutEntry(WithHandler(s, c, Receiving),
          s.handlers[c].ack) else s
    case Disconnect(c) => if Is(s, c, Receiving) then WithHandler(s, c, Leaving) else s
    case Unregister(c) =>
      if Is(s, c, Leaving) then WithHandler(s, c, Over).(client := None, clientPID := 0) else s
    case _ => s
  }

  /** An event's goroutine: it looks at who is registered, asks, waits for the channel or the
  timer, and always answers with Allow. */
  function AfterEvent(s: Gate, step: Step): Gate {
    match step
    case Arrive(e, pid, inside) => if e in s.events then s else s.(events := s.events[e := Event(pid, inside, Fresh,
        0)])
    case Decide(e) =>
      if e !in s.events || !s.events[e].phase.Fresh? then s
      else if s.client.None? || s.events[e].pid == s.clientPID || !s.events[e].inside then
        WithPhase(s, e, Released(None))
      else WithPhase(s, e, Asking(s.clientPID, Hold(s)))
    case Store(e) =>
      if e !in s.events || !s.events[e].phase.Asking? then s
      else var ph, id := s.events[e].phase, s.nextID + 1;
        WithPhase(s, e, Stored(ph.asked, ph.hold, id)).(nextID := id, pending := s.pending[id := e])
    case Send(e, delivered) =>
      if e !in s.events || !s.events[e].phase.Stored? then s
      else var ph := s.events[e].phase;
        WithPhase(s, e, if delivered then Held(ph.asked, ph.hold, ph.id, s.now) else Released(Some(ph.id)))
    case Release(e) =>
      if e in s.events && s.events[e].phase.Held?
         && (e in s.closed || s.now >= s.events[e].phase.since + s.events[e].phase.hold) then
        WithPhase(s, e, Released(Some(s.events[e].phase.id)))
      else s
    case Forget(e) =>
      if e in s.events && s.events[e].phase.Released? && s.events[e].phase.entry.Some? then
        WithoutEntry(WithPhase(s, e, Released(None)), s.events[e].phase.entry.value)
      else s
    case Allow(e) =>
      if e in s.events && s.events[e].phase == Released(None) then
        s.(events := s.events[e := s.events[e].(phase := Allowed, answers := s.events[e].answers + 1)])
      else s
    case _ => s
  }

  predicate TimerDue(s: Gate, e: nat) {
    e in s.events && s.events[e].phase.Held? && s.now >= s.events[e].phase.since + s.events[e].phase.hold
  }

  function After(s: Gate, step: Step): Gate {
    match step
    case Tick => if exists e :: e in s.events && TimerDue(s, e) then s else s.(now := s.now + 1)
    case Accept(_, _) => AfterHandler(s, step)
    case Register(_, _, _, _) => AfterHandler(s, step)
    case LoadAck(_, _) => AfterHandler(s, step)
    case CloseDone(_) => AfterHandler(s, step)
    case ForgetAcked(_) => AfterHandler(s, step)
    case Disconnect(_) => AfterHandler(s, step)
    case Unregister(_) => AfterHandler(s, step)
    case _ => AfterEvent(s, step)
  }

  function AfterAll(s: Gate, steps: seq<Step>): Gate {
    if steps == [] then s else After(AfterAll(s, steps[..|steps| - 1]), steps[|steps| - 1])
  }

  // ----- what every interleaving keeps

  /** The goroutine of the registered daemon, from registration until it has made room. */
  predicate Active(s: Gate, c: nat) {
    c in s.handlers && !s.handlers[c].Accepted? && !s.handlers[c].Over?
  }

  predicate HandlerOk(s: Gate, c: nat) {
    && (Active(s, c) <==> s.client == Some(c))
    && (c in s.handlers && s.handlers[c].Loaded? ==>
          var e := s.handlers[c].done;
          e !in s.closed && Asked(s, e) && (IdOf(s, e).None? || IdOf(s, e) == Some(s.handlers[c].ack)))
  }

  /** The event has made its channel known at some time. */
  predicate Asked(s: Gate, e: nat) {
    e in s.events && !s.events[e].phase.Fresh? && !s.events[e].phase.Asking?
  }

  /** The id by which the event goes until it has removed its entry. */
  function IdOf(s: Gate, e: nat): Option<nat> {
    if e !in s.events then None
    else match s.events[e].phase
      case Stored(_, _, id) => Some(id)
      case Held(_, _, id, _) => Some(id)
      case Released(entry) => entry
      case _ => None
  }

  predicate Carries(s: Gate, e: nat, id: nat) { IdOf(s, e) == Some(id) }

  predicate EventOk(s: Gate, e: nat) {
    && (e in s.closed ==> Asked(s, e))
    && (e in s.events ==>
          var ev := s.events[e];
          && ev.answers == (if ev.phase.Allowed? then 1 else 0)
          && (ev.phase.Asking? || ev.phase.Stored? || ev.phase.Held?
              ==> ev.phase.asked != ev.pid && ev.phase.hold <= MAX_HOLD)
          && (ev.phase.Held? ==> ev.phase.since <= s.now <= ev.phase.since + ev.phase.hold))
  }

  predicate EntryOk(s: Gate, id: nat) {
    && (id in s.pending ==> id <= s.nextID && Carries(s, s.pending[id], id))
    && (id in s.pending && s.pending[id] in s.closed ==>
          s.client.Some? && Is(s, s.client.value, Closing(id)))
  }

  /** Ids are handed out once. */
  predicate IdsApart(s: Gate, e: nat, f: nat, id: nat) {
    Carries(s, e, id) && Carries(s, f, id) ==> e == f && id <= s.nextID
  }

  ghost predicate Valid(s: Gate) {
    && s.deadline <= MAX_DEFAULT && s.clientDeadline <= MAX_HOLD && !s.panicked
    && (forall c: nat :: HandlerOk(s, c)) && (forall e: nat :: EventOk(s, e))
    && (forall id: nat :: EntryOk(s, id)) && (forall e: nat, f: nat, id: nat :: IdsApart(s, e, f, id))
  }

  lemma HandlerStepHandler(s: Gate, step: Step, c: nat)
    requires Valid(s)
    ensures HandlerOk(AfterHandler(s, step), c)
  {
    assert HandlerOk(s, c);
    if s.client.Some? { assert HandlerOk(s, s.client.value); }
    match step
    case LoadAck(x, id) => if id in s.pending { assert EntryOk(s, id); }
    case CloseDone(x) => assert HandlerOk(s, x);
    case Unregister(x) => assert HandlerOk(s, x);
    case _ =>
  }

  lemma HandlerStepEvent(s: Gate, step: Step, e: nat)
    requires Valid(s)
    ensures EventOk(AfterHandler(s, step), e)
  {
    assert EventOk(s, e);
    if step.CloseDone? { assert HandlerOk(s, step.c); }
  }

  lemma HandlerStepEntry(s: Gate, step: Step, id: nat)
    requires Valid(s)
    ensures EntryOk(AfterHandler(s, step), id)
  {
    assert EntryOk(s, id);
    match step
    case CloseDone(c) => CloseEntry(s, c, id);
    case Register(c, _, _, _) =>
    case LoadAck(c, _) =>
    case ForgetAcked(c) => assert HandlerOk(s, c);
    case Disconnect(c) =>
    case Unregister(c) => assert HandlerOk(s, c);
    case _ =>
  }

  /** The entry whose channel is being closed is the one that was acknowledged. */
  lemma CloseEntry(s: Gate, c: nat, id: nat)
    requires Valid(s)
    ensures EntryOk(AfterHandler(s, CloseDone(c)), id)
  {
    assert EntryOk(s, id) && HandlerOk(s, c);
  }

  lemma EventStepHandler(s: Gate, step: Step, c: nat)
    requires Valid(s)
    ensures HandlerOk(AfterEvent(s, step), c)
  {
    assert HandlerOk(s, c);
  }

  lemma EventStepEvent(s: Gate, step: Step, e: nat)
    requires Valid(s)
    ensures EventOk(AfterEvent(s, step), e)
  {
    assert EventOk(s, e);
  }

  lemma EventStepEntry(s: Gate, step: Step, id: nat)
    requires Valid(s)
    ensures EntryOk(AfterEvent(s, step), id)
  {
    assert EntryOk(s, id);
    if id in s.pending { assert EventOk(s, s.pending[id]); }
    match step
    case Store(e) => assert EventOk(s, e) && EntryOk(s, s.nextID + 1);
    case Forget(e) => if id in s.pending { assert IdsApart(s, e, s.pending[id], id); }
    case _ =>
  }

  lemma EventStepIds(s: Gate, step: Step, e: nat, f: nat, id: nat)
    requires Valid(s)
    ensures IdsApart(AfterEvent(s, step), e, f, id)
  {
    assert IdsApart(s, e, f, id) && IdsApart(s, e, e, id) && IdsApart(s, f, f, id);
  }

  lemma TickValid(s: Gate)
    requires Valid(s)
    ensures Valid(After(s, Tick))
  {
    var s' := After(s, Tick);
    forall e: nat ensures EventOk(s', e) {
      assert EventOk(s, e);
      assert e in s.events && TimerDue(s, e) ==> s' == s;
    }
    forall c: nat ensures HandlerOk(s', c) {
      assert HandlerOk(s, c);
    }
    forall id: nat ensures EntryOk(s', id) {
      assert EntryOk(s, id);
    }
    forall e: nat, f: nat, id: nat ensures IdsApart(s', e, f, id) {
      assert IdsApart(s, e, f, id);
    }
  }

  lemma HandlerStepValid(s: Gate, step: Step)
    requires Valid(s)
    ensures Valid(AfterHandler(s, step))
  {
    var s' := AfterHandler(s, step);
    forall c: nat ensures HandlerOk(s', c) { HandlerStepHandler(s, step, c); }
    forall e: nat ensures EventOk(s', e) { HandlerStepEvent(s, step, e); }
    forall id: nat ensures EntryOk(s', id) { HandlerStepEntry(s, step, id); }
    forall e: nat, f: nat, id: nat ensures IdsApart(s', e, f, id) {
      assert IdsApart(s, e, f, id);
    }
    if step.CloseDone? { assert HandlerOk(s, step.c); }
  }

  lemma EventStepValid(s: Gate, step: Step)
    requires Valid(s)
    ensures Valid(AfterEvent(s, step))
  {
    var s' := AfterEvent(s, step);
    forall c: nat ensures HandlerOk(s', c) { EventStepHandler(s, step, c); }
    forall e: nat ensures EventOk(s', e) { EventStepEvent(s, step, e); }
    forall id: nat ensures EntryOk(s', id) { EventStepEntry(s, step, id); }
    forall e: nat, f: nat, id: nat ensures IdsApart(s', e, f, id) { EventStepIds(s, step, e, f, id); }
  }

  /** Every step of every goroutine keeps the gate valid. */
  lemma StepValid(s: Gate, step: Step)
    requires Valid(s)
    ensures Valid(After(s, step))
  {
    if step.Tick? {
      TickValid(s);
    } else if After(s, step) == AfterHandler(s, step) {
      HandlerStepValid(s, step);
    } else {
      EventStepValid(s, step);
    }
  }

  lemma {:induction false} RunValid(wanted: int, steps: seq<Step>)
    ensures Valid(AfterAll(Start(wanted), steps))
  {
    if steps != [] {
      RunValid(wanted, steps[..|steps| - 1]);
      StepValid(AfterAll(Start(wanted), steps[..|steps| - 1]), steps[|steps| - 1]);
    }
  }

  // ----- the guarantees

  /** Over every interleaving: an event is answered at most once, and the only answer there is
  allows it; no channel is closed twice; one receive loop is active at most; live ids are
  never shared; no listing waits longer than three seconds, and none of the daemon's own. */
  lemma GateIsSafe(wanted: int, steps: seq<Step>)
    ensures var s := AfterAll(Start(wanted), steps);
      && !s.panicked
      && (forall e | e in s.events ::
            s.events[e].answers <= 1 && (s.events[e].answers == 1 <==> s.events[e].phase.Allowed?))
      && (forall c: nat, d: nat :: Active(s, c) && Active(s, d) ==> c == d)
      && (forall e: nat, f: nat, id: nat :: Carries(s, e, id) && Carries(s, f, id) ==> e == f)
      && (forall e | e in s.events && s.events[e].phase.Held? ::
            s.now - s.events[e].phase.since <= s.events[e].phase.hold <= MAX_HOLD
            && s.events[e].pid != s.events[e].phase.asked)
  {
    RunValid(wanted, steps);
    var s := AfterAll(Start(wanted), steps);
    forall e | e in s.events ensures EventOk(s, e) {
    }
    forall c: nat, d: nat | Active(s, c) && Active(s, d) ensures c == d {
      assert HandlerOk(s, c) && HandlerOk(s, d);
    }
    forall e: nat, f: nat, id: nat | Carries(s, e, id) && Carries(s, f, id) ensures e == f {
      assert IdsApart(s, e, f, id);
    }
  }

  /** What is left of an event's own way to its answer. */
  function StepsLeft(s: Gate, e: nat): nat
    requires e in s.events
  {
    match s.events[e].phase
    case Fresh => 6
    case Asking(_, _) => 5
    case Stored(_, _, _) => 4
    case Held(_, _, _, _) => 3
    case Released(entry) => if entry.Some? then 2 else 1
    case Allowed => 0
  }

  /** The event's own next step. */
  function Next(s: Gate, e: nat, delivered: bool): Step
    requires e in s.events
  {
    match s.events[e].phase
    case Fresh => Decide(e)
    case Asking(_, _) => Store(e)
    case Stored(_, _, _) => Send(e, delivered)
    case Held(_, _, _, _) => Release(e)
    case Released(entry) => if entry.Some? then Forget(e) else Allow(e)
    case Allowed => Allow(e)
  }

  predicate Nearer(s: Gate, s': Gate, e: nat)
    requires e in s.events
  {
    e in s'.events && StepsLeft(s', e) < StepsLeft(s, e)
  }

  /** Held, neither acknowledged nor due: the clock is what such an event waits for. */
  predicate Waits(s: Gate, e: nat)
    requires e in s.events
  {
    s.events[e].phase.Held? && e !in s.closed && !TimerDue(s, e)
  }

  lemma AskingIsNearer(s: Gate, e: nat, delivered: bool)
    requires e in s.events && (s.events[e].phase.Fresh? || s.events[e].phase.Asking? || s.events[e].phase.Stored?)
    ensures Nearer(s, AfterEvent(s, Next(s, e, delivered)), e)
  {
  }

  lemma AnsweringIsNearer(s: Gate, e: nat, delivered: bool)
    requires e in s.events && (s.events[e].phase.Held? || s.events[e].phase.Released?)
    ensures Nearer(s, AfterEvent(s, Next(s, e, delivered)), e) || Waits(s, e)
  {
  }

  /** No event is ever stuck: its next step brings it nearer to its answer, unless it is held
  and neither acknowledged nor due, and then the clock is what it waits for. */
  lemma NeverStuck(s: Gate, e: nat, delivered: bool)
    requires Valid(s) && e in s.events && !s.events[e].phase.Allowed?
    ensures Nearer(s, After(s, Next(s, e, delivered)), e) || Waits(s, e)
  {
    hide Valid, AfterEvent, StepsLeft, Nearer;
    if s.events[e].phase.Held? || s.events[e].phase.Released? {
      AnsweringIsNearer(s, e, delivered);
    } else {
      AskingIsNearer(s, e, delivered);
    }
  }
}
