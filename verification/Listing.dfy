/** The daemon's answer to a held listing (internal/daemon/gate.go): concurrent listings share
one refresh, and each is acknowledged inside the gate's hold. Steps and clock are as for the
gate; time is counted in nanoseconds, local work takes none, and a refresh returns no later
than its context allows. */
module Listing {
  import opened Types
  import GateSteps

  /** Where one listing's goroutine is. `Joined` waits for another's refresh; the leader runs
  its own and then gives way in three steps. */
  datatype Phase = Entering | Joined(run: nat) | Running(limit: nat) | Ending | Closing | Acking | Acked(at: nat)

  datatype Waiter = Waiter(since: nat, phase: Phase)

  datatype Daemon = Daemon(listingRun: Option<nat>, closed: set<nat>, waiters: map<nat, Waiter>, now: nat)

  datatype Step =
    | Open(w: nat, current: bool) | Enter(w: nat) | Finish(w: nat) | Clear(w: nat) | CloseDone(w: nat)
    | Wake(w: nat) | Ack(w: nat) | Tick

  const MILLISECOND: nat := 1_000_000

  /** Nine tenths of the configured hold. */
  function Budget(maxBlockMS: nat): nat {
    var d := maxBlockMS * MILLISECOND;
    d - d / 10
  }

  const IDLE := Daemon(None, {}, map[], 0)

  predicate Is(s: Daemon, w: nat, phase: Phase) { w in s.waiters && s.waiters[w].phase == phase }

  function WithPhase(s: Daemon, w: nat, phase: Phase): Daemon
    requires w in s.waiters
  {
    s.(waiters := s.waiters[w := s.waiters[w].(phase := phase)])
  }

  /** This goroutine has something to do before the clock moves on. */
  predicate Due(s: Daemon, w: nat) {
    w in s.waiters && match s.waiters[w].phase
      case Running(limit) => s.now >= limit
      case Joined(run) => run in s.closed
      case Acked(_) => false
      case _ => true
  }

  function After(s: Daemon, maxBlockMS: nat, step: Step): Daemon {
    match step
    case Open(w, current) =>
      if w in s.waiters then s
      else s.(waiters := s.waiters[w := Waiter(s.now, if current then Acking else Entering)])
    case Enter(w) =>
      if !Is(s, w, Entering) then s
      else if s.listingRun.Some? then WithPhase(s, w, Joined(s.listingRun.value))
      else WithPhase(s, w, Running(s.now + Budget(maxBlockMS))).(listingRun := Some(w))
    case Finish(w) => if w in s.waiters && s.waiters[w].phase.Running? then WithPhase(s, w, Ending) else s
    case Clear(w) => if Is(s, w, Ending) then WithPhase(s, w, Closing).(listingRun := None) else s
    case CloseDone(w) => if Is(s, w, Closing) then WithPhase(s, w, Acking).(closed := s.closed + {w}) else s
    case Wake(w) =>
      if w in s.waiters && s.waiters[w].phase.Joined? && s.waiters[w].phase.run in s.closed then
        WithPhase(s, w, Acking)
      else s
    case Ack(w) => if Is(s, w, Acking) then WithPhase(s, w, Acked(s.now)) else s
    case Tick => if exists w :: w in s.waiters && Due(s, w) then s else s.(now := s.now + 1)
  }

  function AfterAll(s: Daemon, maxBlockMS: nat, steps: seq<Step>): Daemon {
    if steps == [] then s
    else After(AfterAll(s, maxBlockMS, steps[..|steps| - 1]), maxBlockMS, steps[|steps| - 1])
  }

  // ----- what every interleaving keeps

  /** A refresh is running, or has returned and not yet made room. */
  predicate Leads(s: Daemon, w: nat) {
    w in s.waiters && (s.waiters[w].phase.Running? || s.waiters[w].phase.Ending?)
  }

  predicate WaiterOk(s: Daemon, budget: nat, w: nat) {
    && (Leads(s, w) <==> s.listingRun == Some(w))
    && (w in s.closed ==> w in s.waiters && (s.waiters[w].phase.Acking? || s.waiters[w].phase.Acked?))
    && (w in s.waiters ==>
          var since := s.waiters[w].since;
          && since <= s.now
          && match s.waiters[w].phase
             case Entering => s.now == since
             case Running(limit) => limit == since + budget && s.now <= limit
             case Joined(run) =>
               && run in s.waiters && s.waiters[run].since <= since && s.now <= s.waiters[run].since + budget
               && (Leads(s, run) || s.waiters[run].phase.Closing? || run in s.closed)
             case Acked(at) => at <= since + budget
             case _ => s.now <= since + budget)
  }

  ghost predicate Valid(s: Daemon, maxBlockMS: nat) {
    forall w: nat :: WaiterOk(s, Budget(maxBlockMS), w)
  }

  lemma StepValid(s: Daemon, maxBlockMS: nat, step: Step)
    requires Valid(s, maxBlockMS)
    ensures Valid(After(s, maxBlockMS, step), maxBlockMS)
  {
    forall w: nat ensures WaiterOk(After(s, maxBlockMS, step), Budget(maxBlockMS), w) {
      StepWaiter(s, maxBlockMS, step, w);
    }
  }

  lemma StepWaiter(s: Daemon, maxBlockMS: nat, step: Step, w: nat)
    requires Valid(s, maxBlockMS)
    ensures WaiterOk(After(s, maxBlockMS, step), Budget(maxBlockMS), w)
  {
    hide Budget;
    var budget, s' := Budget(maxBlockMS), After(s, maxBlockMS, step);
    assert WaiterOk(s, budget, w);
    if s.listingRun.Some? { assert WaiterOk(s, budget, s.listingRun.value); }
    if w in s.waiters && s.waiters[w].phase.Joined? { assert WaiterOk(s, budget, s.waiters[w].phase.run); }
    if step.Tick? {
      assert w in s.waiters && Due(s, w) ==> s' == s;
      assert w in s.waiters && s.waiters[w].phase.Joined? && Due(s, s.waiters[w].phase.run) ==> s' == s;
    } else {
      assert WaiterOk(s, budget, step.w);
    }
  }

  lemma {:induction false} RunValid(maxBlockMS: nat, steps: seq<Step>)
    ensures Valid(AfterAll(IDLE, maxBlockMS, steps), maxBlockMS)
  {
    if steps != [] {
      RunValid(maxBlockMS, steps[..|steps| - 1]);
      StepValid(AfterAll(IDLE, maxBlockMS, steps[..|steps| - 1]), maxBlockMS, steps[|steps| - 1]);
    }
  }

  // ----- the clock is never held back for good

  /** What is left of a listing's own way to its acknowledgement. */
  function StepsLeft(phase: Phase): nat {
    match phase
    case Entering => 5
    case Running(_) => 4
    case Ending => 3
    case Closing => 2
    case Joined(_) => 2
    case Acking => 1
    case Acked(_) => 0
  }

  /** The listing's own next step. */
  function Next(s: Daemon, w: nat): Step
    requires w in s.waiters
  {
    match s.waiters[w].phase
    case Entering => Enter(w)
    case Running(_) => Finish(w)
    case Ending => Clear(w)
    case Closing => CloseDone(w)
    case Joined(_) => Wake(w)
    case Acking => Ack(w)
    case Acked(_) => Ack(w)
  }

  /** Nothing but this listing moved, and it is nearer to its acknowledgement. */
  predicate Nearer(s: Daemon, s': Daemon, w: nat)
    requires w in s.waiters
  {
    && s'.waiters.Keys == s.waiters.Keys && s'.now == s.now
    && StepsLeft(s'.waiters[w].phase) < StepsLeft(s.waiters[w].phase)
    && forall v | v in s.waiters && v != w :: s'.waiters[v] == s.waiters[v]
  }

  /** A listing that holds back the clock can take its next step, and that brings it nearer
  to its acknowledgement; so can every other one, unless it has been acknowledged or waits
  for a refresh, and then the refresh's own listing is there and can. */
  lemma NeverStuck(s: Daemon, maxBlockMS: nat, w: nat)
    requires Valid(s, maxBlockMS) && w in s.waiters
    ensures Due(s, w) ==> Nearer(s, After(s, maxBlockMS, Next(s, w)), w)
    ensures !Due(s, w) ==> match s.waiters[w].phase
      case Acked(_) => true
      case Joined(run) => run in s.waiters && Nearer(s, After(s, maxBlockMS, Next(s, run)), run)
      case _ => Nearer(s, After(s, maxBlockMS, Next(s, w)), w)
  {
    assert WaiterOk(s, Budget(maxBlockMS), w);
  }

  /** All the steps that the listings still have before them. */
  function Work(s: Daemon): set<(nat, nat)> {
    set w, k | w in s.waiters && k in Below(StepsLeft(s.waiters[w].phase)) :: (w, k)
  }

  function Below(n: nat): (ks: set<nat>)
    ensures forall k: nat :: k in ks <==> k < n
  {
    if n == 0 then {} else Below(n - 1) + {n - 1}
  }

  lemma LessWork(s: Daemon, s': Daemon, w: nat)
    requires w in s.waiters && Nearer(s, s', w)
    ensures Work(s') < Work(s)
  {
    var k := StepsLeft(s'.waiters[w].phase);
    assert (w, k) in Work(s) && (w, k) !in Work(s');
  }

  function Later(s: Daemon, maxBlockMS: nat, steps: seq<Step>): Daemon
    decreases |steps|
  {
    if steps == [] then s else Later(After(s, maxBlockMS, steps[0]), maxBlockMS, steps[1..])
  }

  /** From every state that a run can reach, the listings alone can bring about one in which
  the clock moves on, and they take no time for it. */
  lemma {:induction false} ClockMovesOn(s: Daemon, maxBlockMS: nat) returns (steps: seq<Step>)
    requires Valid(s, maxBlockMS)
    ensures Later(s, maxBlockMS, steps).now == s.now
    ensures After(Later(s, maxBlockMS, steps), maxBlockMS, Tick).now == s.now + 1
    decreases Work(s)
  {
    if w :| w in s.waiters && Due(s, w) {
      var s' := After(s, maxBlockMS, Next(s, w));
      NeverStuck(s, maxBlockMS, w);
      LessWork(s, s', w);
      StepValid(s, maxBlockMS, Next(s, w));
      var rest := ClockMovesOn(s', maxBlockMS);
      steps := [Next(s, w)] + rest;
      assert steps[1..] == rest;
    } else {
      steps := [];
    }
  }

  /** When a listing was acknowledged, or how late it is by now. */
  function End(s: Daemon, w: nat): nat
    requires w in s.waiters
  {
    if s.waiters[w].phase.Acked? then s.waiters[w].phase.at else s.now
  }

  /** Over every interleaving: at most one refresh runs at a time, and every listing, whether
  it leads or has joined another's refresh, is acknowledged within nine tenths of the configured
  hold, so strictly inside it as long as the question took less than the rest to arrive. */
  lemma ListingsAnsweredInTime(maxBlockMS: nat, steps: seq<Step>, delay: nat)
    requires 0 < maxBlockMS && delay * 10 < maxBlockMS * MILLISECOND
    ensures var s := AfterAll(IDLE, maxBlockMS, steps);
      && (forall v: nat, w: nat :: Leads(s, v) && Leads(s, w) ==> v == w)
      && (forall w | w in s.waiters ::
            && 10 * (End(s, w) - s.waiters[w].since) <= 9 * maxBlockMS * MILLISECOND
            && End(s, w) + delay < s.waiters[w].since + maxBlockMS * MILLISECOND)
  {
    RunValid(maxBlockMS, steps);
    var s := AfterAll(IDLE, maxBlockMS, steps);
    forall v: nat, w: nat | Leads(s, v) && Leads(s, w) ensures v == w {
      assert WaiterOk(s, Budget(maxBlockMS), v) && WaiterOk(s, Budget(maxBlockMS), w);
    }
    forall w | w in s.waiters
      ensures 10 * (End(s, w) - s.waiters[w].since) <= 9 * maxBlockMS * MILLISECOND
      ensures End(s, w) + delay < s.waiters[w].since + maxBlockMS * MILLISECOND
    {
      assert WaiterOk(s, Budget(maxBlockMS), w);
      assert 10 * Budget(maxBlockMS) == 9 * maxBlockMS * MILLISECOND;
    }
  }

  // ----- the gate's side of it

  /** What the configuration makes of `max_block_ms`. */
  function Configured(maxBlockMS: int): nat {
    if maxBlockMS < 1 || maxBlockMS > 3000 then 2000 else maxBlockMS
  }

  /** How long the gate holds a listing for a client that has registered with this value. */
  function Hold(gate: GateSteps.Gate, maxBlockMS: int): nat { GateSteps.Clamp(gate, maxBlockMS) * MILLISECOND }

  /** The gate cuts a hold that it finds too long, the daemon's budget does not follow: a daemon
  that runs into its budget is in time for its own hold if and only if the value is at most 3333. */
  lemma BudgetInsideHoldIff(gate: GateSteps.Gate, maxBlockMS: nat)
    requires maxBlockMS > 0
    ensures Budget(maxBlockMS) < Hold(gate, maxBlockMS) <==> maxBlockMS <= 3333
  {
    assert 10 * Budget(maxBlockMS) == 9 * maxBlockMS * MILLISECOND;
  }

  /** Whatever was configured, every listing is acknowledged within nine tenths of the time that
  the gate holds it for this daemon, over every interleaving. */
  lemma AnsweredInsideTheHold(gate: GateSteps.Gate, maxBlockMS: int, steps: seq<Step>, delay: nat)
    requires delay * 10 < Hold(gate, Configured(maxBlockMS))
    ensures var s, hold := AfterAll(IDLE, Configured(maxBlockMS), steps), Hold(gate, Configured(maxBlockMS));
      forall w | w in s.waiters ::
        10 * (End(s, w) - s.waiters[w].since) <= 9 * hold && End(s, w) + delay < s.waiters[w].since + hold
  {
    ListingsAnsweredInTime(Configured(maxBlockMS), steps, delay);
  }
}
