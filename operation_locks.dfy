/**
  The operation locks of the leaderboard client. Each of the three long-running
  operations (reset, weekly simulation, prize-pool distribution) has a
  `{disabled, stopped}` record: `disabled` greys out its button, `stopped == false`
  shows the "please wait" label. Every transition of the client overwrites a few
  of these six booleans; here each is a function on the three records.
 */
module OperationLocks {

  datatype OpState = OpState(disabled: bool, stopped: bool)

  datatype Op = Reset | Simulation | Distribution

  /** The `reset`, `simulation` and `distribution` records. */
  datatype Controls = Controls(reset: OpState, simulation: OpState, distribution: OpState) {
    function Get(op: Op): OpState {
      match op
      case Reset => reset
      case Simulation => simulation
      case Distribution => distribution
    }
  }

  /** Each record's initial value, `{disabled: false, stopped: true}`. */
  const Idle := OpState(false, true)

  const Initial := Controls(Idle, Idle, Idle)

  predicate AllDisabled(c: Controls) {
    c.reset.disabled && c.simulation.disabled && c.distribution.disabled
  }

  predicate AllEnabled(c: Controls) {
    !c.reset.disabled && !c.simulation.disabled && !c.distribution.disabled
  }

  predicate Running(c: Controls, op: Op) {
    !c.Get(op).stopped
  }

  predicate SameStopped(c: Controls, d: Controls, op: Op) {
    c.Get(op).stopped == d.Get(op).stopped
  }

  /** The first statement of `resetLeaderboard`: only the reset record changes. */
  function ResetStarted(c: Controls): Controls {
    c.(reset := OpState(true, false))
  }

  /** The lock part of `resetLeaderboardData`, run when the backend reports success. */
  function ResetSucceeded(c: Controls): Controls {
    Controls(OpState(true, true), c.simulation.(disabled := true), c.distribution.(disabled := true))
  }

  function SimulationStarted(c: Controls): Controls {
    Controls(c.reset.(disabled := true), OpState(true, false), c.distribution.(disabled := true))
  }

  function SimulationStopped(c: Controls): Controls {
    Controls(c.reset.(disabled := false), OpState(false, true), c.distribution.(disabled := false))
  }

  function DistributionStarted(c: Controls): Controls {
    Controls(c.reset.(disabled := true), c.simulation.(disabled := true), OpState(true, false))
  }

  function DistributionStopped(c: Controls): Controls {
    Controls(c.reset.(disabled := true), c.simulation.(disabled := true), OpState(true, true))
  }

  /** The tail of `setPlayerData`: non-empty rows re-enable all three buttons. */
  function RowsArrived(c: Controls, rowCount: nat): Controls {
    if rowCount > 0 then
      Controls(c.reset.(disabled := false), c.simulation.(disabled := false), c.distribution.(disabled := false))
    else c
  }

  /** `simulateHandler`: only day 7 ends the simulation. */
  function SimulateDay(c: Controls, day: int): Controls {
    if day == 7 then SimulationStopped(c) else c
  }

  /** Starting a simulation or a distribution disables all three buttons and marks it running; no other label changes. */
  lemma StartLocksAll(c: Controls)
    ensures var d := SimulationStarted(c);
            AllDisabled(d) && Running(d, Simulation) && SameStopped(c, d, Reset) && SameStopped(c, d, Distribution)
    ensures var d := DistributionStarted(c);
            AllDisabled(d) && Running(d, Distribution) && SameStopped(c, d, Reset) && SameStopped(c, d, Simulation)
  {
  }

  /** Starting a reset disables only the reset button and leaves the other two records as they were. */
  lemma ResetStartTouchesOnlyReset(c: Controls)
    ensures var d := ResetStarted(c);
            d.reset == OpState(true, false) && d.simulation == c.simulation && d.distribution == c.distribution
  {
  }

  /**
    Hence the three records do not keep "at most one operation running": from the
    initial state, a reset followed by a simulation click leaves both running.
   */
  lemma ResetAndSimulationCanRunTogether()
    ensures !ResetStarted(Initial).simulation.disabled
    ensures var d := SimulationStarted(ResetStarted(Initial));
            Running(d, Reset) && Running(d, Simulation)
  {
  }

  /** The end of a simulation enables all three buttons and clears only its own label. */
  lemma SimulationStopReleases(c: Controls)
    ensures var d := SimulationStopped(c);
            AllEnabled(d) && !Running(d, Simulation) && SameStopped(c, d, Reset) && SameStopped(c, d, Distribution)
  {
  }

  /** The end of a distribution clears its label but leaves every button disabled. */
  lemma DistributionStopKeepsLocked(c: Controls)
    ensures var d := DistributionStopped(c);
            AllDisabled(d) && !Running(d, Distribution) && SameStopped(c, d, Reset) && SameStopped(c, d, Simulation)
  {
  }

  /** A successful reset leaves every button disabled, reset stopped, the other labels untouched. */
  lemma ResetSuccessLocks(c: Controls)
    ensures var d := ResetSucceeded(c);
            AllDisabled(d) && !Running(d, Reset) && SameStopped(c, d, Simulation) && SameStopped(c, d, Distribution)
  {
  }

  /** Arriving rows never change a label; they enable all buttons exactly when there is at least one row. */
  lemma RowsArrivedEnables(c: Controls, rowCount: nat)
    ensures var d := RowsArrived(c, rowCount);
            SameStopped(c, d, Reset) && SameStopped(c, d, Simulation) && SameStopped(c, d, Distribution)
    ensures rowCount > 0 ==> AllEnabled(RowsArrived(c, rowCount))
    ensures rowCount == 0 ==> RowsArrived(c, rowCount) == c
  {
  }

  /** A simulate event changes the records exactly when it is day 7 of a running simulation. */
  lemma SimulateDayEndsOnlyOnDay7(c: Controls, day: int)
    requires Running(c, Simulation)
    ensures SimulateDay(c, day) != c <==> day == 7
    ensures Running(SimulateDay(c, day), Simulation) <==> day != 7
  {
  }

  /**
    The days delivered to one simulation's handler. The handler unsubscribes
    itself on day 7, so later days no longer reach it.
   */
  function DeliverDays(c: Controls, days: seq<int>): Controls
    decreases |days|
  {
    if |days| == 0 then c
    else if days[0] == 7 then SimulateDay(c, days[0])
    else DeliverDays(SimulateDay(c, days[0]), days[1..])
  }

  /** After a simulation is started, it is still running exactly while no day-7 event has been seen. */
  lemma {:induction false} SimulationRunsUntilDay7(c: Controls, days: seq<int>)
    requires Running(c, Simulation)
    ensures Running(DeliverDays(c, days), Simulation) <==> 7 !in days
    decreases |days|
  {
    if |days| > 0 && days[0] != 7 {
      SimulationRunsUntilDay7(c, days[1..]);
      assert days == [days[0]] + days[1..];
    }
  }

  /** A simulation, once started, ends exactly when day 7 is delivered. */
  lemma SimulationWeek(c: Controls, days: seq<int>)
    ensures Running(DeliverDays(SimulationStarted(c), days), Simulation) <==> 7 !in days
  {
    SimulationRunsUntilDay7(SimulationStarted(c), days);
  }

  /** The inputs that drive the records, one per handler of the client. */
  datatype Event =
    | ResetClicked
    | ResetResponded(success: bool)
    | SimulateClicked
    | SimulateEvent(day: int)
    | DistributeClicked
    | PrizePoolResponded
    | RowsReceived(rowCount: nat)

  function Step(c: Controls, e: Event): Controls {
    match e
    case ResetClicked => ResetStarted(c)
    case ResetResponded(success) => if success then ResetSucceeded(c) else c
    case SimulateClicked => SimulationStarted(c)
    case SimulateEvent(day) => SimulateDay(c, day)
    case DistributeClicked => DistributionStarted(c)
    case PrizePoolResponded => DistributionStopped(c)
    case RowsReceived(n) => RowsArrived(c, n)
  }

  function Run(c: Controls, es: seq<Event>): Controls
    decreases |es|
  {
    if |es| == 0 then c else Run(Step(c, es[0]), es[1..])
  }

  /** The operation whose handlers an event belongs to, if any. */
  predicate BelongsTo(e: Event, op: Op) {
    match e
    case ResetClicked => op == Reset
    case ResetResponded(_) => op == Reset
    case SimulateClicked => op == Simulation
    case SimulateEvent(_) => op == Simulation
    case DistributeClicked => op == Distribution
    case PrizePoolResponded => op == Distribution
    case RowsReceived(_) => false
  }

  /** A button's label changes only through its own operation's handlers. */
  lemma {:induction false} LabelChangesOnlyByOwnEvents(c: Controls, es: seq<Event>, op: Op)
    requires forall i :: 0 <= i < |es| ==> !BelongsTo(es[i], op)
    ensures SameStopped(c, Run(c, es), op)
    decreases |es|
  {
    if |es| > 0 {
      LabelChangesOnlyByOwnEvents(Step(c, es[0]), es[1..], op);
    }
  }

  /** Events that enable every button: non-empty rows, and day 7 of a simulation. */
  predicate Unlocks(e: Event) {
    (e.RowsReceived? && e.rowCount > 0) || (e.SimulateEvent? && e.day == 7)
  }

  /** Once every button is disabled, they stay disabled until non-empty rows or day 7 arrive. */
  lemma {:induction false} StaysLockedUntilUnlock(c: Controls, es: seq<Event>)
    requires AllDisabled(c)
    requires forall i :: 0 <= i < |es| ==> !Unlocks(es[i])
    ensures AllDisabled(Run(c, es))
    decreases |es|
  {
    if |es| > 0 {
      StaysLockedUntilUnlock(Step(c, es[0]), es[1..]);
    }
  }

  /**
    The second way out of a finished distribution: a simulation running beside
    it. Simulate, fetch a non-empty page (that button is never disabled), then
    distribute; the prize-pool response locks everything, and if it brings no
    rows the locks stay, until day 7 of the simulation enables all three.
   */
  lemma DistributionUnlockedBySimulationEnd()
    ensures AllDisabled(Run(Initial, [SimulateClicked, RowsReceived(1), DistributeClicked, PrizePoolResponded, RowsReceived(0)]))
    ensures AllEnabled(Run(Initial, [SimulateClicked, RowsReceived(1), DistributeClicked, PrizePoolResponded, RowsReceived(0), SimulateEvent(7)]))
  {
    var c1 := SimulationStarted(Initial);
    var c2 := RowsArrived(c1, 1);
    var c3 := DistributionStarted(c2);
    var c4 := DistributionStopped(c3);
    assert Run(c4, [RowsReceived(0), SimulateEvent(7)]) == Run(c4, [SimulateEvent(7)]);
    assert Run(c3, [PrizePoolResponded, RowsReceived(0)]) == Run(c4, [RowsReceived(0)]);
    assert Run(c3, [PrizePoolResponded, RowsReceived(0), SimulateEvent(7)]) == Run(c4, [RowsReceived(0), SimulateEvent(7)]);
    assert Run(c2, [DistributeClicked, PrizePoolResponded, RowsReceived(0)]) == Run(c3, [PrizePoolResponded, RowsReceived(0)]);
    assert Run(c2, [DistributeClicked, PrizePoolResponded, RowsReceived(0), SimulateEvent(7)])
        == Run(c3, [PrizePoolResponded, RowsReceived(0), SimulateEvent(7)]);
    assert Run(c1, [RowsReceived(1), DistributeClicked, PrizePoolResponded, RowsReceived(0)])
        == Run(c2, [DistributeClicked, PrizePoolResponded, RowsReceived(0)]);
    assert Run(c1, [RowsReceived(1), DistributeClicked, PrizePoolResponded, RowsReceived(0), SimulateEvent(7)])
        == Run(c2, [DistributeClicked, PrizePoolResponded, RowsReceived(0), SimulateEvent(7)]);
  }

  /** Reset, then its success: all locked until rows arrive; non-empty rows then enable all three. */
  lemma ResetCycle(c: Controls, rowCount: nat)
    ensures AllDisabled(Run(c, [ResetClicked, ResetResponded(true)]))
    ensures !Running(Run(c, [ResetClicked, ResetResponded(true)]), Reset)
    ensures AllEnabled(Run(c, [ResetClicked, ResetResponded(true), RowsReceived(rowCount)])) <==> rowCount > 0
  {
    var d := ResetSucceeded(ResetStarted(c));
    var es := [ResetClicked, ResetResponded(true), RowsReceived(rowCount)];
    assert Run(d, [RowsReceived(rowCount)]) == RowsArrived(d, rowCount);
    assert es[1..] == [ResetResponded(true), RowsReceived(rowCount)];
    assert es[1..][1..] == [RowsReceived(rowCount)];
    assert Run(c, es) == Run(d, [RowsReceived(rowCount)]);
    assert Run(c, [ResetClicked, ResetResponded(true)]) == d;
  }
}
