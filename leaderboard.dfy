/**
  The state of the leaderboard component and the handlers that update it.

  The component holds four state records: `rowState` and the `reset`,
  `simulation` and `distribution` locks. Every handler replaces some of them.
  Here they are the fields of `App`, and each handler is a method whose
  postconditions give the new value of every field. Network requests and socket
  events are not performed: their responses are the methods' parameters.
 */
module Leaderboard {
  import opened PlayerRecords
  import opened Paging
  import opened OperationLocks

  /** `{rowData, offset, pageCount, perPage}` */
  datatype RowState = RowState(rowData: seq<PlayerRecord>, offset: nat, pageCount: nat, perPage: nat)

  class App {
    var rowState: RowState
    var reset: OpState
    var simulation: OpState
    var distribution: OpState

    /** The three lock records together. */
    function Locks(): Controls
      reads this
    {
      Controls(reset, simulation, distribution)
    }

    /** The initial state: no rows, offset 0, no pages, every operation idle. */
    constructor ()
      ensures rowState == RowState([], 0, 0, PerPage)
      ensures Locks() == Initial
    {
      rowState := RowState([], 0, 0, PerPage);
      distribution := OpState(false, true);
      simulation := OpState(false, true);
      reset := OpState(false, true);
    }

    /** `playerCountHandler`: only the page count changes. */
    method PlayerCountHandler(playerCount: nat)
      modifies this
      ensures rowState == old(rowState).(pageCount := PageCount(playerCount))
      ensures Locks() == old(Locks())
    {
      rowState := rowState.(pageCount := PageCount(playerCount));
    }

    /** Empties the grid after a successful reset and locks every button. */
    method ResetLeaderboardData()
      modifies this
      ensures rowState == old(rowState).(rowData := [])
      ensures Locks() == OperationLocks.ResetSucceeded(old(Locks()))
    {
      rowState := rowState.(rowData := []);
      reset := reset.(stopped := true, disabled := true);
      distribution := distribution.(disabled := true);
      simulation := simulation.(disabled := true);
    }

    method SimulationStarted()
      modifies this
      ensures rowState == old(rowState)
      ensures Locks() == OperationLocks.SimulationStarted(old(Locks()))
    {
      reset := reset.(disabled := true);
      distribution := distribution.(disabled := true);
      simulation := simulation.(stopped := false, disabled := true);
    }

    method SimulationStopped()
      modifies this
      ensures rowState == old(rowState)
      ensures Locks() == OperationLocks.SimulationStopped(old(Locks()))
    {
      reset := reset.(disabled := false);
      distribution := distribution.(disabled := false);
      simulation := simulation.(stopped := true, disabled := false);
    }

    method DistributionStarted()
      modifies this
      ensures rowState == old(rowState)
      ensures Locks() == OperationLocks.DistributionStarted(old(Locks()))
    {
      reset := reset.(disabled := true);
      distribution := distribution.(stopped := false, disabled := true);
      simulation := simulation.(disabled := true);
    }

    method DistributionStopped()
      modifies this
      ensures rowState == old(rowState)
      ensures Locks() == OperationLocks.DistributionStopped(old(Locks()))
    {
      reset := reset.(disabled := true);
      distribution := distribution.(stopped := true, disabled := true);
      simulation := simulation.(disabled := true);
    }

    /**
      Normalises a response and shows it. A missing `playersInfo` entry aborts
      before any state changes; otherwise the rows are replaced wholesale, and
      non-empty rows enable all three buttons without touching their labels.
     */
    method SetPlayerData(p: Payload, offset: nat) returns (r: Result<seq<PlayerRecord>>)
      requires WellFormed(p.players)
      modifies this
      ensures r == Normalize(p, offset)
      ensures r.Err? ==> rowState == old(rowState) && Locks() == old(Locks())
      ensures r.Ok? ==> rowState == old(rowState).(rowData := r.value)
      ensures r.Ok? ==> Locks() == OperationLocks.RowsArrived(old(Locks()), |r.value|)
    {
      r := NormalizeRows(p, offset);
      if r.Err? {
        return;
      }
      var data := r.value;
      rowState := rowState.(rowData := data);
      if |data| > 0 {
        distribution := distribution.(disabled := false);
        reset := reset.(disabled := false);
        simulation := simulation.(disabled := false);
      }
    }

    /**
      A click on page `selected` shows that page's response, ranked from
      `100 * selected + 1`. The `offset` field of the row state is not updated.
     */
    method HandlePageClick(selected: nat, response: Payload) returns (r: Result<seq<PlayerRecord>>)
      requires WellFormed(response.players)
      modifies this
      ensures r == Normalize(response, PageOffset(selected))
      ensures r.Ok? ==> rowState == old(rowState).(rowData := r.value)
      ensures r.Ok? ==> forall k :: 0 <= k < |r.value| ==> r.value[k].rank == PerPage * selected + 1 + k
      ensures r.Err? ==> rowState == old(rowState) && Locks() == old(Locks())
      ensures r.Ok? ==> Locks() == OperationLocks.RowsArrived(old(Locks()), |r.value|)
    {
      var offset := PageOffset(selected);
      r := SetPlayerData(response, offset);
      if r.Ok? {
        ClickedPageRanks(response, selected);
      }
    }

    /** The synchronous first step of `resetLeaderboard`: only the reset record changes. */
    method ResetLeaderboard()
      modifies this
      ensures rowState == old(rowState)
      ensures Locks() == OperationLocks.ResetStarted(old(Locks()))
    {
      reset := reset.(stopped := false, disabled := true);
    }

    /** The reset response: success empties and locks; failure (a popup) changes nothing. */
    method ResetResponded(success: bool)
      modifies this
      ensures success ==> rowState == old(rowState).(rowData := [])
      ensures !success ==> rowState == old(rowState)
      ensures Locks() == if success then OperationLocks.ResetSucceeded(old(Locks())) else old(Locks())
    {
      if success {
        ResetLeaderboardData();
      }
    }

    /** `simulateHandler`: day 7 ends the simulation; other days change nothing. */
    method SimulateHandler(day: int)
      modifies this
      ensures rowState == old(rowState)
      ensures Locks() == SimulateDay(old(Locks()), day)
    {
      if day == 7 {
        SimulationStopped();
      }
    }

    /**
      The prize-pool response: the distribution stops, leaving every button
      disabled, and the response is shown from rank 1; only non-empty rows
      enable the buttons again.
     */
    method PrizePoolResponded(response: Payload) returns (r: Result<seq<PlayerRecord>>)
      requires WellFormed(response.players)
      modifies this
      ensures r == Normalize(response, 0)
      ensures r.Ok? ==> rowState == old(rowState).(rowData := r.value)
      ensures r.Ok? ==> Locks() == OperationLocks.RowsArrived(OperationLocks.DistributionStopped(old(Locks())), |r.value|)
      ensures r.Err? ==> rowState == old(rowState)
      ensures r.Err? ==> Locks() == OperationLocks.DistributionStopped(old(Locks()))
    {
      DistributionStopped();
      r := SetPlayerData(response, 0);
    }
  }
}
