/**
  Page arithmetic of the leaderboard client: the pager's page count, derived
  from the `playerCount` event, and the offset requested when a page is clicked.
  Both formulas use the literal page size 100.
 */
module Paging {
  import opened PlayerRecords

  /** Rows per page (`perPage` in the row state, and the literal 100 in both formulas). */
  const PerPage: nat := 100

  /** `Math.ceil(playerCount / 100)`: the fewest pages of 100 that hold every player. */
  function PageCount(playerCount: nat): (r: nat)
    ensures r * PerPage >= playerCount
    ensures r > 0 ==> (r - 1) * PerPage < playerCount
  {
    (playerCount + PerPage - 1) / PerPage
  }

  /** `Math.ceil(selected * 100)`: the offset of page `selected`, a whole number of pages. */
  function PageOffset(selected: nat): (r: nat)
    ensures r % PerPage == 0 && r / PerPage == selected
  {
    selected * PerPage
  }

  /** The pager offers page `s` exactly when that page starts at an existing player. */
  lemma PageOffered(playerCount: nat, s: nat)
    ensures s < PageCount(playerCount) <==> PageOffset(s) < playerCount
  {
  }

  /** The rows fetched for a clicked page `s` are ranked `100*s + 1, 100*s + 2, ...`. */
  lemma ClickedPageRanks(p: Payload, s: nat)
    requires WellFormed(p.players) && Normalize(p, PageOffset(s)).Ok?
    ensures forall k :: 0 <= k < |Normalize(p, PageOffset(s)).value| ==>
              Normalize(p, PageOffset(s)).value[k].rank == PerPage * s + 1 + k
  {
    BuildRows(Pairs(p.players), p.playersInfo, PageOffset(s) + 1);
  }
}
