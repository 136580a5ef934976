/**
 * The live proposal list: one row per ranked proposal, the first marked as the winner,
 * and for a row with an explanation a "why" panel comparing it with one other row.
 */
module ProposalStream {
  import opened Wrappers
  import opened WebTypes

  /** The component renders something unless it is idle with nothing to show. */
  function ShouldRender(isLoading: bool, proposals: seq<UiProposal>): (r: bool)
    ensures !r <==> !isLoading && |proposals| == 0
  {
    !(!isLoading && |proposals| == 0)
  }

  /** The row a row is compared with: the runner-up for the winner, the winner for every other row. */
  function PeerIndex(idx: nat, n: nat): (r: Option<nat>)
    requires idx < n
    ensures r.Some? ==> r.value < n && r.value != idx
    ensures r.None? <==> n == 1
    ensures idx > 0 ==> r == Some(0)
    ensures idx == 0 && n > 1 ==> r == Some(1)
  {
    var p := if idx == 0 then 1 else 0;
    if p < n then Some(p) else None
  }

  /** The figures of row `idx`'s panel, which is only shown for a row that has an explanation. */
  function RowFigures(proposals: seq<UiProposal>, idx: nat): (f: Figures)
    requires idx < |proposals| && proposals[idx].explanation.Some?
    ensures var peer := PeerIndex(idx, |proposals|);
      (f.scoreDelta.Some? <==> peer.Some?) && (f.costDelta.Some? <==> peer.Some?) &&
      (f.latencyDelta.Some? <==> peer.Some?)
    ensures var peer := PeerIndex(idx, |proposals|); var row := proposals[idx];
      peer.Some? ==>
        f.scoreDelta.value == row.score - proposals[peer.value].score &&
        f.costDelta.value == row.estCostUsd - proposals[peer.value].estCostUsd &&
        f.latencyDelta.value == row.estLatencyMs - proposals[peer.value].estLatencyMs
    ensures var e := proposals[idx].explanation.value;
      (f.budgetHeadroom.Some? <==> BudgetMax(e).Some?) && (f.timeHeadroom.Some? <==> DeadlineMax(e).Some?)
    ensures var e := proposals[idx].explanation.value; var row := proposals[idx];
      (BudgetMax(e).Some? ==> f.budgetHeadroom.value == BudgetMax(e).value - ExplainedCost(e).GetOr(row.estCostUsd)) &&
      (DeadlineMax(e).Some? ==> f.timeHeadroom.value == DeadlineMax(e).value - ExplainedLatency(e).GetOr(row.estLatencyMs))
  {
    var prop := proposals[idx];
    var e := prop.explanation.value;
    var peerAt := if idx == 0 then 1 else 0;
    var hasPeer := peerAt < |proposals|;
    var scoreDelta := if hasPeer then Some(prop.score - proposals[peerAt].score) else None;
    var costDelta := if hasPeer then Some(prop.estCostUsd - proposals[peerAt].estCostUsd) else None;
    var latDelta := if hasPeer then Some(prop.estLatencyMs - proposals[peerAt].estLatencyMs) else None;
    var budgetMax := BudgetMax(e);
    var deadlineMs := DeadlineMax(e);
    var cost := ExplainedCost(e).GetOr(prop.estCostUsd);
    var latency := ExplainedLatency(e).GetOr(prop.estLatencyMs);
    var budgetHeadroom := if budgetMax.Some? then Some(budgetMax.value - cost) else None;
    var timeHeadroom := if deadlineMs.Some? then Some(deadlineMs.value - latency) else None;
    Figures(scoreDelta, costDelta, latDelta, budgetHeadroom, timeHeadroom)
  }

  /**
   * Every comparison involves the row marked as the winner: a row that is not flagged is
   * compared with a flagged one, and the flagged row with the one right after it.
   */
  lemma ComparisonsMeetTheWinner(proposals: seq<UiProposal>, idx: nat)
    requires idx < |proposals| && |proposals| > 1
    ensures var flags := WinnerFlags(proposals); var peer := PeerIndex(idx, |proposals|);
      peer.Some? && (flags[idx] || flags[peer.value]) && (flags[idx] ==> peer.value == idx + 1)
  {
    var flags := WinnerFlags(proposals);
    assert flags[0];
  }

  /** The winner's and the runner-up's panels show the same deltas with opposite signs. */
  lemma WinnerAndRunnerUpOpposite(proposals: seq<UiProposal>)
    requires |proposals| >= 2
    requires proposals[0].explanation.Some? && proposals[1].explanation.Some?
    ensures RowFigures(proposals, 0).scoreDelta.value == -RowFigures(proposals, 1).scoreDelta.value
    ensures RowFigures(proposals, 0).costDelta.value == -RowFigures(proposals, 1).costDelta.value
    ensures RowFigures(proposals, 0).latencyDelta.value == -RowFigures(proposals, 1).latencyDelta.value
  {
  }

  /** Headroom is kept signed: a row over its budget shows a negative headroom rather than none. */
  lemma OverBudgetShowsNegativeHeadroom(proposals: seq<UiProposal>, idx: nat)
    requires idx < |proposals| && proposals[idx].explanation.Some?
    requires var e := proposals[idx].explanation.value;
      BudgetMax(e).Some? && ExplainedCost(e).GetOr(proposals[idx].estCostUsd) > BudgetMax(e).value
    ensures RowFigures(proposals, idx).budgetHeadroom.Some? && RowFigures(proposals, idx).budgetHeadroom.value < 0.0
  {
  }

  /** `setOpenIdx(openIdx === idx ? null : idx)`. */
  function Toggle(open: Option<nat>, idx: nat): (r: Option<nat>)
    ensures open == Some(idx) ==> r.None?
    ensures open != Some(idx) ==> r == Some(idx)
  {
    if open == Some(idx) then None else Some(idx)
  }

  /** Clicking the same row twice leaves the panels as they were, unless it was a switch from another row. */
  lemma ToggleTwice(open: Option<nat>, idx: nat)
    ensures Toggle(Toggle(open, idx), idx) == if open == Some(idx) then Some(idx) else None
  {
  }

  /** The component's single piece of state: which row's panel is open, if any. */
  class StreamView {
    var openIdx: Option<nat>

    constructor ()
      ensures openIdx.None?
    {
      openIdx := None;
    }

    /** Whether row `idx` shows its panel: it is the open row and it has an explanation. */
    function PanelShown(proposals: seq<UiProposal>, idx: nat): bool
      reads this
    {
      openIdx == Some(idx) && idx < |proposals| && proposals[idx].explanation.Some?
    }

    /** The "Why?" button of row `idx`: close that row's panel if open, otherwise open it instead of any other. */
    method ClickWhy(idx: nat)
      modifies this
      ensures openIdx == Toggle(old(openIdx), idx)
      ensures old(openIdx) == Some(idx) ==> openIdx.None?
      ensures old(openIdx) != Some(idx) ==> openIdx == Some(idx)
    {
      openIdx := if openIdx == Some(idx) then None else Some(idx);
    }

    /** At most one panel is shown at a time. */
    lemma AtMostOnePanel(proposals: seq<UiProposal>, i: nat, j: nat)
      requires PanelShown(proposals, i) && PanelShown(proposals, j)
      ensures i == j
    {
    }
  }
}
