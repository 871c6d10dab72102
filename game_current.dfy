/**
 * The current-round panel: choosing a constellation opens the stake drawer,
 * closing it hides the drawer at once and forgets the choice when a short
 * timer fires, and the stake buttons scale the amount within the balance.
 */
module GameCurrent {
  import opened Wrappers
  import opened StakeRules

  class GameCurrentComponent {
    var walletConnected: bool
    var feeBalance: int
    var isDrawerOpen: bool
    /** The id of the constellation the drawer is for. */
    var selectedConstellation: Option<int>
    var stakeAmount: int
    var showAllocationSummary: bool

    constructor()
      ensures !walletConnected && feeBalance == 15000 && !isDrawerOpen
      ensures selectedConstellation.None? && stakeAmount == MinStake && !showAllocationSummary
    {
      walletConnected := false;
      feeBalance := 15000;
      isDrawerOpen := false;
      selectedConstellation := None;
      stakeAmount := MinStake;
      showAllocationSummary := false;
    }

    method ToggleAllocationSummary()
      modifies this`showAllocationSummary
      ensures showAllocationSummary == !old(showAllocationSummary)
    {
      showAllocationSummary := !showAllocationSummary;
    }

    /** Hides the drawer now; the choice stays until `SelectionClearTimerFired`. */
    method CloseStakeDrawer()
      modifies this`isDrawerOpen
      ensures !isDrawerOpen
    {
      isDrawerOpen := false;
    }

    /**
     * The delayed half of closing. It clears the choice whatever happened in
     * between, so a constellation chosen again before it fires is forgotten
     * while its drawer is open.
     */
    method SelectionClearTimerFired()
      modifies this`selectedConstellation
      ensures selectedConstellation.None?
    {
      selectedConstellation := None;
    }

    method SelectConstellation(id: int)
      modifies this`selectedConstellation, this`isDrawerOpen
      ensures selectedConstellation == Some(id) && isDrawerOpen
    {
      selectedConstellation := Some(id);
      isDrawerOpen := true;
    }

    /** Closes the drawer when the guard holds; the stake and the balance never change here. */
    method ConfirmStake()
      modifies this`isDrawerOpen
      ensures CanSubmitStake(selectedConstellation.Some?, stakeAmount, feeBalance) ==> !isDrawerOpen
      ensures !CanSubmitStake(selectedConstellation.Some?, stakeAmount, feeBalance) ==> isDrawerOpen == old(isDrawerOpen)
    {
      if selectedConstellation.Some? && stakeAmount >= MinStake && stakeAmount <= feeBalance {
        CloseStakeDrawer();
      }
    }

    /** Multiplies the stake by `factor`, capped at the balance. */
    method IncreaseStakeAmount(factor: int)
      modifies this`stakeAmount
      ensures stakeAmount == ScaledStake(old(stakeAmount), factor, feeBalance)
      ensures stakeAmount <= feeBalance
    {
      var newAmount := stakeAmount * factor;
      if newAmount <= feeBalance {
        stakeAmount := newAmount;
      } else {
        stakeAmount := feeBalance;
      }
    }

    method SetMaxStake()
      modifies this`stakeAmount
      ensures stakeAmount == feeBalance
    {
      stakeAmount := feeBalance;
    }
  }

  /** Choosing again within the close delay leaves an open drawer with no choice once the timer fires. */
  method ReselectBeforeTimer(panel: GameCurrentComponent, id: int)
    modifies panel
    ensures panel.isDrawerOpen && panel.selectedConstellation.None?
  {
    panel.CloseStakeDrawer();
    panel.SelectConstellation(id);
    panel.SelectionClearTimerFired();
  }
}
