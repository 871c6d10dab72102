/**
 * The stake-amount rules shared by the three stake forms of the game page:
 * the 1000-sat minimum, the submit guard and the clamps applied by the
 * stake buttons and by a balance refresh.
 */
module StakeRules {
  /** The smallest stake, in sats. */
  const MinStake: int := 1000

  /** The guard of every `confirmStake`: a constellation is chosen and the stake lies in `[1000, balance]`. */
  predicate CanSubmitStake(selected: bool, stake: int, balance: int)
    ensures CanSubmitStake(selected, stake, balance) ==> balance >= MinStake && stake > 0
    ensures !selected || balance < MinStake ==> !CanSubmitStake(selected, stake, balance)
  {
    selected && MinStake <= stake && stake <= balance
  }

  /** `stake * factor`, or the balance when that product exceeds it. */
  function ScaledStake(stake: int, factor: int, balance: int): (r: int)
    ensures r <= balance
    ensures stake * factor <= balance ==> r == stake * factor
    ensures stake * factor > balance ==> r == balance
  {
    var newAmount := stake * factor;
    if newAmount <= balance then newAmount else balance
  }

  /** The multiple-of-minimum buttons: `-1` means all of the balance, `m` means `min(1000 * m, balance)`. */
  function MultipleOfMinimum(multiplier: int, balance: int): (r: int)
    ensures r <= balance
    ensures multiplier == -1 ==> r == balance
    ensures multiplier != -1 ==> r <= MinStake * multiplier && (r == MinStake * multiplier || r == balance)
  {
    if multiplier == -1 then balance
    else if MinStake * multiplier < balance then MinStake * multiplier else balance
  }

  /**
   * After a balance refresh a stake above the new balance drops to the
   * balance, or to the minimum when the balance is below it; any other stake
   * stays.
   */
  function RefreshedStake(stake: int, balance: int): (r: int)
    ensures stake <= balance ==> r == stake
    ensures stake > balance ==> r >= MinStake && (r == balance || r == MinStake)
    ensures stake > balance && balance >= MinStake ==> r == balance
  {
    if stake > balance then (if balance >= MinStake then balance else MinStake) else stake
  }

  /** Scaling a submittable stake up by a factor of at least one keeps it submittable. */
  lemma ScalingKeepsSubmittable(stake: int, factor: int, balance: int)
    requires CanSubmitStake(true, stake, balance) && factor >= 1
    ensures CanSubmitStake(true, ScaledStake(stake, factor, balance), balance)
  {
    assert stake * factor >= stake * 1;
  }

  /** A positive multiple of the minimum is submittable exactly when the balance covers the minimum. */
  lemma MultipleSubmittable(multiplier: int, balance: int)
    requires multiplier >= 1 || multiplier == -1
    ensures CanSubmitStake(true, MultipleOfMinimum(multiplier, balance), balance) <==> balance >= MinStake
  {
    if multiplier >= 1 {
      assert MinStake * multiplier >= MinStake;
    }
  }

  /** A stake of at least the minimum is still submittable after a refresh exactly when the new balance covers the minimum. */
  lemma RefreshedStakeSubmittable(stake: int, balance: int)
    requires stake >= MinStake
    ensures CanSubmitStake(true, RefreshedStake(stake, balance), balance) <==> balance >= MinStake
  {
  }
}
