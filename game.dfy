/**
 * The game page: the wallet flag, the fee balance, the stake drawer, the
 * per-constellation stakes (kept in an array that the page updates in place),
 * the user's allocation summary and the block countdown.
 */
module Game {
  import opened Wrappers
  import opened Decimal
  import opened StakeRules

  /** One constellation card; `yourShare` is the percentage the page shows. */
  datatype Constellation = Constellation(id: int, name: string, yourStake: int, yourShare: real)

  /** One line of the allocation summary. */
  datatype AllocationEntry = AllocationEntry(constellation: string, amount: int)

  const InitialFeeBalance: int := 15000
  const InitialBlocksRemaining: int := 97
  const InitialEstimate: string := "≈ 16h 10m"

  const InitialConstellations: seq<Constellation> := [
    Constellation(1, "Aries", 0, 0.0),
    Constellation(2, "Taurus", 5000, 0.635),
    Constellation(3, "Gemini", 0, 0.0),
    Constellation(4, "Cancer", 0, 0.0),
    Constellation(5, "Leo", 0, 0.0),
    Constellation(6, "Virgo", 0, 0.0),
    Constellation(7, "Libra", 0, 0.0),
    Constellation(8, "Scorpio", 8000, 0.453),
    Constellation(9, "Sagittarius", 0, 0.0),
    Constellation(10, "Capricorn", 0, 0.0),
    Constellation(11, "Aquarius", 0, 0.0),
    Constellation(12, "Pisces", 0, 0.0),
    Constellation(13, "Ophiuchus", 0, 0.0),
    Constellation(14, "Orion", 0, 0.0),
    Constellation(15, "Andromeda", 0, 0.0),
    Constellation(16, "Pegasus", 0, 0.0),
    Constellation(17, "Cassiopeia", 0, 0.0),
    Constellation(18, "Phoenix", 0, 0.0),
    Constellation(19, "Cygnus", 0, 0.0),
    Constellation(20, "Lyra", 0, 0.0),
    Constellation(21, "Draco", 0, 0.0),
    Constellation(22, "Hydra", 0, 0.0),
    Constellation(23, "Crux", 2000, 0.261),
    Constellation(24, "Corona Borealis", 0, 0.0),
    Constellation(25, "Delphinus", 0, 0.0)
  ]

  const InitialAllocations: seq<AllocationEntry> := [
    AllocationEntry("Taurus", 5000),
    AllocationEntry("Scorpio", 8000),
    AllocationEntry("Crux", 2000)
  ]

  // ------------------------------------------------------ allocation summary

  /** The total of the summary's amounts. */
  function Sum(entries: seq<AllocationEntry>): int {
    if entries == [] then 0 else Sum(entries[..|entries| - 1]) + entries[|entries| - 1].amount
  }

  /** No constellation appears on two lines of the summary. */
  predicate DistinctNames(entries: seq<AllocationEntry>) {
    forall i, j :: 0 <= i < j < |entries| ==> entries[i].constellation != entries[j].constellation
  }

  /** `allocations.find(a => a.constellation === name)`, as the index of the first match. */
  function FindEntry(entries: seq<AllocationEntry>, name: string): (r: Option<nat>)
    ensures r.Some? ==> r.value < |entries| && entries[r.value].constellation == name
    ensures r.Some? ==> forall k :: 0 <= k < r.value ==> entries[k].constellation != name
    ensures r.None? <==> forall k :: 0 <= k < |entries| ==> entries[k].constellation != name
  {
    if entries == [] then None
    else if entries[0].constellation == name then Some(0)
    else
      match FindEntry(entries[1..], name)
      case None => None
      case Some(k) => Some(k + 1)
  }

  lemma {:induction false} SumAppend(entries: seq<AllocationEntry>, e: AllocationEntry)
    ensures Sum(entries + [e]) == Sum(entries) + e.amount
  {
    assert (entries + [e])[..|entries|] == entries;
  }

  /** Adding to one line's amount adds the same to the total. */
  lemma {:induction false} SumUpdate(entries: seq<AllocationEntry>, k: nat, amount: int)
    requires k < |entries|
    ensures Sum(entries[k := entries[k].(amount := entries[k].amount + amount)]) == Sum(entries) + amount
  {
    var updated := entries[k := entries[k].(amount := entries[k].amount + amount)];
    var n := |entries|;
    if k == n - 1 {
      assert updated[..n - 1] == entries[..n - 1];
    } else {
      SumUpdate(entries[..n - 1], k, amount);
      assert updated[..n - 1] == entries[..n - 1][k := entries[k].(amount := entries[k].amount + amount)];
    }
  }

  /**
   * The summary after staking `amount` on `name`: an existing line grows by
   * `amount`, otherwise one line is appended. Either way the total grows by
   * `amount` and no name appears twice.
   */
  function AddToEntries(entries: seq<AllocationEntry>, name: string, amount: int): (r: seq<AllocationEntry>)
    ensures Sum(r) == Sum(entries) + amount
    ensures FindEntry(entries, name).Some? ==> |r| == |entries|
    ensures FindEntry(entries, name).None? ==> r == entries + [AllocationEntry(name, amount)]
    ensures forall k :: 0 <= k < |entries| && entries[k].constellation != name ==> r[k] == entries[k]
    ensures DistinctNames(entries) ==> DistinctNames(r)
  {
    match FindEntry(entries, name)
    case Some(k) =>
      SumUpdate(entries, k, amount);
      entries[k := entries[k].(amount := entries[k].amount + amount)]
    case None =>
      SumAppend(entries, AllocationEntry(name, amount));
      entries + [AllocationEntry(name, amount)]
  }

  /** After staking, the named constellation's line holds its old amount plus `amount` (zero when it had no line). */
  lemma AddToEntriesLine(entries: seq<AllocationEntry>, name: string, amount: int)
    requires DistinctNames(entries)
    ensures var r := AddToEntries(entries, name, amount);
      var before := match FindEntry(entries, name) case Some(k) => entries[k].amount case None => 0;
      match FindEntry(r, name)
      case None => false
      case Some(j) => r[j].amount == before + amount
  {
    var r := AddToEntries(entries, name, amount);
    match FindEntry(entries, name)
    case Some(k) =>
      assert r[k].constellation == name;
    case None =>
      assert r[|entries|].constellation == name;
  }

  // -------------------------------------------------------------- countdown

  /** JavaScript's `%`, whose result takes the sign of the dividend. */
  function JsRem(a: int, n: int): (r: int)
    requires n > 0
    ensures a >= 0 ==> 0 <= r < n
    ensures a < 0 ==> -n < r <= 0
    ensures (a - r) % n == 0
  {
    if a >= 0 then RemCongruent(a, n); a % n else RemCongruent(-a, n); -((-a) % n)
  }

  /** Taking away the remainder leaves a multiple of `n`. */
  lemma RemCongruent(a: int, n: int)
    requires n > 0
    ensures (a - a % n) % n == 0 && (-a + a % n) % n == 0
  {
    var q := a / n;
    assert a - a % n == n * q;
    assert -a + a % n == n * -q;
    MultipleRem(q, n);
    MultipleRem(-q, n);
  }

  /** A multiple of `n` leaves no remainder. */
  lemma MultipleRem(k: int, n: int)
    requires n > 0
    ensures (n * k) % n == 0
  {
    var d := k - (n * k) / n;
    assert n * d == (n * k) % n;
    if d >= 1 {
      assert n * d == n + n * (d - 1);
    } else if d <= -1 {
      assert n * d == -n - n * (-d - 1);
    }
  }

  /**
   * Hours and minutes left at ten minutes a block: `⌊b/6⌋` hours and
   * `(b % 6) * 10` minutes.
   */
  function TimeParts(blocks: int): (hm: (int, int))
    ensures 6 * hm.0 <= blocks < 6 * hm.0 + 6
    ensures -60 < hm.1 < 60 && hm.1 % 10 == 0
    ensures blocks >= 0 ==> hm.1 >= 0
  {
    (blocks / 6, JsRem(blocks, 6) * 10)
  }

  /** For a countdown that is not negative the parts are the time at ten minutes a block, minutes below an hour. */
  lemma TimePartsMeaning(blocks: int)
    requires blocks >= 0
    ensures var (hours, minutes) := TimeParts(blocks);
      && hours * 60 + minutes == blocks * 10
      && 0 <= minutes < 60 && minutes % 10 == 0
      && hours >= 0
  {
    var q, r := blocks / 6, blocks % 6;
    assert blocks == 6 * q + r;
  }

  /** The text `≈ <h>h <m>m` the page shows. */
  function EstimatedTime(blocks: int): (s: string)
    ensures |s| > 2 && s[..2] == "≈ " && s[|s| - 1] == 'm'
  {
    var (hours, minutes) := TimeParts(blocks);
    "≈ " + IntToString(hours) + "h " + IntToString(minutes) + "m"
  }

  /**
   * For a countdown that is not negative, the text reads back: `parseInt`
   * after the `≈ ` gives the hours, and after the `h ` the minutes.
   */
  lemma EstimatedTimeReadsBack(blocks: int)
    requires blocks >= 0
    ensures var (hours, minutes) := TimeParts(blocks);
      var s := EstimatedTime(blocks);
      && s[..2] == "≈ "
      && ParseUnsigned(s[2..]) == Some(hours)
      && ParseUnsigned(s[2 + |IntToString(hours)| + 2..]) == Some(minutes)
  {
    TimePartsMeaning(blocks);
    var (hours, minutes) := TimeParts(blocks);
    var h, m := NatToString(hours), NatToString(minutes);
    var s := EstimatedTime(blocks);
    assert s == "≈ " + h + "h " + m + "m";
    assert s[2..] == h + ("h " + m + "m");
    assert s[2 + |h| + 2..] == m + "m";
    ParseUnsignedPrefix(h, "h " + m + "m");
    ParseUnsignedPrefix(m, "m");
    NatToStringValue(hours);
    NatToStringValue(minutes);
  }

  /** The page's initial estimate is the one its initial countdown gives. */
  lemma InitialEstimateAgrees()
    ensures EstimatedTime(InitialBlocksRemaining) == InitialEstimate
  {
    assert TimeParts(97) == (16, 10);
    assert NatToString(16) == "16" by {
      assert NatToString(1) == "1";
    }
    assert NatToString(10) == "10" by {
      assert NatToString(1) == "1";
    }
  }

  /** The page's initial summary: 15000 sats over three distinct constellations. */
  lemma InitialSummaryValid()
    ensures Sum(InitialAllocations) == 15000 && |InitialAllocations| == 3
    ensures DistinctNames(InitialAllocations)
  {
    var taurus, scorpio, crux := InitialAllocations[0], InitialAllocations[1], InitialAllocations[2];
    SumAppend([], taurus);
    SumAppend([taurus], scorpio);
    SumAppend([taurus, scorpio], crux);
    assert [] + [taurus] == [taurus];
    assert [taurus] + [scorpio] == [taurus, scorpio];
    assert [taurus, scorpio] + [crux] == InitialAllocations;
  }

  /** Every card with no stake and no share: what a disconnect leaves. */
  function Unstaked(cs: seq<Constellation>): (r: seq<Constellation>)
    ensures |r| == |cs|
    ensures forall i :: 0 <= i < |cs| ==> r[i].id == cs[i].id && r[i].name == cs[i].name
    ensures forall i :: 0 <= i < |cs| ==> r[i].yourStake == 0 && r[i].yourShare == 0.0
  {
    seq(|cs|, i requires 0 <= i < |cs| => cs[i].(yourStake := 0, yourShare := 0.0))
  }

  // ------------------------------------------------------------------- page

  class GameComponent {
    var loadingPage: bool
    var walletConnected: bool
    var feeBalance: int
    var blocksRemaining: int
    var estimatedTimeRemaining: string
    var isDrawerOpen: bool
    /** Index into `constellations` of the card the drawer is for. */
    var selectedConstellation: Option<nat>
    var stakeAmount: int
    var showAllocationSummary: bool
    const constellations: array<Constellation>
    /** The user allocation summary: total, number of lines, and the lines. */
    var totalStaked: int
    var constellationCount: int
    var allocations: seq<AllocationEntry>

    ghost predicate Valid()
      reads this
    {
      && totalStaked == Sum(allocations)
      && constellationCount == |allocations|
      && DistinctNames(allocations)
      && blocksRemaining >= 0
      && (selectedConstellation.Some? ==> selectedConstellation.value < constellations.Length)
    }

    constructor()
      ensures Valid() && fresh(constellations)
      ensures constellations[..] == InitialConstellations
      ensures !loadingPage && !walletConnected && feeBalance == InitialFeeBalance && stakeAmount == MinStake
      ensures blocksRemaining == InitialBlocksRemaining && estimatedTimeRemaining == EstimatedTime(blocksRemaining)
      ensures !isDrawerOpen && selectedConstellation.None? && !showAllocationSummary
      ensures allocations == InitialAllocations && totalStaked == 15000 && constellationCount == 3
    {
      loadingPage := false;
      walletConnected := false;
      feeBalance := InitialFeeBalance;
      blocksRemaining := InitialBlocksRemaining;
      estimatedTimeRemaining := InitialEstimate;
      isDrawerOpen := false;
      selectedConstellation := None;
      stakeAmount := MinStake;
      showAllocationSummary := false;
      constellations := new Constellation[|InitialConstellations|](i requires 0 <= i < |InitialConstellations| => InitialConstellations[i]);
      totalStaked := 15000;
      constellationCount := 3;
      allocations := InitialAllocations;
      new;
      InitialEstimateAgrees();
      InitialSummaryValid();
    }

    /** Page start: the page shows as loading until the 1.5-second timer fires. */
    method NgOnInit()
      modifies this`loadingPage
      ensures loadingPage
    {
      loadingPage := true;
    }

    /** The start-up timer: loading ends and the wallet counts as connected. */
    method LoadingTimerFired()
      requires Valid()
      modifies this`loadingPage, this`walletConnected
      ensures Valid()
      ensures !loadingPage && walletConnected
    {
      loadingPage := false;
      walletConnected := true;
    }

    /** Flips the wallet flag; disconnecting clears the user's stakes. */
    method ToggleWalletConnection()
      requires Valid()
      modifies this`walletConnected, this`totalStaked, this`constellationCount, this`allocations, constellations
      ensures Valid()
      ensures walletConnected == !old(walletConnected)
      ensures !walletConnected ==> constellations[..] == Unstaked(old(constellations[..]))
      ensures !walletConnected ==> allocations == [] && totalStaked == 0 && constellationCount == 0
      ensures walletConnected ==> constellations[..] == old(constellations[..])
      ensures walletConnected ==> allocations == old(allocations) && totalStaked == old(totalStaked)
      ensures feeBalance == old(feeBalance) && stakeAmount == old(stakeAmount)
      ensures isDrawerOpen == old(isDrawerOpen) && selectedConstellation == old(selectedConstellation)
    {
      walletConnected := !walletConnected;
      if !walletConnected {
        ResetUserStakes();
      }
    }

    /** Zeroes every card's stake and share, one card at a time, and empties the summary. */
    method ResetUserStakes()
      requires Valid()
      modifies this`totalStaked, this`constellationCount, this`allocations, constellations
      ensures Valid()
      ensures constellations[..] == Unstaked(old(constellations[..]))
      ensures allocations == [] && totalStaked == 0 && constellationCount == 0
    {
      var i := 0;
      while i < constellations.Length
        invariant 0 <= i <= constellations.Length
        invariant forall k :: 0 <= k < i ==> constellations[k] == old(constellations[k]).(yourStake := 0, yourShare := 0.0)
        invariant forall k :: i <= k < constellations.Length ==> constellations[k] == old(constellations[k])
      {
        constellations[i] := constellations[i].(yourStake := 0, yourShare := 0.0);
        i := i + 1;
      }
      totalStaked := 0;
      constellationCount := 0;
      allocations := [];
    }

    /** Opens the drawer on card `index` with the minimum stake, unless the wallet is off or the balance is below the minimum. */
    method OpenStakeDrawer(index: nat)
      requires Valid() && index < constellations.Length
      modifies this`selectedConstellation, this`stakeAmount, this`isDrawerOpen
      ensures Valid()
      ensures !old(walletConnected) || old(feeBalance) < MinStake ==>
        selectedConstellation == old(selectedConstellation) && stakeAmount == old(stakeAmount) && isDrawerOpen == old(isDrawerOpen)
      ensures old(walletConnected) && old(feeBalance) >= MinStake ==>
        selectedConstellation == Some(index) && stakeAmount == MinStake && isDrawerOpen
    {
      if !walletConnected || feeBalance < MinStake {
        return;
      }
      selectedConstellation := Some(index);
      stakeAmount := MinStake;
      isDrawerOpen := true;
    }

    method CloseStakeDrawer()
      requires Valid()
      modifies this`isDrawerOpen, this`selectedConstellation
      ensures Valid()
      ensures !isDrawerOpen && selectedConstellation.None?
    {
      isDrawerOpen := false;
      selectedConstellation := None;
    }

    /** The stake buttons: a multiple of the minimum, capped at the balance; `-1` is all of it. */
    method IncreaseStakeAmount(multiplier: int)
      modifies this`stakeAmount
      ensures stakeAmount == MultipleOfMinimum(multiplier, feeBalance)
      ensures stakeAmount <= feeBalance
    {
      if multiplier == -1 {
        stakeAmount := feeBalance;
      } else {
        stakeAmount := if MinStake * multiplier < feeBalance then MinStake * multiplier else feeBalance;
      }
    }

    /**
     * Stakes the drawer's amount on the selected card when the guard holds:
     * the card's stake and the summary grow by the amount, the balance
     * shrinks by it, and the drawer closes. The card's new share is computed
     * in floating point by the page and is passed in here.
     */
    method ConfirmStake(newShare: real)
      requires Valid()
      modifies this`feeBalance, this`isDrawerOpen, this`selectedConstellation
      modifies this`totalStaked, this`constellationCount, this`allocations, constellations
      ensures Valid()
      ensures !CanSubmitStake(old(selectedConstellation).Some?, old(stakeAmount), old(feeBalance)) ==>
        && constellations[..] == old(constellations[..])
        && feeBalance == old(feeBalance) && isDrawerOpen == old(isDrawerOpen)
        && selectedConstellation == old(selectedConstellation)
        && allocations == old(allocations) && totalStaked == old(totalStaked)
      ensures CanSubmitStake(old(selectedConstellation).Some?, old(stakeAmount), old(feeBalance)) ==>
        var k := old(selectedConstellation).value;
        && constellations[..] == old(constellations[..])[k := old(constellations[k]).(yourStake := old(constellations[k]).yourStake + old(stakeAmount), yourShare := newShare)]
        && feeBalance == old(feeBalance) - old(stakeAmount)
        && feeBalance >= 0
        && allocations == AddToEntries(old(allocations), old(constellations[k]).name, old(stakeAmount))
        && totalStaked == old(totalStaked) + old(stakeAmount)
        && !isDrawerOpen && selectedConstellation.None?
      ensures stakeAmount == old(stakeAmount) && walletConnected == old(walletConnected)
    {
      if selectedConstellation.None? || stakeAmount < MinStake || stakeAmount > feeBalance {
        return;
      }
      var k := selectedConstellation.value;
      var c := constellations[k];
      constellations[k] := c.(yourStake := c.yourStake + stakeAmount, yourShare := newShare);
      UpdateUserAllocation(c.name, stakeAmount);
      feeBalance := feeBalance - stakeAmount;
      CloseStakeDrawer();
    }

    /** Find-or-append on the summary, then the total grows by `amount`. */
    method UpdateUserAllocation(constellationName: string, amount: int)
      requires Valid()
      modifies this`totalStaked, this`constellationCount, this`allocations
      ensures Valid()
      ensures allocations == AddToEntries(old(allocations), constellationName, amount)
      ensures totalStaked == old(totalStaked) + amount
      ensures FindEntry(old(allocations), constellationName).Some? ==> constellationCount == old(constellationCount)
      ensures FindEntry(old(allocations), constellationName).None? ==> constellationCount == old(constellationCount) + 1
    {
      var existing := FindEntry(allocations, constellationName);
      if existing.Some? {
        var k := existing.value;
        SumUpdate(allocations, k, amount);
        allocations := allocations[k := allocations[k].(amount := allocations[k].amount + amount)];
      } else {
        SumAppend(allocations, AllocationEntry(constellationName, amount));
        allocations := allocations + [AllocationEntry(constellationName, amount)];
        constellationCount := constellationCount + 1;
      }
      totalStaked := totalStaked + amount;
    }

    method ToggleAllocationSummary()
      modifies this`showAllocationSummary
      ensures showAllocationSummary == !old(showAllocationSummary)
    {
      showAllocationSummary := !showAllocationSummary;
    }

    method UpdateEstimatedTime()
      modifies this`estimatedTimeRemaining
      ensures estimatedTimeRemaining == EstimatedTime(blocksRemaining)
    {
      var hoursRemaining := blocksRemaining / 6;
      var minutesRemaining := JsRem(blocksRemaining, 6) * 10;
      estimatedTimeRemaining := "≈ " + IntToString(hoursRemaining) + "h " + IntToString(minutesRemaining) + "m";
    }

    /** One block passes: the countdown drops by one while it is positive and never goes below zero. */
    method BlockTick()
      requires Valid()
      modifies this`blocksRemaining, this`estimatedTimeRemaining
      ensures Valid()
      ensures old(blocksRemaining) > 0 ==>
        blocksRemaining == old(blocksRemaining) - 1 && estimatedTimeRemaining == EstimatedTime(blocksRemaining)
      ensures old(blocksRemaining) == 0 ==>
        blocksRemaining == 0 && estimatedTimeRemaining == old(estimatedTimeRemaining)
    {
      if blocksRemaining > 0 {
        blocksRemaining := blocksRemaining - 1;
        UpdateEstimatedTime();
      }
    }
  }
}
