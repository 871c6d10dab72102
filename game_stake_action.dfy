/**
 * The stake drawer: it holds the stake being entered, checks it against the
 * fee balance, submits it, and reports the outcome in a status line. The
 * contract call and the balance query are outside the model; their outcomes
 * arrive through the completion methods.
 */
module GameStakeAction {
  import opened Wrappers
  import opened Decimal
  import opened StakeRules
  import AllocateStatus

  /** The constellation the drawer is open for. */
  datatype StakeTarget = StakeTarget(id: int, name: string)

  /** The `allocate` call the drawer asks for. */
  datatype StakeRequest = StakeRequest(amount: int, constellationId: int)

  /** What the drawer tells its parent after a submitted stake. */
  datatype StakeConfirmed = StakeConfirmed(amount: int, constellationId: int, txId: string)

  const SubmittingMessage: string := "Submitting your stake..."
  const BalanceCheckFailedMessage: string := "Could not verify your balance. Please try again."
  const InsufficientForMinimumMessage: string := "Insufficient sBTC balance. You need at least 1000 sats to stake."
  const InvalidAmountMessage: string := "Please enter a valid stake amount (min 1000 sats)."

  // ------------------------------------------------------------ formatSats

  /** Three digits of a group after the first, zero-padded. */
  function ThreeDigits(m: nat): (s: string)
    requires m < 1000
    ensures |s| == 3 && AllDigits(s)
  {
    [DigitChar(m / 100), DigitChar(m / 10 % 10), DigitChar(m % 10)]
  }

  /** The decimal digits of `n` in groups of three separated by commas, as `toLocaleString` writes them in English. */
  function GroupThousands(n: nat): (s: string)
    ensures |s| > 0
    ensures s[0] != ',' && s[|s| - 1] != ','
  {
    if n < 1000 then NatToString(n) else GroupThousands(n / 1000) + "," + ThreeDigits(n % 1000)
  }

  /** `formatSats`: `'0'` for a negative amount, the grouped digits otherwise. */
  function FormatSats(sats: int): (s: string)
    ensures |s| > 0
    ensures sats < 0 ==> s == "0"
  {
    if sats < 0 then "0" else GroupThousands(sats)
  }

  /** The text with its commas taken out. */
  function StripCommas(s: string): (r: string)
    ensures |r| <= |s|
  {
    if s == [] then []
    else (if s[0] == ',' then [] else [s[0]]) + StripCommas(s[1..])
  }

  lemma {:induction false} StripCommasAppend(a: string, b: string)
    ensures StripCommas(a + b) == StripCommas(a) + StripCommas(b)
  {
    if a == [] {
      assert a + b == b;
    } else {
      assert (a + b)[1..] == a[1..] + b;
      StripCommasAppend(a[1..], b);
    }
  }

  lemma {:induction false} StripCommasOfDigits(s: string)
    requires AllDigits(s)
    ensures StripCommas(s) == s
  {
    if s != [] {
      assert IsDigit(s[0]);
      StripCommasOfDigits(s[1..]);
      assert s == [s[0]] + s[1..];
    }
  }

  /** Splitting off the last decimal digit. */
  lemma LastDigit(a: nat, d: nat)
    requires d < 10
    ensures (10 * a + d) / 10 == a && (10 * a + d) % 10 == d
  {
  }

  /** The digits of a number of at least 1000 are those of its thousands followed by its last three digits. */
  lemma NatToStringThousands(n: nat)
    requires n >= 1000
    ensures NatToString(n) == NatToString(n / 1000) + ThreeDigits(n % 1000)
  {
    var q, m := n / 1000, n % 1000;
    var d2, d1, d0 := m / 100, m / 10 % 10, m % 10;
    var b := 10 * q + d2;
    var a := 10 * b + d1;
    assert m == 100 * d2 + 10 * d1 + d0;
    assert n == 10 * a + d0;
    LastDigit(a, d0);
    LastDigit(b, d1);
    LastDigit(q, d2);
    assert NatToString(b) == NatToString(q) + [DigitChar(d2)];
    assert NatToString(a) == NatToString(b) + [DigitChar(d1)];
    assert NatToString(n) == NatToString(a) + [DigitChar(d0)];
  }

  /** Removing the separators from a formatted amount gives back its plain digits. */
  lemma {:induction false} FormatSatsDigits(n: nat)
    ensures StripCommas(FormatSats(n)) == NatToString(n)
  {
    if n < 1000 {
      StripCommasOfDigits(NatToString(n));
    } else {
      FormatSatsDigits(n / 1000);
      StripCommasAppend(GroupThousands(n / 1000) + ",", ThreeDigits(n % 1000));
      StripCommasAppend(GroupThousands(n / 1000), ",");
      StripCommasOfDigits(ThreeDigits(n % 1000));
      NatToStringThousands(n);
    }
  }

  /** A number below 1000 has at most three digits. */
  lemma SmallNatToStringLength(n: nat)
    requires n < 1000
    ensures |NatToString(n)| <= 3
  {
    if n >= 10 {
      assert NatToString(n) == NatToString(n / 10) + [DigitChar(n % 10)];
      if n >= 100 {
        assert NatToString(n / 10) == NatToString(n / 100) + [DigitChar(n / 10 % 10)];
      }
    }
  }

  /**
   * Where `toLocaleString` puts its separators: never first, and a comma
   * exactly at every fourth place counted from the end, so each comma is
   * followed by three digits.
   */
  predicate CommasPlaced(s: string) {
    && |s| > 0
    && s[0] != ','
    && forall i :: 0 <= i < |s| ==> (s[i] == ',' <==> (|s| - 1 - i) % 4 == 3)
  }

  /** Up to three digits hold no separator, as they should. */
  lemma ShortDigitsPlaced(s: string)
    requires 0 < |s| <= 3 && AllDigits(s)
    ensures CommasPlaced(s)
  {
    forall i | 0 <= i < |s| ensures s[i] != ',' && (|s| - 1 - i) % 4 != 3 {
      assert IsDigit(s[i]);
    }
  }

  /** Appending a comma and a group of three digits keeps the separators in place. */
  lemma AppendGroupPlaced(g: string, t: string)
    requires CommasPlaced(g)
    requires |t| == 3 && AllDigits(t)
    ensures CommasPlaced(g + "," + t)
  {
    var s := g + "," + t;
    forall i | 0 <= i < |s|
      ensures s[i] == ',' <==> (|s| - 1 - i) % 4 == 3
    {
      var d := |s| - 1 - i;
      if i < |g| {
        assert s[i] == g[i];
        assert d == (|g| - 1 - i) + 4;
      } else if i == |g| {
        assert s[i] == ',' && d == 3;
      } else {
        assert s[i] == t[i - |g| - 1] && IsDigit(t[i - |g| - 1]);
        assert 0 <= d < 3;
      }
    }
  }

  /** The grouped digits of any number carry their separators in place. */
  lemma {:induction false} GroupThousandsCommas(n: nat)
    ensures CommasPlaced(GroupThousands(n))
  {
    if n < 1000 {
      SmallNatToStringLength(n);
      ShortDigitsPlaced(NatToString(n));
    } else {
      GroupThousandsCommas(n / 1000);
      AppendGroupPlaced(GroupThousands(n / 1000), ThreeDigits(n % 1000));
    }
  }

  /** `formatSats` places its separators as `toLocaleString` does. */
  lemma FormatSatsCommas(sats: int)
    ensures CommasPlaced(FormatSats(sats))
  {
    if sats >= 0 {
      GroupThousandsCommas(sats);
    } else {
      ShortDigitsPlaced("0");
    }
  }

  /** Reading a formatted amount back, separators removed, gives the amount. */
  lemma FormatSatsRoundTrip(n: nat)
    ensures ParseInt(StripCommas(FormatSats(n))) == Some(n)
  {
    FormatSatsDigits(n);
    ParseIntRoundTrip(n);
  }

  // --------------------------------------------------------------- messages

  /** Why a stake was refused, checked in this order: a balance below the minimum, a stake above the balance, anything else. */
  function RejectionMessage(stake: int, balance: int): (m: string)
    ensures balance < MinStake ==> m == InsufficientForMinimumMessage
    ensures balance >= MinStake && stake > balance ==>
      m == "Insufficient balance. You only have " + FormatSats(balance) + " sats available."
    ensures balance >= MinStake && stake <= balance ==> m == InvalidAmountMessage
  {
    if balance < MinStake then InsufficientForMinimumMessage
    else if stake > balance then "Insufficient balance. You only have " + FormatSats(balance) + " sats available."
    else InvalidAmountMessage
  }

  /** When the drawer has a constellation, the generic message is only ever shown for a stake under the minimum. */
  lemma GenericMessageMeansBelowMinimum(stake: int, balance: int)
    requires !CanSubmitStake(true, stake, balance)
    requires RejectionMessage(stake, balance) == InvalidAmountMessage
    ensures stake < MinStake
  {
  }

  /**
   * The success line: the formatted amount follows `Stake of `, and the
   * constellation's name, or `unknown` for an empty one, comes right before
   * the closing sentence.
   */
  function SuccessMessage(amount: int, name: string): (m: string)
    ensures var n := |"Stake of "| + |FormatSats(amount)|;
      |m| > n && m[..|"Stake of "|] == "Stake of " && m[|"Stake of "|..n] == FormatSats(amount)
    ensures var shown := if name == "" then "unknown" else name;
      |m| >= |shown| + |SuccessTail| && m[|m| - |shown| - |SuccessTail|..|m| - |SuccessTail|] == shown
  {
    var head := "Stake of " + FormatSats(amount);
    var shown := if name == "" then "unknown" else name;
    var m := head + SuccessMiddle + shown + SuccessTail;
    assert m == head + (SuccessMiddle + shown + SuccessTail);
    assert m == (head + SuccessMiddle) + shown + SuccessTail;
    m
  }

  const SuccessMiddle: string := " sats successfully submitted to the "
  const SuccessTail: string := " constellation! Your transaction is now processing."

  /** The failure line: the prefix, then the reason, or `Unknown error` when there is none. */
  function FailureMessage(errorMessage: string): (m: string)
    ensures var prefix := "Failed to stake on constellation: ";
      |m| > |prefix| && m[..|prefix|] == prefix
      && m[|prefix|..] == (if errorMessage == "" then "Unknown error" else errorMessage)
  {
    "Failed to stake on constellation: " + (if errorMessage == "" then "Unknown error" else errorMessage)
  }

  // ----------------------------------------------------------------- drawer

  class GameStakeActionComponent {
    var isOpen: bool
    var constellation: Option<StakeTarget>
    var feeBalance: int
    var stakeAmount: int
    var statusMessage: string
    var statusType: string
    var isLoadingBalance: bool

    /** A closed drawer with the parent's constellation and balance. */
    constructor(target: Option<StakeTarget>, balance: int)
      ensures !isOpen && constellation == target && feeBalance == balance
      ensures stakeAmount == MinStake && statusMessage == "" && statusType == "" && !isLoadingBalance
    {
      isOpen := false;
      constellation := target;
      feeBalance := balance;
      stakeAmount := MinStake;
      statusMessage := "";
      statusType := "";
      isLoadingBalance := false;
    }

    /** Opening resets the stake to the minimum and clears the status line; closing touches nothing else. */
    method SetIsOpen(value: bool)
      modifies this`isOpen, this`stakeAmount, this`statusMessage, this`statusType
      ensures isOpen == value
      ensures value ==> stakeAmount == MinStake && statusMessage == "" && statusType == ""
      ensures !value ==> stakeAmount == old(stakeAmount) && statusMessage == old(statusMessage) && statusType == old(statusType)
    {
      isOpen := value;
      if value {
        stakeAmount := MinStake;
        statusMessage := "";
        statusType := "";
      }
    }

    /** Starts a balance query. */
    method FetchUserBalance()
      modifies this`isLoadingBalance
      ensures isLoadingBalance
    {
      isLoadingBalance := true;
    }

    /** The balance query answered: the balance is replaced and a stake above it is pulled back. */
    method BalanceReceived(balance: int)
      modifies this`feeBalance, this`isLoadingBalance, this`stakeAmount
      ensures feeBalance == balance && !isLoadingBalance
      ensures stakeAmount == RefreshedStake(old(stakeAmount), balance)
    {
      feeBalance := balance;
      isLoadingBalance := false;
      if stakeAmount > feeBalance {
        if feeBalance >= MinStake {
          stakeAmount := feeBalance;
        } else {
          stakeAmount := MinStake;
        }
      }
    }

    /** The balance query failed: an error line, and the stake and balance stay. */
    method BalanceFailed()
      modifies this`isLoadingBalance, this`statusMessage, this`statusType
      ensures !isLoadingBalance && statusMessage == BalanceCheckFailedMessage && statusType == "error"
    {
      isLoadingBalance := false;
      statusMessage := BalanceCheckFailedMessage;
      statusType := "error";
    }

    /**
     * Asks for the `allocate` call when the guard holds and says it is being
     * submitted; otherwise shows why not. Neither path changes the stake or
     * the balance.
     */
    method ConfirmStake() returns (request: Option<StakeRequest>)
      modifies this`statusMessage, this`statusType
      ensures request.Some? <==> CanSubmitStake(constellation.Some?, stakeAmount, feeBalance)
      ensures request.Some? ==> request.value == StakeRequest(stakeAmount, constellation.value.id)
      ensures request.Some? ==> statusMessage == SubmittingMessage && statusType == "info"
      ensures request.None? ==> statusMessage == RejectionMessage(stakeAmount, feeBalance) && statusType == "error"
    {
      if constellation.Some? && stakeAmount >= MinStake && stakeAmount <= feeBalance {
        statusMessage := SubmittingMessage;
        statusType := "info";
        request := Some(StakeRequest(stakeAmount, constellation.value.id));
      } else {
        if feeBalance < MinStake {
          statusMessage := InsufficientForMinimumMessage;
        } else if stakeAmount > feeBalance {
          statusMessage := "Insufficient balance. You only have " + FormatSats(feeBalance) + " sats available.";
        } else {
          statusMessage := InvalidAmountMessage;
        }
        statusType := "error";
        request := None;
      }
    }

    /**
     * The call answered. With a transaction id, and while the drawer still
     * has its constellation, the transaction joins the tracker as pending
     * with the drawer's current stake, the parent is told, and the drawer asks
     * to close; with no id nothing happens.
     */
    method StakeSubmitted(txid: string, tracker: AllocateStatus.AllocateStatusService, now: int)
      returns (confirmed: Option<StakeConfirmed>)
      modifies this`statusMessage, this`statusType, tracker
      ensures confirmed.Some? <==> txid != "" && constellation.Some?
      ensures confirmed.Some? ==>
        && confirmed.value == StakeConfirmed(stakeAmount, constellation.value.id, txid)
        && tracker.allocations == old(tracker.allocations) +
             [AllocateStatus.AllocationTransaction(txid, stakeAmount, constellation.value.id, AllocateStatus.Pending, now)]
        && statusMessage == SuccessMessage(stakeAmount, constellation.value.name) && statusType == "success"
      ensures confirmed.None? ==>
        tracker.allocations == old(tracker.allocations) && statusMessage == old(statusMessage) && statusType == old(statusType)
      ensures tracker.notifications == old(tracker.notifications)
    {
      confirmed := None;
      if txid != "" && constellation.Some? {
        tracker.AddAllocationTransaction(txid, stakeAmount, constellation.value.id, now);
        confirmed := Some(StakeConfirmed(stakeAmount, constellation.value.id, txid));
        statusMessage := SuccessMessage(stakeAmount, constellation.value.name);
        statusType := "success";
      }
    }

    /** The call failed: an error line naming the reason, or "Unknown error" when there is none. */
    method StakeFailed(errorMessage: string)
      modifies this`statusMessage, this`statusType
      ensures statusMessage == FailureMessage(errorMessage) && statusType == "error"
    {
      statusMessage := FailureMessage(errorMessage);
      statusType := "error";
    }

    /** Multiplies the stake by `factor`, capped at the balance. */
    method IncreaseStakeAmount(factor: int)
      modifies this`stakeAmount
      ensures stakeAmount == ScaledStake(old(stakeAmount), factor, feeBalance)
      ensures stakeAmount <= feeBalance
    {
      var newAmount := stakeAmount * factor;
      if newAmount <= feeBalance {
        stakeAmount := newAmount;
      } else {
        stakeAmount := feeBalance;
      }
    }

    method SetMaxStake()
      modifies this`stakeAmount
      ensures stakeAmount == feeBalance
    {
      stakeAmount := feeBalance;
    }

    /** The delayed clear of the status line fired. */
    method StatusTimerFired()
      modifies this`statusMessage, this`statusType
      ensures statusMessage == "" && statusType == ""
    {
      statusMessage := "";
      statusType := "";
    }
  }
}
