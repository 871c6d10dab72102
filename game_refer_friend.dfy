/**
 * The refer-a-friend panel: the player's referral link, the referral reward
 * fetched from the contract, and a claim button guarded by an in-flight flag.
 * Each call to the contract is split into the method that starts it and the
 * methods its completion runs.
 */
module GameReferFriend {
  import opened Wrappers
  import opened Decimal
  import ContractService

  const RefQuery: string := "/play?ref="

  /** The link a friend follows: the page origin, the play route and the address as the `ref` parameter. */
  function ReferralLink(origin: string, address: string): (link: string)
    ensures |link| == |origin| + |RefQuery| + |address|
    ensures link[..|origin|] == origin
    ensures link[|link| - |address|..] == address
  {
    origin + RefQuery + address
  }

  /** The `ref` parameter of a link under `origin`, if the link has that form. */
  function RefValue(link: string, origin: string): (ref: Option<string>)
    ensures ref.Some? ==> origin + RefQuery + ref.value == link
  {
    var prefix := origin + RefQuery;
    if prefix <= link then
      assert link == prefix + link[|prefix|..];
      Some(link[|prefix|..])
    else None
  }

  /** The address can be read back from the link. */
  lemma RefValueOfLink(origin: string, address: string)
    ensures RefValue(ReferralLink(origin, address), origin) == Some(address)
  {
    var prefix := origin + RefQuery;
    assert ReferralLink(origin, address) == prefix + address;
    assert (prefix + address)[..|prefix|] == prefix;
    assert (prefix + address)[|prefix|..] == address;
  }

  /** Two players on the same site never share a referral link. */
  lemma ReferralLinkInjective(origin: string, a: string, b: string)
    requires ReferralLink(origin, a) == ReferralLink(origin, b)
    ensures a == b
  {
    RefValueOfLink(origin, a);
    RefValueOfLink(origin, b);
  }

  /**
   * `amount > 0` on the amount the decoder returns: a number compares as it
   * is, a boolean as 0 or 1, null and undefined never exceed 0, and anything
   * else is compared through its string form, which counts here only when it
   * is a run of decimal digits.
   */
  predicate PositiveAmount(amount: ContractService.Json)
    ensures amount.Num? ==> (PositiveAmount(amount) <==> amount.n > 0)
    ensures ContractService.Nullish(amount) || amount == ContractService.Bool(false) ==> !PositiveAmount(amount)
  {
    match amount
    case Num(n) => n > 0
    case Bool(b) => b
    case Undefined => false
    case Null => false
    case _ => var s := ContractService.JsString(amount); s != "" && AllDigits(s) && DigitsValue(s) > 0
  }

  /** A reward amount given as a number or as the SDK's digit text counts exactly when it is above zero. */
  lemma PositiveAmountOfUInt(n: nat)
    ensures PositiveAmount(ContractService.Num(n)) <==> n > 0
    ensures PositiveAmount(ContractService.Str(NatToString(n))) <==> n > 0
  {
    NatToStringValue(n);
  }

  /** The reward the decoder gives for an empty answer never counts as claimable. */
  lemma DefaultRewardNotClaimable()
    ensures !PositiveAmount(ContractService.DefaultReferralReward.amount)
  {
  }

  const ConnectWalletMessage: string := "Please connect your wallet to generate a referral link"
  const CheckFailedMessage: string := "Failed to check referral rewards"
  const ClaimingMessage: string := "Claiming your referral reward..."
  const ClaimedMessage: string := "Referral reward claimed successfully!"
  const ClaimFailedMessage: string := "Failed to claim referral reward"
  const ClaimErrorPrefix: string := "Failed to claim reward: "

  class GameReferFriendComponent {
    var walletConnected: bool
    var walletAddress: string
    var referralLink: string
    var isLoading: bool
    var hasReferralReward: bool
    var referralReward: Option<ContractService.ReferralReward>
    var isClaimingReward: bool
    var statusMessage: string
    var statusType: string

    constructor()
      ensures !walletConnected && walletAddress == "" && referralLink == "" && isLoading
      ensures !hasReferralReward && referralReward.None? && !isClaimingReward
      ensures statusMessage == "" && statusType == ""
    {
      walletConnected := false;
      walletAddress := "";
      referralLink := "";
      isLoading := true;
      hasReferralReward := false;
      referralReward := None;
      isClaimingReward := false;
      statusMessage := "";
      statusType := "";
    }

    /**
     * With a wallet: takes its address, builds the link and starts the reward
     * check. Without one: stops loading and asks to connect, fetching nothing.
     */
    method NgOnInit(loggedIn: bool, address: string, origin: string) returns (fetchStarted: bool)
      modifies this`walletConnected, this`walletAddress, this`referralLink, this`isLoading, this`statusMessage, this`statusType
      ensures walletConnected == loggedIn && fetchStarted == loggedIn
      ensures loggedIn ==> walletAddress == address && referralLink == ReferralLink(origin, address) && isLoading
      ensures loggedIn ==> statusMessage == old(statusMessage) && statusType == old(statusType)
      ensures !loggedIn ==> walletAddress == old(walletAddress) && referralLink == old(referralLink)
      ensures !loggedIn ==> !isLoading && statusMessage == ConnectWalletMessage && statusType == "info"
    {
      walletConnected := loggedIn;
      if walletConnected {
        walletAddress := address;
        GenerateReferralLink(origin);
        CheckReferralReward();
        fetchStarted := true;
      } else {
        isLoading := false;
        statusMessage := ConnectWalletMessage;
        statusType := "info";
        fetchStarted := false;
      }
    }

    method GenerateReferralLink(origin: string)
      modifies this`referralLink
      ensures referralLink == ReferralLink(origin, walletAddress)
    {
      referralLink := origin + RefQuery + walletAddress;
    }

    /** Starts the reward check for `walletAddress`. */
    method CheckReferralReward()
      modifies this`isLoading
      ensures isLoading
    {
      isLoading := true;
    }

    /** The reward check answered: the reward is kept, and it is claimable exactly when its amount is above zero. */
    method RewardReceived(reward: ContractService.ReferralReward)
      modifies this`referralReward, this`hasReferralReward, this`isLoading
      ensures referralReward == Some(reward)
      ensures hasReferralReward <==> PositiveAmount(reward.amount)
      ensures !isLoading
    {
      referralReward := Some(reward);
      hasReferralReward := PositiveAmount(reward.amount);
      isLoading := false;
    }

    /** The reward check failed: the previous reward stays, an error is shown. */
    method RewardCheckFailed()
      modifies this`statusMessage, this`statusType, this`isLoading
      ensures statusMessage == CheckFailedMessage && statusType == "error" && !isLoading
    {
      statusMessage := CheckFailedMessage;
      statusType := "error";
      isLoading := false;
    }

    /** Starts a claim, unless there is no reward or a claim is already in flight; then nothing changes. */
    method ClaimReferralReward() returns (started: bool)
      modifies this`isClaimingReward, this`statusMessage, this`statusType
      ensures started <==> old(hasReferralReward) && !old(isClaimingReward)
      ensures started ==> isClaimingReward && statusMessage == ClaimingMessage && statusType == "info"
      ensures !started ==> (isClaimingReward == old(isClaimingReward)
        && statusMessage == old(statusMessage) && statusType == old(statusType))
    {
      if !hasReferralReward || isClaimingReward {
        return false;
      }
      isClaimingReward := true;
      statusMessage := ClaimingMessage;
      statusType := "info";
      started := true;
    }

    /**
     * The claim call answered with a transaction id (`txid`, empty when absent)
     * or an error text (`error`, empty when absent). A transaction id zeroes
     * the reward; the in-flight flag is cleared on every answer.
     */
    method ClaimResponded(txid: string, error: string)
      modifies this`statusMessage, this`statusType, this`referralReward, this`hasReferralReward, this`isClaimingReward
      ensures !isClaimingReward
      ensures txid != "" ==> (statusMessage == ClaimedMessage && statusType == "success"
        && referralReward == Some(ContractService.DefaultReferralReward) && !hasReferralReward)
      ensures txid == "" ==> referralReward == old(referralReward) && hasReferralReward == old(hasReferralReward)
      ensures txid == "" && error != "" ==> statusMessage == ClaimErrorPrefix + error && statusType == "error"
      ensures txid == "" && error == "" ==> statusMessage == old(statusMessage) && statusType == old(statusType)
    {
      if txid != "" {
        statusMessage := ClaimedMessage;
        statusType := "success";
        referralReward := Some(ContractService.ReferralReward(ContractService.Num(0), ContractService.Num(0)));
        hasReferralReward := false;
      } else if error != "" {
        statusMessage := ClaimErrorPrefix + error;
        statusType := "error";
      }
      isClaimingReward := false;
    }

    /** The claim call failed outright; the reward stays claimable. */
    method ClaimFailed()
      modifies this`statusMessage, this`statusType, this`isClaimingReward
      ensures statusMessage == ClaimFailedMessage && statusType == "error" && !isClaimingReward
    {
      statusMessage := ClaimFailedMessage;
      statusType := "error";
      isClaimingReward := false;
    }

    /** The body of the delayed status clear. */
    method ClearStatusMessage()
      modifies this`statusMessage, this`statusType
      ensures statusMessage == "" && statusType == ""
    {
      statusMessage := "";
      statusType := "";
    }
  }

  /** A second press while a claim is in flight starts nothing. */
  method DoubleClaim(panel: GameReferFriendComponent) returns (first: bool, second: bool)
    modifies panel
    ensures !second
    ensures first <==> old(panel.hasReferralReward) && !old(panel.isClaimingReward)
  {
    first := panel.ClaimReferralReward();
    second := panel.ClaimReferralReward();
  }

  /** Once a claim succeeds, pressing again starts nothing until a new reward is fetched. */
  method ClaimAfterSuccess(panel: GameReferFriendComponent, txid: string) returns (again: bool)
    requires txid != ""
    modifies panel
    ensures !again
  {
    var started := panel.ClaimReferralReward();
    if started {
      panel.ClaimResponded(txid, "");
      again := panel.ClaimReferralReward();
    } else {
      again := panel.ClaimReferralReward();
    }
  }
}
