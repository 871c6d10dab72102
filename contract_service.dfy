/**
 * The client side of the game contract: decoders that turn the value the SDK
 * hands back from a read-only call into typed records (with zero/empty
 * fallbacks), and the argument and post-condition lists of the public calls.
 */
module ContractService {
  import opened Wrappers
  import opened Decimal

  /** A JavaScript value as the decoders see it; numbers are integral here. */
  datatype Json =
    | Undefined
    | Null
    | Bool(b: bool)
    | Num(n: int)
    | Str(s: string)
    | Arr(items: seq<Json>)
    | Obj(fields: map<string, Json>)

  /** JavaScript truthiness. */
  predicate Truthy(v: Json) {
    match v
    case Undefined => false
    case Null => false
    case Bool(b) => b
    case Num(n) => n != 0
    case Str(s) => s != ""
    case Arr(_) => true
    case Obj(_) => true
  }

  /** The falsy values are exactly `undefined`, `null`, `false`, `0` and `""`. */
  lemma FalsyValues(v: Json)
    ensures !Truthy(v) <==> v in {Undefined, Null, Bool(false), Num(0), Str("")}
  {
  }

  predicate Nullish(v: Json) {
    v.Undefined? || v.Null?
  }

  /** `v.key` on a value that is not null or undefined, and `v?.key` on any value. */
  function Get(v: Json, key: string): (r: Json)
    ensures r != Undefined ==> v.Obj? && key in v.fields && r == v.fields[key]
    ensures v.Obj? && key in v.fields ==> r == v.fields[key]
  {
    if v.Obj? && key in v.fields then v.fields[key] else Undefined
  }

  /** `strings.join(",")`. */
  function Join(strings: seq<string>): string {
    if strings == [] then ""
    else if |strings| == 1 then strings[0]
    else strings[0] + "," + Join(strings[1..])
  }

  /**
   * `String(v)`; inside an array, null and undefined print as nothing. A
   * number prints as text `parseInt` reads back; `undefined`, `null`, the
   * booleans and objects print as text it reads as NaN.
   */
  function JsString(v: Json): (s: string)
    ensures v.Num? ==> ParseInt(s) == Some(v.n)
    ensures v.Undefined? || v.Null? || v.Bool? || v.Obj? ==> ParseInt(s) == None
  {
    match v
    case Undefined => "undefined"
    case Null => "null"
    case Bool(b) => if b then "true" else "false"
    case Num(n) => ParseIntRoundTrip(n); IntToString(n)
    case Str(s) => s
    case Arr(items) =>
      Join(seq(|items|, i requires 0 <= i < |items| => if Nullish(items[i]) then "" else JsString(items[i])))
    case Obj(_) => "[object Object]"
  }

  /**
   * `parseInt(v) || 0`: the parsed integer, with NaN (and zero) becoming 0.
   * A number reads as itself; a missing field, `null`, a boolean and an
   * object read as 0; text reads as its `parseInt`, and as 0 when that is NaN.
   */
  function ParseIntOr0(v: Json): (r: int)
    ensures v.Num? ==> r == v.n
    ensures Nullish(v) || v.Bool? || v.Obj? ==> r == 0
    ensures v.Str? && ParseInt(v.s).None? ==> r == 0
    ensures v.Str? && ParseInt(v.s).Some? ==> r == ParseInt(v.s).value
  {
    match ParseInt(JsString(v))
    case None => 0
    case Some(n) => n
  }

  /** `v || 0`. */
  function OrZero(v: Json): (r: Json)
    ensures Truthy(v) ==> r == v
    ensures !Truthy(v) ==> r == Num(0)
  {
    if Truthy(v) then v else Num(0)
  }

  /** A uint in the text form the SDK gives (`"123"`) parses to its value. */
  lemma ParseIntOr0OfDigits(n: nat)
    ensures ParseIntOr0(Str(NatToString(n))) == n
  {
    ParseUnsignedRoundTrip(n);
  }

  /** What `.map(...)` over a list can throw: reading `.value` of null or undefined, or a list that is not an array. */
  datatype DecodeError = TypeError

  /** `items.map(a => parseInt(a.value) || 0)`. */
  function ParseAllocationItems(items: seq<Json>): (r: Result<seq<int>, DecodeError>)
    ensures r.Ok? <==> forall i :: 0 <= i < |items| ==> !Nullish(items[i])
    ensures r.Ok? ==> |r.value| == |items|
    ensures r.Ok? ==> forall i :: 0 <= i < |items| ==> r.value[i] == ParseIntOr0(Get(items[i], "value"))
  {
    if items == [] then Ok([])
    else if Nullish(items[0]) then Err(TypeError)
    else
      match ParseAllocationItems(items[1..])
      case Err(e) => Err(e)
      case Ok(rest) => Ok([ParseIntOr0(Get(items[0], "value"))] + rest)
  }

  /**
   * A constellation-allocation field: `[]` unless the field and its `.value`
   * are truthy, and then the parsed elements of `.value`.
   */
  function AllocationList(field: Json): (r: Result<seq<int>, DecodeError>)
    ensures !Truthy(Get(field, "value")) ==> r == Ok([])
    ensures Get(field, "value").Arr? ==> r == ParseAllocationItems(Get(field, "value").items)
    ensures Truthy(Get(field, "value")) && !Get(field, "value").Arr? ==> r == Err(TypeError)
    ensures r.Err? ==> Truthy(Get(field, "value"))
  {
    var list := Get(field, "value");
    if Truthy(field) && Truthy(list) then
      if list.Arr? then ParseAllocationItems(list.items) else Err(TypeError)
    else Ok([])
  }

  /**
   * `parseInt(d[key]?.value) || 0`: the number in the field's `.value`, and 0
   * when the field is not an object holding a `.value`.
   */
  function NumField(d: Json, key: string): (r: int)
    ensures Get(Get(d, key), "value").Num? ==> r == Get(Get(d, key), "value").n
    ensures !(Get(d, key).Obj? && "value" in Get(d, key).fields) ==> r == 0
  {
    ParseIntOr0(Get(Get(d, key), "value"))
  }

  // ---------------------------------------------------------------- getCycle

  datatype CycleData = CycleData(
    allocationClaimed: Json,
    allocationClaimedAlias: Json,
    prize: Json,
    prizeClaimed: Json,
    constellationAllocation: seq<int>,
    rawConstellationAllocation: Json)

  const DefaultCycleData := CycleData(Num(0), Undefined, Num(0), Undefined, [], Undefined)

  /**
   * The `getCycle` decoder. `cv` is the SDK's `cvToValue`, which the decoder
   * applies again to each numeric field; each such field then falls back to 0.
   */
  function DecodeCycle(data: Json, cv: Json -> Json): (r: Result<CycleData, DecodeError>)
    ensures !Truthy(data) ==> r == Ok(DefaultCycleData)
    ensures Truthy(data) ==> (r.Ok? <==> AllocationList(Get(data, "constellation-allocation")).Ok?)
    ensures Truthy(data) && r.Ok? ==>
      && r.value.constellationAllocation == AllocationList(Get(data, "constellation-allocation")).value
      && r.value.rawConstellationAllocation == Get(data, "constellation-allocation")
      && r.value.allocationClaimed == r.value.allocationClaimedAlias
    ensures Truthy(data) && r.Ok? ==>
      && r.value.allocationClaimed == OrZero(cv(Get(data, "allocation-claimed")))
      && r.value.prize == OrZero(cv(Get(data, "prize")))
      && r.value.prizeClaimed == OrZero(cv(Get(data, "prize-claimed")))
    ensures r.Ok? ==> (Truthy(r.value.prize) || r.value.prize == Num(0))
    ensures r.Ok? ==> (Truthy(r.value.allocationClaimed) || r.value.allocationClaimed == Num(0))
    ensures r.Ok? && Truthy(data) ==> (Truthy(r.value.prizeClaimed) || r.value.prizeClaimed == Num(0))
    ensures r.Ok? && !Truthy(data) ==> r.value.prizeClaimed == Undefined
  {
    if Truthy(data) then
      match AllocationList(Get(data, "constellation-allocation"))
      case Err(e) => Err(e)
      case Ok(allocation) =>
        var claimed := OrZero(cv(Get(data, "allocation-claimed")));
        Ok(CycleData(
          claimed,
          claimed,
          OrZero(cv(Get(data, "prize"))),
          OrZero(cv(Get(data, "prize-claimed"))),
          allocation,
          Get(data, "constellation-allocation")))
    else Ok(DefaultCycleData)
  }

  // ------------------------------------------------------- getAllocatedByUser

  datatype AllocationData = AllocationData(claimed: bool, constellationAllocation: seq<int>)

  const DefaultAllocationData := AllocationData(false, [])

  /** The `claimed` flag: a boolean as is, an object by whether its `.value` is `true`, anything else false. */
  function ClaimedStatus(field: Json): (claimed: bool)
    ensures claimed <==> field == Bool(true) || (field.Obj? && Get(field, "value") == Bool(true))
  {
    if !Truthy(field) then false
    else if field.Bool? then field.b
    else if Get(field, "value") != Undefined then Get(field, "value") == Bool(true)
    else false
  }

  function DecodeAllocatedByUser(data: Json): (r: Result<AllocationData, DecodeError>)
    ensures !Truthy(data) ==> r == Ok(DefaultAllocationData)
    ensures r.Ok? && Truthy(data) ==> r.value.claimed == ClaimedStatus(Get(data, "claimed"))
    ensures Truthy(data) ==> (r.Ok? <==> AllocationList(Get(data, "constellation-allocation")).Ok?)
    ensures r.Ok? && Truthy(data) ==>
      r.value.constellationAllocation == AllocationList(Get(data, "constellation-allocation")).value
  {
    if Truthy(data) then
      match AllocationList(Get(data, "constellation-allocation"))
      case Err(e) => Err(e)
      case Ok(allocation) => Ok(AllocationData(ClaimedStatus(Get(data, "claimed")), allocation))
    else Ok(DefaultAllocationData)
  }

  // -------------------------------------------------------- getReferralReward

  datatype ReferralReward = ReferralReward(amount: Json, blockUpdate: Json)

  const DefaultReferralReward := ReferralReward(Num(0), Num(0))

  /** The `getReferralReward` decoder; `cv` is the SDK's `cvToValue`, applied again to each field (or to 0). */
  function DecodeReferralReward(data: Json, cv: Json -> Json): (r: ReferralReward)
    ensures !Truthy(data) ==> r == DefaultReferralReward
    ensures Truthy(r.amount) || r.amount == Num(0)
    ensures Truthy(r.blockUpdate) || r.blockUpdate == Num(0)
    ensures Truthy(data) && !Truthy(Get(data, "value")) ==> r == ReferralReward(OrZero(cv(Num(0))), OrZero(cv(Num(0))))
    ensures Truthy(data) && Truthy(Get(data, "value")) ==>
      && r.amount == OrZero(cv(Get(Get(data, "value"), "amount")))
      && r.blockUpdate == OrZero(cv(Get(Get(data, "value"), "block-update")))
  {
    if Truthy(data) then
      var reward := Get(data, "value");
      ReferralReward(
        OrZero(cv(if Truthy(reward) then Get(reward, "amount") else Num(0))),
        OrZero(cv(if Truthy(reward) then Get(reward, "block-update") else Num(0))))
    else DefaultReferralReward
  }

  // ---------------------------------------------------------- getCycleStatus

  datatype CycleStatus = CycleStatus(
    cycleId: int,
    cyclePrize: int,
    cyclePrizeClaimed: int,
    cycleConstellationAllocation: seq<int>,
    cycleAllocationClaimed: int,
    cycleWinningConstellation: int,
    cycleEndBlock: int,
    blockchainStacksHeight: int,
    blockchainTenureHeight: int)

  const DefaultCycleStatus := CycleStatus(0, 0, 0, [], 0, 0, 0, 0, 0)

  /** The payload is present when both the decoded value and its `.value` are truthy. */
  predicate HasPayload(data: Json) {
    Truthy(data) && Truthy(Get(data, "value"))
  }

  function DecodeCycleStatus(data: Json): (r: Result<CycleStatus, DecodeError>)
    ensures !HasPayload(data) ==> r == Ok(DefaultCycleStatus)
    ensures HasPayload(data) ==>
      (r.Ok? <==> AllocationList(Get(Get(data, "value"), "cycle-constellation-allocation")).Ok?)
    ensures HasPayload(data) && r.Ok? ==>
      var d := Get(data, "value");
      && r.value.cycleConstellationAllocation == AllocationList(Get(d, "cycle-constellation-allocation")).value
      && r.value.cycleId == NumField(d, "cycle-id")
      && r.value.cycleWinningConstellation == NumField(d, "cycle-winning-constellation")
  {
    if HasPayload(data) then
      var d := Get(data, "value");
      match AllocationList(Get(d, "cycle-constellation-allocation"))
      case Err(e) => Err(e)
      case Ok(allocation) =>
        Ok(CycleStatus(
          NumField(d, "cycle-id"),
          NumField(d, "cycle-prize"),
          NumField(d, "cycle-prize-claimed"),
          allocation,
          NumField(d, "cycle-allocation-claimed"),
          NumField(d, "cycle-winning-constellation"),
          NumField(d, "cycle-end-block"),
          NumField(d, "blockchain-stacks-height"),
          NumField(d, "blockchain-tenure-height")))
    else Ok(DefaultCycleStatus)
  }

  // ------------------------------------------------------ getCycleUserStatus

  datatype CycleUserStatus = CycleUserStatus(
    cyclePrize: int,
    cyclePrizeClaimed: int,
    cycleConstellationAllocation: seq<int>,
    cycleAllocationClaimed: int,
    cycleWinningConstellation: int,
    cycleEndBlock: int,
    userConstellationAllocation: seq<int>,
    userClaimed: bool,
    blockchainStacksHeight: int,
    blockchainTenureHeight: int)

  const DefaultCycleUserStatus := CycleUserStatus(0, 0, [], 0, 0, 0, [], false, 0, 0)

  /** `d['user-claimed'] === true || false`: only the boolean `true` itself counts. */
  function UserClaimed(d: Json): (claimed: bool)
    ensures claimed <==> Get(d, "user-claimed") == Bool(true)
  {
    Get(d, "user-claimed") == Bool(true)
  }

  function DecodeCycleUserStatus(data: Json): (r: Result<CycleUserStatus, DecodeError>)
    ensures !HasPayload(data) ==> r == Ok(DefaultCycleUserStatus)
    ensures HasPayload(data) ==>
      var d := Get(data, "value");
      (r.Ok? <==> AllocationList(Get(d, "cycle-constellation-allocation")).Ok?
                  && AllocationList(Get(d, "user-constellation-allocation")).Ok?)
    ensures r.Ok? ==> (r.value.userClaimed ==> HasPayload(data) && Get(Get(data, "value"), "user-claimed") == Bool(true))
  {
    if HasPayload(data) then
      var d := Get(data, "value");
      match AllocationList(Get(d, "cycle-constellation-allocation"))
      case Err(e) => Err(e)
      case Ok(cycleAllocation) =>
        match AllocationList(Get(d, "user-constellation-allocation"))
        case Err(e) => Err(e)
        case Ok(userAllocation) =>
          Ok(CycleUserStatus(
            NumField(d, "cycle-prize"),
            NumField(d, "cycle-prize-claimed"),
            cycleAllocation,
            NumField(d, "cycle-allocation-claimed"),
            NumField(d, "cycle-winning-constellation"),
            NumField(d, "cycle-end-block"),
            userAllocation,
            UserClaimed(d),
            NumField(d, "blockchain-stacks-height"),
            NumField(d, "blockchain-tenure-height")))
    else Ok(DefaultCycleUserStatus)
  }

  // ------------------------------------------------ getCurrentCycleUserStatus

  datatype CurrentCycleUserStatus = CurrentCycleUserStatus(
    cycleId: int,
    cyclePrize: int,
    cyclePrizeClaimed: int,
    cycleConstellationAllocation: seq<int>,
    cycleAllocationClaimed: int,
    cycleEndBlock: int,
    userConstellationAllocation: seq<int>,
    userClaimed: bool,
    blockchainStacksHeight: int,
    blockchainTenureHeight: int)

  const DefaultCurrentCycleUserStatus := CurrentCycleUserStatus(0, 0, 0, [], 0, 0, [], false, 0, 0)

  function DecodeCurrentCycleUserStatus(data: Json): (r: Result<CurrentCycleUserStatus, DecodeError>)
    ensures !HasPayload(data) ==> r == Ok(DefaultCurrentCycleUserStatus)
    ensures HasPayload(data) ==>
      var d := Get(data, "value");
      (r.Ok? <==> AllocationList(Get(d, "cycle-constellation-allocation")).Ok?
                  && AllocationList(Get(d, "user-constellation-allocation")).Ok?)
    ensures r.Ok? ==> (r.value.userClaimed ==> HasPayload(data) && Get(Get(data, "value"), "user-claimed") == Bool(true))
  {
    if HasPayload(data) then
      var d := Get(data, "value");
      match AllocationList(Get(d, "cycle-constellation-allocation"))
      case Err(e) => Err(e)
      case Ok(cycleAllocation) =>
        match AllocationList(Get(d, "user-constellation-allocation"))
        case Err(e) => Err(e)
        case Ok(userAllocation) =>
          Ok(CurrentCycleUserStatus(
            NumField(d, "cycle-id"),
            NumField(d, "cycle-prize"),
            NumField(d, "cycle-prize-claimed"),
            cycleAllocation,
            NumField(d, "cycle-allocation-claimed"),
            NumField(d, "cycle-end-block"),
            userAllocation,
            UserClaimed(d),
            NumField(d, "blockchain-stacks-height"),
            NumField(d, "blockchain-tenure-height")))
    else Ok(DefaultCurrentCycleUserStatus)
  }

  // ---------------------------------------------------------- getCurrentCycle

  datatype CurrentCycleData = CurrentCycleData(
    cycleId: int,
    cyclePrize: int,
    cyclePrizeClaimed: int,
    cycleConstellationAllocation: seq<int>,
    cycleAllocationClaimed: int,
    cycleEndBlock: int,
    blockchainStacksHeight: int,
    blockchainTenureHeight: int)

  const DefaultCurrentCycleData := CurrentCycleData(0, 0, 0, [], 0, 0, 0, 0)

  function DecodeCurrentCycle(data: Json): (r: Result<CurrentCycleData, DecodeError>)
    ensures !HasPayload(data) ==> r == Ok(DefaultCurrentCycleData)
    ensures HasPayload(data) ==>
      (r.Ok? <==> AllocationList(Get(Get(data, "value"), "cycle-constellation-allocation")).Ok?)
  {
    if HasPayload(data) then
      var d := Get(data, "value");
      match AllocationList(Get(d, "cycle-constellation-allocation"))
      case Err(e) => Err(e)
      case Ok(allocation) =>
        Ok(CurrentCycleData(
          NumField(d, "cycle-id"),
          NumField(d, "cycle-prize"),
          NumField(d, "cycle-prize-claimed"),
          allocation,
          NumField(d, "cycle-allocation-claimed"),
          NumField(d, "cycle-end-block"),
          NumField(d, "blockchain-stacks-height"),
          NumField(d, "blockchain-tenure-height")))
    else Ok(DefaultCurrentCycleData)
  }

  // -------------------------------------------------------- getCurrentCycleId

  /** `data ? parseInt(data) : 0`, with no `|| 0`: `None` is NaN. */
  function DecodeCurrentCycleId(data: Json): (r: Option<int>)
    ensures !Truthy(data) ==> r == Some(0)
    ensures r.None? ==> Truthy(data)
  {
    if Truthy(data) then ParseInt(JsString(data)) else Some(0)
  }

  /** An absent id is 0; a number or a uint's digits give that number back. */
  lemma CurrentCycleIdOfNumber(n: nat)
    ensures DecodeCurrentCycleId(Num(n)) == Some(n)
    ensures DecodeCurrentCycleId(Str(NatToString(n))) == Some(n)
  {
    ParseIntRoundTrip(n);
    ParseUnsignedRoundTrip(n);
  }

  // ------------------------------------------------- payloads the decoders read

  /** A uint field in the shape the decoders read: an object whose `.value` holds the digits. */
  function UIntJson(n: nat): Json {
    Obj(map["value" := Str(NatToString(n))])
  }

  predicate Naturals(xs: seq<int>) {
    forall i :: 0 <= i < |xs| ==> xs[i] >= 0
  }

  function UIntItems(xs: seq<int>): (items: seq<Json>)
    requires Naturals(xs)
    ensures |items| == |xs|
  {
    seq(|xs|, i requires 0 <= i < |xs| => UIntJson(xs[i]))
  }

  /** A list-of-uint field: an object whose `.value` is the array of uint fields. */
  function UIntListJson(xs: seq<int>): Json
    requires Naturals(xs)
  {
    Obj(map["value" := Arr(UIntItems(xs))])
  }

  /** Decoding a list of uints gives back the list, element for element. */
  lemma AllocationListRoundTrip(xs: seq<int>)
    requires Naturals(xs)
    ensures AllocationList(UIntListJson(xs)) == Ok(xs)
  {
    var items := UIntItems(xs);
    assert Get(UIntListJson(xs), "value") == Arr(items);
    var r := ParseAllocationItems(items);
    assert r.Ok?;
    forall i | 0 <= i < |xs|
      ensures r.value[i] == xs[i]
    {
      assert Get(items[i], "value") == Str(NatToString(xs[i]));
      ParseIntOr0OfDigits(xs[i]);
    }
    assert r.value == xs;
  }

  lemma ListFieldOfUInts(m: map<string, Json>, key: string, xs: seq<int>)
    requires Naturals(xs)
    requires key in m && m[key] == UIntListJson(xs)
    ensures AllocationList(Get(Obj(m), key)) == Ok(xs)
  {
    AllocationListRoundTrip(xs);
  }

  lemma NumFieldOfUInt(m: map<string, Json>, key: string, n: nat)
    requires key in m && m[key] == UIntJson(n)
    ensures NumField(Obj(m), key) == n
  {
    ParseIntOr0OfDigits(n);
  }

  predicate NaturalCycleStatus(s: CycleStatus) {
    && s.cycleId >= 0 && s.cyclePrize >= 0 && s.cyclePrizeClaimed >= 0
    && Naturals(s.cycleConstellationAllocation)
    && s.cycleAllocationClaimed >= 0 && s.cycleWinningConstellation >= 0 && s.cycleEndBlock >= 0
    && s.blockchainStacksHeight >= 0 && s.blockchainTenureHeight >= 0
  }

  /** The read-only result of `get-cycle-status` as the decoder expects it to arrive. */
  function EncodeCycleStatus(s: CycleStatus): Json
    requires NaturalCycleStatus(s)
  {
    Obj(map["value" := Obj(map[
      "cycle-id" := UIntJson(s.cycleId),
      "cycle-prize" := UIntJson(s.cyclePrize),
      "cycle-prize-claimed" := UIntJson(s.cyclePrizeClaimed),
      "cycle-constellation-allocation" := UIntListJson(s.cycleConstellationAllocation),
      "cycle-allocation-claimed" := UIntJson(s.cycleAllocationClaimed),
      "cycle-winning-constellation" := UIntJson(s.cycleWinningConstellation),
      "cycle-end-block" := UIntJson(s.cycleEndBlock),
      "blockchain-stacks-height" := UIntJson(s.blockchainStacksHeight),
      "blockchain-tenure-height" := UIntJson(s.blockchainTenureHeight)])])
  }

  /** The first numeric fields of an encoded CycleStatus decode to their values. */
  lemma CycleStatusFieldsA(s: CycleStatus)
    requires NaturalCycleStatus(s)
    ensures var d := Get(EncodeCycleStatus(s), "value");
      && NumField(d, "cycle-id") == s.cycleId
      && NumField(d, "cycle-prize") == s.cyclePrize
      && NumField(d, "cycle-prize-claimed") == s.cyclePrizeClaimed
      && NumField(d, "cycle-allocation-claimed") == s.cycleAllocationClaimed
  {
    var m := Get(EncodeCycleStatus(s), "value").fields;
    assert m["cycle-id"] == UIntJson(s.cycleId);
    NumFieldOfUInt(m, "cycle-id", s.cycleId);
    assert m["cycle-prize"] == UIntJson(s.cyclePrize);
    NumFieldOfUInt(m, "cycle-prize", s.cyclePrize);
    assert m["cycle-prize-claimed"] == UIntJson(s.cyclePrizeClaimed);
    NumFieldOfUInt(m, "cycle-prize-claimed", s.cyclePrizeClaimed);
    assert m["cycle-allocation-claimed"] == UIntJson(s.cycleAllocationClaimed);
    NumFieldOfUInt(m, "cycle-allocation-claimed", s.cycleAllocationClaimed);
  }

  /** The remaining fields of an encoded CycleStatus decode to their values. */
  lemma CycleStatusFieldsB(s: CycleStatus)
    requires NaturalCycleStatus(s)
    ensures var d := Get(EncodeCycleStatus(s), "value");
      && NumField(d, "cycle-winning-constellation") == s.cycleWinningConstellation
      && NumField(d, "cycle-end-block") == s.cycleEndBlock
      && NumField(d, "blockchain-stacks-height") == s.blockchainStacksHeight
      && NumField(d, "blockchain-tenure-height") == s.blockchainTenureHeight
  {
    var m := Get(EncodeCycleStatus(s), "value").fields;
    assert m["cycle-winning-constellation"] == UIntJson(s.cycleWinningConstellation);
    NumFieldOfUInt(m, "cycle-winning-constellation", s.cycleWinningConstellation);
    assert m["cycle-end-block"] == UIntJson(s.cycleEndBlock);
    NumFieldOfUInt(m, "cycle-end-block", s.cycleEndBlock);
    assert m["blockchain-stacks-height"] == UIntJson(s.blockchainStacksHeight);
    NumFieldOfUInt(m, "blockchain-stacks-height", s.blockchainStacksHeight);
    assert m["blockchain-tenure-height"] == UIntJson(s.blockchainTenureHeight);
    NumFieldOfUInt(m, "blockchain-tenure-height", s.blockchainTenureHeight);
  }

  /** The list fields of an encoded CycleStatus decode to their values. */
  lemma CycleStatusFieldsC(s: CycleStatus)
    requires NaturalCycleStatus(s)
    ensures var d := Get(EncodeCycleStatus(s), "value");
      && AllocationList(Get(d, "cycle-constellation-allocation")) == Ok(s.cycleConstellationAllocation)
  {
    var m := Get(EncodeCycleStatus(s), "value").fields;
    ListFieldOfUInts(m, "cycle-constellation-allocation", s.cycleConstellationAllocation);
  }

  /** `DecodeCycleStatus` on any payload whose fields read as those of `s`. */
  lemma DecodeCycleStatusOf(data: Json, s: CycleStatus)
    requires HasPayload(data)
    requires var d := Get(data, "value");
      && NumField(d, "cycle-id") == s.cycleId
      && NumField(d, "cycle-prize") == s.cyclePrize
      && NumField(d, "cycle-prize-claimed") == s.cyclePrizeClaimed
      && NumField(d, "cycle-allocation-claimed") == s.cycleAllocationClaimed
      && NumField(d, "cycle-winning-constellation") == s.cycleWinningConstellation
      && NumField(d, "cycle-end-block") == s.cycleEndBlock
      && NumField(d, "blockchain-stacks-height") == s.blockchainStacksHeight
      && NumField(d, "blockchain-tenure-height") == s.blockchainTenureHeight
      && AllocationList(Get(d, "cycle-constellation-allocation")) == Ok(s.cycleConstellationAllocation)
    ensures DecodeCycleStatus(data) == Ok(s)
  {
  }

  /** Every field of a well-formed CycleStatus survives decoding. */
  lemma DecodeCycleStatusRoundTrip(s: CycleStatus)
    requires NaturalCycleStatus(s)
    ensures DecodeCycleStatus(EncodeCycleStatus(s)) == Ok(s)
  {
    CycleStatusFieldsA(s);
    CycleStatusFieldsB(s);
    CycleStatusFieldsC(s);
    assert HasPayload(EncodeCycleStatus(s));
    DecodeCycleStatusOf(EncodeCycleStatus(s), s);
  }

  predicate NaturalCycleUserStatus(s: CycleUserStatus) {
    && s.cyclePrize >= 0 && s.cyclePrizeClaimed >= 0
    && Naturals(s.cycleConstellationAllocation) && Naturals(s.userConstellationAllocation)
    && s.cycleAllocationClaimed >= 0 && s.cycleWinningConstellation >= 0 && s.cycleEndBlock >= 0
    && s.blockchainStacksHeight >= 0 && s.blockchainTenureHeight >= 0
  }

  /** The read-only result of `get-cycle-user-status`, with `user-claimed` a plain boolean. */
  function EncodeCycleUserStatus(s: CycleUserStatus): Json
    requires NaturalCycleUserStatus(s)
  {
    Obj(map["value" := Obj(map[
      "cycle-prize" := UIntJson(s.cyclePrize),
      "cycle-prize-claimed" := UIntJson(s.cyclePrizeClaimed),
      "cycle-constellation-allocation" := UIntListJson(s.cycleConstellationAllocation),
      "cycle-allocation-claimed" := UIntJson(s.cycleAllocationClaimed),
      "cycle-winning-constellation" := UIntJson(s.cycleWinningConstellation),
      "cycle-end-block" := UIntJson(s.cycleEndBlock),
      "user-constellation-allocation" := UIntListJson(s.userConstellationAllocation),
      "user-claimed" := Bool(s.userClaimed),
      "blockchain-stacks-height" := UIntJson(s.blockchainStacksHeight),
      "blockchain-tenure-height" := UIntJson(s.blockchainTenureHeight)])])
  }

  /** The first numeric fields of an encoded CycleUserStatus decode to their values. */
  lemma CycleUserStatusFieldsA(s: CycleUserStatus)
    requires NaturalCycleUserStatus(s)
    ensures var d := Get(EncodeCycleUserStatus(s), "value");
      && NumField(d, "cycle-prize") == s.cyclePrize
      && NumField(d, "cycle-prize-claimed") == s.cyclePrizeClaimed
      && NumField(d, "cycle-allocation-claimed") == s.cycleAllocationClaimed
      && NumField(d, "cycle-winning-constellation") == s.cycleWinningConstellation
  {
    var m := Get(EncodeCycleUserStatus(s), "value").fields;
    assert m["cycle-prize"] == UIntJson(s.cyclePrize);
    NumFieldOfUInt(m, "cycle-prize", s.cyclePrize);
    assert m["cycle-prize-claimed"] == UIntJson(s.cyclePrizeClaimed);
    NumFieldOfUInt(m, "cycle-prize-claimed", s.cyclePrizeClaimed);
    assert m["cycle-allocation-claimed"] == UIntJson(s.cycleAllocationClaimed);
    NumFieldOfUInt(m, "cycle-allocation-claimed", s.cycleAllocationClaimed);
    assert m["cycle-winning-constellation"] == UIntJson(s.cycleWinningConstellation);
    NumFieldOfUInt(m, "cycle-winning-constellation", s.cycleWinningConstellation);
  }

  /** The remaining fields of an encoded CycleUserStatus decode to their values. */
  lemma CycleUserStatusFieldsB(s: CycleUserStatus)
    requires NaturalCycleUserStatus(s)
    ensures var d := Get(EncodeCycleUserStatus(s), "value");
      && NumField(d, "cycle-end-block") == s.cycleEndBlock
      && NumField(d, "blockchain-stacks-height") == s.blockchainStacksHeight
      && NumField(d, "blockchain-tenure-height") == s.blockchainTenureHeight
  {
    var m := Get(EncodeCycleUserStatus(s), "value").fields;
    assert m["cycle-end-block"] == UIntJson(s.cycleEndBlock);
    NumFieldOfUInt(m, "cycle-end-block", s.cycleEndBlock);
    assert m["blockchain-stacks-height"] == UIntJson(s.blockchainStacksHeight);
    NumFieldOfUInt(m, "blockchain-stacks-height", s.blockchainStacksHeight);
    assert m["blockchain-tenure-height"] == UIntJson(s.blockchainTenureHeight);
    NumFieldOfUInt(m, "blockchain-tenure-height", s.blockchainTenureHeight);
  }

  /** The claim flag of an encoded CycleUserStatus decodes to its value. */
  lemma CycleUserStatusFieldsD(s: CycleUserStatus)
    requires NaturalCycleUserStatus(s)
    ensures UserClaimed(Get(EncodeCycleUserStatus(s), "value")) == s.userClaimed
  {
    var m := Get(EncodeCycleUserStatus(s), "value").fields;
    assert "user-claimed" in m && m["user-claimed"] == Bool(s.userClaimed);
  }

  /** The list fields of an encoded CycleUserStatus decode to their values. */
  lemma CycleUserStatusFieldsC(s: CycleUserStatus)
    requires NaturalCycleUserStatus(s)
    ensures var d := Get(EncodeCycleUserStatus(s), "value");
      && AllocationList(Get(d, "cycle-constellation-allocation")) == Ok(s.cycleConstellationAllocation)
      && AllocationList(Get(d, "user-constellation-allocation")) == Ok(s.userConstellationAllocation)
  {
    var m := Get(EncodeCycleUserStatus(s), "value").fields;
    assert m["cycle-constellation-allocation"] == UIntListJson(s.cycleConstellationAllocation);
    ListFieldOfUInts(m, "cycle-constellation-allocation", s.cycleConstellationAllocation);
    assert m["user-constellation-allocation"] == UIntListJson(s.userConstellationAllocation);
    ListFieldOfUInts(m, "user-constellation-allocation", s.userConstellationAllocation);
  }

  /** `DecodeCycleUserStatus` on any payload whose fields read as those of `s`. */
  lemma DecodeCycleUserStatusOf(data: Json, s: CycleUserStatus)
    requires HasPayload(data)
    requires var d := Get(data, "value");
      && NumField(d, "cycle-prize") == s.cyclePrize
      && NumField(d, "cycle-prize-claimed") == s.cyclePrizeClaimed
      && NumField(d, "cycle-allocation-claimed") == s.cycleAllocationClaimed
      && NumField(d, "cycle-winning-constellation") == s.cycleWinningConstellation
      && NumField(d, "cycle-end-block") == s.cycleEndBlock
      && NumField(d, "blockchain-stacks-height") == s.blockchainStacksHeight
      && NumField(d, "blockchain-tenure-height") == s.blockchainTenureHeight
      && AllocationList(Get(d, "cycle-constellation-allocation")) == Ok(s.cycleConstellationAllocation)
      && AllocationList(Get(d, "user-constellation-allocation")) == Ok(s.userConstellationAllocation)
      && UserClaimed(d) == s.userClaimed
    ensures DecodeCycleUserStatus(data) == Ok(s)
  {
  }

  /** Every field of a well-formed CycleUserStatus survives decoding. */
  lemma DecodeCycleUserStatusRoundTrip(s: CycleUserStatus)
    requires NaturalCycleUserStatus(s)
    ensures DecodeCycleUserStatus(EncodeCycleUserStatus(s)) == Ok(s)
  {
    CycleUserStatusFieldsA(s);
    CycleUserStatusFieldsB(s);
    CycleUserStatusFieldsC(s);
    CycleUserStatusFieldsD(s);
    assert HasPayload(EncodeCycleUserStatus(s));
    DecodeCycleUserStatusOf(EncodeCycleUserStatus(s), s);
  }

  predicate NaturalCurrentCycleUserStatus(s: CurrentCycleUserStatus) {
    && s.cycleId >= 0 && s.cyclePrize >= 0 && s.cyclePrizeClaimed >= 0
    && Naturals(s.cycleConstellationAllocation) && Naturals(s.userConstellationAllocation)
    && s.cycleAllocationClaimed >= 0 && s.cycleEndBlock >= 0
    && s.blockchainStacksHeight >= 0 && s.blockchainTenureHeight >= 0
  }

  function EncodeCurrentCycleUserStatus(s: CurrentCycleUserStatus): Json
    requires NaturalCurrentCycleUserStatus(s)
  {
    Obj(map["value" := Obj(map[
      "cycle-id" := UIntJson(s.cycleId),
      "cycle-prize" := UIntJson(s.cyclePrize),
      "cycle-prize-claimed" := UIntJson(s.cyclePrizeClaimed),
      "cycle-constellation-allocation" := UIntListJson(s.cycleConstellationAllocation),
      "cycle-allocation-claimed" := UIntJson(s.cycleAllocationClaimed),
      "cycle-end-block" := UIntJson(s.cycleEndBlock),
      "user-constellation-allocation" := UIntListJson(s.userConstellationAllocation),
      "user-claimed" := Bool(s.userClaimed),
      "blockchain-stacks-height" := UIntJson(s.blockchainStacksHeight),
      "blockchain-tenure-height" := UIntJson(s.blockchainTenureHeight)])])
  }

  /** The first numeric fields of an encoded CurrentCycleUserStatus decode to their values. */
  lemma CurrentCycleUserStatusFieldsA(s: CurrentCycleUserStatus)
    requires NaturalCurrentCycleUserStatus(s)
    ensures var d := Get(EncodeCurrentCycleUserStatus(s), "value");
      && NumField(d, "cycle-id") == s.cycleId
      && NumField(d, "cycle-prize") == s.cyclePrize
      && NumField(d, "cycle-prize-claimed") == s.cyclePrizeClaimed
      && NumField(d, "cycle-allocation-claimed") == s.cycleAllocationClaimed
  {
    var m := Get(EncodeCurrentCycleUserStatus(s), "value").fields;
    assert m["cycle-id"] == UIntJson(s.cycleId);
    NumFieldOfUInt(m, "cycle-id", s.cycleId);
    assert m["cycle-prize"] == UIntJson(s.cyclePrize);
    NumFieldOfUInt(m, "cycle-prize", s.cyclePrize);
    assert m["cycle-prize-claimed"] == UIntJson(s.cyclePrizeClaimed);
    NumFieldOfUInt(m, "cycle-prize-claimed", s.cyclePrizeClaimed);
    assert m["cycle-allocation-claimed"] == UIntJson(s.cycleAllocationClaimed);
    NumFieldOfUInt(m, "cycle-allocation-claimed", s.cycleAllocationClaimed);
  }

  /** The remaining fields of an encoded CurrentCycleUserStatus decode to their values. */
  lemma CurrentCycleUserStatusFieldsB(s: CurrentCycleUserStatus)
    requires NaturalCurrentCycleUserStatus(s)
    ensures var d := Get(EncodeCurrentCycleUserStatus(s), "value");
      && NumField(d, "cycle-end-block") == s.cycleEndBlock
      && NumField(d, "blockchain-stacks-height") == s.blockchainStacksHeight
      && NumField(d, "blockchain-tenure-height") == s.blockchainTenureHeight
  {
    var m := Get(EncodeCurrentCycleUserStatus(s), "value").fields;
    assert m["cycle-end-block"] == UIntJson(s.cycleEndBlock);
    NumFieldOfUInt(m, "cycle-end-block", s.cycleEndBlock);
    assert m["blockchain-stacks-height"] == UIntJson(s.blockchainStacksHeight);
    NumFieldOfUInt(m, "blockchain-stacks-height", s.blockchainStacksHeight);
    assert m["blockchain-tenure-height"] == UIntJson(s.blockchainTenureHeight);
    NumFieldOfUInt(m, "blockchain-tenure-height", s.blockchainTenureHeight);
  }

  /** The claim flag of an encoded CurrentCycleUserStatus decodes to its value. */
  lemma CurrentCycleUserStatusFieldsD(s: CurrentCycleUserStatus)
    requires NaturalCurrentCycleUserStatus(s)
    ensures UserClaimed(Get(EncodeCurrentCycleUserStatus(s), "value")) == s.userClaimed
  {
    var m := Get(EncodeCurrentCycleUserStatus(s), "value").fields;
    assert "user-claimed" in m && m["user-claimed"] == Bool(s.userClaimed);
  }

  /** The list fields of an encoded CurrentCycleUserStatus decode to their values. */
  lemma CurrentCycleUserStatusFieldsC(s: CurrentCycleUserStatus)
    requires NaturalCurrentCycleUserStatus(s)
    ensures var d := Get(EncodeCurrentCycleUserStatus(s), "value");
      && AllocationList(Get(d, "cycle-constellation-allocation")) == Ok(s.cycleConstellationAllocation)
      && AllocationList(Get(d, "user-constellation-allocation")) == Ok(s.userConstellationAllocation)
  {
    var m := Get(EncodeCurrentCycleUserStatus(s), "value").fields;
    assert m["cycle-constellation-allocation"] == UIntListJson(s.cycleConstellationAllocation);
    ListFieldOfUInts(m, "cycle-constellation-allocation", s.cycleConstellationAllocation);
    assert m["user-constellation-allocation"] == UIntListJson(s.userConstellationAllocation);
    ListFieldOfUInts(m, "user-constellation-allocation", s.userConstellationAllocation);
  }

  /** `DecodeCurrentCycleUserStatus` on any payload whose fields read as those of `s`. */
  lemma DecodeCurrentCycleUserStatusOf(data: Json, s: CurrentCycleUserStatus)
    requires HasPayload(data)
    requires var d := Get(data, "value");
      && NumField(d, "cycle-id") == s.cycleId
      && NumField(d, "cycle-prize") == s.cyclePrize
      && NumField(d, "cycle-prize-claimed") == s.cyclePrizeClaimed
      && NumField(d, "cycle-allocation-claimed") == s.cycleAllocationClaimed
      && NumField(d, "cycle-end-block") == s.cycleEndBlock
      && NumField(d, "blockchain-stacks-height") == s.blockchainStacksHeight
      && NumField(d, "blockchain-tenure-height") == s.blockchainTenureHeight
      && AllocationList(Get(d, "cycle-constellation-allocation")) == Ok(s.cycleConstellationAllocation)
      && AllocationList(Get(d, "user-constellation-allocation")) == Ok(s.userConstellationAllocation)
      && UserClaimed(d) == s.userClaimed
    ensures DecodeCurrentCycleUserStatus(data) == Ok(s)
  {
  }

  /** Every field of a well-formed CurrentCycleUserStatus survives decoding. */
  lemma DecodeCurrentCycleUserStatusRoundTrip(s: CurrentCycleUserStatus)
    requires NaturalCurrentCycleUserStatus(s)
    ensures DecodeCurrentCycleUserStatus(EncodeCurrentCycleUserStatus(s)) == Ok(s)
  {
    CurrentCycleUserStatusFieldsA(s);
    CurrentCycleUserStatusFieldsB(s);
    CurrentCycleUserStatusFieldsC(s);
    CurrentCycleUserStatusFieldsD(s);
    assert HasPayload(EncodeCurrentCycleUserStatus(s));
    DecodeCurrentCycleUserStatusOf(EncodeCurrentCycleUserStatus(s), s);
  }

  predicate NaturalCurrentCycleData(s: CurrentCycleData) {
    && s.cycleId >= 0 && s.cyclePrize >= 0 && s.cyclePrizeClaimed >= 0
    && Naturals(s.cycleConstellationAllocation)
    && s.cycleAllocationClaimed >= 0 && s.cycleEndBlock >= 0
    && s.blockchainStacksHeight >= 0 && s.blockchainTenureHeight >= 0
  }

  function EncodeCurrentCycleData(s: CurrentCycleData): Json
    requires NaturalCurrentCycleData(s)
  {
    Obj(map["value" := Obj(map[
      "cycle-id" := UIntJson(s.cycleId),
      "cycle-prize" := UIntJson(s.cyclePrize),
      "cycle-prize-claimed" := UIntJson(s.cyclePrizeClaimed),
      "cycle-constellation-allocation" := UIntListJson(s.cycleConstellationAllocation),
      "cycle-allocation-claimed" := UIntJson(s.cycleAllocationClaimed),
      "cycle-end-block" := UIntJson(s.cycleEndBlock),
      "blockchain-stacks-height" := UIntJson(s.blockchainStacksHeight),
      "blockchain-tenure-height" := UIntJson(s.blockchainTenureHeight)])])
  }

  /** The first numeric fields of an encoded CurrentCycleData decode to their values. */
  lemma CurrentCycleDataFieldsA(s: CurrentCycleData)
    requires NaturalCurrentCycleData(s)
    ensures var d := Get(EncodeCurrentCycleData(s), "value");
      && NumField(d, "cycle-id") == s.cycleId
      && NumField(d, "cycle-prize") == s.cyclePrize
      && NumField(d, "cycle-prize-claimed") == s.cyclePrizeClaimed
      && NumField(d, "cycle-allocation-claimed") == s.cycleAllocationClaimed
  {
    var m := Get(EncodeCurrentCycleData(s), "value").fields;
    assert m["cycle-id"] == UIntJson(s.cycleId);
    NumFieldOfUInt(m, "cycle-id", s.cycleId);
    assert m["cycle-prize"] == UIntJson(s.cyclePrize);
    NumFieldOfUInt(m, "cycle-prize", s.cyclePrize);
    assert m["cycle-prize-claimed"] == UIntJson(s.cyclePrizeClaimed);
    NumFieldOfUInt(m, "cycle-prize-claimed", s.cyclePrizeClaimed);
    assert m["cycle-allocation-claimed"] == UIntJson(s.cycleAllocationClaimed);
    NumFieldOfUInt(m, "cycle-allocation-claimed", s.cycleAllocationClaimed);
  }

  /** The remaining fields of an encoded CurrentCycleData decode to their values. */
  lemma CurrentCycleDataFieldsB(s: CurrentCycleData)
    requires NaturalCurrentCycleData(s)
    ensures var d := Get(EncodeCurrentCycleData(s), "value");
      && NumField(d, "cycle-end-block") == s.cycleEndBlock
      && NumField(d, "blockchain-stacks-height") == s.blockchainStacksHeight
      && NumField(d, "blockchain-tenure-height") == s.blockchainTenureHeight
  {
    var m := Get(EncodeCurrentCycleData(s), "value").fields;
    assert m["cycle-end-block"] == UIntJson(s.cycleEndBlock);
    NumFieldOfUInt(m, "cycle-end-block", s.cycleEndBlock);
    assert m["blockchain-stacks-height"] == UIntJson(s.blockchainStacksHeight);
    NumFieldOfUInt(m, "blockchain-stacks-height", s.blockchainStacksHeight);
    assert m["blockchain-tenure-height"] == UIntJson(s.blockchainTenureHeight);
    NumFieldOfUInt(m, "blockchain-tenure-height", s.blockchainTenureHeight);
  }

  /** The list fields of an encoded CurrentCycleData decode to their values. */
  lemma CurrentCycleDataFieldsC(s: CurrentCycleData)
    requires NaturalCurrentCycleData(s)
    ensures var d := Get(EncodeCurrentCycleData(s), "value");
      && AllocationList(Get(d, "cycle-constellation-allocation")) == Ok(s.cycleConstellationAllocation)
  {
    var m := Get(EncodeCurrentCycleData(s), "value").fields;
    ListFieldOfUInts(m, "cycle-constellation-allocation", s.cycleConstellationAllocation);
  }

  /** `DecodeCurrentCycle` on any payload whose fields read as those of `s`. */
  lemma DecodeCurrentCycleOf(data: Json, s: CurrentCycleData)
    requires HasPayload(data)
    requires var d := Get(data, "value");
      && NumField(d, "cycle-id") == s.cycleId
      && NumField(d, "cycle-prize") == s.cyclePrize
      && NumField(d, "cycle-prize-claimed") == s.cyclePrizeClaimed
      && NumField(d, "cycle-allocation-claimed") == s.cycleAllocationClaimed
      && NumField(d, "cycle-end-block") == s.cycleEndBlock
      && NumField(d, "blockchain-stacks-height") == s.blockchainStacksHeight
      && NumField(d, "blockchain-tenure-height") == s.blockchainTenureHeight
      && AllocationList(Get(d, "cycle-constellation-allocation")) == Ok(s.cycleConstellationAllocation)
    ensures DecodeCurrentCycle(data) == Ok(s)
  {
  }

  /** Every field of a well-formed CurrentCycleData survives decoding. */
  lemma DecodeCurrentCycleRoundTrip(s: CurrentCycleData)
    requires NaturalCurrentCycleData(s)
    ensures DecodeCurrentCycle(EncodeCurrentCycleData(s)) == Ok(s)
  {
    CurrentCycleDataFieldsA(s);
    CurrentCycleDataFieldsB(s);
    CurrentCycleDataFieldsC(s);
    assert HasPayload(EncodeCurrentCycleData(s));
    DecodeCurrentCycleOf(EncodeCurrentCycleData(s), s);
  }

  /** A user allocation record decodes to its flag and its list, whichever form the flag takes. */
  lemma DecodeAllocatedByUserRoundTrip(claimed: bool, wrapped: bool, xs: seq<int>)
    requires Naturals(xs)
    ensures
      var flag := if wrapped then Obj(map["value" := Bool(claimed)]) else Bool(claimed);
      DecodeAllocatedByUser(Obj(map["claimed" := flag, "constellation-allocation" := UIntListJson(xs)]))
        == Ok(AllocationData(claimed, xs))
  {
    AllocationListRoundTrip(xs);
  }

  /**
   * The status decoders read `user-claimed` with `=== true`: a flag wrapped
   * as `{type, value: true}` reads as false there, while the same field reads
   * as true under the `claimed` rule of the allocation decoder.
   */
  lemma UserClaimedIgnoresWrappedBool()
    ensures
      var wrappedTrue := WrappedBool(true);
      && !UserClaimed(Obj(map["user-claimed" := wrappedTrue]))
      && ClaimedStatus(wrappedTrue)
  {
  }

  /** A boolean in the `{type, value}` form the SDK gives tuple fields in. */
  function WrappedBool(b: bool): Json {
    Obj(map["type" := Str("bool"), "value" := Bool(b)])
  }

  /**
   * As written, both status decoders report an unclaimed cycle for a payload
   * whose `user-claimed` is a wrapped `true`.
   */
  lemma WrappedClaimReadsFalse(data: Json)
    requires HasPayload(data)
    requires Get(Get(data, "value"), "user-claimed") == WrappedBool(true)
    ensures DecodeCycleUserStatus(data).Ok? ==> !DecodeCycleUserStatus(data).value.userClaimed
    ensures DecodeCurrentCycleUserStatus(data).Ok? ==> !DecodeCurrentCycleUserStatus(data).value.userClaimed
  {
  }

  /**
   * The `user-claimed` reading the decoders evidently intend: the flag is set
   * when it is `true` itself or wraps `true`, as the `claimed` rule of the
   * allocation decoder reads it.
   */
  function UserClaimedIntended(d: Json): (claimed: bool)
    ensures claimed <==> (Get(d, "user-claimed") == Bool(true)
      || (Get(d, "user-claimed").Obj? && Get(Get(d, "user-claimed"), "value") == Bool(true)))
  {
    ClaimedStatus(Get(d, "user-claimed"))
  }

  /** The intended reading gives back the flag in both the bare and the wrapped form. */
  lemma UserClaimedIntendedReadsBoth(b: bool)
    ensures UserClaimedIntended(Obj(map["user-claimed" := Bool(b)])) == b
    ensures UserClaimedIntended(Obj(map["user-claimed" := WrappedBool(b)])) == b
  {
    assert Get(Obj(map["user-claimed" := WrappedBool(b)]), "user-claimed") == WrappedBool(b);
    assert Get(WrappedBool(b), "value") == Bool(b);
  }

  // ------------------------------------------------------ public contract calls

  datatype ClarityArg = UIntArg(n: nat) | PrincipalArg(principal: string)

  datatype FungibleCondition = Eq | Gt

  datatype PostConditionMode = Allow | Deny

  /** A fungible-token post-condition: `address` must send `condition` `amount` of `asset`. */
  datatype FtPostCondition = FtPostCondition(address: string, condition: FungibleCondition, amount: nat, asset: string)

  datatype ContractCall = ContractCall(
    functionName: string,
    args: seq<ClarityArg>,
    postConditions: seq<FtPostCondition>,
    mode: PostConditionMode)

  /** `${contractAddress}.${contractName}`. */
  function ContractAddress(contractAddress: string, contractName: string): (id: string)
    ensures |id| == |contractAddress| + 1 + |contractName|
    ensures id[..|contractAddress|] == contractAddress
    ensures id[|contractAddress|] == '.'
    ensures id[|contractAddress| + 1..] == contractName
  {
    contractAddress + "." + contractName
  }

  /** Whether a transfer of `sent` by one principal passes one post-condition. */
  predicate Satisfies(pc: FtPostCondition, sent: nat) {
    match pc.condition
    case Eq => sent == pc.amount
    case Gt => sent > pc.amount
  }

  /**
   * Whether a call lets `address` send `sent` of `asset`: every post-condition
   * on that principal and asset holds, and in Deny mode a non-zero transfer
   * must be covered by one of them.
   */
  predicate AllowsTransfer(call: ContractCall, address: string, asset: string, sent: nat) {
    && (forall pc :: pc in call.postConditions && pc.address == address && pc.asset == asset ==> Satisfies(pc, sent))
    && (call.mode == Deny && sent > 0 ==>
          exists pc :: pc in call.postConditions && pc.address == address && pc.asset == asset)
  }

  /** `referralUser ? referralUser : the caller`: an absent or empty referrer means the caller. */
  function Referrer(referralUser: Option<string>, sender: string): (referrer: string)
    ensures referralUser.Some? && referralUser.value != "" ==> referrer == referralUser.value
    ensures referralUser.None? || referralUser.value == "" ==> referrer == sender
  {
    if referralUser.Some? && referralUser.value != "" then referralUser.value else sender
  }

  /** The `allocate` call: `(amount, constellation, referrer)`, and the caller must send exactly `amount`. */
  function AllocateCall(amount: nat, constellation: nat, referralUser: Option<string>, sender: string, asset: string): (call: ContractCall)
    ensures call.functionName == "allocate" && call.mode == Deny
    ensures call.args == [UIntArg(amount), UIntArg(constellation), PrincipalArg(Referrer(referralUser, sender))]
    ensures forall x: nat :: AllowsTransfer(call, sender, asset, x) <==> x == amount
  {
    var pc := FtPostCondition(sender, Eq, amount, asset);
    var call := ContractCall("allocate", [UIntArg(amount), UIntArg(constellation), PrincipalArg(Referrer(referralUser, sender))], [pc], Deny);
    assert pc in call.postConditions && pc.address == sender && pc.asset == asset;
    call
  }

  /**
   * The `claim-reward` call: the game contract, named by its id
   * `ContractAddress(contractAddress, contractName)`, must send the caller more than 0.
   */
  function ClaimRewardCall(cycleId: nat, contractAddress: string, contractName: string, asset: string): (call: ContractCall)
    ensures call.functionName == "claim-reward" && call.mode == Deny
    ensures call.args == [UIntArg(cycleId)]
    ensures forall x: nat :: AllowsTransfer(call, ContractAddress(contractAddress, contractName), asset, x) <==> x > 0
  {
    var gameContract := ContractAddress(contractAddress, contractName);
    var pc := FtPostCondition(gameContract, Gt, 0, asset);
    var call := ContractCall("claim-reward", [UIntArg(cycleId)], [pc], Deny);
    assert pc in call.postConditions && pc.address == gameContract && pc.asset == asset;
    call
  }

  /** The `claim-referral-reward` call: no arguments, no post-conditions, Allow mode. */
  function ClaimReferralRewardCall(): (call: ContractCall)
    ensures call.args == [] && call.mode == Allow
    ensures forall address, asset, x: nat :: AllowsTransfer(call, address, asset, x)
  {
    ContractCall("claim-referral-reward", [], [], Allow)
  }
}
