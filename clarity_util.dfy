/**
 * Helpers for Clarity values and Stacks addresses: the `u`-prefixed uint
 * reader, the ResponseOk extractor and the address validator.
 */
module ClarityUtil {
  import opened Wrappers
  import opened Decimal

  /** The Clarity values a contract call can return. */
  datatype ClarityValue =
    | UInt(n: nat)
    | Int(i: int)
    | BoolTrue
    | BoolFalse
    | StandardPrincipal(address: string)
    | ContractPrincipal(address: string, name: string)
    | ResponseOk(value: ClarityValue)
    | ResponseErr(value: ClarityValue)
    | OptionalNone
    | OptionalSome(value: ClarityValue)
    | List(items: seq<ClarityValue>)
    | Tuple(fields: map<string, ClarityValue>)
    | StringAscii(text: string)
    | StringUtf8(text: string)

  const InvalidUIntFormat: string := "Invalid Clarity value format"
  const NotSuccessfulResponse: string := "Contract call did not return a successful response"

  /**
   * Reads a Clarity uint written as `u<digits>`: anything not starting with
   * `u` throws; otherwise the rest goes through `parseInt`, so the result is
   * NaN (`Ok(None)`) when no digit follows the `u`.
   */
  function ConvertUIntToNumber(clarityValue: string): (r: Result<Option<int>, string>)
    ensures r.Err? <==> !(|clarityValue| > 0 && clarityValue[0] == 'u')
    ensures r.Err? ==> r.error == InvalidUIntFormat
  {
    if |clarityValue| > 0 && clarityValue[0] == 'u' then Ok(ParseInt(clarityValue[1..]))
    else Err(InvalidUIntFormat)
  }

  /** Reading back the text form `u<n>` of a Clarity uint gives `n`. */
  lemma ConvertUIntRoundTrip(n: nat)
    ensures ConvertUIntToNumber("u" + NatToString(n)) == Ok(Some(n))
  {
    var s := "u" + NatToString(n);
    assert s[1..] == NatToString(n);
    ParseUnsignedRoundTrip(n);
  }

  /** Returns the inner value of a ResponseOk; every other value throws. */
  function ExtractResponse(result: ClarityValue): (r: Result<ClarityValue, string>)
    ensures r.Ok? <==> result.ResponseOk?
    ensures r.Ok? ==> result == ResponseOk(r.value)
    ensures r.Err? ==> r.error == NotSuccessfulResponse
  {
    if result.ResponseOk? then Ok(result.value) else Err(NotSuccessfulResponse)
  }


  /**
   * `base58Chars.includes(c)`, stated by character ranges: the digits 1 to 9,
   * the upper-case letters but `I` and `O`, the lower-case letters but `l`.
   */
  predicate Base58Char(c: char) {
    || ('1' <= c <= '9')
    || ('A' <= c <= 'Z' && c != 'I' && c != 'O')
    || ('a' <= c <= 'z' && c != 'l')
  }

  const Base58Digits: string := "123456789"
  const Base58Upper: string := "ABCDEFGHJKLMNPQRSTUVWXYZ"
  const Base58Lower: string := "abcdefghijkmnopqrstuvwxyz"

  /**
   * The Bitcoin Base58 alphabet the validator checks against: its digit,
   * upper-case and lower-case runs, 58 characters in all.
   */
  const Base58Alphabet: string := Base58Digits + Base58Upper + Base58Lower

  lemma Base58DigitsRange(c: char)
    ensures ('1' <= c <= '9') <==> c in Base58Digits
  {
  }

  lemma Base58UpperRange(c: char)
    ensures ('A' <= c <= 'Z' && c != 'I' && c != 'O') <==> c in Base58Upper
  {
  }

  lemma Base58LowerRange(c: char)
    ensures ('a' <= c <= 'z' && c != 'l') <==> c in Base58Lower
  {
  }

  /** The ranges are exactly the characters of the alphabet string. */
  lemma Base58CharIsAlphabet(c: char)
    ensures Base58Char(c) <==> c in Base58Alphabet
  {
    Base58DigitsRange(c);
    Base58UpperRange(c);
    Base58LowerRange(c);
  }

  const ValidPrefixes: seq<string> := ["SP", "SM", "ST", "SN"]

  /** `validPrefixes.includes(p)`. */
  predicate ValidPrefix(p: string) {
    p in ValidPrefixes
  }

  const AddressLength: nat := 40

  /** The three checks of the validator: length, prefix, Base58 body. */
  predicate ValidStacksAddress(address: string) {
    && |address| == AddressLength
    && ValidPrefix(address[..2])
    && forall i :: 2 <= i < |address| ==> Base58Char(address[i])
  }

  /** The validator as written: length check, prefix check, then a scan of the body. */
  method IsValidStacksAddress(address: string) returns (valid: bool)
    ensures valid <==> ValidStacksAddress(address)
    ensures |address| != AddressLength ==> !valid
  {
    if |address| != AddressLength {
      return false;
    }
    var prefix := address[..2];
    if !ValidPrefix(prefix) {
      return false;
    }
    var body := address[2..];
    var i := 0;
    while i < |body|
      invariant 0 <= i <= |body|
      invariant forall j :: 0 <= j < i ==> Base58Char(body[j])
    {
      if !Base58Char(body[i]) {
        assert address[2 + i] == body[i];
        return false;
      }
      i := i + 1;
    }
    assert forall k :: 2 <= k < |address| ==> address[k] == body[k - 2];
    return true;
  }

  /** Every address the validator accepts starts with `S` and a network letter `P`, `M`, `T` or `N`. */
  lemma ValidAddressPrefix(address: string)
    requires ValidStacksAddress(address)
    ensures address[0] == 'S' && address[1] in "PMTN"
  {
    var prefix := address[..2];
    assert prefix[0] == address[0] && prefix[1] == address[1];
    if prefix == "SP" {
    } else if prefix == "SM" {
    } else if prefix == "ST" {
    } else {
      assert prefix == "SN";
    }
  }

  /** The Base58 alphabet leaves out `0`, `O`, `I` and `l`, so a body holding any of them is rejected. */
  lemma AmbiguousCharactersRejected(address: string, k: int)
    requires 2 <= k < |address|
    requires address[k] in ['0', 'O', 'I', 'l']
    ensures !ValidStacksAddress(address)
  {
    Base58CharIsAlphabet(address[k]);
    assert address[k] !in Base58Alphabet;
  }

  /**
   * The validator rejects the repository's own mainnet contract address: it
   * is 41 characters long and its body contains `0` (Stacks addresses use the
   * c32 alphabet, which the validator does not implement).
   */
  lemma RejectsOwnContractAddress()
    ensures !ValidStacksAddress("SP3QZNX3CGT6V7PE1PBK17FCRK1TP1AT02ZHQCMVJ")
    ensures !ValidStacksAddress("SP3QZNX3CGT6V7PE1PBK17FCRK1TP1AT02ZHQCMV")
  {
    var shortened := "SP3QZNX3CGT6V7PE1PBK17FCRK1TP1AT02ZHQCMV";
    AmbiguousCharactersRejected(shortened, 32);
  }

  /**
   * The Crockford base-32 alphabet of Stacks (c32) addresses: the digits and
   * the upper-case letters but `I`, `L`, `O` and `U`.
   */
  const C32Alphabet: string := "0123456789ABCDEFGHJKMNPQRSTVWXYZ"

  /** A mainnet or testnet Stacks address: a valid prefix, then 39 c32 characters. */
  predicate ValidC32Address(address: string) {
    && |address| == 41
    && ValidPrefix(address[..2])
    && forall i :: 2 <= i < |address| ==> address[i] in C32Alphabet
  }

  /** The check with the c32 alphabet and length accepts the repository's own contract address. */
  lemma C32AcceptsOwnContractAddress()
    ensures ValidC32Address("SP3QZNX3CGT6V7PE1PBK17FCRK1TP1AT02ZHQCMVJ")
  {
    var address := "SP3QZNX3CGT6V7PE1PBK17FCRK1TP1AT02ZHQCMVJ";
    assert address[..2] == [address[0], address[1]] == "SP";
    forall i | 2 <= i < |address| ensures address[i] in C32Alphabet {
    }
  }

  /** The c32 check still refuses the characters c32 leaves out, and any other prefix. */
  lemma C32RejectsOutsideAlphabet(address: string, k: int)
    requires 2 <= k < |address|
    requires address[k] in ['I', 'L', 'O', 'U', 'l']
    ensures !ValidC32Address(address)
  {
    var c := address[k];
    assert forall j :: 0 <= j < |C32Alphabet| ==> C32Alphabet[j] != c;
  }
}
