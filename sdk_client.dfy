/**
 * The client of `typescript-sdk/src/index.ts`, the revision that binds only the redeemer:
 * the challenge is the sender's address alone and `anonAuthorise` takes five arguments.
 */
module SdkClient {
  import opened Hex
  import opened BigNum
  import opened Crypto
  import opened Engine
  import AnonAuthoriserClient

  /**
   * `generateInputForAuthorisation(senderAddress, privateKey)`: one `elliptic` signature over
   * the framed digest of the sender's address bytes, split into `v`, `r`, `s`.
   */
  function GenerateInputForAuthorisation(c: Primitives, senderAddress: string, privateKey: seq<byte>): (inp: AuthorisationInput)
    requires WellFormedHex(Slice2(senderAddress))
    ensures var sig := c.sign(c.keccak(EthMessagePrefix() + c.keccak(PrefixedHexToBuffer(senderAddress))), privateKey);
      inp.v == sig.recoveryParam && inp.r == ToArray(sig.r) && inp.s == ToArray(sig.s)
  {
    var msgBuffer := GeneratePrefixedMessage(c, PrefixedHexToBuffer(senderAddress));
    var sig := c.sign(msgBuffer, privateKey);
    AuthorisationInput(sig.recoveryParam, ToArray(sig.r), ToArray(sig.s))
  }

  /**
   * This revision signs the sender's 20 address bytes with no caller bound to them: they are
   * the first 20 bytes of the two-address payload, whatever the caller.
   */
  lemma PayloadIsTwoAddressPayloadTruncated(senderAddress: Address, callerAddress: string)
    requires WellFormedHex(Slice2(callerAddress))
    ensures |PrefixedHexToBuffer(senderAddress)| == 20
    ensures PrefixedHexToBuffer(senderAddress) == AnonAuthoriserClient.ChallengePayload(senderAddress, callerAddress)[..20]
  {
    var p := PrefixedHexToBuffer(senderAddress);
    assert (p + PrefixedHexToBuffer(callerAddress))[..|p|] == p;
  }

  /**
   * Both revisions sign whatever payload they are given with the same framing and the same
   * signer: given equal payload bytes, they produce the same `v`, `r`, `s`.
   */
  lemma SameSignatureAsTwoAddressRevision(c: Primitives, senderAddress: string, s2: string, c2: string, privateKey: seq<byte>)
    requires WellFormedHex(Slice2(senderAddress)) && WellFormedHex(Slice2(s2)) && WellFormedHex(Slice2(c2))
    requires PrefixedHexToBuffer(senderAddress) == AnonAuthoriserClient.ChallengePayload(s2, c2)
    ensures GenerateInputForAuthorisation(c, senderAddress, privateKey)
         == AnonAuthoriserClient.GenerateInputForAuthorisation(c, s2, c2, privateKey)
  {
  }

  /** A call the client makes on this revision's contract. */
  datatype ContractCall =
    | GenerateAnonAuthorisationCall(address: Address, apiFlag: ApiFlag)
    | AnonAuthoriseCall(authoriser: string, apiFlag: ApiFlag, v: nat, r: seq<byte>, s: seq<byte>)

  /**
   * The call `anonAuthorise(data)` makes: the handle's authoriser and flag as they are, and
   * `v`, `r`, `s` of one signature by the handle's key over the current signer's address.
   */
  function AuthorisationCallOf(c: Primitives, data: AnonAuthorisationData, senderAddress: Address): (call: ContractCall)
    ensures call.AnonAuthoriseCall?
    ensures call.authoriser == data.authoriser && call.apiFlag == data.apiFlag
    ensures var sig := c.sign(c.keccak(EthMessagePrefix() + c.keccak(PrefixedHexToBuffer(senderAddress))), data.privateKey);
      call.v == sig.recoveryParam && call.r == ToArray(sig.r) && call.s == ToArray(sig.s)
  {
    var inp := GenerateInputForAuthorisation(c, senderAddress, data.privateKey);
    AnonAuthoriseCall(data.authoriser, data.apiFlag, inp.v, inp.r, inp.s)
  }

  /**
   * This revision's contract as the client sees it: the address of its signer and the calls
   * made on it. What the contract does with a call is not part of this model.
   */
  class MinAnonAuthoriser {
    const signer: Address
    var calls: seq<ContractCall>

    constructor (signer: Address)
      ensures this.signer == signer && calls == []
    {
      this.signer := signer;
      calls := [];
    }

    method GenerateAnonAuthorisation(address: Address, apiFlag: ApiFlag)
      modifies this
      ensures calls == old(calls) + [GenerateAnonAuthorisationCall(address, apiFlag)]
    {
      calls := calls + [GenerateAnonAuthorisationCall(address, apiFlag)];
    }

    method AnonAuthorise(authoriser: string, apiFlag: ApiFlag, v: nat, r: seq<byte>, s: seq<byte>)
      modifies this
      ensures calls == old(calls) + [AnonAuthoriseCall(authoriser, apiFlag, v, r, s)]
    {
      calls := calls + [AnonAuthoriseCall(authoriser, apiFlag, v, r, s)];
    }
  }

  /** The object `makeAnonAuthoriserClient(contract)` returns. */
  class Client {
    const contract: MinAnonAuthoriser

    constructor (contract: MinAnonAuthoriser)
      ensures this.contract == contract
    {
      this.contract := contract;
    }

    /** Registers a fresh address with the contract, then hands back the authorisation data. */
    method GenerateAnonAuthorisation(c: Primitives, secret: nat, apiFlag: ApiFlag) returns (data: AnonAuthorisationData)
      modifies contract
      ensures contract.calls == old(contract.calls) + [GenerateAnonAuthorisationCall(RegistrationOf(c, secret, apiFlag, contract.signer).address, apiFlag)]
      ensures data == RegistrationOf(c, secret, apiFlag, contract.signer).data
    {
      var k := GenerateKeyPairAndAddress(c, secret);
      contract.GenerateAnonAuthorisation(k.address, apiFlag);
      data := AnonAuthorisationData(k.privateKey, apiFlag, contract.signer);
    }

    /** Signs the challenge for the contract's signer, then submits it with the handle's fields. */
    method AnonAuthorise(c: Primitives, data: AnonAuthorisationData)
      modifies contract
      ensures contract.calls == old(contract.calls) + [AuthorisationCallOf(c, data, contract.signer)]
    {
      var senderAddress := contract.signer;
      var inp := GenerateInputForAuthorisation(c, senderAddress, data.privateKey);
      contract.AnonAuthorise(data.authoriser, data.apiFlag, inp.v, inp.r, inp.s);
    }
  }
}
