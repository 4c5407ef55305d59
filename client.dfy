/**
 * The client of `src/index.ts`, the revision that binds the redeemer's address and the
 * address of whoever will submit the call: the two-address challenge and the two client
 * operations made against the contract interface `MinAnonAuthoriser`.
 */
module AnonAuthoriserClient {
  import opened Wrappers
  import opened Hex
  import opened BigNum
  import opened Crypto
  import opened Engine

  /** The bytes that are hashed and signed: both decoded addresses, concatenated (not hashed apart). */
  function ChallengePayload(senderAddress: string, callerAddress: string): (p: seq<byte>)
    requires WellFormedHex(Slice2(senderAddress)) && WellFormedHex(Slice2(callerAddress))
    ensures IsAddress(senderAddress) && IsAddress(callerAddress) ==>
      |p| == 40 && p[..20] == PrefixedHexToBuffer(senderAddress) && p[20..] == PrefixedHexToBuffer(callerAddress)
  {
    PrefixedHexToBuffer(senderAddress) + PrefixedHexToBuffer(callerAddress)
  }

  /** For addresses written as `0x` hex of some bytes, the payload is exactly sender ++ caller. */
  lemma ChallengePayloadOfEncoded(sender: seq<byte>, caller: seq<byte>)
    ensures WellFormedHex(Slice2("0x" + Encode(sender))) && WellFormedHex(Slice2("0x" + Encode(caller)))
    ensures ChallengePayload("0x" + Encode(sender), "0x" + Encode(caller)) == sender + caller
  {
    PrefixedHexToBufferEncode(sender);
    PrefixedHexToBufferEncode(caller);
  }

  /**
   * `generateInputForAuthorisation(senderAddress, callerAddress, privateKey)`: one `elliptic`
   * signature over the framed digest of the two-address payload, split into `v`, `r`, `s`.
   */
  function GenerateInputForAuthorisation(c: Primitives, senderAddress: string, callerAddress: string,
                                         privateKey: seq<byte>): (inp: AuthorisationInput)
    requires WellFormedHex(Slice2(senderAddress)) && WellFormedHex(Slice2(callerAddress))
    ensures var sig := c.sign(c.keccak(EthMessagePrefix() + c.keccak(ChallengePayload(senderAddress, callerAddress))), privateKey);
      inp.v == sig.recoveryParam && inp.r == ToArray(sig.r) && inp.s == ToArray(sig.s)
  {
    var msgBuffer := GeneratePrefixedMessage(c, ChallengePayload(senderAddress, callerAddress));
    var sig := c.sign(msgBuffer, privateKey);
    AuthorisationInput(sig.recoveryParam, ToArray(sig.r), ToArray(sig.s))
  }

  /** `callerAddress || senderAddress`: an omitted or empty caller defaults to the sender. */
  function EffectiveCaller(callerAddress: Option<string>, senderAddress: string): (caller: string)
    ensures (callerAddress.None? || callerAddress.value == "") ==> caller == senderAddress
    ensures (callerAddress.Some? && callerAddress.value != "") ==> caller == callerAddress.value
  {
    match callerAddress
    case Some(a) => if a != "" then a else senderAddress
    case None => senderAddress
  }

  /** A call the client makes on the contract; `MinAnonAuthoriser` exposes exactly these two. */
  datatype ContractCall =
    | GenerateAnonAuthorisationCall(address: Address, apiFlag: ApiFlag)
    | AnonAuthoriseCall(authoriser: string, apiFlag: ApiFlag, callerAddress: string, v: nat, r: seq<byte>, s: seq<byte>)

  /**
   * The call `anonAuthorise(data, callerAddress)` makes: the handle's authoriser and flag as
   * they are, the effective caller, and `v`, `r`, `s` of one signature by the handle's key
   * over the framed digest of sender ++ caller.
   */
  function AuthorisationCallOf(c: Primitives, data: AnonAuthorisationData, senderAddress: Address,
                               callerAddress: Option<string>): (call: ContractCall)
    requires WellFormedHex(Slice2(EffectiveCaller(callerAddress, senderAddress)))
    ensures call.AnonAuthoriseCall?
    ensures call.authoriser == data.authoriser && call.apiFlag == data.apiFlag
    ensures call.callerAddress == EffectiveCaller(callerAddress, senderAddress)
    ensures var sig := c.sign(c.keccak(EthMessagePrefix() + c.keccak(
              PrefixedHexToBuffer(senderAddress) + PrefixedHexToBuffer(call.callerAddress))), data.privateKey);
      call.v == sig.recoveryParam && call.r == ToArray(sig.r) && call.s == ToArray(sig.s)
  {
    var caller := EffectiveCaller(callerAddress, senderAddress);
    var inp := GenerateInputForAuthorisation(c, senderAddress, caller, data.privateKey);
    AnonAuthoriseCall(data.authoriser, data.apiFlag, caller, inp.v, inp.r, inp.s)
  }

  /**
   * The contract as the client sees it: the address of its signer and the calls made on it.
   * What the contract does with a call is not part of this model.
   */
  class MinAnonAuthoriser {
    const signer: Address
    var calls: seq<ContractCall>

    constructor (signer: Address)
      ensures this.signer == signer && calls == []
    {
      this.signer := signer;
      calls := [];
    }

    method GenerateAnonAuthorisation(address: Address, apiFlag: ApiFlag)
      modifies this
      ensures calls == old(calls) + [GenerateAnonAuthorisationCall(address, apiFlag)]
    {
      calls := calls + [GenerateAnonAuthorisationCall(address, apiFlag)];
    }

    method AnonAuthorise(authoriser: string, apiFlag: ApiFlag, callerAddress: string, v: nat, r: seq<byte>, s: seq<byte>)
      modifies this
      ensures calls == old(calls) + [AnonAuthoriseCall(authoriser, apiFlag, callerAddress, v, r, s)]
    {
      calls := calls + [AnonAuthoriseCall(authoriser, apiFlag, callerAddress, v, r, s)];
    }
  }

  /** The object `makeAnonAuthoriserClient(contract)` returns. */
  class Client {
    const contract: MinAnonAuthoriser

    constructor (contract: MinAnonAuthoriser)
      ensures this.contract == contract
    {
      this.contract := contract;
    }

    /** Registers a fresh address with the contract, then hands back the authorisation data. */
    method GenerateAnonAuthorisation(c: Primitives, secret: nat, apiFlag: ApiFlag) returns (data: AnonAuthorisationData)
      modifies contract
      ensures contract.calls == old(contract.calls) + [GenerateAnonAuthorisationCall(RegistrationOf(c, secret, apiFlag, contract.signer).address, apiFlag)]
      ensures data == RegistrationOf(c, secret, apiFlag, contract.signer).data
    {
      var k := GenerateKeyPairAndAddress(c, secret);
      contract.GenerateAnonAuthorisation(k.address, apiFlag);
      data := AnonAuthorisationData(k.privateKey, apiFlag, contract.signer);
    }

    /** Signs the challenge for the contract's signer and the effective caller, then submits it. */
    method AnonAuthorise(c: Primitives, data: AnonAuthorisationData, callerAddress: Option<string>)
      requires WellFormedHex(Slice2(EffectiveCaller(callerAddress, contract.signer)))
      modifies contract
      ensures contract.calls == old(contract.calls) + [AuthorisationCallOf(c, data, contract.signer, callerAddress)]
    {
      var senderAddress := contract.signer;
      var caller := EffectiveCaller(callerAddress, senderAddress);
      var inp := GenerateInputForAuthorisation(c, senderAddress, caller, data.privateKey);
      contract.AnonAuthorise(data.authoriser, data.apiFlag, caller, inp.v, inp.r, inp.s);
    }
  }
}
