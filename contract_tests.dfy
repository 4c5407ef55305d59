/**
 * The helpers and the two scenarios of `contract/test/anon-authoriser.test.ts`. The helpers
 * reach the signed digest by another route (an `ethers` hash in `0x` hex, stripped and
 * decoded) and sign with the `secp256k1` package; the scenarios drive the ledger.
 */
module ContractTests {
  import opened Hex
  import opened Crypto
  import opened Engine
  import opened Ledger

  /**
   * `generatePrefixedMsg`: the `0x` hex of the outer digest, built from the inner digest's
   * hex with `prefixedHexToBuffer`. Decoded, it is the 32-byte digest of `generatePrefixedMessage`.
   */
  function GeneratePrefixedMsg(c: Primitives, msg: seq<byte>): (h: string)
    ensures |h| == 66 && h[..2] == "0x" && WellFormedHex(Slice2(h))
    ensures PrefixedHexToBuffer(h) == GeneratePrefixedMessage(c, msg)
  {
    var inner := EthersKeccak256(c, msg);
    PrefixedHexToBufferEncode(c.keccak(msg));
    var outer := EthersKeccak256(c, EthMessagePrefix() + PrefixedHexToBuffer(inner));
    PrefixedHexToBufferEncode(c.keccak(EthMessagePrefix() + PrefixedHexToBuffer(inner)));
    outer
  }

  /** `generateKeyPairAndAddress` of the tests, for the 32 bytes `randomBytes(32)` drew. */
  function GenerateKeyPairAndAddress(c: Primitives, privateKey: Bytes32): (k: KeyPairAndAddress)
    ensures k.privateKey == privateKey
    ensures k.publicKey == c.publicKeyCreate(privateKey)
    ensures k.address == c.computeAddress(c.publicKeyCreate(privateKey))
  {
    var publicKey := c.publicKeyCreate(privateKey);
    KeyPairAndAddress(privateKey, publicKey, c.computeAddress(publicKey))
  }

  /**
   * `generateInputForAuthorisation` of the tests: a compact signature over the framed digest
   * of the sender's address bytes; `r` is its first 32 bytes and `s` the last 32, so that
   * `r ++ s` is the signature, and `v` is the recovery id.
   */
  function GenerateInputForAuthorisation(c: Primitives, senderAddress: string, privateKey: seq<byte>): (inp: AuthorisationInput)
    requires WellFormedHex(Slice2(senderAddress))
    ensures var sig := c.ecdsaSign(c.keccak(EthMessagePrefix() + c.keccak(PrefixedHexToBuffer(senderAddress))), privateKey);
      |inp.r| == 32 && |inp.s| == 32 && inp.r + inp.s == sig.signature && inp.v == sig.recid
  {
    var msg := GeneratePrefixedMsg(c, PrefixedHexToBuffer(senderAddress));
    var msgBuffer := PrefixedHexToBuffer(msg);
    var sig := c.ecdsaSign(msgBuffer, privateKey);
    assert sig.signature[..32] + sig.signature[32..] == sig.signature;
    AuthorisationInput(sig.recid, sig.signature[..32], sig.signature[32..])
  }

  /**
   * The tests' `generateAnonAuthorisation(contract)`: register a fresh address and report id 1
   * without reading it back. On a freshly deployed contract that is the id registered.
   */
  method RequestAuthorisation(c: Primitives, contract: AnonAuthoriser, randomKey: Bytes32)
      returns (privateKey: seq<byte>, authId: nat)
    requires Valid(contract.State())
    modifies contract
    ensures privateKey == randomKey && authId == 1
    ensures contract.State() == Register(old(contract.State()), GenerateKeyPairAndAddress(c, randomKey).address).0
    ensures old(contract.State()) == Deployed() ==>
      contract.State().pending == map[authId := GenerateKeyPairAndAddress(c, randomKey).address]
  {
    var k := GenerateKeyPairAndAddress(c, randomKey);
    var _ := contract.GenerateAnonAuthorisation(k.address);
    privateKey, authId := k.privateKey, 1;
  }

  /**
   * "should authenticate a user successfully": a second account, not the one that registered,
   * redeems the pending authorisation.
   */
  method ShouldAuthenticateUser(c: Primitives, deployer: Address, signer2: Address, randomKey: Bytes32)
      returns (reply: Reply)
    ensures reply == Authorised
  {
    var contract := new AnonAuthoriser(deployer);
    var privateKey, authId := RequestAuthorisation(c, contract, randomKey);
    var senderAddress := signer2;
    var inp := GenerateInputForAuthorisation(c, senderAddress, privateKey);
    reply := contract.AnonAuthorise(signer2, authId, inp.v, inp.r, inp.s);
  }

  /**
   * "fail to authenticate after key has been used": the same redemption sent twice succeeds
   * once and then reverts with "No such pending authorisation".
   */
  method FailAfterKeyUsed(c: Primitives, deployer: Address, randomKey: Bytes32)
      returns (first: Reply, second: Reply)
    ensures first == Authorised
    ensures second.Reverted? && ErrorMessage(second.error) == "No such pending authorisation"
  {
    var contract := new AnonAuthoriser(deployer);
    var privateKey, authId := RequestAuthorisation(c, contract, randomKey);
    var senderAddress := contract.signer;
    var inp := GenerateInputForAuthorisation(c, senderAddress, privateKey);
    first := contract.AnonAuthorise(contract.signer, authId, inp.v, inp.r, inp.s);
    second := contract.AnonAuthorise(contract.signer, authId, inp.v, inp.r, inp.s);
  }
}
