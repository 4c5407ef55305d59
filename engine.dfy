/**
 * The pieces shared by both client revisions: the Ethereum signed-message framing of a
 * challenge, the `0x`-hex decoder, and key-pair generation with its derived address.
 */
module Engine {
  import opened Hex
  import opened BigNum
  import opened Crypto

  /** The header text of an Ethereum signed message (EIP-191 version `E`) whose body is 32 bytes. */
  const SignedMessageHeader: string := "\U{19}Ethereum Signed Message:\n32"

  predicate IsAscii(s: string) {
    forall i :: 0 <= i < |s| ==> s[i] < 128 as char
  }

  /** `Buffer.from(s)` (UTF-8) on text whose characters are all ASCII: one byte per character. */
  function Utf8(s: string): (b: seq<byte>)
    requires IsAscii(s)
    ensures |b| == |s|
    ensures forall i :: 0 <= i < |s| ==> b[i] == s[i] as int
  {
    seq(|s|, i requires 0 <= i < |s| => s[i] as int)
  }

  /** The 28 header bytes that precede the inner digest. */
  function EthMessagePrefix(): (p: seq<byte>)
    ensures |p| == 28
    ensures p[0] == 0x19 && p[1] == 0x45
    ensures p[25] == 0x0A && p[26] == 0x33 && p[27] == 0x32
    ensures p == [0x19, 0x45, 0x74, 0x68, 0x65, 0x72, 0x65, 0x75, 0x6d, 0x20, 0x53, 0x69, 0x67, 0x6e,
                  0x65, 0x64, 0x20, 0x4d, 0x65, 0x73, 0x73, 0x61, 0x67, 0x65, 0x3a, 0x0a, 0x33, 0x32]
  {
    assert IsAscii(SignedMessageHeader);
    Utf8(SignedMessageHeader)
  }

  /** `js-sha3` `keccak256(data)`: the digest as 64 lower-case hex digits. */
  function JsSha3Keccak256(c: Primitives, data: seq<byte>): (h: string)
    ensures |h| == 64 && WellFormedHex(h)
    ensures Decode(h) == c.keccak(data)
  {
    DecodeEncode(c.keccak(data));
    Encode(c.keccak(data))
  }

  /** `ethers` `keccak256(data)`: the digest as `0x` and 64 lower-case hex digits. */
  function EthersKeccak256(c: Primitives, data: seq<byte>): (h: string)
    ensures |h| == 66 && h[..2] == "0x" && WellFormedHex(h[2..])
    ensures Decode(h[2..]) == c.keccak(data)
  {
    assert ("0x" + Encode(c.keccak(data)))[2..] == Encode(c.keccak(data));
    DecodeEncode(c.keccak(data));
    "0x" + Encode(c.keccak(data))
  }

  /**
   * `generatePrefixedMessage`: hash the message, decode that hex back to 32 bytes, put the
   * header in front and hash the 60 bytes again, decoding the second hex digest too. The
   * hex round trips are invisible: the result is the outer digest of header ++ inner digest.
   */
  function GeneratePrefixedMessage(c: Primitives, msg: seq<byte>): (d: Digest)
    ensures d == c.keccak(EthMessagePrefix() + c.keccak(msg))
    ensures |EthMessagePrefix() + c.keccak(msg)| == 60
  {
    DecodeEncode(c.keccak(msg));
    var preimage := EthMessagePrefix() + Decode(JsSha3Keccak256(c, msg));
    DecodeEncode(c.keccak(preimage));
    Decode(JsSha3Keccak256(c, preimage))
  }

  /** JavaScript's `s.slice(2)`: everything after the first two characters, empty when there are fewer. */
  function Slice2(s: string): string {
    if |s| >= 2 then s[2..] else ""
  }

  /** `prefixedHexToBuffer`: drop two characters, hex-decode the rest. */
  function PrefixedHexToBuffer(s: string): (b: seq<byte>)
    requires WellFormedHex(Slice2(s))
    ensures |b| == |Slice2(s)| / 2
    ensures IsAddress(s) ==> |b| == 20
  {
    Decode(Slice2(s))
  }

  /** Whatever the first two characters are, they are dropped and only the rest is decoded. */
  lemma PrefixedHexToBufferDropsTwo(p: string, hex: string)
    requires |p| == 2 && WellFormedHex(hex)
    ensures PrefixedHexToBuffer(p + hex) == Decode(hex)
  {
    assert (p + hex)[2..] == hex;
  }

  /** Decoding inverts `0x`-prefixed hex encoding. */
  lemma PrefixedHexToBufferEncode(b: seq<byte>)
    ensures WellFormedHex(Slice2("0x" + Encode(b)))
    ensures PrefixedHexToBuffer("0x" + Encode(b)) == b
  {
    PrefixedHexToBufferDropsTwo("0x", Encode(b));
    DecodeEncode(b);
  }

  /** A key pair from `generateKeyPairAndAddress`, with its private key in bn.js byte form. */
  datatype KeyPairAndAddress = KeyPairAndAddress(privateKey: seq<byte>, publicKey: seq<byte>, address: Address)

  /**
   * `generateKeyPairAndAddress` for the secret scalar that `ec.genKeyPair()` drew at random:
   * the private key bytes denote the scalar and the address is derived from its public key.
   */
  function GenerateKeyPairAndAddress(c: Primitives, secret: nat): (k: KeyPairAndAddress)
    ensures ValueOf(k.privateKey) == secret
    ensures k.publicKey == c.publicKeyOf(secret)
    ensures k.address == c.computeAddress(c.publicKeyOf(secret))
  {
    ValueOfToArray(secret);
    KeyPairAndAddress(ToArray(secret), c.publicKeyOf(secret), c.computeAddress(c.publicKeyOf(secret)))
  }

  /** A caller-defined tag (ethers `BytesLike`) naming what an authorisation may be used for. */
  type ApiFlag = seq<byte>

  /** `AnonAuthorisationData`: the handle the authoriser passes on to whoever should redeem it. */
  datatype AnonAuthorisationData = AnonAuthorisationData(privateKey: seq<byte>, apiFlag: ApiFlag, authoriser: string)

  /** The `{ v, r, s }` built from one `elliptic` signature, `r` and `s` in bn.js byte form. */
  datatype AuthorisationInput = AuthorisationInput(v: nat, r: seq<byte>, s: seq<byte>)

  /**
   * What `generateAnonAuthorisation(apiFlag)` does, for the scalar `ec.genKeyPair()` drew: the
   * address and flag it asks the contract to register (the private key is not among them) and
   * the handle it returns, holding that scalar's key, the input flag and the signer's address.
   */
  datatype Registration = Registration(address: Address, apiFlag: ApiFlag, data: AnonAuthorisationData)

  function RegistrationOf(c: Primitives, secret: nat, apiFlag: ApiFlag, signer: Address): (reg: Registration)
    ensures reg.address == c.computeAddress(c.publicKeyOf(secret)) && reg.apiFlag == apiFlag
    ensures ValueOf(reg.data.privateKey) == secret
    ensures reg.data.apiFlag == apiFlag && reg.data.authoriser == signer
  {
    var k := GenerateKeyPairAndAddress(c, secret);
    Registration(k.address, apiFlag, AnonAuthorisationData(k.privateKey, apiFlag, signer))
  }
}
