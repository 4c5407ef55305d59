/**
 * The foreign cryptography the client relies on, kept uninterpreted: a `Primitives` value
 * bundles one arbitrary function per library call, so every property proved here holds
 * whatever those libraries compute. Nothing is assumed about them beyond the shapes of
 * their results (a 32-byte digest, a 64-byte compact signature, a `0x` address).
 */
module Crypto {
  import opened Hex

  /** Thirty-two bytes, such as a private key drawn with `randomBytes(32)`. */
  type Bytes32 = s: seq<byte> | |s| == 32
    witness [0, 0, 0, 0, 0, 0, 0, 0, 0, 0, 0, 0, 0, 0, 0, 0, 0, 0, 0, 0, 0, 0, 0, 0, 0, 0, 0, 0, 0, 0, 0, 0]

  /** A Keccak-256 digest, or any other 32-byte message handed to a signer. */
  type Digest = Bytes32

  /** The text form of an account address: `0x` and forty hex digits (either case). */
  predicate IsAddress(s: string) {
    |s| == 42 && s[0] == '0' && s[1] == 'x' && forall i :: 2 <= i < |s| ==> IsHexDigit(s[i])
  }

  type Address = s: string | IsAddress(s)
    witness "0x0000000000000000000000000000000000000000"

  /** An `elliptic` signature: the numbers `r`, `s` and the recovery id `recoveryParam`. */
  datatype EcSignature = EcSignature(r: nat, s: nat, recoveryParam: nat)

  /** The 64-byte compact signature of the `secp256k1` package. */
  type CompactBytes = s: seq<byte> | |s| == 64
    witness [0, 0, 0, 0, 0, 0, 0, 0, 0, 0, 0, 0, 0, 0, 0, 0, 0, 0, 0, 0, 0, 0, 0, 0, 0, 0, 0, 0, 0, 0, 0, 0,
             0, 0, 0, 0, 0, 0, 0, 0, 0, 0, 0, 0, 0, 0, 0, 0, 0, 0, 0, 0, 0, 0, 0, 0, 0, 0, 0, 0, 0, 0, 0, 0]

  /** What `secp256k1.ecdsaSign` returns: the signature bytes and the recovery id `recid`. */
  datatype CompactSignature = CompactSignature(signature: CompactBytes, recid: nat)

  datatype Primitives = Primitives(
    /** Keccak-256 (`js-sha3` and `ethers` compute the same digest; they only print it differently). */
    keccak: seq<byte> -> Digest,
    /** `elliptic`: the uncompressed public key (`getPublic('array')`) of a secret scalar. */
    publicKeyOf: nat -> seq<byte>,
    /** `secp256k1.publicKeyCreate` on 32 private-key bytes. */
    publicKeyCreate: seq<byte> -> seq<byte>,
    /** `ethers` `computeAddress` of a public key. */
    computeAddress: seq<byte> -> Address,
    /** `elliptic` `ec.sign(message, privateKey)`. */
    sign: (Digest, seq<byte>) -> EcSignature,
    /** `secp256k1.ecdsaSign(message, privateKey)`. */
    ecdsaSign: (Digest, seq<byte>) -> CompactSignature
  )
}
