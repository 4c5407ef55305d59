# anon-authoriser, modelled in Dafny

anon-authoriser lets an account A hand one future action to an account it does not know yet.
A registers a fresh ephemeral address with a contract, together with a caller-chosen `apiFlag`,
and passes the ephemeral private key to B. B signs a challenge that contains B's own
address, and the contract accepts that redemption once.

This project models the TypeScript client in its two revisions and the behaviour the contract tests assert:

- **Message framing** (`Engine`). The signed digest is Keccak-256 of the 28-byte header
  `"\x19Ethereum Signed Message:\n32"` followed by the 32-byte Keccak-256 of the payload.
  The source reaches the digest through hex strings: `js-sha3` prints lower-case hex, `ethers`
  prints `0x` hex, and `Buffer.from(…, 'hex')` decodes. The model keeps these round trips and
  proves they leave exactly the bytes named above.
- **`0x`-hex decoding** (`Hex`, `Engine.PrefixedHexToBuffer`). This is JavaScript's `slice(2)`
  followed by Node's hex decoder, for well-formed input.
- **bn.js bytes** (`BigNum`). `toArray()`/`toBuffer()` give minimal big-endian bytes (`[0]` for zero).
  `elliptic`'s `r` and `s` reach the contract in this form; the private key is handed out in it.
- **Two-address client** (`AnonAuthoriserClient`, `src/index.ts`). The payload is sender ++ caller,
  and the caller defaults to the sender. There are two client operations against the contract
  interface `MinAnonAuthoriser`.
- **Single-address client** (`SdkClient`, `typescript-sdk/src/index.ts`). The payload is the
  sender alone, and `anonAuthorise` takes five arguments.
- **Chain directory** (`Directory`). `getAnonAuthoriserAddress` and `getAllDeployedChains` read
  the deployed-address map. The map is a parameter: its JSON file is not part of this model.
- **Pending-authorisation ledger** (`Ledger`) as the contract tests exercise it, with the tests'
  helpers and both scenarios (`ContractTests`).

Cryptography is uninterpreted. `Crypto.Primitives` has one arbitrary function per library call:
Keccak-256, `elliptic`'s public key and `ec.sign`, `secp256k1`'s `publicKeyCreate` and `ecdsaSign`,
and `ethers`' `computeAddress`. So every result holds whatever those libraries compute. The model
assumes only the shapes of their results: 32-byte digests, 64-byte compact signatures, and
addresses of the form `0x` plus 40 hex digits. `js-sha3` and `ethers` are taken to compute the
same Keccak-256 digest. No sign/recover round trip is assumed.

Random key generation is a parameter: the scalar `ec.genKeyPair()` draws, or the 32 bytes
`randomBytes(32)` draws. `await`, `wait()` and the transaction machinery are dropped: each contract
call is a synchronous method on an object.

The model follows the TypeScript code and the contract tests:

- The tests redeem by a numeric authorisation id, assigned from 1. They do not redeem by the
  ephemeral address.
- Neither client revision nor the contract tests check the authoriser, the flag or the recovered
  signer, and the Solidity contract is not modelled. So the ledger has no `AuthoriserMismatch`,
  `ApiFlagMismatch` or `AlreadyPending` error.
- The recovery id is whatever `elliptic` (`recoveryParam`) or `secp256k1` (`recid`) returns, not
  normalised to 27/28.

## Model

| member | source | states |
|---|---|---|
| `Hex.Encode` | src/index.ts:69-72 | the hex text a hash library prints has two digits per byte and is well-formed hex |
| `Hex.EncodeIsLowerCase` | src/index.ts:69 | the hex a hash library prints is lower case: no digit is one of `A`-`F` |
| `Hex.Decode` | src/index.ts:72 | `Buffer.from(s, 'hex')` on well-formed input yields half as many bytes; byte i is the value of digits 2i and 2i+1 (either case) |
| `Hex.DecodeEncode` | src/index.ts:68-76 | decoding inverts hex encoding, so the hex round trips lose no bits |
| `BigNum.ToArray` | src/index.ts:112-113 | bn.js `toArray()` has at least one byte; its leading byte is zero only for the number zero |
| `BigNum.ValueOfToArray` | src/index.ts:85 | the bytes denote the number they came from (private key, `r`, `s`) |
| `BigNum.ToArrayLength` | typescript-sdk/src/index.ts:93-94 | a number below 256^k takes at most k bytes, so an `r` or `s` below 2^256 has at most 32 bytes |
| `Engine.Utf8` | src/index.ts:71 | `Buffer.from` of ASCII text is one byte per character, equal to its code |
| `Engine.EthMessagePrefix` | src/index.ts:71 | the header is exactly the 28 bytes of "\x19Ethereum Signed Message:\n32": 0x19, the version byte 0x45 ('E'), …, and it ends in "\n32" |
| `Engine.JsSha3Keccak256` | src/index.ts:69 | `js-sha3` prints 64 well-formed hex digits that decode to the Keccak-256 digest of the data |
| `Engine.EthersKeccak256` | contract/test/anon-authoriser.test.ts:66 | `ethers` prints `0x` and 64 well-formed hex digits that decode to the Keccak-256 digest of the data |
| `Engine.GeneratePrefixedMessage` | src/index.ts:67-77 | the result is keccak(header ++ keccak(msg)); that preimage is 60 bytes whatever the length of msg |
| `Engine.PrefixedHexToBuffer` | src/index.ts:136-138 | decodes the text after the first two characters; a 42-character address yields 20 bytes |
| `Engine.PrefixedHexToBufferDropsTwo` | typescript-sdk/src/index.ts:117-119 | whatever the first two characters are, they are dropped and only the rest is decoded |
| `Engine.PrefixedHexToBufferEncode` | contract/test/anon-authoriser.test.ts:61-63 | decoding inverts `0x`-prefixed hex encoding |
| `Engine.GenerateKeyPairAndAddress` | src/index.ts:83-90 | the private-key bytes denote the drawn scalar; the address is `computeAddress` of that scalar's public key |
| `Directory.Lookup` | src/index.ts:128 | a found entry is in the map under that chain; none is found only when no entry has that chain |
| `Directory.GetAnonAuthoriserAddress` | src/index.ts:127-134 | succeeds iff the chain has an entry with a non-empty address, and then returns that address; otherwise fails with `anon-authoriser not available on "<chain>"` |
| `Directory.GetAllDeployedChains` | src/index.ts:118-120 | the chain names in the order of the entry list, one per entry |
| `Directory.DeployedChainsAreTheKeys` | typescript-sdk/src/index.ts:99-101 | a chain is listed iff the map has an entry for it, and no chain is listed twice |
| `Directory.AvailableChainIsDeployed` | typescript-sdk/src/index.ts:108-115 | a chain whose address lookup succeeds is among the deployed chains |
| `AnonAuthoriserClient.ChallengePayload` | src/index.ts:102-107 | for two addresses, the payload is 40 bytes: bytes 0..19 decode the sender, bytes 20..39 the caller |
| `AnonAuthoriserClient.ChallengePayloadOfEncoded` | src/index.ts:103-106 | for addresses written as `0x` hex of some bytes, the payload is exactly sender bytes ++ caller bytes |
| `AnonAuthoriserClient.GenerateInputForAuthorisation` | src/index.ts:101-115 | `v`, `r`, `s` come from one `ec.sign` by the given key over keccak(header ++ keccak(sender ++ caller)); `r` and `s` are in bn.js byte form |
| `AnonAuthoriserClient.EffectiveCaller` | src/index.ts:50-51 | an omitted or empty caller becomes the sender; any other caller is kept as given |
| `Engine.RegistrationOf` | src/index.ts:30-39 | the contract is asked to register `computeAddress` of the drawn key's public key with the given flag, and the private key is not passed; the handle holds bytes denoting that key, the input flag and the signer's address |
| `AnonAuthoriserClient.AuthorisationCallOf` | src/index.ts:46-54 | the submitted call carries the handle's authoriser and flag unchanged and the effective caller, with `v`, `r`, `s` of one signature by the handle's key over the framed sender ++ caller digest |
| `AnonAuthoriserClient.MinAnonAuthoriser.constructor` | src/index.ts:8 | a contract interface with the given signer and no calls yet |
| `AnonAuthoriserClient.MinAnonAuthoriser.GenerateAnonAuthorisation` | src/index.ts:32 | records exactly one registration call with the given address and flag |
| `AnonAuthoriserClient.MinAnonAuthoriser.AnonAuthorise` | src/index.ts:53 | records exactly one six-argument authorisation call |
| `AnonAuthoriserClient.Client.constructor` | src/index.ts:23-25 | the client is bound to the given contract |
| `AnonAuthoriserClient.Client.GenerateAnonAuthorisation` | src/index.ts:30-40 | makes exactly the registration call of `RegistrationOf` and returns its handle |
| `AnonAuthoriserClient.Client.AnonAuthorise` | src/index.ts:46-54 | makes exactly the call of `AuthorisationCallOf` for the contract's signer as sender |
| `SdkClient.GenerateInputForAuthorisation` | typescript-sdk/src/index.ts:87-96 | `v`, `r`, `s` come from one `ec.sign` by the given key over keccak(header ++ keccak(sender bytes)) |
| `SdkClient.PayloadIsTwoAddressPayloadTruncated` | typescript-sdk/src/index.ts:88 | the signed payload is the sender's 20 bytes, equal to the first 20 bytes of the two-address payload for any caller |
| `SdkClient.SameSignatureAsTwoAddressRevision` | typescript-sdk/src/index.ts:54-64 | both revisions frame and sign alike: equal payload bytes give equal `v`, `r`, `s` |
| `SdkClient.AuthorisationCallOf` | typescript-sdk/src/index.ts:37-41 | the five-argument call carries the handle's authoriser and flag unchanged, with `v`, `r`, `s` of one signature over the framed digest of the current signer's address |
| `SdkClient.MinAnonAuthoriser.constructor` | typescript-sdk/src/index.ts:8 | a contract interface with the given signer and no calls yet |
| `SdkClient.MinAnonAuthoriser.GenerateAnonAuthorisation` | typescript-sdk/src/index.ts:28 | records exactly one registration call |
| `SdkClient.MinAnonAuthoriser.AnonAuthorise` | typescript-sdk/src/index.ts:40 | records exactly one five-argument authorisation call |
| `SdkClient.Client.constructor` | typescript-sdk/src/index.ts:23-25 | the client is bound to the given contract |
| `SdkClient.Client.GenerateAnonAuthorisation` | typescript-sdk/src/index.ts:26-36 | registers only the derived address of `RegistrationOf`, with the input flag, and returns a handle with that flag and the signer's address as authoriser |
| `SdkClient.Client.AnonAuthorise` | typescript-sdk/src/index.ts:37-41 | makes exactly the call of `AuthorisationCallOf` for the contract's signer |
| `Ledger.Deployed` | contract/test/anon-authoriser.test.ts:44-50 | a fresh contract has no pending authorisations and will hand out id 1 next |
| `Ledger.Register` | contract/test/anon-authoriser.test.ts:52-58 | registration stores the address under an id not in use and leaves every other entry unchanged |
| `Ledger.Redeem` | contract/test/anon-authoriser.test.ts:28-42 | succeeds iff the id is pending, and then consumes it leaving the others; otherwise reverts with `NoSuchPendingAuthorisation` and changes nothing |
| `Ledger.Step` | contract/test/anon-authoriser.test.ts:15-42 | every transaction keeps the ledger invariant (ids from 1, pending ids already handed out) |
| `Ledger.Run` | contract/test/anon-authoriser.test.ts:15-42 | a sequence of transactions gets one reply each and keeps the invariant |
| `Ledger.ConsumedStaysConsumed` | contract/test/anon-authoriser.test.ts:36-41 | an id handed out and no longer pending is refused by every later redemption, whatever comes between |
| `Ledger.RedeemedAtMostOnce` | contract/test/anon-authoriser.test.ts:28-42 | after a successful redemption of an id, every later redemption of it, by any sender, reverts with "No such pending authorisation" |
| `Ledger.FirstRegistrationIsIdOne` | contract/test/anon-authoriser.test.ts:57 | the first registration on a fresh contract is the only pending entry, under id 1 |
| `Ledger.AnonAuthoriser.constructor` | contract/test/anon-authoriser.test.ts:45-47 | deployment gives the fresh ledger state |
| `Ledger.AnonAuthoriser.GenerateAnonAuthorisation` | contract/test/anon-authoriser.test.ts:54 | the object's new state and returned id are those of `Register` |
| `Ledger.AnonAuthoriser.AnonAuthorise` | contract/test/anon-authoriser.test.ts:25 | the object's new state and reply are those of `Redeem` |
| `ContractTests.GeneratePrefixedMsg` | contract/test/anon-authoriser.test.ts:65-72 | the result is `0x` hex, and decoding it yields the same 32-byte digest as `generatePrefixedMessage` (header ++ inner digest) |
| `ContractTests.GenerateKeyPairAndAddress` | contract/test/anon-authoriser.test.ts:74-80 | the key is the drawn 32 bytes, the public key is its `secp256k1` `publicKeyCreate`, and the address is `computeAddress` of that public key |
| `ContractTests.GenerateInputForAuthorisation` | contract/test/anon-authoriser.test.ts:82-92 | one compact signature over keccak(header ++ keccak(sender bytes)); `r` is its bytes 0..31 and `s` its bytes 32..63, so `r ++ s` is the signature; `v` is the recovery id |
| `ContractTests.RequestAuthorisation` | contract/test/anon-authoriser.test.ts:52-58 | registers the derived address, reports id 1, and on a fresh contract id 1 is exactly that registration |
| `ContractTests.ShouldAuthenticateUser` | contract/test/anon-authoriser.test.ts:15-26 | an account other than the registering one redeems the pending authorisation successfully |
| `ContractTests.FailAfterKeyUsed` | contract/test/anon-authoriser.test.ts:28-42 | the first redemption succeeds; the same redemption again reverts with "No such pending authorisation" |

## Left out

- Keccak-256, secp256k1 signing, public-key derivation and `computeAddress` are uninterpreted functions. Signature recovery is not modelled and no sign/recover round trip is assumed.
- Random key generation (`ec.genKeyPair()`, `randomBytes(32)`): the drawn scalar or bytes are parameters.
- `await`, `interaction1.wait()`, gas and transaction mechanics: contract calls are synchronous methods.
- The Solidity contract is not part of this model. The ledger keeps only what the tests assert. It does not check the signature, the sender, the authoriser or the flag, and it has no `AlreadyPending` error.
- `Ledger.AnonAuthoriser.GenerateAnonAuthorisation`: ids after the first are assumed to be handed out in sequence. The tests only show that the first registration is id 1.
- The client-side contract interfaces (`MinAnonAuthoriser`) record the calls made on them. The contract's own response to those calls is not modelled.
- `Hex.Decode`: Node's `Buffer.from(s, 'hex')` on malformed text (odd length, non-hex characters) stops at the first bad pair. The model requires well-formed text instead.
- `Engine.GeneratePrefixedMessage`: a `string` argument (UTF-8 encoded by `Buffer.from`) is not modelled. Every caller in the source passes bytes.
- `BigNum.ToArray`: `r` and `s` are sent in bn.js minimal form, not left-padded to 32 bytes. Whether the contract accepts a shorter value is outside the model.
- `Directory.GetAnonAuthoriserAddress`: the map is an ordered list of entries with distinct chain names, since a parsed JSON object has each key once (`JSON.parse` keeps the last value of a repeated key). The deployed-address JSON file is a parameter. An entry whose `address` field is missing is treated like an empty address.
- `Directory.GetAllDeployedChains`: the list order matches `Object.keys` only for non-numeric chain names. `Object.keys` lists integer-like keys first, in numeric order; the model does not reorder them.
- `ContractTests.GenerateKeyPairAndAddress`: the foreign calls are total functions here. `secp256k1.publicKeyCreate` and `ecdsaSign` throw on an invalid private key (zero, or 32 random bytes at or above the curve order). That path is not modelled: nothing in the core depends on it and its probability is negligible.
- Deployment scripts, README generation and the Hardhat configuration: file I/O and build tooling, not protocol logic.
