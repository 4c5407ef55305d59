/**
 * The pending-authorisation ledger, as the contract tests exercise it: registering an address
 * opens a pending authorisation under the next id (the first is 1), redeeming a pending id
 * consumes it, and redeeming an id that is not pending reverts with
 * "No such pending authorisation". Who redeems and with which signature does not enter the
 * model (the contract itself is not part of it).
 */
module Ledger {
  import opened Hex
  import opened Crypto

  datatype LedgerError = NoSuchPendingAuthorisation

  /** The revert reason the contract reports. */
  function ErrorMessage(e: LedgerError): string {
    match e
    case NoSuchPendingAuthorisation => "No such pending authorisation"
  }

  /** Pending authorisations by id, and the id the next registration receives. */
  datatype LedgerState = LedgerState(pending: map<nat, string>, nextId: nat)

  /** Ids start at 1 and every pending id was handed out already. */
  predicate Valid(st: LedgerState) {
    st.nextId >= 1 && forall id :: id in st.pending ==> 1 <= id < st.nextId
  }

  /** A freshly deployed contract. */
  function Deployed(): (st: LedgerState)
    ensures Valid(st) && st.pending == map[] && st.nextId == 1
  {
    LedgerState(map[], 1)
  }

  /** One transaction sent to the contract. */
  datatype Op =
    | Generate(address: string)
    | Authorise(sender: string, authId: nat, v: nat, r: seq<byte>, s: seq<byte>)

  /** What a transaction returns: the new id, success, or a revert. */
  datatype Reply = Registered(authId: nat) | Authorised | Reverted(error: LedgerError)

  /**
   * `generateAnonAuthorisation(address)`: a new pending entry under an id that was not in use;
   * every other entry stays as it was.
   */
  function Register(st: LedgerState, address: string): (r: (LedgerState, nat))
    requires Valid(st)
    ensures Valid(r.0)
    ensures r.1 !in st.pending && r.1 in r.0.pending && r.0.pending[r.1] == address
    ensures r.0.pending.Keys == st.pending.Keys + {r.1}
    ensures forall id :: id in st.pending ==> r.0.pending[id] == st.pending[id]
    ensures r.1 == st.nextId
  {
    (LedgerState(st.pending[st.nextId := address], st.nextId + 1), st.nextId)
  }

  /**
   * `anonAuthorise(authId, v, r, s)`: succeeds exactly when `authId` is pending and then
   * consumes it, leaving every other entry as it was; a failure changes nothing.
   */
  function Redeem(st: LedgerState, authId: nat): (r: (LedgerState, Reply))
    requires Valid(st)
    ensures Valid(r.0)
    ensures r.1 == Authorised <==> authId in st.pending
    ensures r.1 != Authorised ==> r.1 == Reverted(NoSuchPendingAuthorisation) && r.0 == st
    ensures authId !in r.0.pending && r.0.nextId == st.nextId
    ensures forall id :: id != authId ==> (id in r.0.pending <==> id in st.pending)
    ensures forall id :: id != authId && id in st.pending ==> r.0.pending[id] == st.pending[id]
  {
    if authId in st.pending then (LedgerState(st.pending - {authId}, st.nextId), Authorised)
    else (st, Reverted(NoSuchPendingAuthorisation))
  }

  function Step(st: LedgerState, op: Op): (r: (LedgerState, Reply))
    requires Valid(st)
    ensures Valid(r.0)
  {
    match op
    case Generate(address) => var (st', id) := Register(st, address); (st', Registered(id))
    case Authorise(_, authId, _, _, _) => Redeem(st, authId)
  }

  /** The replies to a sequence of transactions, in order, and the state they leave. */
  function Run(st: LedgerState, ops: seq<Op>): (r: (LedgerState, seq<Reply>))
    requires Valid(st)
    ensures Valid(r.0) && |r.1| == |ops|
    decreases |ops|
  {
    if ops == [] then (st, [])
    else
      var (st1, reply) := Step(st, ops[0]);
      var (st2, replies) := Run(st1, ops[1..]);
      (st2, [reply] + replies)
  }

  /** An id that was handed out and is no longer pending is refused by every later redemption. */
  lemma {:induction false} ConsumedStaysConsumed(st: LedgerState, ops: seq<Op>, authId: nat, k: nat)
    requires Valid(st) && authId < st.nextId && authId !in st.pending
    requires k < |ops| && ops[k].Authorise? && ops[k].authId == authId
    ensures Run(st, ops).1[k] == Reverted(NoSuchPendingAuthorisation)
    decreases |ops|
  {
    var (st1, reply) := Step(st, ops[0]);
    if k > 0 {
      ConsumedStaysConsumed(st1, ops[1..], authId, k - 1);
    }
  }

  /**
   * Exactly once: after a successful redemption of an id, every later redemption of that id,
   * by anyone, reverts with "No such pending authorisation", whatever happens in between.
   */
  lemma {:induction false} RedeemedAtMostOnce(st: LedgerState, ops: seq<Op>, i: nat, j: nat)
    requires Valid(st)
    requires i < j < |ops| && ops[i].Authorise? && ops[j].Authorise? && ops[i].authId == ops[j].authId
    requires Run(st, ops).1[i] == Authorised
    ensures Run(st, ops).1[j] == Reverted(NoSuchPendingAuthorisation)
    decreases |ops|
  {
    var (st1, reply) := Step(st, ops[0]);
    if i == 0 {
      ConsumedStaysConsumed(st1, ops[1..], ops[0].authId, j - 1);
    } else {
      RedeemedAtMostOnce(st1, ops[1..], i - 1, j - 1);
    }
  }

  /** The first registration on a fresh contract is pending under id 1. */
  lemma FirstRegistrationIsIdOne(address: string)
    ensures Register(Deployed(), address).1 == 1
    ensures Register(Deployed(), address).0.pending == map[1 := address]
  {
  }

  /** The contract, as one object whose pending map its transactions update. */
  class AnonAuthoriser {
    /** The account transactions are sent from unless another is connected. */
    const signer: Address
    var pending: map<nat, string>
    var nextId: nat

    function State(): LedgerState
      reads this
    {
      LedgerState(pending, nextId)
    }

    /** `Factory.deploy()` by `signer`. */
    constructor (signer: Address)
      ensures this.signer == signer && State() == Deployed()
    {
      this.signer := signer;
      pending := map[];
      nextId := 1;
    }

    method GenerateAnonAuthorisation(address: string) returns (authId: nat)
      requires Valid(State())
      modifies this
      ensures (State(), authId) == Register(old(State()), address)
    {
      authId := nextId;
      pending := pending[nextId := address];
      nextId := nextId + 1;
    }

    /** `anonAuthorise` sent from `sender` (the contract connected to that account). */
    method AnonAuthorise(sender: string, authId: nat, v: nat, r: seq<byte>, s: seq<byte>) returns (reply: Reply)
      requires Valid(State())
      modifies this
      ensures (State(), reply) == Redeem(old(State()), authId)
    {
      if authId in pending {
        pending := pending - {authId};
        reply := Authorised;
      } else {
        reply := Reverted(NoSuchPendingAuthorisation);
      }
    }
  }
}
