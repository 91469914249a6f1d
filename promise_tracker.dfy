/**
 * The legacy promise protocol, consumer side: a tracker that checks the
 * promise state the provider claims and issues signed promises for a
 * cumulative amount.
 */
module PromiseTracker {
  import opened Wrappers
  import opened Base

  /** How far promising has gone: the round (sequence number) and the amount promised in it. */
  datatype State = State(sequence: int64, amount: int64)

  /** `common.Address`: the bytes an identity's hex address decodes to. */
  type Address = seq<bv8>

  /** `ExtraData`: the payer of a promise. */
  datatype ExtraData = ExtraData(consumerAddress: Address)

  /** `promises.Promise`: an unsigned promise to pay `amount` in round `seqNo`. */
  datatype Promise = Promise(extra: ExtraData, receiver: Address, amount: int64, seqNo: int64)

  /** `promises.IssuedPromise`: a promise with its signature. */
  datatype IssuedPromise = IssuedPromise(promise: Promise, signature: seq<bv8>)

  /** The `Issuer` interface: signs a promise, or fails with an error of its own. */
  type Issuer = Promise -> Result<IssuedPromise, Error>

  /** The outcome of aligning with a provider's claim: the tracker's new state and the returned error. */
  datatype Alignment = Alignment(current: State, err: Option<Error>)

  /**
   * The transition AlignStateWithProvider makes. A claim of a later round
   * starts that round at amount 0 whatever amount the provider claims; a
   * claim of the current or an earlier round is accepted only if its amount
   * equals the tracked one, and never changes the state.
   */
  function Align(current: State, providerState: State): (a: Alignment)
    ensures providerState.sequence > current.sequence ==> a == Alignment(State(providerState.sequence, 0), None)
    ensures providerState.sequence <= current.sequence ==> a.current == current
    ensures a.err.Some? <==> providerState.sequence <= current.sequence && providerState.amount != current.amount
    ensures a.err.Some? ==> a.err.value == UnexpectedAmount
    ensures a.current.sequence >= current.sequence
    ensures a.current.amount == current.amount || (a.current.amount == 0 && a.current.sequence > current.sequence)
  {
    if providerState.sequence > current.sequence then
      Alignment(current.(sequence := providerState.sequence).(amount := 0), None)
    else if providerState.amount > current.amount then
      Alignment(current, Some(UnexpectedAmount))
    else if providerState.amount < current.amount then
      Alignment(current, Some(UnexpectedAmount))
    else
      Alignment(current, None)
  }

  /** A new round's claimed amount is ignored: two claims of the same later round have the same effect. */
  lemma AlignIgnoresClaimedAmount(current: State, claim1: State, claim2: State)
    requires claim1.sequence == claim2.sequence > current.sequence
    ensures Align(current, claim1) == Align(current, claim2)
  {
  }

  /**
   * A claim of an earlier round is accepted, with no change, when its
   * amount equals the tracked amount: the sequence number alone does not
   * reject a rollback.
   */
  lemma AlignAcceptsEarlierRoundWithEqualAmount(current: State, claim: State)
    requires claim.sequence < current.sequence && claim.amount == current.amount
    ensures Align(current, claim) == Alignment(current, None)
  {
  }

  /** The state reached after aligning with each claim in turn (errors leave the state as it was). */
  function AlignAll(current: State, claims: seq<State>): (s: State)
    decreases |claims|
  {
    if claims == [] then current else AlignAll(Align(current, claims[0]).current, claims[1..])
  }

  /** The largest sequence number among `s` and the claims. */
  function MaxSeq(s: int64, claims: seq<State>): (m: int64)
    decreases |claims|
  {
    if claims == [] then s
    else MaxSeq(if claims[0].sequence > s then claims[0].sequence else s, claims[1..])
  }

  lemma {:induction false} MaxSeqBounds(s: int64, claims: seq<State>)
    ensures MaxSeq(s, claims) >= s
    ensures forall i :: 0 <= i < |claims| ==> MaxSeq(s, claims) >= claims[i].sequence
    decreases |claims|
  {
    if claims != [] {
      var s' := if claims[0].sequence > s then claims[0].sequence else s;
      MaxSeqBounds(s', claims[1..]);
      forall i | 1 <= i < |claims|
        ensures MaxSeq(s, claims) >= claims[i].sequence
      {
        assert claims[i] == claims[1..][i - 1];
      }
    }
  }

  /**
   * Any run of alignments ends in the largest round claimed, at amount 0,
   * if some claim was of a later round than the initial one; otherwise it
   * ends exactly where it started.
   */
  lemma {:induction false} AlignAllReachesLatestRound(current: State, claims: seq<State>)
    ensures AlignAll(current, claims) ==
      if MaxSeq(current.sequence, claims) > current.sequence then State(MaxSeq(current.sequence, claims), 0) else current
    decreases |claims|
  {
    if claims != [] {
      var next := Align(current, claims[0]).current;
      AlignAllReachesLatestRound(next, claims[1..]);
      MaxSeqBounds(next.sequence, claims[1..]);
    }
  }

  /** How the tracked state may evolve: the round never goes back, and the amount changes only by a reset to 0 in a later round. */
  ghost predicate Evolves(before: State, after: State)
  {
    after.sequence >= before.sequence &&
    (after.amount == before.amount || (after.amount == 0 && after.sequence > before.sequence))
  }

  /** Across any sequence of alignments the round never decreases and the amount is kept or reset to 0 in a later round. */
  lemma AlignAllEvolves(current: State, claims: seq<State>)
    ensures Evolves(current, AlignAll(current, claims))
  {
    AlignAllReachesLatestRound(current, claims);
  }

  /**
   * Issuing a promise does not advance the tracker, so a provider that
   * acknowledges a non-zero increment in the same round is rejected.
   */
  lemma AcknowledgingIssuedAmountIsRejected(current: State, amountToAdd: int64)
    requires amountToAdd != 0
    ensures Align(current, State(current.sequence, AddInt64(current.amount, amountToAdd))) ==
      Alignment(current, Some(UnexpectedAmount))
  {
  }

  /** `ConsumerTracker`: the consumer's view of the promise state with one provider. */
  class ConsumerTracker {
    var current: State
    const consumer: Identity
    const receiver: Identity
    const issuer: Issuer

    /** `NewConsumerTracker`. */
    constructor (initial: State, consumer: Identity, provider: Identity, issuer: Issuer)
      ensures current == initial
      ensures this.consumer == consumer && receiver == provider && this.issuer == issuer
    {
      current := initial;
      this.consumer := consumer;
      receiver := provider;
      this.issuer := issuer;
    }

    /** Reconciles the tracked state with the state the provider claims; only `current` may change. */
    method AlignStateWithProvider(providerState: State) returns (err: Option<Error>)
      modifies this
      ensures Alignment(current, err) == Align(old(current), providerState)
    {
      if providerState.sequence > current.sequence {
        current := current.(sequence := providerState.sequence);
        current := current.(amount := 0);
        return None;
      }
      if providerState.amount > current.amount {
        return Some(UnexpectedAmount);
      }
      if providerState.amount < current.amount {
        return Some(UnexpectedAmount);
      }
      return None;
    }

    /**
     * Asks the issuer to sign a promise for the tracked amount plus
     * `amountToAdd` (with Go's int64 wrap-around) in the current round, from
     * the consumer to the provider, and returns the issuer's answer as it
     * is. `hexToAddress` is `common.HexToAddress`. Nothing changes.
     */
    method IssuePromiseWithAddedAmount(amountToAdd: int64, hexToAddress: string -> Address)
      returns (r: Result<IssuedPromise, Error>)
      ensures r == issuer(Promise(
        ExtraData(hexToAddress(consumer.address)),
        hexToAddress(receiver.address),
        AddInt64(current.amount, amountToAdd),
        current.sequence))
    {
      var promise := Promise(
        ExtraData(hexToAddress(consumer.address)),
        hexToAddress(receiver.address),
        AddInt64(current.amount, amountToAdd),
        current.sequence);
      r := issuer(promise);
    }
  }

  /** A client run of the tracker through a first round, a rejected claim and a new round. */
  method ConsumerTrackerScenario()
  {
    var issuer: Issuer := p => Success(IssuedPromise(p, []));
    var t := new ConsumerTracker(State(0, 0), Identity("0xc0"), Identity("0xe0"), issuer);
    var err := t.AlignStateWithProvider(State(1, 0));
    assert err == None && t.current == State(1, 0);
    var r := t.IssuePromiseWithAddedAmount(100, s => []);
    assert r == Success(IssuedPromise(Promise(ExtraData([]), [], 100, 1), []));
    assert t.current == State(1, 0);
    err := t.AlignStateWithProvider(State(1, 100));
    assert err == Some(UnexpectedAmount) && t.current == State(1, 0);
    err := t.AlignStateWithProvider(State(1, 0));
    assert err == None && t.current == State(1, 0);
    err := t.AlignStateWithProvider(State(2, 999));
    assert err == None && t.current == State(2, 0);
    err := t.AlignStateWithProvider(State(1, 0));
    assert err == None && t.current == State(2, 0);
  }
}
