# Payment-session negotiation and legacy promise tracking, in Dafny

This project models the core of a node's payment-session layer. In this network a consumer pays
a provider incrementally while a session is live. The model covers two pieces.

- **The legacy promise tracker** (`session/promise/promise_tracker.go`, module `PromiseTracker`).
  `ConsumerTracker` is a class whose one mutable field is `current: State` (a round number and
  the amount promised in it, both Go `int64`). `AlignStateWithProvider` reconciles that state
  with a state the provider claims. It is specified by the pure transition `Align`.
  `IssuePromiseWithAddedAmount` builds a promise and hands it to an opaque signer. It changes
  nothing. The consumer, the receiver and the issuer are `const` fields set by the constructor.
  `UnexpectedAmount` is a constructor of its own in `Base.Error`. So, like Go's sentinel error,
  it differs from every other error, even one with the same message. The Go field `seq` is called `sequence` here, because `seq` is a Dafny keyword.
- **Protocol negotiation and engine construction** (`session/pingpong/factory.go`, module
  `Pingpong`). `Negotiate` is the consumer's rule for choosing between the new payments and the
  legacy engine, with its default prices and carried-forward state.
  - `NewInvoiceEngine` is the function that `InvoiceFactoryCreator` returns (provider side).
  - `NewPaymentIssuer` is the function that `BackwardsCompatibleExchangeFactoryFunc` returns
    (consumer side).
  - The two creator functions only capture their configuration in a record (`InvoiceFactory`,
    `ExchangeFactory`). The late-bound arguments become parameters of the two methods.
  - The dialog is a class that records the message consumers registered on it. Its `Receive`
    may fail for reasons outside the core.
  - Each factory call returns a ghost trace of what it did: registered a listener, had
    registration refused, called the legacy constructor, built an engine. This is how the
    contracts state "register before construct" and "no engine on error".

Module `Base` holds Go's integer widths. `AddInt64` is Go's wrapping `+` on `int64`. Module
`Wrappers` holds `Option` (Go's nil) and `Result` (a `(value, error)` pair).

The model follows the code in these details, some of which a reader might expect otherwise:

- `State` holds signed `int64` fields, not unsigned ones.
- `amountToAdd` is not checked for sign. The sum wraps around on overflow instead of being
  excluded.
- A claim of an *earlier* round is accepted when its amount equals the tracked amount.
- The tracker's amount never advances on its own. `Align` only keeps it or resets it to 0.
  So if the provider echoes a just-issued non-zero increment in the same round, the code
  rejects it with `UnexpectedAmount`. Such an echo is not accepted as confirmation of the
  issued amount, for any non-zero increment. `AcknowledgingIssuedAmountIsRejected` proves this.

Values the model takes from code outside the two core files:

- `session.PaymentVersionV2` is taken to be `"v2"`. Only equality with it matters.
- `money.NewMoney(a, c)` is taken to be `Money{a, c}`.
- The field types of `promise.PaymentInfo` are taken to be unsigned 64-bit counters. The model
  only copies these values.

## Model

| member | source | states |
|---|---|---|
| `Base.AddInt64` | session/promise/promise_tracker.go:68 | Go's `int64` addition: the exact sum when it fits in the signed range, and in every case the sum modulo 2^64 |
| `Base.AddInt64Unique` | session/promise/promise_tracker.go:68 | the two postconditions of AddInt64 determine its result uniquely |
| `Base.AddInt64OverflowIsNegative` | session/promise/promise_tracker.go:61-68 | an increment that overflows the signed range gives a negative promised amount |
| `PromiseTracker.Align` | session/promise/promise_tracker.go:42-59 | a later round is accepted and reset to amount 0 with no error. An error (always UnexpectedAmount) is returned iff the claimed round is not later and the amounts differ. A claim that is not of a later round never changes the state. The round never decreases, and the amount is kept or reset to 0 in a later round |
| `PromiseTracker.AlignIgnoresClaimedAmount` | session/promise/promise_tracker.go:43-49 | two claims of the same later round have the same effect, whatever amounts they claim |
| `PromiseTracker.AlignAcceptsEarlierRoundWithEqualAmount` | session/promise/promise_tracker.go:43-58 | a claim of an earlier round with the tracked amount is accepted with no change |
| `PromiseTracker.AlignAllReachesLatestRound` | session/promise/promise_tracker.go:42-59 | after any sequence of alignments the state is the largest claimed round at amount 0 if any claim was of a later round, and otherwise the initial state |
| `PromiseTracker.AlignAllEvolves` | session/promise/promise_tracker.go:42-59 | across any sequence of alignments the round never decreases, and the amount changes only by a reset to 0 in a strictly later round |
| `PromiseTracker.AcknowledgingIssuedAmountIsRejected` | session/promise/promise_tracker.go:51-71 | issuing does not advance the tracker. So a same-round claim of the amount an issued promise carries (the tracked amount plus any non-zero increment, wrapped as Go wraps it) is rejected, and the state is kept |
| `PromiseTracker.ConsumerTracker.constructor` | session/promise/promise_tracker.go:31-38 | the tracker starts at the initial state and keeps the consumer, the provider (as receiver) and the issuer as given |
| `PromiseTracker.ConsumerTracker.AlignStateWithProvider` | session/promise/promise_tracker.go:42-59 | the new `current` and the returned error are those of Align applied to the old state. Only `current` may change |
| `PromiseTracker.ConsumerTracker.IssuePromiseWithAddedAmount` | session/promise/promise_tracker.go:61-72 | the result is the issuer's answer to one promise. The issuer receives a promise for the tracked amount plus the increment (Go wrap-around), in the current round, to the receiver's address, with the consumer's address as extra data. The issuer's result or error is returned unchanged. The tracker is not modified |
| `Pingpong.Negotiate` | session/pingpong/factory.go:94-111 | the new payments are chosen iff an advertisement is present and its Supports equals the V2 tag. Otherwise the legacy engine gets 0 MYST per minute, the zero state without an advertisement, and with one only its FreeCredit and LastPromise (Supports stays empty) |
| `Pingpong.NoAdvertisementSelectsLegacy` | session/pingpong/factory.go:94-111 | a nil advertisement selects the legacy engine with the zero promise state and the 0 MYST per minute price |
| `Pingpong.OtherTagSelectsLegacy` | session/pingpong/factory.go:102-111 | any Supports value other than the V2 tag, the empty one included, selects the legacy engine and carries FreeCredit and LastPromise forward |
| `Pingpong.Dialog.Receive` | session/pingpong/factory.go:54-57 | registering a consumer either adds it to the dialog or fails with an error and adds nothing |
| `Pingpong.NewInvoiceEngine` | session/pingpong/factory.go:39-77 | its first parameter is the record `InvoiceFactoryCreator` returns, which holds each configuration argument unchanged. The provider factory registers an exchange listener on a fresh one-slot channel before anything is built. If registration fails it returns that error and builds nothing. Otherwise it builds exactly one invoice engine that reads the same channel, with a fresh time tracker. The engine's dependencies carry the charge period, the wait timeout, the price, the dialog's peer, the late-bound provider and the captured accountant, registry and channel coordinates unchanged |
| `Pingpong.NewPaymentIssuer` | session/pingpong/factory.go:80-151 | its first parameter is the record `BackwardsCompatibleExchangeFactoryFunc` returns, which holds each configuration argument unchanged. The legacy constructor that record's options and signer factory select is a parameter. Under the new payments the consumer factory registers an invoice listener on a fresh unbuffered channel. It either returns the registration error and builds nothing, or builds one exchange-message engine reading that channel, at 1 MYST per minute, with the consumer identity and the dialog's peer. Under the legacy payments it calls the legacy constructor once, with the negotiated state, 0 MYST per minute and a fresh one-slot channel, and returns that constructor's engine or its error |

The method `PromiseTracker.ConsumerTrackerScenario` is a client of the tracker. It runs a first
round, an issued promise, a rejected claim, an accepted claim, a new round that ignores its
claimed amount, and an accepted claim of an earlier round.

## Left out

- The Go types `communication.Dialog`, the senders, the listeners, `NewInvoiceTracker`,
  `NewExchangeMessageTracker` and the legacy `PaymentIssuerFactoryFunc` are opaque here. Engines
  are values that record their dependencies. The charge loop, timeouts and invoice validation
  inside these engines are not part of this model.
- Go channels are objects that only record their message kind and, as ghost data, their buffer
  size. Sending, receiving and blocking on them are not modelled. Neither are the goroutines of
  the engines.
- `session.NewTracker(time.Now)` is a fresh object with no state. The clock is not modelled.
- The log lines of the consumer factory are not modelled.
- The `Issuer` is a pure function from promise to signed promise or error. Signing, the
  keystore and any side effect of signing are not modelled. `common.HexToAddress` is a function
  parameter; hex decoding is not modelled.
- `Pingpong.NewPaymentIssuer`: in the legacy branch the dialog is left unchanged. Whatever the
  opaque legacy constructor does to the dialog is not captured.
- `Pingpong.Dialog.Receive`: whether registration fails is a nondeterministic choice. The
  transport's reasons for failing are not modelled.
- Tunnel endpoint setup (`services/wireguard/endpoint/endpoint.go`) and the port-availability
  probe (`core/port/availability.go`) are network and OS resource handling, not payment logic.
  Neither is part of this model.
