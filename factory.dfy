/**
 * Payment-protocol negotiation and engine construction for one session:
 * the provider's invoice engine and the consumer's backwards-compatible
 * choice between the new exchange-message engine and the legacy issuer.
 */
module Pingpong {
  import opened Wrappers
  import opened Base

  // Collaborators whose insides are outside this layer: only passed along.
  type Keystore
  type NodeOptions
  type SignerFactory
  type ConsumerInvoiceStorage
  type ConsumerTotalsStorage
  type ProviderInvoiceStorage
  type AccountantCaller
  type AccountantPromiseStorage
  /** What the legacy payment-issuer constructor builds. */
  type LegacyEngine

  /** `session.PaymentVersionV2`: the tag a peer advertises when it runs the new payments. */
  const PaymentVersionV2: string := "v2"

  datatype Currency = MYST

  /** `money.Money`. */
  datatype Money = Money(amount: uint64, currency: Currency)

  /** `money.NewMoney`. */
  function NewMoney(amount: uint64, currency: Currency): (m: Money)
  {
    Money(amount, currency)
  }

  /** `dto.PaymentPerTime`: a price per duration. */
  datatype PaymentPerTime = PaymentPerTime(price: Money, duration: Duration)

  /** The price the legacy engine is given: 0 MYST per minute. */
  const LegacyPayment: PaymentPerTime := PaymentPerTime(Money(0, MYST), Minute)

  /** The price the new consumer engine is given: 1 MYST per minute. */
  const NewPayment: PaymentPerTime := PaymentPerTime(NewMoney(1, MYST), 1 * Minute)

  /** `promise.LastPromise`: the last promise the peer has seen. */
  datatype LastPromise = LastPromise(sequenceID: uint64, amount: uint64)

  /** `promise.PaymentInfo`: what the provider advertises about payments. */
  datatype PaymentInfo = PaymentInfo(supports: string, lastPromise: LastPromise, freeCredit: uint64)

  /** The zero value of `promise.PaymentInfo`. */
  const ZeroPaymentInfo: PaymentInfo := PaymentInfo("", LastPromise(0, 0), 0)

  /** The protocol chosen for a session, with the legacy engine's initial promise state and price. */
  datatype Protocol =
    | NewPayments
    | OldPayments(promiseState: PaymentInfo, payment: PaymentPerTime)

  /**
   * The negotiation rule: the new payments exactly when the provider
   * advertises payment info whose `Supports` is the V2 tag; otherwise the
   * legacy engine, which starts from the advertised free credit and last
   * promise (and nothing else of the advertisement), at 0 MYST per minute.
   */
  function Negotiate(paymentInfo: Option<PaymentInfo>): (p: Protocol)
    ensures p.NewPayments? <==> paymentInfo.Some? && paymentInfo.value.supports == PaymentVersionV2
    ensures p.OldPayments? ==> p.payment.price == Money(0, MYST) && p.payment.duration == Minute
    ensures p.OldPayments? && paymentInfo.None? ==> p.promiseState == ZeroPaymentInfo
    ensures p.OldPayments? && paymentInfo.Some? ==>
      p.promiseState.freeCredit == paymentInfo.value.freeCredit &&
      p.promiseState.lastPromise == paymentInfo.value.lastPromise &&
      p.promiseState.supports == ""
  {
    var promiseState :=
      if paymentInfo.Some? then
        ZeroPaymentInfo.(freeCredit := paymentInfo.value.freeCredit, lastPromise := paymentInfo.value.lastPromise)
      else ZeroPaymentInfo;
    var useNewPayments := paymentInfo.Some? && paymentInfo.value.supports == PaymentVersionV2;
    if useNewPayments then NewPayments else OldPayments(promiseState, LegacyPayment)
  }

  /** Without an advertisement the legacy engine starts from the zero state. */
  lemma NoAdvertisementSelectsLegacy()
    ensures Negotiate(None) == OldPayments(ZeroPaymentInfo, LegacyPayment)
  {
  }

  /** Any `Supports` value other than the V2 tag, the empty one included, selects the legacy engine. */
  lemma OtherTagSelectsLegacy(info: PaymentInfo)
    requires info.supports != PaymentVersionV2
    ensures Negotiate(Some(info)) == OldPayments(info.(supports := ""), LegacyPayment)
  {
  }

  /** The kinds of message a session channel carries. */
  datatype MessageKind = ExchangeMessages | Invoices | BalanceMessages

  /** A Go channel made for one session; its buffer size is recorded, not modelled. */
  class Channel {
    const kind: MessageKind
    ghost const capacity: nat

    constructor (kind: MessageKind, ghost capacity: nat)
      ensures this.kind == kind && this.capacity == capacity
    {
      this.kind := kind;
      this.capacity := capacity;
    }
  }

  /** A message consumer registered on a dialog: it forwards the messages it receives into its channel. */
  datatype MessageConsumer =
    | ExchangeListener(exchanges: Channel)
    | InvoiceListener(invoices: Channel)

  /**
   * `communication.Dialog`: the messaging channel to the peer. Registering a
   * consumer either succeeds, and the consumer is added, or fails with a
   * transport error the core does not control, and nothing is added.
   */
  class Dialog {
    const peerID: Identity
    var consumers: seq<MessageConsumer>

    constructor (peerID: Identity)
      ensures this.peerID == peerID && consumers == []
    {
      this.peerID := peerID;
      consumers := [];
    }

    method Receive(consumer: MessageConsumer) returns (err: Option<Error>)
      modifies this
      ensures consumers == if err.None? then old(consumers) + [consumer] else old(consumers)
    {
      err := *;
      if err.None? {
        consumers := consumers + [consumer];
      }
    }
  }

  /** `NewInvoiceSender(dialog)`. */
  datatype InvoiceSender = InvoiceSender(dialog: Dialog)

  /** `NewExchangeSender(dialog)`. */
  datatype ExchangeSender = ExchangeSender(dialog: Dialog)

  /** `session.NewTracker(time.Now)`: the session's elapsed-time tracker, one per engine. */
  class TimeTracker {
    constructor ()
    {
    }
  }

  /** `InvoiceTrackerDeps`. */
  datatype InvoiceTrackerDeps = InvoiceTrackerDeps(
    peer: Identity,
    peerInvoiceSender: InvoiceSender,
    invoiceStorage: ProviderInvoiceStorage,
    timeTracker: TimeTracker,
    chargePeriod: Duration,
    exchangeMessageChan: Channel,
    exchangeMessageWaitTimeout: Duration,
    paymentInfo: PaymentPerTime,
    providerID: Identity,
    accountantCaller: AccountantCaller,
    accountantPromiseStorage: AccountantPromiseStorage,
    accountantID: Identity,
    channelImplementation: string,
    registry: string)

  /** `ExchangeMessageTrackerDeps`. */
  datatype ExchangeMessageTrackerDeps = ExchangeMessageTrackerDeps(
    invoiceChan: Channel,
    peerExchangeMessageSender: ExchangeSender,
    consumerInvoiceStorage: ConsumerInvoiceStorage,
    consumerTotalsStorage: ConsumerTotalsStorage,
    timeTracker: TimeTracker,
    ks: Keystore,
    identity: Identity,
    peer: Identity,
    paymentInfo: PaymentPerTime,
    registryAddress: string,
    channelImplementation: string)

  /** The provider's payment engine: `NewInvoiceTracker(deps)`. */
  datatype PaymentEngine = InvoiceTracker(deps: InvoiceTrackerDeps)

  /** The consumer's payment issuer: the new engine or the legacy one. */
  datatype PaymentIssuer =
    | ExchangeMessageTracker(deps: ExchangeMessageTrackerDeps)
    | LegacyIssuer(engine: LegacyEngine)

  /** The arguments the legacy constructor is called with. */
  datatype LegacyArgs = LegacyArgs(
    promiseState: PaymentInfo,
    payment: PaymentPerTime,
    messageChan: Channel,
    dialog: Dialog,
    consumer: Identity,
    provider: Identity)

  /** `payment_factory.PaymentIssuerFactoryFunc`: given options and a signer factory, a constructor that may fail. */
  type PaymentIssuerFactoryFunc = (NodeOptions, SignerFactory) -> LegacyArgs -> Result<LegacyEngine, Error>

  datatype EngineKind = InvoiceTrackerKind | ExchangeMessageTrackerKind | LegacyIssuerKind

  /** What a factory call did, in order. */
  datatype Event =
    | Registered(listener: MessageConsumer)
    | Refused(listener: MessageConsumer, err: Error)
    | LegacyRequested(args: LegacyArgs)
    | Built(kind: EngineKind)

  /** No engine was constructed. */
  ghost predicate NothingBuilt(trace: seq<Event>)
  {
    forall i :: 0 <= i < |trace| ==> !trace[i].Built?
  }

  /** The configuration `InvoiceFactoryCreator` captures. */
  datatype InvoiceFactory = InvoiceFactory(
    dialog: Dialog,
    balanceSendPeriod: Duration,
    promiseTimeout: Duration,
    invoiceStorage: ProviderInvoiceStorage,
    paymentInfo: PaymentPerTime,
    accountantCaller: AccountantCaller,
    accountantPromiseStorage: AccountantPromiseStorage,
    accountantID: Identity,
    registryAddress: string,
    channelImplementationAddress: string)

  /** `InvoiceFactoryCreator`: captures the session-independent configuration. */
  function InvoiceFactoryCreator(
    dialog: Dialog,
    balanceSendPeriod: Duration,
    promiseTimeout: Duration,
    invoiceStorage: ProviderInvoiceStorage,
    paymentInfo: PaymentPerTime,
    accountantCaller: AccountantCaller,
    accountantPromiseStorage: AccountantPromiseStorage,
    accountantID: Identity,
    registryAddress: string,
    channelImplementationAddress: string): (f: InvoiceFactory)
  {
    InvoiceFactory(dialog, balanceSendPeriod, promiseTimeout, invoiceStorage, paymentInfo,
      accountantCaller, accountantPromiseStorage, accountantID, registryAddress, channelImplementationAddress)
  }

  /** The provider engine's dependencies are the captured configuration, the dialog's peer and the late-bound provider. */
  ghost predicate InvoiceDepsWired(d: InvoiceTrackerDeps, f: InvoiceFactory, providerID: Identity)
  {
    d.peer == f.dialog.peerID &&
    d.peerInvoiceSender == InvoiceSender(f.dialog) &&
    d.invoiceStorage == f.invoiceStorage &&
    d.chargePeriod == f.balanceSendPeriod &&
    d.exchangeMessageWaitTimeout == f.promiseTimeout &&
    d.paymentInfo == f.paymentInfo &&
    d.providerID == providerID &&
    d.accountantCaller == f.accountantCaller &&
    d.accountantPromiseStorage == f.accountantPromiseStorage &&
    d.accountantID == f.accountantID &&
    d.channelImplementation == f.channelImplementationAddress &&
    d.registry == f.registryAddress
  }

  /**
   * The function `InvoiceFactoryCreator` returns: registers an exchange
   * listener on a fresh one-slot channel, then builds the invoice engine
   * reading that channel. If registration fails the error is returned and
   * no engine is built.
   */
  method NewInvoiceEngine(f: InvoiceFactory, providerID: Identity)
    returns (r: Result<PaymentEngine, Error>, ghost trace: seq<Event>)
    modifies f.dialog
    ensures NothingBuilt(trace) <==> r.Failure?
    ensures r.Failure? ==>
      f.dialog.consumers == old(f.dialog.consumers) &&
      |trace| == 1 && trace[0].Refused? && trace[0].listener.ExchangeListener? && trace[0].err == r.error
    ensures r.Success? ==>
      var d := r.value.deps;
      fresh(d.exchangeMessageChan) && fresh(d.timeTracker) &&
      d.exchangeMessageChan.kind == ExchangeMessages && d.exchangeMessageChan.capacity == 1 &&
      f.dialog.consumers == old(f.dialog.consumers) + [ExchangeListener(d.exchangeMessageChan)] &&
      InvoiceDepsWired(d, f, providerID) &&
      trace == [Registered(ExchangeListener(d.exchangeMessageChan)), Built(InvoiceTrackerKind)]
  {
    var exchangeChan := new Channel(ExchangeMessages, 1);
    var listener := ExchangeListener(exchangeChan);
    var invoiceSender := InvoiceSender(f.dialog);
    var err := f.dialog.Receive(listener);
    if err.Some? {
      return Failure(err.value), [Refused(listener, err.value)];
    }
    var timeTracker := new TimeTracker();
    var deps := InvoiceTrackerDeps(
      f.dialog.peerID, invoiceSender, f.invoiceStorage, timeTracker, f.balanceSendPeriod,
      exchangeChan, f.promiseTimeout, f.paymentInfo, providerID, f.accountantCaller,
      f.accountantPromiseStorage, f.accountantID, f.channelImplementationAddress, f.registryAddress);
    r := Success(InvoiceTracker(deps));
    trace := [Registered(listener), Built(InvoiceTrackerKind)];
    assert trace[1].Built?;
  }

  /** The configuration `BackwardsCompatibleExchangeFactoryFunc` captures. */
  datatype ExchangeFactory = ExchangeFactory(
    keystore: Keystore,
    options: NodeOptions,
    signer: SignerFactory,
    invoiceStorage: ConsumerInvoiceStorage,
    totalStorage: ConsumerTotalsStorage,
    channelImplementation: string,
    registryAddress: string)

  /** `BackwardsCompatibleExchangeFactoryFunc`: captures the session-independent configuration. */
  function BackwardsCompatibleExchangeFactoryFunc(
    keystore: Keystore,
    options: NodeOptions,
    signer: SignerFactory,
    invoiceStorage: ConsumerInvoiceStorage,
    totalStorage: ConsumerTotalsStorage,
    channelImplementation: string,
    registryAddress: string): (f: ExchangeFactory)
  {
    ExchangeFactory(keystore, options, signer, invoiceStorage, totalStorage, channelImplementation, registryAddress)
  }

  /** The new consumer engine's dependencies: captured storage and coordinates, the consumer, the dialog's peer, 1 MYST per minute. */
  ghost predicate ExchangeDepsWired(d: ExchangeMessageTrackerDeps, f: ExchangeFactory, dialog: Dialog, consumer: Identity)
  {
    d.peerExchangeMessageSender == ExchangeSender(dialog) &&
    d.consumerInvoiceStorage == f.invoiceStorage &&
    d.consumerTotalsStorage == f.totalStorage &&
    d.ks == f.keystore &&
    d.identity == consumer &&
    d.peer == dialog.peerID &&
    d.paymentInfo == NewPayment &&
    d.registryAddress == f.registryAddress &&
    d.channelImplementation == f.channelImplementation
  }

  /**
   * The function `BackwardsCompatibleExchangeFactoryFunc` returns. With the
   * new payments: registers an invoice listener on a fresh unbuffered
   * channel and builds the exchange-message engine reading it, or returns
   * the registration error and builds nothing. With the legacy payments:
   * calls the legacy constructor on a fresh one-slot channel with the
   * negotiated state and price, and returns what it returns.
   */
  method NewPaymentIssuer(
    f: ExchangeFactory,
    paymentIssuerFactory: PaymentIssuerFactoryFunc,
    paymentInfo: Option<PaymentInfo>,
    dialog: Dialog,
    consumer: Identity,
    provider: Identity)
    returns (r: Result<PaymentIssuer, Error>, ghost trace: seq<Event>)
    modifies dialog
    ensures NothingBuilt(trace) <==> r.Failure?
    ensures Negotiate(paymentInfo).NewPayments? && r.Failure? ==>
      dialog.consumers == old(dialog.consumers) &&
      |trace| == 1 && trace[0].Refused? && trace[0].listener.InvoiceListener? && trace[0].err == r.error
    ensures Negotiate(paymentInfo).NewPayments? && r.Success? ==>
      r.value.ExchangeMessageTracker? &&
      var d := r.value.deps;
      fresh(d.invoiceChan) && fresh(d.timeTracker) &&
      d.invoiceChan.kind == Invoices && d.invoiceChan.capacity == 0 &&
      dialog.consumers == old(dialog.consumers) + [InvoiceListener(d.invoiceChan)] &&
      ExchangeDepsWired(d, f, dialog, consumer) &&
      trace == [Registered(InvoiceListener(d.invoiceChan)), Built(ExchangeMessageTrackerKind)]
    ensures Negotiate(paymentInfo).OldPayments? ==>
      dialog.consumers == old(dialog.consumers) &&
      |trace| >= 1 && trace[0].LegacyRequested? &&
      var args := trace[0].args;
      args == LegacyArgs(Negotiate(paymentInfo).promiseState, LegacyPayment, args.messageChan, dialog, consumer, provider) &&
      fresh(args.messageChan) && args.messageChan.kind == BalanceMessages && args.messageChan.capacity == 1 &&
      match paymentIssuerFactory(f.options, f.signer)(args)
      case Success(engine) => r == Success(LegacyIssuer(engine)) && trace == [LegacyRequested(args), Built(LegacyIssuerKind)]
      case Failure(err) => r == Failure(err) && trace == [LegacyRequested(args)]
  {
    match Negotiate(paymentInfo)
    case NewPayments =>
      var invoices := new Channel(Invoices, 0);
      var listener := InvoiceListener(invoices);
      var err := dialog.Receive(listener);
      if err.Some? {
        return Failure(err.value), [Refused(listener, err.value)];
      }
      var timeTracker := new TimeTracker();
      var deps := ExchangeMessageTrackerDeps(
        invoices, ExchangeSender(dialog), f.invoiceStorage, f.totalStorage, timeTracker,
        f.keystore, consumer, dialog.peerID, NewPayment, f.registryAddress, f.channelImplementation);
      r := Success(ExchangeMessageTracker(deps));
      trace := [Registered(listener), Built(ExchangeMessageTrackerKind)];
      assert trace[1].Built?;
    case OldPayments(promiseState, payment) =>
      var messageChan := new Channel(BalanceMessages, 1);
      var pFunc := paymentIssuerFactory(f.options, f.signer);
      var args := LegacyArgs(promiseState, payment, messageChan, dialog, consumer, provider);
      var p := pFunc(args);
      if p.Failure? {
        return Failure(p.error), [LegacyRequested(args)];
      }
      r := Success(LegacyIssuer(p.value));
      trace := [LegacyRequested(args), Built(LegacyIssuerKind)];
      assert trace[1].Built?;
  }
}
