/** The downstream payment provider, seen only through its four operations, plus
    the timer the orchestrator sleeps on between order attempts.

    The provider is abstract: what each call answers is an input of the model,
    given as a function from the moment of the call (the number of events the
    gateway has seen before it) to a success value or a provider error. Every
    call and every wait is appended to `trace`, so the order of the calls, their
    arguments and the backoff delays are all observable. */
module Provider {
  import opened Wrappers

  /** What the orchestrator sends. */
  datatype BeneficiaryDetails = BeneficiaryDetails(name: string, account: string)
  datatype QuoteParams = QuoteParams(amount: real, currency: string)
  datatype OrderParams = OrderParams(quoteId: string, beneficiaryId: string)

  /** What the provider answers. */
  datatype AuthData = AuthData(accessToken: string, expiresIn: int)
  datatype BeneficiaryData = BeneficiaryData(beneficiaryId: string)
  datatype QuoteData = QuoteData(quoteId: string, totalAmount: real, fee: real)
  datatype OrderData = OrderData(orderId: string, status: string)

  /** A raw error thrown by the provider; `isTransient` marks the ones worth retrying. */
  datatype ProviderError = ProviderError(message: string, isTransient: bool)

  type Reply<T> = Result<T, ProviderError>

  /** True of a failure the provider flagged as transient. */
  predicate IsTransientFailure<T>(r: Reply<T>)
  {
    r.Failure? && r.error.isTransient
  }

  /** The provider's behaviour: each operation's answer as a function of the call's moment. */
  datatype Replies = Replies(
    auth: nat -> Reply<AuthData>,
    beneficiary: nat -> Reply<BeneficiaryData>,
    quote: nat -> Reply<QuoteData>,
    order: nat -> Reply<OrderData>)

  /** One observable effect of the orchestrator on its environment. */
  datatype Event =
    | AuthCall
    | BeneficiaryCall(token: string, beneficiary: BeneficiaryDetails)
    | QuoteCall(token: string, quoteParams: QuoteParams)
    | OrderCall(token: string, orderParams: OrderParams)
    | Wait(ms: nat)

  class Gateway {
    const replies: Replies
    var trace: seq<Event>

    constructor (replies: Replies)
      ensures this.replies == replies && trace == []
    {
      this.replies := replies;
      trace := [];
    }

    /** `paymentProvider.auth()` */
    method Auth() returns (r: Reply<AuthData>)
      modifies this
      ensures trace == old(trace) + [AuthCall]
      ensures r == replies.auth(|old(trace)|)
    {
      r := replies.auth(|trace|);
      trace := trace + [AuthCall];
    }

    /** `paymentProvider.createBeneficiary(token, beneficiary)` */
    method CreateBeneficiary(token: string, beneficiary: BeneficiaryDetails) returns (r: Reply<BeneficiaryData>)
      modifies this
      ensures trace == old(trace) + [BeneficiaryCall(token, beneficiary)]
      ensures r == replies.beneficiary(|old(trace)|)
    {
      r := replies.beneficiary(|trace|);
      trace := trace + [BeneficiaryCall(token, beneficiary)];
    }

    /** `paymentProvider.createQuote(token, {amount, currency})` */
    method CreateQuote(token: string, params: QuoteParams) returns (r: Reply<QuoteData>)
      modifies this
      ensures trace == old(trace) + [QuoteCall(token, params)]
      ensures r == replies.quote(|old(trace)|)
    {
      r := replies.quote(|trace|);
      trace := trace + [QuoteCall(token, params)];
    }

    /** `paymentProvider.createOrder(token, {quoteId, beneficiaryId})` */
    method CreateOrder(token: string, params: OrderParams) returns (r: Reply<OrderData>)
      modifies this
      ensures trace == old(trace) + [OrderCall(token, params)]
      ensures r == replies.order(|old(trace)|)
    {
      r := replies.order(|trace|);
      trace := trace + [OrderCall(token, params)];
    }

    /** The backoff `await new Promise(res => setTimeout(res, ms))`, recorded rather than slept. */
    method Sleep(ms: nat)
      modifies this
      ensures trace == old(trace) + [Wait(ms)]
    {
      trace := trace + [Wait(ms)];
    }
  }
}
