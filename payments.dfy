/** The idempotent payment orchestrator: fingerprint the payload, consult the
    ledger, replay or refuse a reused key, or else drive auth, beneficiary, quote
    and order (the last with bounded retry), normalise the answer and save it.

    The pure functions below state what one call does (its result, the ledger
    after it, and what the gateway saw); the class `PaymentService` runs the same
    steps imperatively against a repository object and a gateway object and is
    proved to agree with them. */
module Payments {
  import opened Wrappers
  import opened Errors
  import opened Provider
  import opened IdempotencyRepository

  /** The request body the orchestrator reads. */
  datatype Payload = Payload(amount: real, currency: string, beneficiary: BeneficiaryDetails)

  /** The normalised response returned to the client and stored in the ledger. */
  datatype QuoteSummary = QuoteSummary(id: string, amount: real, fee: real)
  datatype BeneficiarySummary = BeneficiarySummary(id: string)
  datatype Response = Response(
    id: string,
    status: string,
    quote: QuoteSummary,
    beneficiary: BeneficiarySummary,
    createdAt: string)

  /** What `processPayment` can throw: an application error (the conflict) or a
      provider error passed through unchanged. */
  datatype Failure = AppFailure(err: AppError) | ProviderFailure(cause: ProviderError)

  type Ledger = map<string, Record<Response>>

  /** The hex digest of the payload's serialisation. */
  type Digest = string

  /** `retries` defaults to 2: three attempts at most. */
  const DefaultRetries: nat := 2

  /** The backoff before attempt `i + 1` is `500 * (i + 1)` milliseconds. */
  const BackoffUnitMs: nat := 500

  function Backoff(i: nat): nat
  {
    BackoffUnitMs * (i + 1)
  }

  // ----- _createOrderWithRetry -----

  /** The answer to order attempt `i` of a retry run whose first attempt happened at
      moment `t0`: every earlier attempt adds a call and a wait. */
  function AttemptReply(order: nat -> Reply<OrderData>, t0: nat, i: nat): Reply<OrderData>
  {
    order(t0 + 2 * i)
  }

  /** The retry loop from attempt `i` on: its outcome and the events it produces. */
  function RetryRun(order: nat -> Reply<OrderData>, t0: nat, call: Event, retries: nat, i: nat): (Reply<OrderData>, seq<Event>)
    requires i <= retries
    decreases retries - i
  {
    var r := AttemptReply(order, t0, i);
    if IsTransientFailure(r) && i < retries then
      var rest := RetryRun(order, t0, call, retries, i + 1);
      (rest.0, [call, Wait(Backoff(i))] + rest.1)
    else
      (r, [call])
  }

  /** The events of attempts `0 .. i-1` when each failed transiently: a call
      followed by its backoff wait. */
  function RetriedPrefix(call: Event, i: nat): (p: seq<Event>)
    ensures |p| == 2 * i
  {
    if i == 0 then [] else RetriedPrefix(call, i - 1) + [call, Wait(Backoff(i - 1))]
  }

  /** The events of a retry run that stops at attempt `k`, written out position by
      position: calls at even positions, the growing waits at odd ones. */
  function Schedule(call: Event, k: nat): (s: seq<Event>)
  {
    seq(2 * k + 1, j requires 0 <= j => if j % 2 == 0 then call else Wait(Backoff(j / 2)))
  }

  // ----- processPayment -----

  /** The response built from the downstream answers and the generation time. */
  function Normalize(beneficiary: BeneficiaryData, quote: QuoteData, order: OrderData, createdAt: string): Response
  {
    Response(
      order.orderId,
      order.status,
      QuoteSummary(quote.quoteId, quote.totalAmount, quote.fee),
      BeneficiarySummary(beneficiary.beneficiaryId),
      createdAt)
  }

  /** The four-step workflow started at moment `t`: its outcome and the events it produces. */
  function Workflow(replies: Replies, t: nat, payload: Payload, createdAt: string): (Result<Response, ProviderError>, seq<Event>)
  {
    var auth := replies.auth(t);
    if auth.Failure? then (Failure(auth.error), [AuthCall])
    else
      var token := auth.value.accessToken;
      var ben := replies.beneficiary(t + 1);
      var upToBen := [AuthCall, BeneficiaryCall(token, payload.beneficiary)];
      if ben.Failure? then (Failure(ben.error), upToBen)
      else
        var quote := replies.quote(t + 2);
        var upToQuote := upToBen + [QuoteCall(token, QuoteParams(payload.amount, payload.currency))];
        if quote.Failure? then (Failure(quote.error), upToQuote)
        else
          var call := OrderCall(token, OrderParams(quote.value.quoteId, ben.value.beneficiaryId));
          var (order, retried) := RetryRun(replies.order, t + 3, call, DefaultRetries, 0);
          if order.Failure? then (Failure(order.error), upToQuote + retried)
          else (Success(Normalize(ben.value, quote.value, order.value, createdAt)), upToQuote + retried)
  }

  /** Everything one `processPayment` call determines. */
  datatype Run = Run(result: Result<Response, Failure>, ledger: Ledger, trace: seq<Event>)

  /** One `processPayment(key, payload)` against ledger `ledger`, the gateway being at moment `t`. */
  function Process(ledger: Ledger, hash: Payload -> Digest, replies: Replies, t: nat,
                   key: string, payload: Payload, createdAt: string): Run
  {
    var payloadHash := hash(payload);
    var existing := Lookup(ledger, key);
    if existing.Some? then
      if existing.value.payloadHash != payloadHash then
        Run(Failure(AppFailure(NewIdempotencyConflictError(None))), ledger, [])
      else
        Run(Success(existing.value.response), ledger, [])
    else
      var (outcome, trace) := Workflow(replies, t, payload, createdAt);
      match outcome
      case Failure(e) => Run(Failure(ProviderFailure(e)), ledger, trace)
      case Success(response) => Run(Success(response), Saved(ledger, key, response, payloadHash), trace)
  }

  /** One step of the retry loop, unfolded. */
  lemma RetryRunStep(order: nat -> Reply<OrderData>, t0: nat, call: Event, retries: nat, i: nat)
    requires i < retries
    requires IsTransientFailure(AttemptReply(order, t0, i))
    ensures RetryRun(order, t0, call, retries, i).0 == RetryRun(order, t0, call, retries, i + 1).0
    ensures RetriedPrefix(call, i) + RetryRun(order, t0, call, retries, i).1
         == RetriedPrefix(call, i + 1) + RetryRun(order, t0, call, retries, i + 1).1
  {
  }

  /** The payment service: the ledger it reads and writes, the gateway it drives,
      and the fingerprint function it hashes payloads with. */
  class PaymentService {
    const hash: Payload -> Digest
    const repository: InMemoryIdempotencyRepository<Response>
    const gateway: Gateway

    constructor (hash: Payload -> Digest, repository: InMemoryIdempotencyRepository<Response>, gateway: Gateway)
      ensures this.hash == hash && this.repository == repository && this.gateway == gateway
    {
      this.hash := hash;
      this.repository := repository;
      this.gateway := gateway;
    }

    /** `_createOrderWithRetry(token, params, retries)` */
    method CreateOrderWithRetry(token: string, params: OrderParams, retries: nat) returns (r: Reply<OrderData>)
      modifies gateway
      ensures var run := RetryRun(gateway.replies.order, |old(gateway.trace)|, OrderCall(token, params), retries, 0);
              r == run.0 && gateway.trace == old(gateway.trace) + run.1
    {
      ghost var t0 := |gateway.trace|;
      ghost var call := OrderCall(token, params);
      for i := 0 to retries + 1
        invariant i <= retries
        invariant gateway.trace == old(gateway.trace) + RetriedPrefix(call, i)
        invariant RetriedPrefix(call, 0) + RetryRun(gateway.replies.order, t0, call, retries, 0).1
               == RetriedPrefix(call, i) + RetryRun(gateway.replies.order, t0, call, retries, i).1
        invariant RetryRun(gateway.replies.order, t0, call, retries, 0).0
               == RetryRun(gateway.replies.order, t0, call, retries, i).0
      {
        assert RetriedPrefix(call, 0) == [];
        var attempt := gateway.CreateOrder(token, params);
        assert attempt == AttemptReply(gateway.replies.order, t0, i);
        assert !(IsTransientFailure(attempt) && i < retries) ==>
          RetryRun(gateway.replies.order, t0, call, retries, i) == (attempt, [call]);
        assert gateway.trace == old(gateway.trace) + (RetriedPrefix(call, i) + [call]);
        if attempt.Success? {
          return attempt;
        }
        if attempt.error.isTransient && i < retries {
          RetryRunStep(gateway.replies.order, t0, call, retries, i);
          gateway.Sleep(Backoff(i));
          continue;
        }
        return attempt;
      }
      assert false;
    }

    /** `processPayment(idempotencyKey, payload)`, the current time supplied as `createdAt`. */
    method ProcessPayment(idempotencyKey: string, payload: Payload, createdAt: string) returns (r: Result<Response, Failure>)
      modifies repository, gateway
      ensures var run := Process(old(repository.store), hash, gateway.replies, |old(gateway.trace)|,
                                 idempotencyKey, payload, createdAt);
              r == run.result && repository.store == run.ledger && gateway.trace == old(gateway.trace) + run.trace
      ensures r.Failure? ==> repository.store == old(repository.store)
      ensures r.Success? ==> repository.store == old(repository.store)[idempotencyKey := Record(r.value, hash(payload))]
    {
      var payloadHash := hash(payload);
      var existingRecord := repository.Get(idempotencyKey);
      if existingRecord.Some? {
        if existingRecord.value.payloadHash != payloadHash {
          return Failure(AppFailure(NewIdempotencyConflictError(None)));
        }
        return Success(existingRecord.value.response);
      }

      var authData := gateway.Auth();
      if authData.Failure? {
        return Failure(ProviderFailure(authData.error));
      }
      var token := authData.value.accessToken;

      var beneficiaryData := gateway.CreateBeneficiary(token, payload.beneficiary);
      if beneficiaryData.Failure? {
        return Failure(ProviderFailure(beneficiaryData.error));
      }

      var quoteData := gateway.CreateQuote(token, QuoteParams(payload.amount, payload.currency));
      if quoteData.Failure? {
        return Failure(ProviderFailure(quoteData.error));
      }

      var orderData := CreateOrderWithRetry(token, OrderParams(quoteData.value.quoteId, beneficiaryData.value.beneficiaryId), DefaultRetries);
      if orderData.Failure? {
        return Failure(ProviderFailure(orderData.error));
      }

      var response := Normalize(beneficiaryData.value, quoteData.value, orderData.value, createdAt);
      repository.Save(idempotencyKey, response, payloadHash);
      return Success(response);
    }
  }
}
