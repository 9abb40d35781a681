/** What one `processPayment` call and one `_createOrderWithRetry` run promise,
    proved about the functions `Process` and `RetryRun` that the methods of
    `PaymentService` are proved to follow. */
module PaymentProperties {
  import opened Wrappers
  import opened Errors
  import opened Provider
  import opened IdempotencyRepository
  import opened Payments

  // ----- views of a trace -----

  /** The backoff delays in a trace, in order. */
  function Delays(ev: seq<Event>): seq<nat>
  {
    if ev == [] then [] else (if ev[0].Wait? then [ev[0].ms] else []) + Delays(ev[1..])
  }

  /** How many createOrder calls a trace holds. */
  function OrderCalls(ev: seq<Event>): nat
  {
    if ev == [] then 0 else (if ev[0].OrderCall? then 1 else 0) + OrderCalls(ev[1..])
  }

  /** The delays `500 * 1, ..., 500 * k`. */
  function Backoffs(k: nat): seq<nat>
  {
    if k == 0 then [] else Backoffs(k - 1) + [Backoff(k - 1)]
  }

  lemma {:induction false} BackoffsAt(k: nat, j: nat)
    requires j < k
    ensures |Backoffs(k)| == k && Backoffs(k)[j] == 500 * (j + 1)
  {
    BackoffsLength(k);
    if j < k - 1 {
      BackoffsAt(k - 1, j);
    }
  }

  lemma {:induction false} BackoffsLength(k: nat)
    ensures |Backoffs(k)| == k
  {
    if k > 0 {
      BackoffsLength(k - 1);
    }
  }

  lemma {:induction false} DelaysAppend(a: seq<Event>, b: seq<Event>)
    ensures Delays(a + b) == Delays(a) + Delays(b)
    ensures OrderCalls(a + b) == OrderCalls(a) + OrderCalls(b)
  {
    if a == [] {
      assert a + b == b;
    } else {
      assert (a + b)[0] == a[0];
      assert (a + b)[1..] == a[1..] + b;
      DelaysAppend(a[1..], b);
    }
  }

  // ----- the retry schedule -----

  /** Attempts `0 .. k-1` of a retry run starting at moment `t0` all failed transiently. */
  predicate AllTransientBefore(order: nat -> Reply<OrderData>, t0: nat, k: nat)
  {
    forall j :: 0 <= j < k ==> IsTransientFailure(AttemptReply(order, t0, j))
  }

  lemma {:induction false} RetriedPrefixAt(call: Event, i: nat, j: nat)
    requires j < 2 * i
    ensures RetriedPrefix(call, i)[j] == if j % 2 == 0 then call else Wait(Backoff(j / 2))
  {
    if j < 2 * (i - 1) {
      RetriedPrefixAt(call, i - 1, j);
    }
  }

  lemma PrefixThenCall(call: Event, k: nat)
    ensures RetriedPrefix(call, k) + [call] == Schedule(call, k)
  {
    var a := RetriedPrefix(call, k) + [call];
    var b := Schedule(call, k);
    forall j | 0 <= j < |a|
      ensures a[j] == b[j]
    {
      if j < 2 * k {
        RetriedPrefixAt(call, k, j);
      }
    }
  }

  lemma {:induction false} RetriedPrefixCounts(call: Event, i: nat)
    requires call.OrderCall?
    ensures Delays(RetriedPrefix(call, i)) == Backoffs(i)
    ensures OrderCalls(RetriedPrefix(call, i)) == i
  {
    if i > 0 {
      var pair := [call, Wait(Backoff(i - 1))];
      RetriedPrefixCounts(call, i - 1);
      DelaysAppend(RetriedPrefix(call, i - 1), pair);
      assert pair[1..] == [Wait(Backoff(i - 1))];
      assert pair[1..][1..] == [];
      assert Delays(pair[1..]) == [Backoff(i - 1)] + Delays([]);
      assert Delays(pair) == [] + Delays(pair[1..]);
      assert OrderCalls(pair[1..]) == 0;
      assert OrderCalls(pair) == 1 + OrderCalls(pair[1..]);
    }
  }

  /** A run that stops at attempt `k` makes `k + 1` createOrder calls and waits
      `500 * 1, ..., 500 * k` milliseconds between them. */
  lemma ScheduleCounts(call: Event, k: nat)
    requires call.OrderCall?
    ensures OrderCalls(Schedule(call, k)) == k + 1
    ensures Delays(Schedule(call, k)) == Backoffs(k)
  {
    PrefixThenCall(call, k);
    RetriedPrefixCounts(call, k);
    DelaysAppend(RetriedPrefix(call, k), [call]);
    assert [call][1..] == [];
  }

  lemma {:induction false} RetryFrom(order: nat -> Reply<OrderData>, t0: nat, call: Event, retries: nat, i: nat, k: nat)
    requires i <= k <= retries
    requires forall j :: i <= j < k ==> IsTransientFailure(AttemptReply(order, t0, j))
    requires k == retries || !IsTransientFailure(AttemptReply(order, t0, k))
    ensures RetryRun(order, t0, call, retries, i).0 == AttemptReply(order, t0, k)
    ensures RetriedPrefix(call, i) + RetryRun(order, t0, call, retries, i).1 == Schedule(call, k)
    decreases k - i
  {
    if i == k {
      PrefixThenCall(call, k);
    } else {
      RetryRunStep(order, t0, call, retries, i);
      RetryFrom(order, t0, call, retries, i + 1, k);
    }
  }

  /** The retry loop stops at the first attempt that is not a transient failure, or
      at attempt `retries`, whichever comes first: it returns that attempt's answer
      as it is, after calling and waiting exactly as `Schedule` lays out. */
  lemma RetryOutcome(order: nat -> Reply<OrderData>, t0: nat, call: Event, retries: nat, k: nat)
    requires k <= retries
    requires AllTransientBefore(order, t0, k)
    requires k == retries || !IsTransientFailure(AttemptReply(order, t0, k))
    ensures RetryRun(order, t0, call, retries, 0) == (AttemptReply(order, t0, k), Schedule(call, k))
  {
    RetryFrom(order, t0, call, retries, 0, k);
    var ev := RetryRun(order, t0, call, retries, 0).1;
    assert RetriedPrefix(call, 0) == [];
    assert RetriedPrefix(call, 0) + ev == ev;
  }

  lemma {:induction false} RetryStopFrom(order: nat -> Reply<OrderData>, t0: nat, retries: nat, i: nat) returns (k: nat)
    requires i <= retries
    ensures i <= k <= retries
    ensures forall j :: i <= j < k ==> IsTransientFailure(AttemptReply(order, t0, j))
    ensures k == retries || !IsTransientFailure(AttemptReply(order, t0, k))
    decreases retries - i
  {
    if IsTransientFailure(AttemptReply(order, t0, i)) && i < retries {
      k := RetryStopFrom(order, t0, retries, i + 1);
    } else {
      k := i;
    }
  }

  /** Conversely, every run has that shape: an odd number of events, at most
      `retries + 1` calls, every attempt before the last a transient failure, and
      the last attempt's answer returned unchanged. */
  lemma RetryShape(order: nat -> Reply<OrderData>, t0: nat, call: Event, retries: nat)
    ensures var (r, ev) := RetryRun(order, t0, call, retries, 0);
            && |ev| % 2 == 1 && |ev| / 2 <= retries
            && ev == Schedule(call, |ev| / 2)
            && r == AttemptReply(order, t0, |ev| / 2)
            && AllTransientBefore(order, t0, |ev| / 2)
            && (|ev| / 2 == retries || !IsTransientFailure(r))
  {
    var k := RetryStopFrom(order, t0, retries, 0);
    RetryOutcome(order, t0, call, retries, k);
  }

  /** A first attempt that succeeds is returned at once: one call, no wait. */
  lemma RetryFirstSuccess(order: nat -> Reply<OrderData>, t0: nat, call: Event, retries: nat)
    requires order(t0).Success?
    ensures RetryRun(order, t0, call, retries, 0) == (order(t0), [call])
  {
  }

  /** Attempts `0 .. k-1` fail transiently and attempt `k <= retries` succeeds: the
      success is returned after `k + 1` calls and exactly the waits `500 * 1, ..., 500 * k`. */
  lemma RetrySucceedsAfterTransientFailures(order: nat -> Reply<OrderData>, t0: nat, call: Event, retries: nat, k: nat)
    requires call.OrderCall? && k <= retries
    requires AllTransientBefore(order, t0, k)
    requires AttemptReply(order, t0, k).Success?
    ensures var (r, ev) := RetryRun(order, t0, call, retries, 0);
            r == AttemptReply(order, t0, k) && OrderCalls(ev) == k + 1 && Delays(ev) == Backoffs(k)
  {
    RetryOutcome(order, t0, call, retries, k);
    ScheduleCounts(call, k);
  }

  /** A non-transient failure at attempt `k` ends the run after exactly that attempt,
      and is rethrown as it is. */
  lemma RetryStopsOnPermanentFailure(order: nat -> Reply<OrderData>, t0: nat, call: Event, retries: nat, k: nat)
    requires call.OrderCall? && k <= retries
    requires AllTransientBefore(order, t0, k)
    requires AttemptReply(order, t0, k).Failure? && !AttemptReply(order, t0, k).error.isTransient
    ensures var (r, ev) := RetryRun(order, t0, call, retries, 0);
            r == Failure(AttemptReply(order, t0, k).error) && OrderCalls(ev) == k + 1 && Delays(ev) == Backoffs(k)
  {
    RetryOutcome(order, t0, call, retries, k);
    ScheduleCounts(call, k);
  }

  /** When every one of the `retries + 1` attempts fails transiently, the last
      provider error is rethrown unwrapped, after `retries` waits. */
  lemma RetryExhausted(order: nat -> Reply<OrderData>, t0: nat, call: Event, retries: nat)
    requires call.OrderCall?
    requires AllTransientBefore(order, t0, retries + 1)
    ensures var (r, ev) := RetryRun(order, t0, call, retries, 0);
            && AttemptReply(order, t0, retries).Failure?
            && r == Failure(AttemptReply(order, t0, retries).error) && r.error.isTransient
            && OrderCalls(ev) == retries + 1 && Delays(ev) == Backoffs(retries)
  {
    RetryOutcome(order, t0, call, retries, retries);
    ScheduleCounts(call, retries);
  }

  /** However the provider answers, at most `retries + 1` createOrder calls are made. */
  lemma RetryAttemptsBounded(order: nat -> Reply<OrderData>, t0: nat, call: Event, retries: nat)
    requires call.OrderCall?
    ensures 1 <= OrderCalls(RetryRun(order, t0, call, retries, 0).1) <= retries + 1
  {
    RetryShape(order, t0, call, retries);
    ScheduleCounts(call, |RetryRun(order, t0, call, retries, 0).1| / 2);
  }

  // ----- processPayment: the ledger check -----

  /** A record under the key with a different payload hash: a 409 conflict, no
      provider call, the ledger as it was. */
  lemma ConflictOnHashMismatch(ledger: Ledger, hash: Payload -> Digest, replies: Replies, t: nat,
                               key: string, payload: Payload, createdAt: string)
    requires key in ledger && ledger[key].payloadHash != hash(payload)
    ensures var run := Process(ledger, hash, replies, t, key, payload, createdAt);
            && run.result == Failure(AppFailure(NewIdempotencyConflictError(None)))
            && StatusCode(run.result.error.err) == 409
            && run.result.error.err.message == ConflictDefaultMessage
            && run.ledger == ledger && run.trace == []
  {
  }

  /** A record under the key with the same payload hash: the stored response is
      returned verbatim, with no provider call and no write. */
  lemma ReplayOnHashMatch(ledger: Ledger, hash: Payload -> Digest, replies: Replies, t: nat,
                          key: string, payload: Payload, createdAt: string)
    requires key in ledger && ledger[key].payloadHash == hash(payload)
    ensures var run := Process(ledger, hash, replies, t, key, payload, createdAt);
            run.result == Success(ledger[key].response) && run.ledger == ledger && run.trace == []
  {
  }

  /** A conflict is reported exactly when a record exists and its hash differs. */
  lemma ConflictExactlyOnMismatch(ledger: Ledger, hash: Payload -> Digest, replies: Replies, t: nat,
                                  key: string, payload: Payload, createdAt: string)
    ensures var run := Process(ledger, hash, replies, t, key, payload, createdAt);
            (run.result.Failure? && run.result.error.AppFailure?)
            <==> (key in ledger && ledger[key].payloadHash != hash(payload))
  {
  }

  /** The provider is called exactly when no record exists, and then auth comes first. */
  lemma ProviderCalledExactlyWithoutRecord(ledger: Ledger, hash: Payload -> Digest, replies: Replies, t: nat,
                                           key: string, payload: Payload, createdAt: string)
    ensures var run := Process(ledger, hash, replies, t, key, payload, createdAt);
            (run.trace != []) <==> (key !in ledger)
    ensures var run := Process(ledger, hash, replies, t, key, payload, createdAt);
            run.trace != [] ==> run.trace[0] == AuthCall
  {
  }

  // ----- processPayment: the ledger write -----

  /** A failed call writes nothing; a successful one leaves the key mapped to
      `{response, payloadHash = Hash(payload)}` and every other key as it was. */
  lemma LedgerEffect(ledger: Ledger, hash: Payload -> Digest, replies: Replies, t: nat,
                     key: string, payload: Payload, createdAt: string)
    ensures var run := Process(ledger, hash, replies, t, key, payload, createdAt);
            run.result.Failure? ==> run.ledger == ledger
    ensures var run := Process(ledger, hash, replies, t, key, payload, createdAt);
            run.result.Success? ==>
              && run.ledger == ledger[key := Record(run.result.value, hash(payload))]
              && Lookup(run.ledger, key) == Some(Record(run.result.value, hash(payload)))
    ensures var run := Process(ledger, hash, replies, t, key, payload, createdAt);
            forall k :: k != key ==> Lookup(run.ledger, k) == Lookup(ledger, k)
  {
    var run := Process(ledger, hash, replies, t, key, payload, createdAt);
    if run.result.Success? && key in ledger {
      assert ledger[key] == Record(run.result.value, hash(payload));
    }
  }

  /** After a success, the same key and payload replay it, whatever the provider
      would now answer and whatever the clock says: same response, same `id`, no
      provider call, no write. */
  lemma ReplayAfterSuccess(ledger: Ledger, hash: Payload -> Digest, replies: Replies, t: nat,
                           key: string, payload: Payload, createdAt: string,
                           replies': Replies, t': nat, createdAt': string)
    requires Process(ledger, hash, replies, t, key, payload, createdAt).result.Success?
    ensures var first := Process(ledger, hash, replies, t, key, payload, createdAt);
            var second := Process(first.ledger, hash, replies', t', key, payload, createdAt');
            && second.result == first.result
            && second.result.value.id == first.result.value.id
            && second.ledger == first.ledger && second.trace == []
  {
    LedgerEffect(ledger, hash, replies, t, key, payload, createdAt);
  }

  /** After a success, the same key with a payload whose hash differs is refused
      with a conflict, and the stored response stays the first one. Assuming the
      hash has no collisions, any different payload is refused this way. */
  lemma ConflictAfterSuccess(ledger: Ledger, hash: Payload -> Digest, replies: Replies, t: nat,
                             key: string, payload: Payload, createdAt: string,
                             replies': Replies, t': nat, payload': Payload, createdAt': string)
    requires Process(ledger, hash, replies, t, key, payload, createdAt).result.Success?
    requires hash(payload') != hash(payload) || forall p, q :: hash(p) == hash(q) ==> p == q
    requires payload' != payload
    ensures var first := Process(ledger, hash, replies, t, key, payload, createdAt);
            var second := Process(first.ledger, hash, replies', t', key, payload', createdAt');
            && second.result == Failure(AppFailure(NewIdempotencyConflictError(None)))
            && second.ledger == first.ledger
            && Lookup(second.ledger, key) == Some(Record(first.result.value, hash(payload)))
            && second.trace == []
  {
    LedgerEffect(ledger, hash, replies, t, key, payload, createdAt);
  }

  /** A failed call leaves no record, so a later call under the same key (with any
      payload) runs the workflow again from auth. */
  lemma RerunAfterFailure(ledger: Ledger, hash: Payload -> Digest, replies: Replies, t: nat,
                          key: string, payload: Payload, createdAt: string,
                          replies': Replies, t': nat, payload': Payload, createdAt': string)
    requires key !in ledger
    requires Process(ledger, hash, replies, t, key, payload, createdAt).result.Failure?
    ensures var first := Process(ledger, hash, replies, t, key, payload, createdAt);
            var second := Process(first.ledger, hash, replies', t', key, payload', createdAt');
            first.ledger == ledger && second.trace != [] && second.trace[0] == AuthCall
  {
  }

  // ----- processPayment: the workflow -----

  /** The steps of the workflow as far as they got, for a trace of the no-record path. */
  lemma {:induction false} WorkflowTrace(replies: Replies, t: nat, payload: Payload, createdAt: string)
    ensures var (outcome, tr) := Workflow(replies, t, payload, createdAt);
            var auth := replies.auth(t);
            var ben := replies.beneficiary(t + 1);
            var quote := replies.quote(t + 2);
            && 1 <= |tr| <= 4 + 2 * DefaultRetries
            && tr[0] == AuthCall
            && (|tr| == 1 <==> auth.Failure?)
            && (auth.Failure? ==> outcome == Failure(auth.error))
            && (|tr| > 1 ==>
                  && auth.Success?
                  && tr[1] == BeneficiaryCall(auth.value.accessToken, payload.beneficiary)
                  && (|tr| == 2 <==> ben.Failure?)
                  && (ben.Failure? ==> outcome == Failure(ben.error)))
            && (|tr| > 2 ==>
                  && ben.Success?
                  && tr[2] == QuoteCall(auth.value.accessToken, QuoteParams(payload.amount, payload.currency))
                  && (|tr| == 3 <==> quote.Failure?)
                  && (quote.Failure? ==> outcome == Failure(quote.error)))
            && (|tr| > 3 ==>
                  && quote.Success?
                  && |tr| % 2 == 0
                  && tr[3..] == Schedule(OrderCall(auth.value.accessToken,
                                                   OrderParams(quote.value.quoteId, ben.value.beneficiaryId)),
                                         (|tr| - 4) / 2)
                  && AllTransientBefore(replies.order, t + 3, (|tr| - 4) / 2)
                  && outcome.Failure? == replies.order(t + |tr| - 1).Failure?
                  && (outcome.Failure? ==> outcome.error == replies.order(t + |tr| - 1).error)
                  && (outcome.Success? ==>
                        outcome.value == Normalize(ben.value, quote.value, replies.order(t + |tr| - 1).value, createdAt)))
  {
    var auth := replies.auth(t);
    var ben := replies.beneficiary(t + 1);
    var quote := replies.quote(t + 2);
    if auth.Success? && ben.Success? && quote.Success? {
      var call := OrderCall(auth.value.accessToken, OrderParams(quote.value.quoteId, ben.value.beneficiaryId));
      RetryShape(replies.order, t + 3, call, DefaultRetries);
      var (outcome, tr) := Workflow(replies, t, payload, createdAt);
      var retried := RetryRun(replies.order, t + 3, call, DefaultRetries, 0).1;
      assert tr == [AuthCall, BeneficiaryCall(auth.value.accessToken, payload.beneficiary),
                    QuoteCall(auth.value.accessToken, QuoteParams(payload.amount, payload.currency))] + retried;
      assert tr[3..] == retried;
      assert (|tr| - 4) / 2 == |retried| / 2;
    }
  }

  /** On the no-record path the provider is called in the fixed order auth,
      createBeneficiary, createQuote, createOrder (retried), each step only after
      the previous one succeeded; the auth token goes to every later call, and
      createOrder gets the quote's `quoteId` and the beneficiary's `beneficiaryId`. */
  lemma CallOrder(ledger: Ledger, hash: Payload -> Digest, replies: Replies, t: nat,
                  key: string, payload: Payload, createdAt: string)
    requires key !in ledger
    ensures var tr := Process(ledger, hash, replies, t, key, payload, createdAt).trace;
            && tr != [] && tr[0] == AuthCall
            && (|tr| > 1 ==>
                  && replies.auth(t).Success?
                  && tr[1] == BeneficiaryCall(replies.auth(t).value.accessToken, payload.beneficiary))
            && (|tr| > 2 ==>
                  && replies.beneficiary(t + 1).Success?
                  && tr[2] == QuoteCall(replies.auth(t).value.accessToken, QuoteParams(payload.amount, payload.currency)))
            && (forall j :: 3 <= j < |tr| ==>
                  && replies.quote(t + 2).Success?
                  && (tr[j] == OrderCall(replies.auth(t).value.accessToken,
                                         OrderParams(replies.quote(t + 2).value.quoteId,
                                                     replies.beneficiary(t + 1).value.beneficiaryId))
                      <==> j % 2 == 1)
                  && (j % 2 == 0 ==> tr[j] == Wait(Backoff((j - 3) / 2))))
  {
    WorkflowTrace(replies, t, payload, createdAt);
    var tr := Process(ledger, hash, replies, t, key, payload, createdAt).trace;
    if |tr| > 3 {
      var call := OrderCall(replies.auth(t).value.accessToken,
                            OrderParams(replies.quote(t + 2).value.quoteId,
                                        replies.beneficiary(t + 1).value.beneficiaryId));
      forall j | 3 <= j < |tr|
        ensures tr[j] == (if (j - 3) % 2 == 0 then call else Wait(Backoff((j - 3) / 2)))
      {
        assert tr[j] == tr[3..][j - 3];
      }
    }
  }

  /** On the no-record path every call after auth carries the token auth returned. */
  lemma TokenThreaded(ledger: Ledger, hash: Payload -> Digest, replies: Replies, t: nat,
                      key: string, payload: Payload, createdAt: string)
    requires key !in ledger
    ensures var tr := Process(ledger, hash, replies, t, key, payload, createdAt).trace;
            forall j :: 1 <= j < |tr| && !tr[j].Wait? ==>
              replies.auth(t).Success? && !tr[j].AuthCall? && tr[j].token == replies.auth(t).value.accessToken
  {
    CallOrder(ledger, hash, replies, t, key, payload, createdAt);
  }

  /** A failing step ends the call with that provider error, unchanged: after auth
      alone, after createBeneficiary, after createQuote, or after the last
      createOrder attempt; and nothing is written. */
  lemma FailurePropagates(ledger: Ledger, hash: Payload -> Digest, replies: Replies, t: nat,
                          key: string, payload: Payload, createdAt: string)
    requires key !in ledger
    ensures var run := Process(ledger, hash, replies, t, key, payload, createdAt);
            && (replies.auth(t).Failure? ==>
                  run.result == Failure(ProviderFailure(replies.auth(t).error)) && run.trace == [AuthCall])
            && (replies.auth(t).Success? && replies.beneficiary(t + 1).Failure? ==>
                  run.result == Failure(ProviderFailure(replies.beneficiary(t + 1).error)) && |run.trace| == 2)
            && (replies.auth(t).Success? && replies.beneficiary(t + 1).Success? && replies.quote(t + 2).Failure? ==>
                  run.result == Failure(ProviderFailure(replies.quote(t + 2).error)) && |run.trace| == 3)
            && (replies.auth(t).Success? && replies.beneficiary(t + 1).Success? && replies.quote(t + 2).Success?
                && run.result.Failure? ==>
                  && |run.trace| > 3 && run.trace[|run.trace| - 1].OrderCall?
                  && replies.order(t + |run.trace| - 1).Failure?
                  && run.result == Failure(ProviderFailure(replies.order(t + |run.trace| - 1).error)))
            && (run.result.Failure? ==> run.ledger == ledger)
  {
    WorkflowTrace(replies, t, payload, createdAt);
    var tr := Process(ledger, hash, replies, t, key, payload, createdAt).trace;
    if |tr| > 3 {
      assert tr[|tr| - 1] == tr[3..][|tr| - 4];
    }
  }

  /** A successful workflow's response is built only from downstream data and the
      timestamp: `id` and `status` from the last order attempt, the quote's id,
      total and fee, the beneficiary's id, and `createdAt`. */
  lemma SuccessResponseFromDownstream(ledger: Ledger, hash: Payload -> Digest, replies: Replies, t: nat,
                                      key: string, payload: Payload, createdAt: string)
    requires key !in ledger
    requires Process(ledger, hash, replies, t, key, payload, createdAt).result.Success?
    ensures var run := Process(ledger, hash, replies, t, key, payload, createdAt);
            var order := replies.order(t + |run.trace| - 1);
            var quote := replies.quote(t + 2);
            var ben := replies.beneficiary(t + 1);
            && replies.auth(t).Success? && ben.Success? && quote.Success? && order.Success?
            && run.result.value.id == order.value.orderId
            && run.result.value.status == order.value.status
            && run.result.value.quote == QuoteSummary(quote.value.quoteId, quote.value.totalAmount, quote.value.fee)
            && run.result.value.beneficiary.id == ben.value.beneficiaryId
            && run.result.value.createdAt == createdAt
  {
    WorkflowTrace(replies, t, payload, createdAt);
  }

  /** With every provider call succeeding at once, one pass of the workflow makes
      exactly four calls and stores its response. */
  lemma HappyPath(ledger: Ledger, hash: Payload -> Digest, replies: Replies, t: nat,
                  key: string, payload: Payload, createdAt: string)
    requires key !in ledger
    requires replies.auth(t).Success? && replies.beneficiary(t + 1).Success?
    requires replies.quote(t + 2).Success? && replies.order(t + 3).Success?
    ensures var run := Process(ledger, hash, replies, t, key, payload, createdAt);
            var token := replies.auth(t).value.accessToken;
            && run.result.Success?
            && run.trace == [AuthCall, BeneficiaryCall(token, payload.beneficiary),
                             QuoteCall(token, QuoteParams(payload.amount, payload.currency)),
                             OrderCall(token, OrderParams(replies.quote(t + 2).value.quoteId,
                                                          replies.beneficiary(t + 1).value.beneficiaryId))]
            && run.ledger == ledger[key := Record(run.result.value, hash(payload))]
  {
  }

  /** The replay and conflict checks of the smoke script, on the stateful service:
      a success is replayed with the same `id`, and a payload whose hash differs is
      refused with a 409 while the stored record stays. */
  method ReplayAndConflictScenario(service: PaymentService, key: string, payload: Payload, other: Payload,
                                   createdAt1: string, createdAt2: string, createdAt3: string)
      returns (r1: Result<Response, Failure>, r2: Result<Response, Failure>, r3: Result<Response, Failure>)
    requires service.hash(other) != service.hash(payload)
    modifies service.repository, service.gateway
    ensures r1.Success? ==> r2 == r1 && r2.value.id == r1.value.id
    ensures r1.Success? ==> r3 == Failure(AppFailure(NewIdempotencyConflictError(None))) && StatusCode(r3.error.err) == 409
    ensures r1.Success? ==> Lookup(service.repository.store, key) == Some(Record(r1.value, service.hash(payload)))
  {
    r1 := service.ProcessPayment(key, payload, createdAt1);
    r2 := service.ProcessPayment(key, payload, createdAt2);
    r3 := service.ProcessPayment(key, other, createdAt3);
  }
}
