/**
 * Properties of the payment lifecycle that span more than one step:
 * the sequences of statuses one processPayment request can save, and
 * invariants that every sequence of requests to the backend preserves.
 * Each request is one atomic step, as the backend runs it when requests
 * do not interleave.
 */
module Lifecycle {
  import opened Wrappers
  import opened Mongo
  import opened JsString
  import opened Services
  import opened MerchantModel
  import opened PaymentModel
  import PC = PaymentController
  import MC = MerchantController

  /** The statuses of a sequence of saved versions. */
  function Statuses(ws: seq<Payment>): (ss: seq<Status>)
    ensures |ss| == |ws| && forall i | 0 <= i < |ws| :: ss[i] == ws[i].status
  {
    seq(|ws|, i requires 0 <= i < |ws| => ws[i].status)
  }

  /**
   * A successful processPayment saves exactly one of three status
   * sequences, and it skips `converting` exactly when the payment's
   * merchant is missing.
   */
  lemma ProcessStatusPaths(
    payments: map<PaymentId, Payment>, merchants: map<MerchantId, Merchant>,
    paymentId: PaymentId, signature: string, solana: Solana, jupiter: Jupiter, now: Time)
    requires PC.Process(payments, merchants, paymentId, signature, solana, jupiter, now).reply.code == 200
    ensures var ss := Statuses(PC.Process(payments, merchants, paymentId, signature, solana, jupiter, now).writes);
      && (ss == [Received, Converting, Settled] || ss == [Received, Converting, Failed] || ss == [Received, Failed])
      && (ss == [Received, Failed] <==> payments[paymentId].merchantId !in merchants)
  {
    var r := PC.Process(payments, merchants, paymentId, signature, solana, jupiter, now);
    var saved := payments[paymentId].(status := Received, signature := Some(signature), updatedAt := now);
    var c := PC.Convert(saved, merchants, solana, jupiter, now);
    assert r.writes == [saved] + c.writes;
  }

  /**
   * The conversion never reads the `outputAmount` quoted at creation:
   * changing it changes nothing the conversion does but that field.
   */
  lemma ConvertIgnoresOutputAmount(
    p: Payment, outputAmount: string, merchants: map<MerchantId, Merchant>, solana: Solana, jupiter: Jupiter, now: Time)
    ensures var a := PC.Convert(p, merchants, solana, jupiter, now);
      var b := PC.Convert(p.(outputAmount := outputAmount), merchants, solana, jupiter, now);
      && a.calls == b.calls
      && |a.writes| == |b.writes|
      && forall i | 0 <= i < |a.writes| :: b.writes[i] == a.writes[i].(outputAmount := outputAmount)
  {
  }

  /**
   * Nothing stops a settled payment from being processed again: with the
   * transaction found and Jupiter answering, a second request swaps again
   * and overwrites `settlementTx`.
   */
  lemma ReprocessingSwapsAgain(
    payments: map<PaymentId, Payment>, merchants: map<MerchantId, Merchant>,
    paymentId: PaymentId, signature: string, solana: Solana, jupiter: Jupiter, now: Time)
    requires paymentId in payments && payments[paymentId].status == Settled && payments[paymentId].HasRequired()
    requires payments[paymentId].merchantId in merchants
    requires solana.getTransaction(signature) == Returned(true)
    requires forall q :: jupiter.quoteGet(q).Returned?
    requires forall a :: solana.publicKey(a).Returned?
    requires forall q :: jupiter.swapInstructionsPost(q).Returned?
    ensures var r := PC.Process(payments, merchants, paymentId, signature, solana, jupiter, now);
      && r.reply.code == 200
      && |r.calls| == 2 && r.calls[1].SwapCall?
      && PC.Last(r.writes).status == Settled
      && PC.Last(r.writes).settlementTx == Some(jupiter.swapInstructionsPost(r.calls[1].swap).value)
  {
    var saved := payments[paymentId].(status := Received, signature := Some(signature), updatedAt := now);
    var c := PC.Convert(saved, merchants, solana, jupiter, now);
    assert jupiter.quoteGet(PC.UsdcQuote(saved.inputAmount, saved.inputToken)).Returned?;
    assert solana.publicKey(merchants[saved.merchantId].walletAddress).Returned?;
    assert |c.calls| == 2;
    assert jupiter.swapInstructionsPost(c.calls[1].swap).Returned?;
  }

  /**
   * Nor does anything keep a settlement record exactly on settled
   * payments: a settled payment processed again whose fresh quote throws
   * ends `failed` with the thrown message, and still carries the old
   * `settlementTx`.
   */
  lemma ReprocessingFailsWithOldSettlement(
    payments: map<PaymentId, Payment>, merchants: map<MerchantId, Merchant>,
    paymentId: PaymentId, signature: string, solana: Solana, jupiter: Jupiter, now: Time)
    requires paymentId in payments && payments[paymentId].status == Settled && payments[paymentId].HasRequired()
    requires payments[paymentId].settlementTx.Some?
    requires payments[paymentId].merchantId in merchants
    requires solana.getTransaction(signature) == Returned(true)
    requires jupiter.quoteGet(PC.UsdcQuote(payments[paymentId].inputAmount, payments[paymentId].inputToken)).Threw?
    ensures var r := PC.Process(payments, merchants, paymentId, signature, solana, jupiter, now);
      var p := payments[paymentId];
      && r.reply.code == 200
      && PC.Last(r.writes).status == Failed
      && PC.Last(r.writes).error == Some(Message(jupiter.quoteGet(PC.UsdcQuote(p.inputAmount, p.inputToken)).thrown))
      && PC.Last(r.writes).settlementTx == p.settlementTx
  {
    PC.ProcessThenConverts(payments, merchants, paymentId, signature, solana, jupiter, now);
  }

  // ---------------------------------------------------------------- requests in sequence

  /** A request to the backend that changes a collection. */
  datatype Request =
    | CreatePaymentRequest(merchantId: MerchantId, amount: int, inputToken: string,
                           jupiter: Jupiter, newPaymentId: PaymentId, now: Time)
    | ProcessPaymentRequest(paymentId: PaymentId, signature: string, solana: Solana, jupiter: Jupiter, now: Time)
    | RegisterMerchantRequest(name: string, email: string, walletAddress: string, publicKey: string -> Call<string>,
                              apiKey: string, newMerchantId: MerchantId, sign: MerchantId -> string, now: Time)
    | UpdateSettingsRequest(merchantId: MerchantId, settings: MC.Settings, now: Time)
    | RegenerateApiKeyRequest(merchantId: MerchantId, newKey: string, now: Time)

  /** Both collections. */
  datatype State = State(payments: map<PaymentId, Payment>, merchants: map<MerchantId, Merchant>)

  function Step(s: State, r: Request): State {
    match r
    case CreatePaymentRequest(merchantId, amount, inputToken, jupiter, newId, now) =>
      s.(payments := PC.Create(s.payments, s.merchants, merchantId, amount, inputToken, jupiter, newId, now).payments)
    case ProcessPaymentRequest(paymentId, signature, solana, jupiter, now) =>
      s.(payments := PC.Commit(s.payments, paymentId,
                               PC.Process(s.payments, s.merchants, paymentId, signature, solana, jupiter, now).writes))
    case RegisterMerchantRequest(name, email, walletAddress, publicKey, apiKey, newId, sign, now) =>
      s.(merchants := MC.Register(s.merchants, name, email, walletAddress, publicKey, apiKey, newId, sign, now).merchants)
    case UpdateSettingsRequest(merchantId, settings, now) =>
      s.(merchants := MC.Update(s.merchants, merchantId, settings, now).merchants)
    case RegenerateApiKeyRequest(merchantId, newKey, now) =>
      s.(merchants := MC.Regenerate(s.merchants, merchantId, newKey, now).merchants)
  }

  /** The state after the requests `rs`, one after the other. */
  function Run(s: State, rs: seq<Request>): State
    decreases |rs|
  {
    if rs == [] then s else Run(Step(s, rs[0]), rs[1..])
  }

  /**
   * What holds of a stored payment between requests: its required paths
   * and creation values, a status that is never `received` or
   * `converting` (those last only within one request), a signature
   * exactly when it has left `pending`, a swap record when settled and a
   * reason when failed.
   */
  ghost predicate AtRest(p: Payment) {
    && p.HasRequired()
    && p.outputToken == USDC_MINT
    && p.inputAmount == NumberToString(p.amount)
    && p.status != Received && p.status != Converting
    && (p.status == Pending <==> p.signature.None?)
    && (p.status == Pending ==> p.settlementTx.None? && p.error.None?)
    && (p.status == Settled ==> p.settlementTx.Some?)
    && (p.status == Failed ==> p.error.Some?)
  }

  /**
   * The invariant of the backend's collections: the merchant schema's
   * constraints, every payment at rest, and every payment owned by a
   * stored merchant whose wallet is the payment's address.
   */
  ghost predicate Invariant(s: State) {
    && ValidStore(s.merchants)
    && forall id | id in s.payments ::
      && AtRest(s.payments[id])
      && s.payments[id].merchantId in s.merchants
      && s.payments[id].paymentAddress == s.merchants[s.payments[id].merchantId].walletAddress
  }

  /** Nothing is removed, and what was fixed at creation stays fixed. */
  ghost predicate Grows(a: State, b: State) {
    && Preserves(a.merchants, b.merchants)
    && forall id | id in a.payments :: id in b.payments && SameCreation(a.payments[id], b.payments[id])
  }

  lemma EmptyInvariant()
    ensures Invariant(State(map[], map[]))
  {
  }

  /** A merchant request keeps the payments and changes no merchant a payment relies on. */
  lemma MerchantStepPreserves(s: State, merchants: map<MerchantId, Merchant>)
    requires Invariant(s)
    requires ValidStore(merchants) && Preserves(s.merchants, merchants)
    ensures Invariant(s.(merchants := merchants)) && Grows(s, s.(merchants := merchants))
  {
    forall id | id in s.payments
      ensures s.payments[id].merchantId in merchants
      ensures s.payments[id].paymentAddress == merchants[s.payments[id].merchantId].walletAddress
    {
      var m := s.payments[id].merchantId;
      assert m in s.merchants;
    }
  }

  /** Storing a payment at rest that belongs to a stored merchant's wallet keeps the invariant. */
  lemma StorePreserves(s: State, id: PaymentId, p: Payment)
    requires Invariant(s)
    requires AtRest(p) && p.merchantId in s.merchants && p.paymentAddress == s.merchants[p.merchantId].walletAddress
    requires id in s.payments ==> SameCreation(s.payments[id], p)
    ensures Invariant(s.(payments := s.payments[id := p])) && Grows(s, s.(payments := s.payments[id := p]))
  {
  }

  lemma CreateStepPreserves(
    s: State, merchantId: MerchantId, amount: int, inputToken: string, jupiter: Jupiter, newId: PaymentId, now: Time)
    requires Invariant(s)
    ensures var e := PC.Create(s.payments, s.merchants, merchantId, amount, inputToken, jupiter, newId, now);
      Invariant(s.(payments := e.payments)) && Grows(s, s.(payments := e.payments))
  {
    var e := PC.Create(s.payments, s.merchants, merchantId, amount, inputToken, jupiter, newId, now);
    if e.reply.code == 201 {
      var p := e.payments[newId];
      assert p.inputAmount == NumberToString(p.amount);
      assert AtRest(p);
      StorePreserves(s, newId, p);
      assert e.payments == s.payments[newId := p];
    }
  }

  lemma ProcessStepPreserves(
    s: State, paymentId: PaymentId, signature: string, solana: Solana, jupiter: Jupiter, now: Time)
    requires Invariant(s)
    ensures var r := PC.Process(s.payments, s.merchants, paymentId, signature, solana, jupiter, now);
      var after := s.(payments := PC.Commit(s.payments, paymentId, r.writes));
      Invariant(after) && Grows(s, after)
  {
    var r := PC.Process(s.payments, s.merchants, paymentId, signature, solana, jupiter, now);
    if r.writes != [] {
      var before := s.payments[paymentId];
      var last := PC.Last(r.writes);
      assert last in r.writes;
      assert SameCreation(before, last) && last.signature.Some? && last.HasRequired();
      assert AtRest(last);
      StorePreserves(s, paymentId, last);
    }
  }

  lemma StepPreserves(s: State, r: Request)
    requires Invariant(s)
    ensures Invariant(Step(s, r)) && Grows(s, Step(s, r))
  {
    match r
    case CreatePaymentRequest(merchantId, amount, inputToken, jupiter, newId, now) =>
      CreateStepPreserves(s, merchantId, amount, inputToken, jupiter, newId, now);
    case ProcessPaymentRequest(paymentId, signature, solana, jupiter, now) =>
      ProcessStepPreserves(s, paymentId, signature, solana, jupiter, now);
    case RegisterMerchantRequest(name, email, walletAddress, publicKey, apiKey, newId, sign, now) =>
      MerchantStepPreserves(s, MC.Register(s.merchants, name, email, walletAddress, publicKey, apiKey, newId, sign, now).merchants);
    case UpdateSettingsRequest(merchantId, settings, now) =>
      MerchantStepPreserves(s, MC.Update(s.merchants, merchantId, settings, now).merchants);
    case RegenerateApiKeyRequest(merchantId, newKey, now) =>
      MerchantStepPreserves(s, MC.Regenerate(s.merchants, merchantId, newKey, now).merchants);
  }

  lemma GrowsTransitive(a: State, b: State, c: State)
    requires Grows(a, b) && Grows(b, c)
    ensures Grows(a, c)
  {
  }

  /**
   * Every sequence of requests keeps the invariant, removes nothing, and
   * never changes what a payment or merchant was created with.
   */
  lemma {:induction false} RunPreserves(s: State, rs: seq<Request>)
    requires Invariant(s)
    ensures Invariant(Run(s, rs)) && Grows(s, Run(s, rs))
    decreases |rs|
  {
    if rs != [] {
      var next := Step(s, rs[0]);
      StepPreserves(s, rs[0]);
      RunPreserves(next, rs[1..]);
      GrowsTransitive(s, next, Run(next, rs[1..]));
    }
  }

  /**
   * Under the invariant, a payment that is processed always reaches
   * `converting`: its merchant is always found.
   */
  lemma ProcessingReachesConverting(
    s: State, paymentId: PaymentId, signature: string, solana: Solana, jupiter: Jupiter, now: Time)
    requires Invariant(s)
    requires PC.Process(s.payments, s.merchants, paymentId, signature, solana, jupiter, now).reply.code == 200
    ensures Statuses(PC.Process(s.payments, s.merchants, paymentId, signature, solana, jupiter, now).writes)[1] == Converting
  {
    ProcessStatusPaths(s.payments, s.merchants, paymentId, signature, solana, jupiter, now);
  }
}
