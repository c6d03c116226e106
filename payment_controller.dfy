/**
 * The payment controller: createPayment, processPayment and its helper
 * convertToUSDC, which take a payment from `pending` through `received`
 * and `converting` to `settled` or `failed`.
 *
 * Each operation is given twice: a function that says what the request
 * answers and which versions of the payment it saves, and a method that
 * performs the same steps on the collections, proved to agree with it.
 * The code checks no status before it moves a payment: processing a
 * settled or failed payment starts it over from `received`.
 */
module PaymentController {
  import opened Wrappers
  import opened Mongo
  import opened JsString
  import opened Services
  import opened MerchantModel
  import opened PaymentModel

  const SLIPPAGE_BPS: nat := 50
  const COMPUTE_UNIT_PRICE_MICRO_LAMPORTS: nat := 1000

  const MERCHANT_NOT_FOUND: string := "Merchant not found"
  const PAYMENT_NOT_FOUND: string := "Payment not found"
  const INVALID_TRANSACTION: string := "Invalid transaction"
  const CREATE_FAILED: string := "Failed to create payment"
  const PROCESS_FAILED: string := "Failed to process payment"

  datatype Body =
    | ErrorBody(error: string)
    | Created(id: PaymentId, amount: int, inputToken: string, paymentAddress: string, expectedOutputAmount: string)
    | Processed(status: string, id: PaymentId, payment: Payment)

  /** An HTTP status code and the JSON body sent with it. */
  datatype Reply = Reply(code: nat, body: Body)

  /** A request's reply and the payment collection it leaves behind. */
  datatype Effect = Effect(reply: Reply, payments: map<PaymentId, Payment>)

  /** A call convertToUSDC makes to Jupiter. */
  datatype ServiceCall = QuoteCall(quote: QuoteRequest) | SwapCall(swap: SwapRequest)

  /** What one conversion does: the versions of the payment it saves, in order, and its Jupiter calls. */
  datatype Conversion = Conversion(writes: seq<Payment>, calls: seq<ServiceCall>)

  /** What one processPayment request does: its reply, the versions it saves, and its Jupiter calls. */
  datatype Processing = Processing(reply: Reply, writes: seq<Payment>, calls: seq<ServiceCall>)

  function Last<T>(s: seq<T>): T
    requires |s| > 0
  {
    s[|s| - 1]
  }

  /** A quote from `inputMint` to USDC for an amount given as a string, with 0.5% slippage. */
  function UsdcQuote(amount: string, inputMint: string): QuoteRequest {
    QuoteRequest(amount, inputMint, USDC_MINT, SLIPPAGE_BPS)
  }

  /** The catch block of convertToUSDC applied to the in-memory payment. */
  function Fail(p: Payment, t: Thrown, now: Time): Payment {
    p.(status := Failed, error := Some(Message(t)), updatedAt := now)
  }

  // ---------------------------------------------------------------- createPayment

  /** The payment createPayment builds for a merchant's wallet and a quote. */
  function PaymentFor(merchantId: MerchantId, amount: int, inputToken: string, quote: QuoteResponse, wallet: string): Payment {
    NewPayment(PaymentFields(merchantId, amount, inputToken, NumberToString(amount), Some(USDC_MINT),
                             quote.outAmount, wallet, Some(Pending)))
  }

  /**
   * createPayment: an unknown merchant is refused with 404 and a thrown
   * quote with 500, both before anything is stored; otherwise a pending
   * payment is inserted under `newId` unless the save is refused (a
   * required path empty, or `newId` taken), which also answers 500.
   */
  function Create(
    payments: map<PaymentId, Payment>, merchants: map<MerchantId, Merchant>,
    merchantId: MerchantId, amount: int, inputToken: string,
    jupiter: Jupiter, newId: PaymentId, now: Time): (e: Effect)
    ensures e.reply.code == 201 || e.reply.code == 404 || e.reply.code == 500
    ensures merchantId !in merchants ==> e == Effect(Reply(404, ErrorBody(MERCHANT_NOT_FOUND)), payments)
    ensures e.reply.code != 201 ==> e.payments == payments
    ensures merchantId in merchants && e.reply.code != 201 ==> e.reply == Reply(500, ErrorBody(CREATE_FAILED))
    ensures e.reply.code == 201 <==>
      && merchantId in merchants
      && jupiter.quoteGet(UsdcQuote(NumberToString(amount), inputToken)).Returned?
      && newId !in payments
      && Present(merchantId) && Present(inputToken)
      && Present(jupiter.quoteGet(UsdcQuote(NumberToString(amount), inputToken)).value.outAmount)
      && Present(merchants[merchantId].walletAddress)
    ensures e.reply.code == 201 ==>
      && newId in e.payments && e.payments == payments[newId := e.payments[newId]]
      && var p := e.payments[newId];
      && p.merchantId == merchantId && p.amount == amount && p.inputToken == inputToken
      && p.status == Pending
      && p.paymentAddress == merchants[merchantId].walletAddress
      && p.outputToken == USDC_MINT
      && p.inputAmount == NumberToString(amount) && ParseInteger(p.inputAmount) == Some(amount)
      && p.outputAmount == jupiter.quoteGet(UsdcQuote(p.inputAmount, inputToken)).value.outAmount
      && p.signature.None? && p.settlementTx.None? && p.error.None?
      && p.createdAt == now && p.updatedAt == now
      && e.reply.body == Created(newId, amount, inputToken, p.paymentAddress, p.outputAmount)
  {
    if merchantId !in merchants then
      Effect(Reply(404, ErrorBody(MERCHANT_NOT_FOUND)), payments)
    else
      match jupiter.quoteGet(UsdcQuote(NumberToString(amount), inputToken))
      case Threw(_) => Effect(Reply(500, ErrorBody(CREATE_FAILED)), payments)
      case Returned(quote) =>
        var p := PaymentFor(merchantId, amount, inputToken, quote, merchants[merchantId].walletAddress);
        if newId !in payments && p.HasRequired() then
          var stored := p.(createdAt := now, updatedAt := now);
          Effect(Reply(201, Created(newId, stored.amount, stored.inputToken, stored.paymentAddress, stored.outputAmount)),
                 payments[newId := stored])
        else
          Effect(Reply(500, ErrorBody(CREATE_FAILED)), payments)
  }

  method CreatePayment(
    payments: PaymentCollection, merchants: MerchantCollection,
    merchantId: MerchantId, amount: int, inputToken: string,
    jupiter: Jupiter, newId: PaymentId, now: Time) returns (reply: Reply)
    requires payments.Valid()
    modifies payments
    ensures payments.Valid()
    ensures Effect(reply, payments.docs) == Create(old(payments.docs), merchants.docs, merchantId, amount, inputToken, jupiter, newId, now)
    ensures payments.log == if reply.code == 201 then old(payments.log) + [(newId, payments.docs[newId])] else old(payments.log)
  {
    if merchantId !in merchants.docs {
      return Reply(404, ErrorBody(MERCHANT_NOT_FOUND));
    }
    var merchant := merchants.docs[merchantId];
    var quoteResponse := jupiter.quoteGet(UsdcQuote(NumberToString(amount), inputToken));
    if quoteResponse.Threw? {
      return Reply(500, ErrorBody(CREATE_FAILED));
    }
    var payment := NewPayment(PaymentFields(merchantId, amount, inputToken, NumberToString(amount), Some(USDC_MINT),
                                            quoteResponse.value.outAmount, merchant.walletAddress, Some(Pending)));
    var ok;
    ok, payment := payments.Insert(newId, payment, now);
    if !ok {
      return Reply(500, ErrorBody(CREATE_FAILED));
    }
    reply := Reply(201, Created(newId, payment.amount, payment.inputToken, payment.paymentAddress, payment.outputAmount));
  }

  // ---------------------------------------------------------------- convertToUSDC

  /**
   * convertToUSDC on the in-memory payment `p`. A missing merchant fails
   * the payment at once; otherwise it is saved as `converting`, a FRESH
   * quote is asked for the stored `inputAmount` and `inputToken`, and the
   * swap sends the result to the merchant's wallet. Any exception fails
   * the payment with its message; nothing escapes.
   */
  function Convert(p: Payment, merchants: map<MerchantId, Merchant>, solana: Solana, jupiter: Jupiter, now: Time): (c: Conversion)
    ensures 1 <= |c.writes| <= 2
    ensures Last(c.writes).status == Settled || Last(c.writes).status == Failed
    ensures forall w | w in c.writes :: SameCreation(p, w) && w.signature == p.signature && w.updatedAt == now
    ensures p.merchantId !in merchants ==>
      c == Conversion([p.(status := Failed, error := Some(MERCHANT_NOT_FOUND), updatedAt := now)], [])
    ensures p.merchantId in merchants ==> |c.writes| == 2 && c.writes[0] == p.(status := Converting, updatedAt := now)
    ensures |c.calls| <= 2
    ensures (&& p.merchantId in merchants
             && jupiter.quoteGet(UsdcQuote(p.inputAmount, p.inputToken)).Returned?
             && solana.publicKey(merchants[p.merchantId].walletAddress).Returned?) ==>
      |c.calls| == 2
    ensures |c.calls| >= 1 ==> c.calls[0] == QuoteCall(UsdcQuote(p.inputAmount, p.inputToken))
    ensures |c.calls| == 2 ==> (
      && p.merchantId in merchants
      && var quote := jupiter.quoteGet(UsdcQuote(p.inputAmount, p.inputToken));
      && var key := solana.publicKey(merchants[p.merchantId].walletAddress);
      && quote.Returned? && key.Returned?
      && c.calls[1] == SwapCall(SwapRequest(quote.value, key.value, true, COMPUTE_UNIT_PRICE_MICRO_LAMPORTS)))
    ensures Last(c.writes).status == Settled <==>
      && p.merchantId in merchants
      && jupiter.quoteGet(UsdcQuote(p.inputAmount, p.inputToken)).Returned?
      && solana.publicKey(merchants[p.merchantId].walletAddress).Returned?
      && |c.calls| == 2
      && jupiter.swapInstructionsPost(c.calls[1].swap).Returned?
    ensures Last(c.writes).status == Settled ==>
      && Last(c.writes).settlementTx == Some(jupiter.swapInstructionsPost(c.calls[1].swap).value)
      && Last(c.writes).error == p.error
    ensures Last(c.writes).status == Failed ==>
      Last(c.writes).error.Some? && Last(c.writes).settlementTx == p.settlementTx
    // A failure keeps the message of what was thrown, call by call.
    ensures p.merchantId in merchants && jupiter.quoteGet(UsdcQuote(p.inputAmount, p.inputToken)).Threw? ==>
      var thrown := jupiter.quoteGet(UsdcQuote(p.inputAmount, p.inputToken)).thrown;
      c == Conversion([c.writes[0], c.writes[0].(status := Failed, error := Some(Message(thrown)))],
                      [QuoteCall(UsdcQuote(p.inputAmount, p.inputToken))])
    ensures (&& p.merchantId in merchants
             && jupiter.quoteGet(UsdcQuote(p.inputAmount, p.inputToken)).Returned?
             && solana.publicKey(merchants[p.merchantId].walletAddress).Threw?) ==>
      var thrown := solana.publicKey(merchants[p.merchantId].walletAddress).thrown;
      c == Conversion([c.writes[0], c.writes[0].(status := Failed, error := Some(Message(thrown)))],
                      [QuoteCall(UsdcQuote(p.inputAmount, p.inputToken))])
    ensures |c.calls| == 2 && jupiter.swapInstructionsPost(c.calls[1].swap).Threw? ==>
      var thrown := jupiter.swapInstructionsPost(c.calls[1].swap).thrown;
      c.writes == [c.writes[0], c.writes[0].(status := Failed, error := Some(Message(thrown)))]
  {
    if p.merchantId !in merchants then
      Conversion([Fail(p, ErrorObject(MERCHANT_NOT_FOUND), now)], [])
    else
      var merchant := merchants[p.merchantId];
      var converting := p.(status := Converting, updatedAt := now);
      var quoteRequest := UsdcQuote(converting.inputAmount, converting.inputToken);
      match jupiter.quoteGet(quoteRequest)
      case Threw(t) => Conversion([converting, Fail(converting, t, now)], [QuoteCall(quoteRequest)])
      case Returned(quote) =>
        match solana.publicKey(merchant.walletAddress)
        case Threw(t) => Conversion([converting, Fail(converting, t, now)], [QuoteCall(quoteRequest)])
        case Returned(key) =>
          var swapRequest := SwapRequest(quote, key, true, COMPUTE_UNIT_PRICE_MICRO_LAMPORTS);
          var calls := [QuoteCall(quoteRequest), SwapCall(swapRequest)];
          match jupiter.swapInstructionsPost(swapRequest)
          case Threw(t) => Conversion([converting, Fail(converting, t, now)], calls)
          case Returned(result) =>
            Conversion([converting, converting.(status := Settled, settlementTx := Some(result), updatedAt := now)], calls)
  }

  /** The entries the collection's log gains when `writes` are saved under `id`. */
  function Tagged(id: PaymentId, writes: seq<Payment>): (entries: seq<(PaymentId, Payment)>)
    ensures |entries| == |writes|
    ensures forall i | 0 <= i < |writes| :: entries[i] == (id, writes[i])
  {
    seq(|writes|, i requires 0 <= i < |writes| => (id, writes[i]))
  }

  method ConvertToUsdc(
    payments: PaymentCollection, merchants: MerchantCollection, id: PaymentId, payment: Payment,
    solana: Solana, jupiter: Jupiter, now: Time) returns (current: Payment)
    requires payments.Valid() && payment.HasRequired()
    modifies payments
    ensures payments.Valid()
    ensures var c := Convert(payment, merchants.docs, solana, jupiter, now);
      && current == Last(c.writes)
      && payments.docs == old(payments.docs)[id := current]
      && payments.log == old(payments.log) + Tagged(id, c.writes)
  {
    var ok;
    current := payment;
    if current.merchantId !in merchants.docs {
      current := Fail(current, ErrorObject(MERCHANT_NOT_FOUND), now);
      ok, current := payments.Save(id, current, now);
      return;
    }
    var merchant := merchants.docs[current.merchantId];
    current := current.(status := Converting);
    ok, current := payments.Save(id, current, now);
    ghost var converting := current;

    var quoteResponse := jupiter.quoteGet(UsdcQuote(current.inputAmount, current.inputToken));
    if quoteResponse.Threw? {
      ok, current := payments.Save(id, Fail(current, quoteResponse.thrown, now), now);
      return;
    }
    var userPublicKey := solana.publicKey(merchant.walletAddress);
    if userPublicKey.Threw? {
      ok, current := payments.Save(id, Fail(current, userPublicKey.thrown, now), now);
      return;
    }
    var swapResult := jupiter.swapInstructionsPost(
      SwapRequest(quoteResponse.value, userPublicKey.value, true, COMPUTE_UNIT_PRICE_MICRO_LAMPORTS));
    if swapResult.Threw? {
      ok, current := payments.Save(id, Fail(current, swapResult.thrown, now), now);
      return;
    }
    current := current.(status := Settled, settlementTx := Some(swapResult.value));
    ok, current := payments.Save(id, current, now);
    // The webhook notification branch is empty in the source.
  }

  // ---------------------------------------------------------------- processPayment

  /**
   * processPayment: an unknown payment is refused with 404 and a
   * signature that finds no transaction with 400, a throwing lookup with
   * 500, all before anything is saved. Otherwise the payment is saved as
   * `received` with the signature, WHATEVER its status was, and converted;
   * the answer is `success` whether the conversion settled or failed.
   */
  function Process(
    payments: map<PaymentId, Payment>, merchants: map<MerchantId, Merchant>,
    paymentId: PaymentId, signature: string, solana: Solana, jupiter: Jupiter, now: Time): (r: Processing)
    ensures r.reply.code == 200 || r.reply.code == 400 || r.reply.code == 404 || r.reply.code == 500
    ensures paymentId !in payments ==> r == Processing(Reply(404, ErrorBody(PAYMENT_NOT_FOUND)), [], [])
    ensures paymentId in payments && solana.getTransaction(signature) == Returned(false) ==>
      r == Processing(Reply(400, ErrorBody(INVALID_TRANSACTION)), [], [])
    ensures paymentId in payments && solana.getTransaction(signature).Threw? ==>
      r == Processing(Reply(500, ErrorBody(PROCESS_FAILED)), [], [])
    ensures paymentId in payments && solana.getTransaction(signature) == Returned(true) && r.reply.code != 200 ==>
      r == Processing(Reply(500, ErrorBody(PROCESS_FAILED)), [], [])
    ensures r.reply.code != 200 ==> r.writes == [] && r.calls == []
    ensures r.reply.code == 200 <==>
      paymentId in payments && solana.getTransaction(signature) == Returned(true) && payments[paymentId].HasRequired()
    ensures r.reply.code == 200 ==>
      && 2 <= |r.writes| <= 3
      && r.writes[0] == payments[paymentId].(status := Received, signature := Some(signature), updatedAt := now)
      && (Last(r.writes).status == Settled || Last(r.writes).status == Failed)
      && (Last(r.writes).status == Settled ==> Last(r.writes).settlementTx.Some?)
      && (Last(r.writes).status == Failed ==> Last(r.writes).error.Some?)
      && r.reply.body == Processed("success", paymentId, Last(r.writes))
      && (forall w | w in r.writes :: SameCreation(payments[paymentId], w) && w.signature == Some(signature) && w.HasRequired())
  {
    if paymentId !in payments then
      Processing(Reply(404, ErrorBody(PAYMENT_NOT_FOUND)), [], [])
    else
      match solana.getTransaction(signature)
      case Threw(_) => Processing(Reply(500, ErrorBody(PROCESS_FAILED)), [], [])
      case Returned(found) =>
        if !found then
          Processing(Reply(400, ErrorBody(INVALID_TRANSACTION)), [], [])
        else
          var received := payments[paymentId].(status := Received, signature := Some(signature));
          if !received.HasRequired() then
            Processing(Reply(500, ErrorBody(PROCESS_FAILED)), [], [])
          else
            var saved := received.(updatedAt := now);
            var c := Convert(saved, merchants, solana, jupiter, now);
            Processing(Reply(200, Processed("success", paymentId, Last(c.writes))), [saved] + c.writes, c.calls)
  }

  /**
   * A successful processPayment is the `received` save followed by exactly
   * what convertToUSDC does to that saved version.
   */
  lemma ProcessThenConverts(
    payments: map<PaymentId, Payment>, merchants: map<MerchantId, Merchant>,
    paymentId: PaymentId, signature: string, solana: Solana, jupiter: Jupiter, now: Time)
    requires Process(payments, merchants, paymentId, signature, solana, jupiter, now).reply.code == 200
    ensures var r := Process(payments, merchants, paymentId, signature, solana, jupiter, now);
      var c := Convert(r.writes[0], merchants, solana, jupiter, now);
      r.writes == [r.writes[0]] + c.writes && r.calls == c.calls
  {
  }

  /** The payment collection after a request saved `writes` under `id`. */
  function Commit(payments: map<PaymentId, Payment>, id: PaymentId, writes: seq<Payment>): map<PaymentId, Payment> {
    if writes == [] then payments else payments[id := Last(writes)]
  }

  method ProcessPayment(
    payments: PaymentCollection, merchants: MerchantCollection,
    paymentId: PaymentId, signature: string, solana: Solana, jupiter: Jupiter, now: Time) returns (reply: Reply)
    requires payments.Valid()
    modifies payments
    ensures payments.Valid()
    ensures var r := Process(old(payments.docs), merchants.docs, paymentId, signature, solana, jupiter, now);
      && reply == r.reply
      && payments.docs == Commit(old(payments.docs), paymentId, r.writes)
      && payments.log == old(payments.log) + Tagged(paymentId, r.writes)
  {
    if paymentId !in payments.docs {
      return Reply(404, ErrorBody(PAYMENT_NOT_FOUND));
    }
    var payment := payments.docs[paymentId];
    var transaction := solana.getTransaction(signature);
    if transaction.Threw? {
      return Reply(500, ErrorBody(PROCESS_FAILED));
    }
    if !transaction.value {
      return Reply(400, ErrorBody(INVALID_TRANSACTION));
    }
    payment := payment.(status := Received, signature := Some(signature));
    var ok;
    // Every stored payment has its required paths, so this save is accepted.
    ok, payment := payments.Save(paymentId, payment, now);
    ghost var saved := payment;
    ghost var logAfterReceived := payments.log;
    payment := ConvertToUsdc(payments, merchants, paymentId, payment, solana, jupiter, now);
    ghost var c := Convert(saved, merchants.docs, solana, jupiter, now);
    assert Tagged(paymentId, [saved] + c.writes) == [(paymentId, saved)] + Tagged(paymentId, c.writes);
    reply := Reply(200, Processed("success", paymentId, payment));
  }
}
