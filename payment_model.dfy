/**
 * The Payment schema: the status enum, the record with its required and
 * optional paths and defaults, and the collection that validates a
 * document and stamps its timestamps when it is saved.
 */
module PaymentModel {
  import opened Wrappers
  import opened Mongo
  import opened MerchantModel

  type PaymentId = ObjectId

  /** The USDC mint address, the default and only settlement token. */
  const USDC_MINT: string := "EPjFWdd5AufqSSqeM2qN1xzybapC8G4wEGGkZwyTDt1v"

  datatype Status = Pending | Received | Converting | Settled | Failed

  /** The string stored for each status. */
  function StatusName(s: Status): string {
    match s
    case Pending => "pending"
    case Received => "received"
    case Converting => "converting"
    case Settled => "settled"
    case Failed => "failed"
  }

  /**
   * The enum validator on `status`: a stored string is accepted exactly
   * when it is the name of one of the five statuses.
   */
  function ParseStatus(name: string): (r: Option<Status>)
    ensures r.Some? ==> StatusName(r.value) == name
    ensures r.None? ==> forall s: Status :: StatusName(s) != name
  {
    if name == "pending" then Some(Pending)
    else if name == "received" then Some(Received)
    else if name == "converting" then Some(Converting)
    else if name == "settled" then Some(Settled)
    else if name == "failed" then Some(Failed)
    else None
  }

  lemma StatusNameRoundTrip(s: Status)
    ensures ParseStatus(StatusName(s)) == Some(s)
  {
  }

  datatype Payment = Payment(
    merchantId: MerchantId,
    amount: int,
    inputToken: string,
    inputAmount: string,
    outputToken: string,
    outputAmount: string,
    paymentAddress: string,
    signature: Option<string>,
    status: Status,
    settlementTx: Option<string>,
    error: Option<string>,
    createdAt: Time,
    updatedAt: Time)
  {
    /** Every required path is present (`amount` is a number, so always present here). */
    predicate HasRequired() {
      && Present(merchantId)
      && Present(inputToken)
      && Present(inputAmount)
      && Present(outputToken)
      && Present(outputAmount)
      && Present(paymentAddress)
    }
  }

  /** The paths given to `new Payment({...})`; `None` leaves the path to its default. */
  datatype PaymentFields = PaymentFields(
    merchantId: MerchantId,
    amount: int,
    inputToken: string,
    inputAmount: string,
    outputToken: Option<string>,
    outputAmount: string,
    paymentAddress: string,
    status: Option<Status>)

  /**
   * `new Payment(fields)`: defaults fill `outputToken` (the USDC mint) and
   * `status` (pending); `signature`, `settlementTx` and `error` start
   * absent; the timestamps are set by the first save.
   */
  function NewPayment(f: PaymentFields): (p: Payment)
    ensures && p.merchantId == f.merchantId && p.amount == f.amount && p.inputToken == f.inputToken
            && p.inputAmount == f.inputAmount && p.outputAmount == f.outputAmount && p.paymentAddress == f.paymentAddress
    ensures f.status.None? ==> p.status == Pending
    ensures f.status.Some? ==> p.status == f.status.value
    ensures f.outputToken.None? ==> p.outputToken == USDC_MINT
    ensures f.outputToken.Some? ==> p.outputToken == f.outputToken.value
    ensures p.signature.None? && p.settlementTx.None? && p.error.None?
    ensures p.HasRequired() <==>
      && Present(f.merchantId) && Present(f.inputToken) && Present(f.inputAmount)
      && Present(f.outputToken.GetOr(USDC_MINT)) && Present(f.outputAmount) && Present(f.paymentAddress)
  {
    Payment(f.merchantId, f.amount, f.inputToken, f.inputAmount, f.outputToken.GetOr(USDC_MINT),
            f.outputAmount, f.paymentAddress, None, f.status.GetOr(Pending), None, None, 0, 0)
  }

  /**
   * The paths fixed when a payment is created: what was asked for, what
   * was quoted, where the payer must send the funds, and when.
   */
  predicate SameCreation(a: Payment, b: Payment) {
    && a.merchantId == b.merchantId
    && a.amount == b.amount
    && a.inputToken == b.inputToken
    && a.inputAmount == b.inputAmount
    && a.outputToken == b.outputToken
    && a.outputAmount == b.outputAmount
    && a.paymentAddress == b.paymentAddress
    && a.createdAt == b.createdAt
  }

  /** The Payment model's collection: documents by `_id`, and every version ever written. */
  class PaymentCollection {
    var docs: map<PaymentId, Payment>
    /** Each successful save, in order: which document, and the version written. */
    ghost var log: seq<(PaymentId, Payment)>

    ghost predicate Valid()
      reads this
    {
      forall id | id in docs :: docs[id].HasRequired()
    }

    constructor ()
      ensures Valid() && docs == map[] && log == []
    {
      docs := map[];
      log := [];
    }

    /** `save()` on a new document: validation, the unique `_id` index, both timestamps. */
    method Insert(id: PaymentId, p: Payment, now: Time) returns (ok: bool, stored: Payment)
      requires Valid()
      modifies this
      ensures Valid()
      ensures stored == p.(createdAt := now, updatedAt := now)
      ensures ok <==> id !in old(docs) && p.HasRequired()
      ensures docs == if ok then old(docs)[id := stored] else old(docs)
      ensures log == if ok then old(log) + [(id, stored)] else old(log)
    {
      stored := p.(createdAt := now, updatedAt := now);
      ok := id !in docs && p.HasRequired();
      if ok {
        docs := docs[id := stored];
        log := log + [(id, stored)];
      }
    }

    /** `save()` on a loaded document: validation, and `updatedAt` set to `now`. */
    method Save(id: PaymentId, p: Payment, now: Time) returns (ok: bool, stored: Payment)
      requires Valid()
      modifies this
      ensures Valid()
      ensures stored == p.(updatedAt := now)
      ensures ok <==> p.HasRequired()
      ensures docs == if ok then old(docs)[id := stored] else old(docs)
      ensures log == if ok then old(log) + [(id, stored)] else old(log)
    {
      stored := p.(updatedAt := now);
      ok := p.HasRequired();
      if ok {
        docs := docs[id := stored];
        log := log + [(id, stored)];
      }
    }
  }
}
