/**
 * The foreign services the payment controller awaits, reduced to what the
 * controller sees of them: a value, or a thrown exception. Each service is
 * a function supplied with the request, so it answers the same question
 * the same way within one request.
 */
module Services {
  import opened Wrappers

  /** What a `catch` clause receives: an `Error` with its message, or some other thrown value. */
  datatype Thrown = ErrorObject(message: string) | OtherValue

  /** An awaited call that either returned a value or threw. */
  datatype Call<+T> = Returned(value: T) | Threw(thrown: Thrown)

  const UNKNOWN_ERROR: string := "Unknown error occurred"

  /** The reason convertToUSDC records for a caught exception. */
  function Message(t: Thrown): (m: string)
    ensures t.ErrorObject? ==> m == t.message
    ensures t.OtherValue? ==> m == UNKNOWN_ERROR
  {
    match t
    case ErrorObject(msg) => msg
    case OtherValue => UNKNOWN_ERROR
  }

  /** The arguments of Jupiter's `quoteGet`. */
  datatype QuoteRequest = QuoteRequest(amount: string, inputMint: string, outputMint: string, slippageBps: nat)

  /** Jupiter's quote: the estimated output amount, and the route it was priced on (kept opaque). */
  datatype QuoteResponse = QuoteResponse(outAmount: string, route: string)

  /** The `swapRequest` given to Jupiter's `swapInstructionsPost`. */
  datatype SwapRequest = SwapRequest(
    quoteResponse: QuoteResponse,
    userPublicKey: string,
    wrapAndUnwrapSol: bool,
    computeUnitPriceMicroLamports: nat)

  /**
   * The Jupiter API client. The swap result is represented by its
   * `JSON.stringify` text, which is all the controller keeps of it.
   */
  datatype Jupiter = Jupiter(
    quoteGet: QuoteRequest -> Call<QuoteResponse>,
    swapInstructionsPost: SwapRequest -> Call<string>)

  /**
   * The Solana side: `getTransaction(signature)` answers whether a
   * transaction came back (`false` stands for `null`); `publicKey(s)` is
   * `new PublicKey(s).toBase58()`, which throws on an invalid address.
   */
  datatype Solana = Solana(
    getTransaction: string -> Call<bool>,
    publicKey: string -> Call<string>)
}
